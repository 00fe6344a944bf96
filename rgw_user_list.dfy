/**
  The dashboard's RGW user list (`RgwUserListComponent`): the table of
  Object Gateway users with their quota usage, the flag that marks the list
  as stale ten seconds after the last fetch was started, the add / edit /
  delete table actions, and the confirmation dialog that deletes the
  selected users.

  The backend (`RgwUserService`), the table and the fetch context are the
  small classes below; what the backend answers is passed in. The browser
  timer is a token: arming it issues a new token, and only the token still
  pending can fire.
 */
module RgwUserList {
  import opened Wrappers
  import opened JsonValues

  // ---------------------------------------------------------------------
  // Users and their usage
  // ---------------------------------------------------------------------

  /** One entry of a user's `usage` list (one bucket's usage). */
  datatype BucketUsage = BucketUsage(sizeActual: int, numObjects: int)

  /** `user_quota`: a limit is in force only when it is positive. */
  datatype Quota = Quota(maxSize: int, maxObjects: int)

  /**
    A user record as the backend lists it. `details` holds every field the
    component only displays (`display_name`, `email`, `suspended`,
    `max_buckets`, ...). The last four fields are the ones the component
    derives; `None` is JavaScript's `undefined`.
   */
  datatype User = User(
    uid: string,
    usage: seq<BucketUsage>,
    quota: Quota,
    details: map<string, Json>,
    userSize: Option<int>,
    numObjects: Option<int>,
    sizeUsage: Option<real>,
    objectUsage: Option<real>)

  /** The sum of a list of numbers. */
  function Sum(xs: seq<int>): (r: int)
    ensures (forall i :: 0 <= i < |xs| ==> xs[i] >= 0) ==> r >= 0
  {
    if |xs| == 0 then 0 else Sum(xs[..|xs| - 1]) + xs[|xs| - 1]
  }

  /** Summing a list in two parts gives the sum of the whole. */
  lemma {:induction false} SumAppend(a: seq<int>, b: seq<int>)
    ensures Sum(a + b) == Sum(a) + Sum(b)
    decreases |b|
  {
    if |b| == 0 {
      assert a + b == a;
    } else {
      var b' := b[..|b| - 1];
      assert (a + b)[..|a + b| - 1] == a + b';
      SumAppend(a, b');
    }
  }

  /** The `size_actual` of each bucket. */
  function Sizes(usage: seq<BucketUsage>): seq<int>
  {
    seq(|usage|, i requires 0 <= i < |usage| => usage[i].sizeActual)
  }

  /** The `num_objects` of each bucket. */
  function ObjectCounts(usage: seq<BucketUsage>): seq<int>
  {
    seq(|usage|, i requires 0 <= i < |usage| => usage[i].numObjects)
  }

  /** A usage ratio: defined only when the limit is positive. */
  function Ratio(used: int, limit: int): (r: Option<real>)
    ensures r.Some? <==> limit > 0
    ensures r.Some? ==> r.value * (limit as real) == used as real
  {
    if limit > 0 then Some(used as real / limit as real) else None
  }

  /** `u` and `t` agree on every field the component does not derive. */
  predicate SameListedFields(u: User, t: User)
  {
    t.uid == u.uid && t.usage == u.usage && t.quota == u.quota && t.details == u.details
  }

  /** One user after `transformUserData`. */
  function Transformed(u: User): (t: User)
    ensures SameListedFields(u, t)
    ensures t.userSize == Some(Sum(Sizes(u.usage))) && t.numObjects == Some(Sum(ObjectCounts(u.usage)))
    ensures t.userSize.Some? && t.numObjects.Some?
    ensures u.usage == [] ==> t.userSize.value == 0 && t.numObjects.value == 0
    ensures t.sizeUsage.Some? <==> u.quota.maxSize > 0
    ensures t.sizeUsage.Some? ==> t.sizeUsage.value * (u.quota.maxSize as real) == t.userSize.value as real
    ensures t.objectUsage.Some? <==> u.quota.maxObjects > 0
    ensures t.objectUsage.Some? ==> t.objectUsage.value * (u.quota.maxObjects as real) == t.numObjects.value as real
  {
    var totalSize := Sum(Sizes(u.usage));
    var numOfObjects := Sum(ObjectCounts(u.usage));
    u.(userSize := Some(totalSize), numObjects := Some(numOfObjects),
       sizeUsage := Ratio(totalSize, u.quota.maxSize),
       objectUsage := Ratio(numOfObjects, u.quota.maxObjects))
  }

  /**
    The derived totals are additive: a user whose buckets are those of two
    lists has the sums of both.
   */
  lemma TotalsAreAdditive(u: User, a: seq<BucketUsage>, b: seq<BucketUsage>)
    requires u.usage == a + b
    ensures Transformed(u).userSize.value == Sum(Sizes(a)) + Sum(Sizes(b))
    ensures Transformed(u).numObjects.value == Sum(ObjectCounts(a)) + Sum(ObjectCounts(b))
  {
    assert Sizes(a + b) == Sizes(a) + Sizes(b);
    assert ObjectCounts(a + b) == ObjectCounts(a) + ObjectCounts(b);
    SumAppend(Sizes(a), Sizes(b));
    SumAppend(ObjectCounts(a), ObjectCounts(b));
  }

  /** Transforming is idempotent: the derived fields depend only on the listed ones. */
  lemma TransformIsIdempotent(u: User)
    ensures Transformed(Transformed(u)) == Transformed(u)
  {
  }

  /** The inner loop of `transformUserData`: both totals of one usage list. */
  method SumUsage(usage: seq<BucketUsage>) returns (totalSize: int, numOfObjects: int)
    ensures totalSize == Sum(Sizes(usage))
    ensures numOfObjects == Sum(ObjectCounts(usage))
  {
    totalSize, numOfObjects := 0, 0;
    var i := 0;
    while i < |usage|
      invariant 0 <= i <= |usage|
      invariant totalSize == Sum(Sizes(usage)[..i])
      invariant numOfObjects == Sum(ObjectCounts(usage)[..i])
    {
      assert Sizes(usage)[..i + 1][..i] == Sizes(usage)[..i];
      assert ObjectCounts(usage)[..i + 1][..i] == ObjectCounts(usage)[..i];
      totalSize := totalSize + usage[i].sizeActual;
      numOfObjects := numOfObjects + usage[i].numObjects;
      i := i + 1;
    }
    assert Sizes(usage)[..i] == Sizes(usage);
    assert ObjectCounts(usage)[..i] == ObjectCounts(usage);
  }

  // ---------------------------------------------------------------------
  // The staleness flag
  // ---------------------------------------------------------------------

  /**
    The component's staleness state: `isStale`, the pending timer (the token
    `staleTimeout` names, if it has not fired) and how many timers were armed.
   */
  datatype Staleness = Staleness(isStale: bool, pending: Option<nat>, armed: nat)

  /** What can happen to the component, as far as staleness goes. */
  datatype Event =
    | FetchStart          // getUserList
    | TimerFire(token: nat)
    | FetchOk             // the list request answered
    | FetchErr            // the list request failed

  /** Only the most recently armed timer can be pending. */
  predicate PendingIsLatest(s: Staleness)
  {
    s.pending.Some? ==> s.pending.value + 1 == s.armed
  }

  /** `timeConditionReached`: cancel the pending timer and arm a new one. */
  function Arm(s: Staleness): (s': Staleness)
    ensures s'.isStale == s.isStale
    ensures s'.pending == Some(s.armed) && s'.armed == s.armed + 1
    ensures PendingIsLatest(s')
  {
    Staleness(s.isStale, Some(s.armed), s.armed + 1)
  }

  /** The effect of one event on the staleness state. */
  function Step(s: Staleness, e: Event): (s': Staleness)
    ensures PendingIsLatest(s) ==> PendingIsLatest(s')
    ensures e == FetchStart ==> !s'.isStale && s'.pending == Some(s.armed)
    ensures s'.isStale && !s.isStale ==> s.pending.Some? && e == TimerFire(s.pending.value)
    ensures e.FetchOk? || e.FetchErr? ==> s' == s
  {
    match e
    case FetchStart => Arm(s.(isStale := false))
    case TimerFire(t) => if s.pending == Some(t) then Staleness(true, None, s.armed) else s
    case FetchOk => s
    case FetchErr => s
  }

  /** The state after a sequence of events. */
  function Run(s: Staleness, es: seq<Event>): Staleness
  {
    if |es| == 0 then s else Step(Run(s, es[..|es| - 1]), es[|es| - 1])
  }

  lemma {:induction false} RunAppend(s: Staleness, a: seq<Event>, b: seq<Event>)
    ensures Run(s, a + b) == Run(Run(s, a), b)
    decreases |b|
  {
    if |b| == 0 {
      assert a + b == a;
    } else {
      var b' := b[..|b| - 1];
      assert (a + b)[..|a + b| - 1] == a + b';
      RunAppend(s, a, b');
    }
  }

  /**
    With no fetch started, only the pending timer matters: the state is
    untouched until it fires, and stale with nothing pending afterwards.
   */
  lemma {:induction false} QuietRun(s: Staleness, es: seq<Event>)
    requires s.pending.Some? && !s.isStale
    requires FetchStart !in es
    ensures Run(s, es) ==
      if TimerFire(s.pending.value) in es then Staleness(true, None, s.armed) else s
    decreases |es|
  {
    if |es| > 0 {
      var es' := es[..|es| - 1];
      assert es == es' + [es[|es| - 1]];
      QuietRun(s, es');
    }
  }

  /**
    After the last fetch start, the list is stale exactly when the timer
    that start armed has fired; timers armed before it never mark it.
   */
  lemma LastFetchStartDecides(s: Staleness, before: seq<Event>, after: seq<Event>)
    requires FetchStart !in after
    ensures Run(s, before + [FetchStart] + after).isStale
      <==> TimerFire(Run(s, before).armed) in after
  {
    RunAppend(s, before + [FetchStart], after);
    assert (before + [FetchStart])[..|before|] == before;
    QuietRun(Run(s, before + [FetchStart]), after);
  }

  /**
    A finished request changes nothing here: a successful fetch neither
    cancels the timer nor clears the flag.
   */
  lemma AnswersKeepStaleness(s: Staleness, es: seq<Event>)
    requires forall i :: 0 <= i < |es| ==> es[i].FetchOk? || es[i].FetchErr?
    ensures Run(s, es) == s
  {
    if |es| > 0 {
      AnswersKeepStaleness(s, es[..|es| - 1]);
    }
  }

  // ---------------------------------------------------------------------
  // Selection, table actions and the delete dialog
  // ---------------------------------------------------------------------

  /** The three table actions, in the order the table shows them. */
  datatype ActionKind = Add | Edit | Delete

  datatype TableAction = TableAction(kind: ActionKind, permission: string)

  function TableActions(): (r: seq<TableAction>)
    ensures |r| == 3
    ensures r[0].kind == Add && r[1].kind == Edit && r[2].kind == Delete
    ensures forall i, j :: 0 <= i < j < |r| ==> r[i].kind != r[j].kind
  {
    [TableAction(Add, "create"), TableAction(Edit, "update"), TableAction(Delete, "delete")]
  }

  /** `canBePrimary` of an action, `None` where the action does not define one. */
  function CanBePrimary(k: ActionKind, selected: seq<User>): (r: Option<bool>)
    ensures r.Some? <==> k != Edit
    ensures k == Add ==> (r.value <==> |selected| == 0)
    ensures k == Delete ==> (r.value <==> |selected| > 1)
  {
    match k
    case Add => Some(|selected| == 0)
    case Edit => None
    case Delete => Some(|selected| > 1)
  }

  /** `disable` of an action, `None` where the action does not define one. */
  function Disable(k: ActionKind, selected: seq<User>): (r: Option<bool>)
    ensures r.Some? <==> k == Delete
    ensures k == Delete ==> (r.value <==> |selected| == 0)
  {
    if k == Delete then Some(|selected| == 0) else None
  }

  /** Add and delete never both claim to be primary; with one row selected neither does. */
  lemma AtMostOnePrimary(selected: seq<User>)
    ensures !(CanBePrimary(Add, selected) == Some(true) && CanBePrimary(Delete, selected) == Some(true))
    ensures |selected| == 1 ==> forall k :: CanBePrimary(k, selected) != Some(true)
  {
  }

  /** The uids of the selected users, in selection order. */
  function Uids(selected: seq<User>): seq<string>
  {
    seq(|selected|, i requires 0 <= i < |selected| => selected[i].uid)
  }

  /** What the confirmation dialog of the delete action shows. */
  datatype DeleteDialog = DeleteDialog(itemDescription: string, itemNames: seq<string>)

  function DeleteDialogFor(selected: seq<User>): (d: DeleteDialog)
    ensures |d.itemNames| == |selected|
    ensures forall i :: 0 <= i < |selected| ==> d.itemNames[i] == selected[i].uid
    ensures d.itemDescription == "user" <==> |selected| == 1
    ensures d.itemDescription != "user" ==> d.itemDescription == "users"
  {
    DeleteDialog(if |selected| == 1 then "user" else "users", Uids(selected))
  }

  /** How the dialog's submit observable ends. */
  datatype DeleteOutcome = Completed | Failed

  // ---------------------------------------------------------------------
  // Collaborators
  // ---------------------------------------------------------------------

  /** The RGW user API: the requests the component has issued so far. */
  class RgwUserService {
    var listRequests: nat
    var deleted: seq<string>

    constructor()
      ensures listRequests == 0 && deleted == []
    {
      listRequests := 0;
      deleted := [];
    }

    method List()
      modifies this
      ensures listRequests == old(listRequests) + 1 && deleted == old(deleted)
    {
      listRequests := listRequests + 1;
    }

    method Delete(uid: string)
      modifies this
      ensures deleted == old(deleted) + [uid] && listRequests == old(listRequests)
    {
      deleted := deleted + [uid];
    }
  }

  /** The data table: how often it was told to reload. */
  class Table {
    var refreshes: nat

    constructor()
      ensures refreshes == 0
    {
      refreshes := 0;
    }

    method RefreshBtn()
      modifies this
      ensures refreshes == old(refreshes) + 1
    {
      refreshes := refreshes + 1;
    }
  }

  /** The table's fetch context: how often it was told that a fetch failed. */
  class FetchDataContext {
    var errors: nat

    constructor()
      ensures errors == 0
    {
      errors := 0;
    }

    method Error()
      modifies this
      ensures errors == old(errors) + 1
    {
      errors := errors + 1;
    }
  }

  // ---------------------------------------------------------------------
  // The component
  // ---------------------------------------------------------------------

  class RgwUserListComponent {
    const service: RgwUserService
    const table: Table
    const tableActions: seq<TableAction>
    var users: seq<User>
    var selection: seq<User>
    var isStale: bool
    /** The pending timer's token, if one is armed and has not fired. */
    var staleTimeout: Option<nat>
    var timersArmed: nat

    function StaleView(): Staleness
      reads this
    {
      Staleness(isStale, staleTimeout, timersArmed)
    }

    constructor(service: RgwUserService, table: Table)
      ensures this.service == service && this.table == table
      ensures tableActions == TableActions()
      ensures users == [] && selection == []
      ensures StaleView() == Arm(Staleness(false, None, 0))
    {
      this.service := service;
      this.table := table;
      tableActions := TableActions();
      users := [];
      selection := [];
      isStale := false;
      staleTimeout := None;
      timersArmed := 0;
      new;
      TimeConditionReached();
    }

    /** Users after `transformUserData`, record by record. */
    method TransformUserData()
      modifies this
      ensures |users| == |old(users)|
      ensures forall i :: 0 <= i < |users| ==> users[i] == Transformed(old(users)[i])
      ensures selection == old(selection) && StaleView() == old(StaleView())
    {
      var i := 0;
      while i < |users|
        invariant 0 <= i <= |users| == |old(users)|
        invariant forall j :: 0 <= j < i ==> users[j] == Transformed(old(users)[j])
        invariant forall j :: i <= j < |users| ==> users[j] == old(users)[j]
        invariant selection == old(selection) && StaleView() == old(StaleView())
      {
        var u := users[i];
        var totalSize, numOfObjects := SumUsage(u.usage);
        users := users[i := u.(userSize := Some(totalSize), numObjects := Some(numOfObjects),
                                sizeUsage := Ratio(totalSize, u.quota.maxSize),
                                objectUsage := Ratio(numOfObjects, u.quota.maxObjects))];
        i := i + 1;
      }
    }

    method TimeConditionReached()
      modifies this
      ensures StaleView() == Arm(old(StaleView()))
      ensures users == old(users) && selection == old(selection)
    {
      staleTimeout := Some(timersArmed);
      timersArmed := timersArmed + 1;
    }

    /** The armed timer `token` goes off; a cancelled one does nothing. */
    method TimerFired(token: nat)
      modifies this
      ensures StaleView() == Step(old(StaleView()), TimerFire(token))
      ensures users == old(users) && selection == old(selection)
    {
      if staleTimeout == Some(token) {
        isStale := true;
        staleTimeout := None;
      }
    }

    /** `getUserList`: up to sending the list request. */
    method GetUserList()
      modifies this, service
      ensures StaleView() == Step(old(StaleView()), FetchStart)
      ensures users == old(users) && selection == old(selection)
      ensures service.listRequests == old(service.listRequests) + 1
      ensures service.deleted == old(service.deleted)
    {
      isStale := false;
      TimeConditionReached();
      service.List();
    }

    /** The list request answered `resp`. */
    method ListSucceeded(resp: seq<User>)
      modifies this
      ensures |users| == |resp|
      ensures forall i :: 0 <= i < |resp| ==> users[i] == Transformed(resp[i])
      ensures selection == old(selection) && StaleView() == Step(old(StaleView()), FetchOk)
    {
      users := resp;
      TransformUserData();
    }

    /** The list request failed: the users stay as they were. */
    method ListFailed(context: FetchDataContext)
      modifies context
      ensures context.errors == old(context.errors) + 1
    {
      context.Error();
    }

    method UpdateSelection(selected: seq<User>)
      modifies this
      ensures selection == selected
      ensures users == old(users) && StaleView() == old(StaleView())
    {
      selection := selected;
    }

    /** `deleteAction`: the dialog it opens. */
    method DeleteAction() returns (dialog: DeleteDialog)
      ensures dialog == DeleteDialogFor(selection)
      ensures dialog.itemNames == Uids(selection)
    {
      dialog := DeleteDialogFor(selection);
    }

    /**
      The dialog's submit: one delete request per selected user, in order,
      then exactly one table reload, whether the requests failed or not.
      `answers[i]` is whether the backend accepted the `i`-th request.
     */
    method SubmitDelete(answers: seq<bool>) returns (outcome: DeleteOutcome)
      requires |answers| == |selection|
      modifies service, table
      ensures service.deleted == old(service.deleted) + Uids(selection)
      ensures service.listRequests == old(service.listRequests)
      ensures table.refreshes == old(table.refreshes) + 1
      ensures outcome == Failed <==> false in answers
    {
      var i := 0;
      outcome := Completed;
      while i < |selection|
        invariant 0 <= i <= |selection|
        invariant service.deleted == old(service.deleted) + Uids(selection)[..i]
        invariant service.listRequests == old(service.listRequests)
        invariant table.refreshes == old(table.refreshes)
        invariant outcome == Failed <==> false in answers[..i]
      {
        assert Uids(selection)[..i + 1] == Uids(selection)[..i] + [selection[i].uid];
        assert answers[..i + 1] == answers[..i] + [answers[i]];
        service.Delete(selection[i].uid);
        if !answers[i] {
          outcome := Failed;
        }
        i := i + 1;
      }
      assert Uids(selection)[..i] == Uids(selection);
      assert answers[..i] == answers;
      table.RefreshBtn();
    }
  }
}
