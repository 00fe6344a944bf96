# Ceph dashboard: health summary and RGW user list

This project models two small pieces of logic from the Ceph manager dashboard and proves properties of them.

**The `/health` controller.** `HealthData` and `Health` live in `src/pybind/mgr/dashboard/controllers/health.py`; the model is in `health.dfy`.
- The reply always has `health`.
- Every other section is present exactly when the caller holds READ on that section's permission scope. OSD grants `osd_map`, `scrub_status` and `pg_info`; POOL grants `pools`, `df` and `client_perf`.
- `basic_health` turns the `checks` dictionary into a list. Each check is tagged with its key as `type`, each appears once, and the list is sorted by `severity`.
- Each section comes in two modes. "Full" is the manager's data with a few fields dropped; the full `osd_map` also gains four sections (`tree`, `crush`, `crush_map_text`, `osd_metadata`). "Minimal" cuts it down: it keeps a few keys, and it replaces some lists with lists of the same length made of empty records.
- What the manager module returns is passed in as the `MgrInputs` record. The permission callback is asked about the requesting user on every call, so each `AllHealth`, `Full` and `Minimal` call takes the set of scopes that user may READ; one `Health` controller serves every caller.

**The RGW user list.** `RgwUserListComponent` lives in `rgw-user-list.component.ts`; the model is in `rgw_user_list.dfy`.
- The component sums each user's bucket usage. It derives the usage ratios only when the quota limit is positive.
- It keeps a staleness flag that a timer sets 10 s after the most recent fetch started. The browser timer is modelled as a token. Arming a timer replaces the pending one, and only the pending token can fire.
- A successful fetch neither cancels the timer nor clears the flag.
- It offers the add, edit and delete table actions.
- The delete dialog names the selected users and sends one delete request per user, in selection order. It then reloads the table exactly once, whether or not a request failed.
- The backend, the data table and the fetch context are small classes that record the calls they receive. Backend answers are passed in.

The other files:
- `json_values.dfy`: JSON values and the dictionary helpers the controllers use.
- `str_order.dfy`: Python's string order, which the severity sort uses.
- `wrappers.dfy`: `Option`.

## Model

| member | source | states |
|---|---|---|
| Health.SectionNamesDistinct | src/pybind/mgr/dashboard/controllers/health.py:29-59 | distinct sections are stored under distinct keys of the reply |
| Health.AllHealthReplyKeys | src/pybind/mgr/dashboard/controllers/health.py:28-61 | the reply's dictionary keys are exactly `health` plus the names of the sections whose scopes grant READ; a section's name is a key iff its scope grants READ |
| Health.ScopeKeysAreOwnedSections | src/pybind/mgr/dashboard/controllers/health.py:33-59 | a scope adds exactly the sections it owns; no scope adds `health` |
| Health.GrantAddsExactlyItsSections | src/pybind/mgr/dashboard/controllers/health.py:33-59 | granting READ on one more scope removes no section and adds exactly that scope's sections |
| Health.AllHealthKeys | src/pybind/mgr/dashboard/controllers/health.py:28-61 | a section is in the reply iff it is `health` or its scope grants READ |
| Health.HealthData.AllHealth | src/pybind/mgr/dashboard/controllers/health.py:28-61 | for the permissions of the user making this request: each granted section equals its section function on the manager's data; each section not granted is absent |
| Health.HealthData.constructor | src/pybind/mgr/dashboard/controllers/health.py:24-26 | the collector keeps its mode; permissions are asked per request |
| Health.HealthData.BasicHealth | src/pybind/mgr/dashboard/controllers/health.py:63-76 | `checks` becomes a list: one tagged entry per check (as a multiset), sorted by severity; every other member is unchanged |
| Health.TaggedCheckList | src/pybind/mgr/dashboard/controllers/health.py:69-72 | the loop yields each check once, tagged with its key (as a multiset) |
| Health.TaggingOneMoreCheck | src/pybind/mgr/dashboard/controllers/health.py:70-72 | tagging under one more key adds one new, distinct element |
| Health.SortedTaggedChecksAreBasicHealth | src/pybind/mgr/dashboard/controllers/health.py:74-76 | sorting the tagged list and storing it under `checks` meets the `basic_health` contract |
| Health.TaggedCheckCarriesItsKey | src/pybind/mgr/dashboard/controllers/health.py:70-72 | every entry's `type` names a key of the dictionary, and the entry is that key's check, tagged |
| Health.BasicHealthEntries | src/pybind/mgr/dashboard/controllers/health.py:69-75 | every entry of the returned list is a check whose `type` is a key of the `checks` dictionary and whose severity is that check's severity |
| Health.SortBySeverity | src/pybind/mgr/dashboard/controllers/health.py:74 | the result is a permutation of the input and non-decreasing by severity in Python's string order |
| Health.InsertBySeverity | src/pybind/mgr/dashboard/controllers/health.py:74 | inserting into a sorted list keeps it sorted and adds exactly one element |
| Health.InsertFrontKeepsOrder | src/pybind/mgr/dashboard/controllers/health.py:74 | an element of strictly smaller severity may go in front of a sorted list |
| Health.InsertBehindKeepsOrder | src/pybind/mgr/dashboard/controllers/health.py:74 | the head of a sorted list may stay in front when the rest is re-sorted |
| Health.HealthData.Df | src/pybind/mgr/dashboard/controllers/health.py:89-100 | drops `stats_by_class`; minimal is `{stats}` holding only the three totals it had; full keeps every other member |
| Health.HealthData.FsMap | src/pybind/mgr/dashboard/controllers/health.py:102-115 | minimal keeps `filesystems` and `standbys`; the standbys become as many empty records; each file system becomes `{mdsmap: {info}}` with every daemon kept and reduced to `state`; full passes through |
| Health.MinimalMdsInfo | src/pybind/mgr/dashboard/controllers/health.py:110-114 | keeps every daemon name and reduces each entry to `state` |
| Health.ReducedFilesystemIsMinimal | src/pybind/mgr/dashboard/controllers/health.py:107-114 | one rewritten file system has the minimal shape and the same daemons |
| Health.HealthData.MgrMap | src/pybind/mgr/dashboard/controllers/health.py:124-129 | minimal keeps `active_name` (unchanged) and `standbys` as as many empty records; full passes through |
| Health.HealthData.MonStatus | src/pybind/mgr/dashboard/controllers/health.py:131-140 | minimal keeps `quorum` (unchanged) and a `monmap` holding only `mons` as as many empty records; full passes through |
| Health.HealthData.OsdMap | src/pybind/mgr/dashboard/controllers/health.py:142-158 | drops `pg_temp`; minimal is `{osds}` with the same count, each reduced to `in`/`up`; full keeps every other member and adds the four extra sections |
| Health.Pools | src/pybind/mgr/dashboard/controllers/health.py:163-167 | same length; minimal is all empty records; full passes through |
| Health.ClientPerf | src/pybind/mgr/dashboard/controllers/health.py:78-87 | minimal keeps exactly the five rate counters that are present; full passes through; no value changes |
| Health.IscsiDaemons | src/pybind/mgr/dashboard/controllers/health.py:120-122 | the length of the gateways value; 0 exactly when the value is false in Python's sense |
| Health.Health.constructor | src/pybind/mgr/dashboard/controllers/health.py:178-181 | one full and one minimal collector, built once for all callers |
| Health.Health.Full | src/pybind/mgr/dashboard/controllers/health.py:183-185 | the full endpoint answers `all_health` with minimal off, for the requesting user's permissions |
| Health.Health.Minimal | src/pybind/mgr/dashboard/controllers/health.py:187-189 | the minimal endpoint answers `all_health` with minimal on, for the requesting user's permissions |
| RgwUserList.Sum | src/pybind/mgr/dashboard/frontend/src/app/ceph/rgw/rgw-user-list/rgw-user-list.component.ts:144-149 | a sum of non-negative numbers is non-negative |
| RgwUserList.SumAppend | src/pybind/mgr/dashboard/frontend/src/app/ceph/rgw/rgw-user-list/rgw-user-list.component.ts:144-149 | the sum over two concatenated lists is the sum of the two sums |
| RgwUserList.SumUsage | src/pybind/mgr/dashboard/frontend/src/app/ceph/rgw/rgw-user-list/rgw-user-list.component.ts:144-149 | the accumulators end as the sums of `size_actual` and of `num_objects` over the usage list |
| RgwUserList.Ratio | src/pybind/mgr/dashboard/frontend/src/app/ceph/rgw/rgw-user-list/rgw-user-list.component.ts:152-153 | a ratio is defined iff its limit is positive, and then the ratio times the limit is the amount used |
| RgwUserList.Transformed | src/pybind/mgr/dashboard/frontend/src/app/ceph/rgw/rgw-user-list/rgw-user-list.component.ts:141-153 | only the four derived fields change; `user_size` and `num_objects` are the sums of `size_actual` and `num_objects` over the usage list, 0 and 0 for an empty one; `size_usage`/`object_usage` are undefined iff the limit is not positive, and otherwise are the total divided by the limit |
| RgwUserList.TotalsAreAdditive | src/pybind/mgr/dashboard/frontend/src/app/ceph/rgw/rgw-user-list/rgw-user-list.component.ts:144-151 | `user_size` and `num_objects` of a usage list split in two are the sums over the parts |
| RgwUserList.TransformIsIdempotent | src/pybind/mgr/dashboard/frontend/src/app/ceph/rgw/rgw-user-list/rgw-user-list.component.ts:139-155 | transforming a transformed user changes nothing |
| RgwUserList.RgwUserListComponent.TransformUserData | src/pybind/mgr/dashboard/frontend/src/app/ceph/rgw/rgw-user-list/rgw-user-list.component.ts:139-155 | the same number of users in the same order, each transformed; selection and staleness unchanged |
| RgwUserList.Arm | src/pybind/mgr/dashboard/frontend/src/app/ceph/rgw/rgw-user-list/rgw-user-list.component.ts:157-166 | the new timer is the only pending one and carries a fresh token; the flag is unchanged |
| RgwUserList.Step | src/pybind/mgr/dashboard/frontend/src/app/ceph/rgw/rgw-user-list/rgw-user-list.component.ts:157-180 | a fetch start clears the flag and arms a new timer; the flag is set only by the pending timer firing; request answers change nothing; only the latest armed timer can be pending |
| RgwUserList.RunAppend | src/pybind/mgr/dashboard/frontend/src/app/ceph/rgw/rgw-user-list/rgw-user-list.component.ts:157-180 | running two event sequences one after the other is running their concatenation |
| RgwUserList.QuietRun | src/pybind/mgr/dashboard/frontend/src/app/ceph/rgw/rgw-user-list/rgw-user-list.component.ts:160-164 | with no fetch start, the state changes only when the pending timer fires, and then it becomes stale with nothing pending |
| RgwUserList.LastFetchStartDecides | src/pybind/mgr/dashboard/frontend/src/app/ceph/rgw/rgw-user-list/rgw-user-list.component.ts:157-176 | after the last fetch start, the list is stale iff the timer that start armed has fired; older timers never mark it |
| RgwUserList.AnswersKeepStaleness | src/pybind/mgr/dashboard/frontend/src/app/ceph/rgw/rgw-user-list/rgw-user-list.component.ts:172-179 | answers to the list request, successful or not, leave the flag and the timer as they were |
| RgwUserList.RgwUserListComponent.constructor | src/pybind/mgr/dashboard/frontend/src/app/ceph/rgw/rgw-user-list/rgw-user-list.component.ts:52-88 | no users, no selection, actions [add, edit, delete], not stale, and the first timer armed |
| RgwUserList.RgwUserListComponent.TimeConditionReached | src/pybind/mgr/dashboard/frontend/src/app/ceph/rgw/rgw-user-list/rgw-user-list.component.ts:157-166 | the staleness state after arming a timer; users and selection unchanged |
| RgwUserList.RgwUserListComponent.TimerFired | src/pybind/mgr/dashboard/frontend/src/app/ceph/rgw/rgw-user-list/rgw-user-list.component.ts:160-164 | the staleness state after a timer fires |
| RgwUserList.RgwUserListComponent.GetUserList | src/pybind/mgr/dashboard/frontend/src/app/ceph/rgw/rgw-user-list/rgw-user-list.component.ts:168-171 | the staleness state after a fetch start, plus exactly one list request; users unchanged |
| RgwUserList.RgwUserListComponent.ListSucceeded | src/pybind/mgr/dashboard/frontend/src/app/ceph/rgw/rgw-user-list/rgw-user-list.component.ts:172-176 | users become the response, each transformed; the staleness state is untouched |
| RgwUserList.RgwUserListComponent.ListFailed | src/pybind/mgr/dashboard/frontend/src/app/ceph/rgw/rgw-user-list/rgw-user-list.component.ts:177-179 | the fetch context receives exactly one error; the component is untouched |
| RgwUserList.RgwUserListComponent.UpdateSelection | src/pybind/mgr/dashboard/frontend/src/app/ceph/rgw/rgw-user-list/rgw-user-list.component.ts:183-185 | the selection becomes the table's; nothing else changes |
| RgwUserList.TableActions | src/pybind/mgr/dashboard/frontend/src/app/ceph/rgw/rgw-user-list/rgw-user-list.component.ts:65-86 | three distinct actions, in the order add, edit, delete |
| RgwUserList.CanBePrimary | src/pybind/mgr/dashboard/frontend/src/app/ceph/rgw/rgw-user-list/rgw-user-list.component.ts:65-85 | add can be primary iff nothing is selected; delete iff several rows are selected; edit does not say |
| RgwUserList.Disable | src/pybind/mgr/dashboard/frontend/src/app/ceph/rgw/rgw-user-list/rgw-user-list.component.ts:78-85 | delete is disabled iff nothing is selected; the others do not say |
| RgwUserList.AtMostOnePrimary | src/pybind/mgr/dashboard/frontend/src/app/ceph/rgw/rgw-user-list/rgw-user-list.component.ts:65-85 | add and delete never both claim to be primary; with exactly one row selected, no action does |
| RgwUserList.DeleteDialogFor | src/pybind/mgr/dashboard/frontend/src/app/ceph/rgw/rgw-user-list/rgw-user-list.component.ts:189-190 | the dialog names the selected uids in selection order; it says "user" iff exactly one row is selected, and "users" otherwise |
| RgwUserList.RgwUserListComponent.DeleteAction | src/pybind/mgr/dashboard/frontend/src/app/ceph/rgw/rgw-user-list/rgw-user-list.component.ts:187-190 | the dialog opened for the current selection |
| RgwUserList.RgwUserListComponent.SubmitDelete | src/pybind/mgr/dashboard/frontend/src/app/ceph/rgw/rgw-user-list/rgw-user-list.component.ts:191-215 | one delete request per selected uid, in order; exactly one table reload; given one backend answer per request, the observer errs iff some request failed, and completes when nothing is selected |

## Left out

- `partial_dict` is not part of this model. It is taken to mean "keep the members named, where present" (`JsonValues.Restrict`).
- `mgr.get`, `json.loads`, `CephService`, `IscsiGatewaysConfig` and `mgr.list_servers` are I/O. Their results are the fields of `MgrInputs`.
- The HTTP endpoints and their JSON rendering are not modelled. `HealthReply` has one optional field per section instead of a dictionary.
- Payload shapes the Python code dereferences without checking are preconditions (`AllHealthDemands`). Examples are `df['stats_by_class']` and `osd_map['pg_temp']`. A missing one raises in Python, and that error path is not modelled. The case `assert osd_map is not None` rejects cannot arise in the model: the input's type is a dictionary.
- Floating-point numbers in manager payloads are not modelled.
- Health.HealthData.BasicHealth: does not state the order among checks of equal severity. Dictionary iteration order is not modelled, so the loop takes keys in any order and the sort's stability has nothing to act on.
- Health.HealthData.BasicHealth: requires every `severity` to be a string. Python would only fail when comparing mixed types.
- Health.HealthData.AllHealth: `iscsi_daemons` is stated only when the gateways value has a length. The method's precondition ensures this, and Python's `len` would raise otherwise.
- Health.HealthData.FsMap: `[{}] * n` (also in `mgr_map`, `mon_status` and `pools`) shares one dictionary n times in Python. The model has n equal empty records, because nothing mutates them afterwards.
- `CdTableSelection` is not part of this model. `hasSelection`, `hasSingleSelection` and `hasMultiSelection` are read as one or more, exactly one and more than one selected rows.
- Angular is not modelled: the decorators, `ngOnInit` column definitions, templates, `NgZone`, `detectChanges`, `$localize` and `ListWithDetails`.
- The edit action's router link, `URLBuilderService`, `encodeURIComponent` and the permission lookup are not modelled.
- Real time is not modelled. The 10-second timer is the `TimerFire` event carrying the timer's token.
- RxJS and `ModalService` are not modelled. An answer to the list request is a separate method call (`ListSucceeded` / `ListFailed`), and the delete dialog is its returned contents.
- RgwUserList.RgwUserListComponent.SubmitDelete: models `forkJoin` as "every request is issued, then all succeed or one fails". It does not model the cancelling of requests still in flight after the first error.
- RgwUserList.Transformed: sums are integers and ratios are exact reals. JavaScript's floating-point rounding and a non-numeric `size_actual` are not modelled.
