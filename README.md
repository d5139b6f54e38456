# Group controller of the node manager

This project models the request handlers of `GroupController`, the REST
controller through which the node manager generates and starts blockchain
groups on a front, reports a group's statistics and lists all groups.

- `getGroupGeneral` reads a group's statistics snapshot (`GroupGeneral`:
  aggregated transaction count and latest block number). When the aggregated
  count lags the chain (`transactionCount < latestBlock`) on the first read, it
  runs the daily-transaction aggregation once and reads again. It answers
  SUCCESS with the last snapshot read. The Java `while (true)` loop guarded by
  the counter `statisticTimes` is kept as a loop. Its termination measure is
  `1 - statisticTimes`.
- `getAllGroup` counts the NORMAL groups. Only when the count is positive does
  it fetch them and set the page's total and list. In every case it then
  dispatches the asynchronous group-list reset sweep.
- `generateGroup` checks the request binding first and only then delegates to
  the group service. `startGroup` delegates directly.

Modules:

- `Entities` (entities.dfy): the registry row, the statistics snapshot, the
  request body, the binding result, responses and exceptions. `BigInteger`
  counters are `nat`.
- `Calls` (calls.dfy): the steps a handler takes, as a log of `Call` values,
  and `Occurrences` to count them.
- `Services` (services.dfy): class `Backend`, standing for the three
  collaborators the controller is wired to (group service, statistics task,
  reset task). Each is an oracle. `queryGroupGeneral` answers
  `general(groupId, runs)`, where `runs` is how often the aggregation has run,
  so a refresh may change the snapshot. `countOfGroup` and `getGroupList` read
  one group registry. `generateGroup` and `startGroup` end with the failure
  their oracle gives, or none. Every call is appended to a ghost `log`.
- `Group` (group_controller.dfy): class `GroupController` with one method per
  handler. Each handler's `ensures` ties the new log and the response to a
  function of the collaborators' state: `GeneralExchange`, `AllGroupCalls` and
  `AllGroupPage`, `GenerateCalls` and `GenerateReply`, `DelegateReply`. The
  lemmas state what those functions promise.

A Java exception that escapes a handler is the `Thrown` case of `Outcome`.

## Model

| member | source | states |
|---|---|---|
| `Group.GroupController.GetGroupGeneral` | src/main/java/com/webank/webase/node/mgr/group/GroupController.java:102-130 | The retry loop terminates. The response is SUCCESS carrying the snapshot `GeneralExchange` selects. The steps taken are those of `GeneralExchange`. The aggregation run count grows by one exactly when the first snapshot lags. |
| `Group.GeneralBounds` | src/main/java/com/webank/webase/node/mgr/group/GroupController.java:111-123 | Per request the aggregation is refreshed at most once and the snapshot read at most twice. The run count grows by the number of refreshes. |
| `Group.GeneralRefreshIffLagging` | src/main/java/com/webank/webase/node/mgr/group/GroupController.java:112-119 | The snapshot is read exactly twice, and refreshed exactly once, if and only if the first snapshot has `transactionCount < latestBlock`. |
| `Group.GeneralCaughtUp` | src/main/java/com/webank/webase/node/mgr/group/GroupController.java:116-121 | When the first snapshot has `transactionCount >= latestBlock` (0 >= 0 included), there is one read, no refresh, and that first snapshot is returned. |
| `Group.GeneralRefreshed` | src/main/java/com/webank/webase/node/mgr/group/GroupController.java:116-125 | When the first snapshot lags, the steps are exactly read, refresh, read, and the run count grows by exactly one. The second snapshot is returned even if it still lags. |
| `Group.SessionBounds` | src/main/java/com/webank/webase/node/mgr/group/GroupController.java:111-123 | Over the steps `SessionCalls` gives for a series of requests, refreshes are at most the number of requests, and steps at most three per request. |
| `Group.SessionPair` | src/main/java/com/webank/webase/node/mgr/group/GroupController.java:109-125 | The steps of two requests are the first request's steps followed by the second's, taken at the run count the first one left. These are the steps two successive `GetGroupGeneral` calls append to the log. |
| `Group.ScenarioGroupSeven` | src/main/java/com/webank/webase/node/mgr/group/GroupController.java:112-125 | Group 7 at block 100 with 80 counted transactions is refreshed once. A refresh that brings the count to 100 is what the request returns. |
| `Group.GroupController.GetAllGroup` | src/main/java/com/webank/webase/node/mgr/group/GroupController.java:136-156 | The page is `AllGroupPage` of the NORMAL count and the NORMAL list. The steps are `AllGroupCalls` of that count. The registry is unchanged. |
| `Group.AllGroupSteps` | src/main/java/com/webank/webase/node/mgr/group/GroupController.java:142-150 | Counting comes first. The list is fetched exactly once when the count is positive and never otherwise. The reset sweep is dispatched exactly once, as the last step, whatever the count. |
| `Group.AllGroupPageOfRegistry` | src/main/java/com/webank/webase/node/mgr/group/GroupController.java:142-147 | The page carries a total and a list exactly when some group is NORMAL. Then the total equals the list's length and the list holds exactly the NORMAL groups. The code is SUCCESS in every case. |
| `Group.GroupController.GenerateGroup` | src/main/java/com/webank/webase/node/mgr/group/GroupController.java:66-79 | The steps are `GenerateCalls` and the outcome is `GenerateReply` of the binding and the service's answer. |
| `Group.GroupController.CheckBindResult` | src/main/java/com/webank/webase/node/mgr/group/GroupController.java:69 | A binding with errors becomes a ParamInvalid exception carrying them. A clean binding passes. The check is logged. |
| `Group.GenerateValidatesFirst` | src/main/java/com/webank/webase/node/mgr/group/GroupController.java:69-74 | Binding validation is the first step. The group service is called exactly once when the binding is clean and never otherwise. No other step is taken: one step on a binding error, two otherwise. |
| `Group.GenerateReplyCases` | src/main/java/com/webank/webase/node/mgr/group/GroupController.java:69-78 | generateGroup returns a data-less SUCCESS response if and only if neither validation nor the service failed. A binding error or a service failure reaches the caller unchanged. |
| `Group.GroupController.StartGroup` | src/main/java/com/webank/webase/node/mgr/group/GroupController.java:85-97 | The group service's startGroup is called exactly once. Its failure propagates unchanged; otherwise a data-less SUCCESS response is returned. |
| `Services.Filter` | src/main/java/com/webank/webase/node/mgr/group/GroupController.java:144 | The group list holds exactly the registry rows with the requested status, and is no longer than the registry. |
| `Services.CountIsListLength` | src/main/java/com/webank/webase/node/mgr/group/GroupController.java:142-144 | The count of a status equals the length of the list of that status. |
| `Services.Backend.QueryGroupGeneral` | src/main/java/com/webank/webase/node/mgr/group/GroupController.java:113 | Answers the snapshot for the group at the current aggregation run count, and logs the read. |
| `Services.Backend.UpdateTransdailyData` | src/main/java/com/webank/webase/node/mgr/group/GroupController.java:118 | Increments the aggregation run count by one and logs the refresh. |
| `Services.Backend.CountOfGroup` | src/main/java/com/webank/webase/node/mgr/group/GroupController.java:142 | Answers the number of registry rows with the status, and logs the count. |
| `Services.Backend.GetGroupList` | src/main/java/com/webank/webase/node/mgr/group/GroupController.java:144 | Answers the registry rows with the status, in order, and logs the listing. |
| `Services.Backend.AsyncResetGroupList` | src/main/java/com/webank/webase/node/mgr/group/GroupController.java:150 | Logs the dispatch of the reset sweep and changes nothing else. |
| `Services.Backend.GenerateGroup` | src/main/java/com/webank/webase/node/mgr/group/GroupController.java:74 | Answers the service's failure for the request, or none, and logs the call. |
| `Services.Backend.StartGroup` | src/main/java/com/webank/webase/node/mgr/group/GroupController.java:92 | Answers the service's failure for the start request, or none, and logs the call. |

## Left out

- `getTransDaily` (GroupController.java:161-175): a pass-through to the daily transaction service with nothing to state.
- `FrontGroupMapMapper`: a persistence interface whose queries are not part of this model, so any contract for it would be invented.
- The internals of the group service, the statistics task and the reset task (remote front calls, the aggregation job, the sweep). They are oracles here.
- The effects of `generateGroup` and `startGroup` on the registry and the front-group mapping. The model records the call and its outcome only.
- The asynchronous execution of `asyncResetGroupList`. The model records that it is dispatched once.
- Exceptions thrown by `queryGroupGeneral`, `countOfGroup` and `getGroupList`. In Java they propagate unchanged; the model treats these reads as always answering.
- `Services.Backend.UpdateTransdailyData`: the refresh always completes. In Java (GroupController.java:118) an exception from it ends `getGroupGeneral` after the steps read, refresh, with no second read and no SUCCESS response. `Group.GeneralRefreshed` and `Group.GroupController.GetGroupGeneral` state the case where the refresh completes.
- A null snapshot or null counter (GroupController.java:113-116 dereference them unchecked). In Java that ends the request with a NullPointerException; the model's `GroupGeneral` and its `nat` counters are always present.
- `Services.Backend.QueryGroupGeneral`: the snapshot depends only on the group and on how often the aggregation has run. Reads at the same run count return the same snapshot. So chain progress without a refresh, including between requests, is not modelled.
- Requests are served one at a time, and nothing but the controller runs the aggregation. Concurrent requests and the statistics task's own schedule could run it between two steps of a request; `Group.GroupController.GetGroupGeneral`'s run-count postcondition does not cover that case.
- Position of `BindingResult` in `generateGroup` (GroupController.java:66-68): it does not directly follow the validated `@RequestBody` argument. Spring MVC then rejects an invalid body itself, during argument resolution, before the handler runs, and the error branch of `checkBindResult` is not reached. The `Thrown(ParamInvalid(...))` case of `GenerateReply` stands for that rejection. Either way the group service is not called.
- `Services.Backend.CountOfGroup`: count and list read one registry state. Under concurrent writes the two Java queries could disagree; that race is not modelled.
- Logging, `Instant`/`Duration` timing, JSON serialisation, Spring request binding and `@Valid` beyond the validate-before-delegate order.
- Snapshot fields other than group id, transaction count and latest block: they do not affect the control flow.
