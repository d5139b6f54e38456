/** The group controller's request handlers: generate a group, start a group,
    read a group's statistics (refreshing the daily aggregation at most once
    when it lags the chain), and list all NORMAL groups while triggering the
    group-list reset sweep. Each handler is specified by a function of the
    collaborators' state that gives the steps it takes and the response it
    ends with; the lemmas state what those functions promise. */
module Group {
  import opened Entities
  import opened Calls
  import opened Services

  // ---------------------------------------------------------------------------
  // getGroupGeneral

  /** The snapshot a getGroupGeneral request returns and the steps it takes. */
  datatype Exchange = Exchange(result: GroupGeneral, calls: seq<Call>)

  /** One getGroupGeneral request, written as the bounded retry it is: read the
      snapshot; if it lags, refresh the aggregation once and read again; return
      the last snapshot read. `runs` is how often the aggregation has run before. */
  function GeneralExchange(general: (int, nat) -> GroupGeneral, groupId: int, runs: nat): Exchange
  {
    var first := general(groupId, runs);
    if Lagging(first) then Exchange(general(groupId, runs + 1), [Query(groupId), Refresh, Query(groupId)])
    else Exchange(first, [Query(groupId)])
  }

  /** How often the aggregation has run once the request is over. */
  function RunsAfter(general: (int, nat) -> GroupGeneral, groupId: int, runs: nat): nat
  {
    if Lagging(general(groupId, runs)) then runs + 1 else runs
  }

  /** Each request refreshes the aggregation at most once and reads the
      snapshot at most twice; the aggregation run count grows by the refreshes. */
  lemma GeneralBounds(general: (int, nat) -> GroupGeneral, groupId: int, runs: nat)
    ensures Occurrences(GeneralExchange(general, groupId, runs).calls, Refresh) <= 1
    ensures Occurrences(GeneralExchange(general, groupId, runs).calls, Query(groupId)) <= 2
    ensures RunsAfter(general, groupId, runs)
         == runs + Occurrences(GeneralExchange(general, groupId, runs).calls, Refresh)
  {
  }

  /** The snapshot is read twice, and the aggregation refreshed once, exactly
      when the first snapshot lags; strict less-than is the only trigger. */
  lemma GeneralRefreshIffLagging(general: (int, nat) -> GroupGeneral, groupId: int, runs: nat)
    ensures Occurrences(GeneralExchange(general, groupId, runs).calls, Query(groupId)) == 2
        <==> general(groupId, runs).transactionCount < general(groupId, runs).latestBlock
    ensures Occurrences(GeneralExchange(general, groupId, runs).calls, Refresh) == 1
        <==> general(groupId, runs).transactionCount < general(groupId, runs).latestBlock
  {
  }

  /** A first snapshot with transactionCount >= latestBlock (0 >= 0 included)
      is returned as it is, after a single read and no refresh. */
  lemma GeneralCaughtUp(general: (int, nat) -> GroupGeneral, groupId: int, runs: nat)
    requires general(groupId, runs).transactionCount >= general(groupId, runs).latestBlock
    ensures GeneralExchange(general, groupId, runs).result == general(groupId, runs)
    ensures GeneralExchange(general, groupId, runs).calls == [Query(groupId)]
    ensures Refresh !in GeneralExchange(general, groupId, runs).calls
    ensures RunsAfter(general, groupId, runs) == runs
  {
  }

  /** After a refresh the steps are exactly read, refresh, read, and the second
      snapshot is returned whether or not it still lags: a persistent gap is
      reported as data, not as an error. */
  lemma GeneralRefreshed(general: (int, nat) -> GroupGeneral, groupId: int, runs: nat)
    requires Lagging(general(groupId, runs))
    ensures GeneralExchange(general, groupId, runs).calls == [Query(groupId), Refresh, Query(groupId)]
    ensures GeneralExchange(general, groupId, runs).result == general(groupId, runs + 1)
    ensures RunsAfter(general, groupId, runs) == runs + 1
  {
  }

  /** The steps of a series of getGroupGeneral requests served one after another. */
  function SessionCalls(general: (int, nat) -> GroupGeneral, groupIds: seq<int>, runs: nat): seq<Call>
    decreases |groupIds|
  {
    if groupIds == [] then []
    else GeneralExchange(general, groupIds[0], runs).calls
         + SessionCalls(general, groupIds[1..], RunsAfter(general, groupIds[0], runs))
  }

  /** Two requests served one after another: the steps are those of the first
      request followed by those of the second, which starts at the run count
      the first one left. These are the steps two successive calls of
      `GroupController.GetGroupGeneral` append to the log, by its ensures. */
  lemma SessionPair(general: (int, nat) -> GroupGeneral, g1: int, g2: int, runs: nat)
    ensures SessionCalls(general, [g1, g2], runs)
         == GeneralExchange(general, g1, runs).calls
            + GeneralExchange(general, g2, RunsAfter(general, g1, runs)).calls
  {
    var runs1 := RunsAfter(general, g1, runs);
    assert [g1, g2][1..] == [g2];
    assert [g2][1..] == [];
    assert SessionCalls(general, [g2], runs1)
        == GeneralExchange(general, g2, runs1).calls + SessionCalls(general, [], RunsAfter(general, g2, runs1));
  }

  /** However many requests are served, the aggregation is refreshed at most
      once per request and the steps number at most three per request. */
  lemma {:induction false} SessionBounds(general: (int, nat) -> GroupGeneral, groupIds: seq<int>, runs: nat)
    ensures Occurrences(SessionCalls(general, groupIds, runs), Refresh) <= |groupIds|
    ensures |SessionCalls(general, groupIds, runs)| <= 3 * |groupIds|
  {
    if groupIds != [] {
      var ex := GeneralExchange(general, groupIds[0], runs);
      var rest := SessionCalls(general, groupIds[1..], RunsAfter(general, groupIds[0], runs));
      SessionBounds(general, groupIds[1..], RunsAfter(general, groupIds[0], runs));
      GeneralBounds(general, groupIds[0], runs);
      OccurrencesAppend(ex.calls, rest, Refresh);
    }
  }

  // ---------------------------------------------------------------------------
  // getAllGroup

  /** The steps of getAllGroup for a NORMAL-group count of `count`. */
  function AllGroupCalls(count: nat): seq<Call>
  {
    [Count(Normal)] + (if count > 0 then [List(Normal)] else []) + [Reset]
  }

  /** The response of getAllGroup: the total and the list are set only when the count is positive. */
  function AllGroupPage(count: nat, list: seq<TbGroup>): BasePageResponse
  {
    if count > 0 then BasePageResponse(Success, Some(count), Some(list))
    else BasePageResponse(Success, None, None)
  }

  /** The reset sweep is dispatched exactly once and as the last step, whatever
      the count; the list is fetched exactly when the count is positive, and
      only after counting. */
  lemma AllGroupSteps(count: nat)
    ensures Occurrences(AllGroupCalls(count), Reset) == 1
    ensures AllGroupCalls(count)[|AllGroupCalls(count)| - 1] == Reset
    ensures AllGroupCalls(count)[0] == Count(Normal)
    ensures Occurrences(AllGroupCalls(count), List(Normal)) == (if count > 0 then 1 else 0)
  {
  }

  /** Over a registry, the page carries a total and a list exactly when some
      group is NORMAL; then the total is the list's length and the list holds
      exactly the NORMAL groups. */
  lemma AllGroupPageOfRegistry(groups: seq<TbGroup>)
    ensures var page := AllGroupPage(CountWith(groups, Normal), Filter(groups, Normal));
      && page.code == Success
      && (page.data.Some? <==> exists g :: g in groups && g.groupStatus == Normal)
      && (page.totalCount.Some? <==> page.data.Some?)
      && (page.data.Some? ==> page.totalCount.value == |page.data.value|)
      && (page.data.Some? ==> forall g :: g in page.data.value <==> g in groups && g.groupStatus == Normal)
  {
    CountIsListLength(groups, Normal);
    var list := Filter(groups, Normal);
    if CountWith(groups, Normal) == 0 {
      assert list == [];
    } else {
      assert list[0] in list;
    }
  }

  // ---------------------------------------------------------------------------
  // generateGroup and startGroup

  /** The steps of generateGroup: binding validation, then, only when it finds
      nothing wrong, one call to the group service. */
  function GenerateCalls(binding: BindingResult, req: GenerateGroupInfo, frontIp: string, frontPort: int): seq<Call>
  {
    [CheckBind(binding.HasErrors())] + (if binding.HasErrors() then [] else [Generate(req, frontIp, frontPort)])
  }

  /** How a delegating handler ends once the service has answered. */
  function DelegateReply(failure: Option<Failure>): Outcome<BaseResponse>
  {
    match failure
    case Some(f) => Thrown(f)
    case None => Returned(BaseResponse(Success, None))
  }

  /** How generateGroup ends: a binding error is thrown before the service is
      reached; otherwise the service's failure propagates, or SUCCESS is returned. */
  function GenerateReply(binding: BindingResult, serviceFailure: Option<Failure>): Outcome<BaseResponse>
  {
    if binding.HasErrors() then Thrown(ParamInvalid(binding.errors))
    else DelegateReply(serviceFailure)
  }

  /** Validation comes first; the service is called exactly once when the
      binding is clean and never otherwise. */
  lemma GenerateValidatesFirst(binding: BindingResult, req: GenerateGroupInfo, frontIp: string, frontPort: int)
    ensures GenerateCalls(binding, req, frontIp, frontPort)[0] == CheckBind(binding.HasErrors())
    ensures Occurrences(GenerateCalls(binding, req, frontIp, frontPort), Generate(req, frontIp, frontPort))
         == (if binding.HasErrors() then 0 else 1)
    ensures |GenerateCalls(binding, req, frontIp, frontPort)| == (if binding.HasErrors() then 1 else 2)
  {
  }

  /** A handler returns a SUCCESS response without data exactly when neither
      validation nor the service failed; every failure reaches the caller unchanged. */
  lemma GenerateReplyCases(binding: BindingResult, serviceFailure: Option<Failure>)
    ensures GenerateReply(binding, serviceFailure).Returned?
        <==> !binding.HasErrors() && serviceFailure.None?
    ensures GenerateReply(binding, serviceFailure).Returned?
        ==> GenerateReply(binding, serviceFailure).response == BaseResponse(Success, None)
    ensures binding.HasErrors() ==> GenerateReply(binding, serviceFailure) == Thrown(ParamInvalid(binding.errors))
    ensures !binding.HasErrors() && serviceFailure.Some?
        ==> GenerateReply(binding, serviceFailure) == Thrown(serviceFailure.value)
  {
  }

  // ---------------------------------------------------------------------------
  // The controller

  class GroupController {
    /** The group service, the statistics task and the reset task the
        controller is wired to, with the log of every step taken. */
    const backend: Backend

    constructor (backend: Backend)
      ensures this.backend == backend
    {
      this.backend := backend;
    }

    /** checkBindResult: a binding with errors becomes a ParamInvalid exception. */
    method CheckBindResult(result: BindingResult) returns (failure: Option<Failure>)
      modifies backend`log
      ensures failure == if result.HasErrors() then Some(ParamInvalid(result.errors)) else None
      ensures backend.log == old(backend.log) + [CheckBind(result.HasErrors())]
    {
      backend.log := backend.log + [CheckBind(result.HasErrors())];
      if result.HasErrors() {
        failure := Some(ParamInvalid(result.errors));
      } else {
        failure := None;
      }
    }

    method GenerateGroup(req: GenerateGroupInfo, frontIp: string, frontPort: int, result: BindingResult)
      returns (reply: Outcome<BaseResponse>)
      modifies backend`log
      ensures backend.log == old(backend.log) + GenerateCalls(result, req, frontIp, frontPort)
      ensures reply == GenerateReply(result, backend.generateOutcome(req, frontIp, frontPort))
    {
      var bindFailure := CheckBindResult(result);
      if bindFailure.Some? {
        return Thrown(bindFailure.value);
      }
      var baseResponse := BaseResponse(Success, None);
      var failure := backend.GenerateGroup(req, frontIp, frontPort);
      if failure.Some? {
        return Thrown(failure.value);
      }
      reply := Returned(baseResponse);
    }

    method StartGroup(startGroupId: int, frontIp: string, frontPort: int) returns (reply: Outcome<BaseResponse>)
      modifies backend`log
      ensures backend.log == old(backend.log) + [Start(startGroupId, frontIp, frontPort)]
      ensures reply == DelegateReply(backend.startOutcome(startGroupId, frontIp, frontPort))
    {
      var baseResponse := BaseResponse(Success, None);
      var failure := backend.StartGroup(startGroupId, frontIp, frontPort);
      if failure.Some? {
        return Thrown(failure.value);
      }
      reply := Returned(baseResponse);
    }

    /** Reads the group's snapshot; when the aggregated transaction count lags
        the latest block on the first read, refreshes the aggregation once and
        reads again; responds with SUCCESS and the last snapshot read. */
    method GetGroupGeneral(groupId: int) returns (reply: BaseResponse)
      modifies backend`log, backend`aggregationRuns
      ensures reply == BaseResponse(Success, Some(GeneralExchange(backend.general, groupId, old(backend.aggregationRuns)).result))
      ensures backend.log == old(backend.log) + GeneralExchange(backend.general, groupId, old(backend.aggregationRuns)).calls
      ensures backend.aggregationRuns == RunsAfter(backend.general, groupId, old(backend.aggregationRuns))
    {
      var baseResponse := BaseResponse(Success, None);
      var groupGeneral: Option<GroupGeneral> := None;
      ghost var runs0 := backend.aggregationRuns;
      ghost var log0 := backend.log;

      var statisticTimes := 0;
      while true
        invariant 0 <= statisticTimes <= 1
        invariant backend.aggregationRuns == runs0 + statisticTimes
        invariant statisticTimes == 0 ==> backend.log == log0
        invariant statisticTimes == 1 ==> Lagging(backend.general(groupId, runs0))
        invariant statisticTimes == 1 ==> backend.log == log0 + [Query(groupId), Refresh]
        decreases 1 - statisticTimes
      {
        var g := backend.QueryGroupGeneral(groupId);
        groupGeneral := Some(g);
        if g.transactionCount < g.latestBlock && statisticTimes == 0 {
          statisticTimes := statisticTimes + 1;
          backend.UpdateTransdailyData();
          continue;
        } else {
          break;
        }
      }

      baseResponse := baseResponse.(data := groupGeneral);
      reply := baseResponse;
    }

    /** Counts the NORMAL groups; only when there are some, fetches them and
        sets the total and the list; then dispatches the reset sweep. */
    method GetAllGroup() returns (page: BasePageResponse)
      modifies backend`log
      ensures page == AllGroupPage(CountWith(backend.groups, Normal), Filter(backend.groups, Normal))
      ensures backend.log == old(backend.log) + AllGroupCalls(CountWith(backend.groups, Normal))
    {
      page := BasePageResponse(Success, None, None);

      var count := backend.CountOfGroup(Normal);
      if count > 0 {
        var groupList := backend.GetGroupList(Normal);
        page := page.(totalCount := Some(count));
        page := page.(data := Some(groupList));
      }

      backend.AsyncResetGroupList();
    }
  }

  /** Worked case: group 7 at block 100 with 80 counted transactions is
      refreshed once, and a refresh that brings the count to 100 is what the
      request returns. */
  lemma ScenarioGroupSeven(general: (int, nat) -> GroupGeneral, runs: nat)
    requires general(7, runs) == GroupGeneral(7, 80, 100)
    requires general(7, runs + 1) == GroupGeneral(7, 100, 100)
    ensures GeneralExchange(general, 7, runs).result.transactionCount == 100
    ensures Occurrences(GeneralExchange(general, 7, runs).calls, Refresh) == 1
  {
  }
}
