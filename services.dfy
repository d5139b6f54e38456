/** The collaborators the group controller is wired to: the group service, the
    daily-transaction statistics task and the group-list reset task. Their
    internals (remote front calls, the aggregation job, the asynchronous sweep)
    are outside this model; each is an oracle that answers from the state it
    is given and records that it was called. */
module Services {
  import opened Entities
  import opened Calls

  /** The registry rows with the given status, in registry order. */
  function Filter(groups: seq<TbGroup>, status: DataStatus): (r: seq<TbGroup>)
    ensures |r| <= |groups|
    ensures forall g :: g in r <==> g in groups && g.groupStatus == status
  {
    if groups == [] then []
    else (if groups[0].groupStatus == status then [groups[0]] else []) + Filter(groups[1..], status)
  }

  /** The number of registry rows with the given status. */
  function CountWith(groups: seq<TbGroup>, status: DataStatus): nat
  {
    if groups == [] then 0
    else (if groups[0].groupStatus == status then 1 else 0) + CountWith(groups[1..], status)
  }

  /** Counting the rows of a status and listing them agree: the count is the
      length of the list. */
  lemma {:induction false} CountIsListLength(groups: seq<TbGroup>, status: DataStatus)
    ensures CountWith(groups, status) == |Filter(groups, status)|
  {
    if groups != [] {
      CountIsListLength(groups[1..], status);
    }
  }

  class Backend {
    /** `general(groupId, runs)` is what queryGroupGeneral reports for the group
        once the daily aggregation job has run `runs` times. A refresh may
        change the snapshot. The model assumes that reads at the same run count
        give the same snapshot; the live chain may in fact move on between them. */
    const general: (int, nat) -> GroupGeneral
    /** What generateGroup and startGroup on the group service end with: no
        failure, or the failure the service throws. */
    const generateOutcome: (GenerateGroupInfo, string, int) -> Option<Failure>
    const startOutcome: (int, string, int) -> Option<Failure>

    /** How many times updateTransdailyData has run. */
    var aggregationRuns: nat
    /** The group registry read by countOfGroup and getGroupList; no handler
        of the controller writes it. */
    const groups: seq<TbGroup>
    /** Every step taken so far, in order. */
    ghost var log: seq<Call>

    constructor (general: (int, nat) -> GroupGeneral,
                 generateOutcome: (GenerateGroupInfo, string, int) -> Option<Failure>,
                 startOutcome: (int, string, int) -> Option<Failure>,
                 groups: seq<TbGroup>)
      ensures this.general == general && this.generateOutcome == generateOutcome
      ensures this.startOutcome == startOutcome && this.groups == groups
      ensures aggregationRuns == 0 && log == []
    {
      this.general := general;
      this.generateOutcome := generateOutcome;
      this.startOutcome := startOutcome;
      this.groups := groups;
      aggregationRuns := 0;
      log := [];
    }

    method QueryGroupGeneral(groupId: int) returns (g: GroupGeneral)
      modifies this`log
      ensures g == general(groupId, aggregationRuns)
      ensures log == old(log) + [Query(groupId)]
    {
      g := general(groupId, aggregationRuns);
      log := log + [Query(groupId)];
    }

    method UpdateTransdailyData()
      modifies this`aggregationRuns, this`log
      ensures aggregationRuns == old(aggregationRuns) + 1
      ensures log == old(log) + [Refresh]
    {
      aggregationRuns := aggregationRuns + 1;
      log := log + [Refresh];
    }

    method CountOfGroup(status: DataStatus) returns (count: nat)
      modifies this`log
      ensures count == CountWith(groups, status)
      ensures log == old(log) + [Count(status)]
    {
      count := CountWith(groups, status);
      log := log + [Count(status)];
    }

    method GetGroupList(status: DataStatus) returns (list: seq<TbGroup>)
      modifies this`log
      ensures list == Filter(groups, status)
      ensures log == old(log) + [List(status)]
    {
      list := Filter(groups, status);
      log := log + [List(status)];
    }

    /** Dispatches the sweep and returns at once; the sweep's own effects are
        not part of the request. */
    method AsyncResetGroupList()
      modifies this`log
      ensures log == old(log) + [Reset]
    {
      log := log + [Reset];
    }

    method GenerateGroup(req: GenerateGroupInfo, frontIp: string, frontPort: int) returns (failure: Option<Failure>)
      modifies this`log
      ensures failure == generateOutcome(req, frontIp, frontPort)
      ensures log == old(log) + [Generate(req, frontIp, frontPort)]
    {
      failure := generateOutcome(req, frontIp, frontPort);
      log := log + [Generate(req, frontIp, frontPort)];
    }

    method StartGroup(groupId: int, frontIp: string, frontPort: int) returns (failure: Option<Failure>)
      modifies this`log
      ensures failure == startOutcome(groupId, frontIp, frontPort)
      ensures log == old(log) + [Start(groupId, frontIp, frontPort)]
    {
      failure := startOutcome(groupId, frontIp, frontPort);
      log := log + [Start(groupId, frontIp, frontPort)];
    }
  }
}
