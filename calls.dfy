/** The steps a request handler takes, in the order it takes them: binding
    validation and every call into the group service, the statistics task and
    the reset task. A handler's behaviour is stated as the sequence of these
    steps it appends to the log. */
module Calls {
  import opened Entities

  datatype Call =
    | CheckBind(hasErrors: bool)                               // checkBindResult
    | Generate(req: GenerateGroupInfo, frontIp: string, frontPort: int)  // groupService.generateGroup
    | Start(groupId: int, frontIp: string, frontPort: int)     // groupService.startGroup
    | Query(groupId: int)                                      // groupService.queryGroupGeneral
    | Refresh                                                  // statisticsTask.updateTransdailyData
    | Count(status: DataStatus)                                // groupService.countOfGroup
    | List(status: DataStatus)                                 // groupService.getGroupList
    | Reset                                                    // resetGroupListTask.asyncResetGroupList

  /** How many times `c` occurs in the log `s`. */
  function Occurrences(s: seq<Call>, c: Call): (n: nat)
    ensures n <= |s|
    ensures n == 0 <==> c !in s
  {
    if s == [] then 0
    else (if s[0] == c then 1 else 0) + Occurrences(s[1..], c)
  }

  lemma {:induction false} OccurrencesAppend(a: seq<Call>, b: seq<Call>, c: Call)
    ensures Occurrences(a + b, c) == Occurrences(a, c) + Occurrences(b, c)
  {
    if a == [] {
      assert a + b == b;
    } else {
      assert (a + b)[1..] == a[1..] + b;
      OccurrencesAppend(a[1..], b, c);
    }
  }
}
