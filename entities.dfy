/** The values that cross the group controller's boundary: the group
    registry's rows, the statistics snapshot of one group, the request body of
    a group generation, the binding outcome of request validation, and the
    responses and exceptions a handler ends with. */
module Entities {

  /** Status of a group row; only NORMAL groups are listed by the "all groups" query. */
  datatype DataStatus = Normal | Invalid

  /** A row of the group registry. */
  datatype TbGroup = TbGroup(groupId: int, groupName: string, groupStatus: DataStatus)

  /** The statistics view of one group. The Java counters are BigInteger and
      never negative, so they are `nat` here. */
  datatype GroupGeneral = GroupGeneral(groupId: int, transactionCount: nat, latestBlock: nat)

  /** The aggregated transaction count has not caught up with the chain:
      strictly fewer counted transactions than the latest block number. */
  predicate Lagging(g: GroupGeneral)
  {
    g.transactionCount < g.latestBlock
  }

  /** Body of a group-generation request. */
  datatype GenerateGroupInfo = GenerateGroupInfo(generateGroupId: int, timestamp: int, nodeList: seq<string>)

  /** What request binding and bean validation found wrong with a request body. */
  datatype BindingResult = BindingResult(errors: seq<string>)
  {
    predicate HasErrors()
    {
      |errors| > 0
    }
  }

  datatype Option<T> = None | Some(value: T)

  /** The response code a handler builds its response with. Handlers only ever
      build SUCCESS responses; every other code reaches the caller as an exception. */
  datatype RetCode = Success

  /** The exceptions a handler lets through: a binding error found by
      checkBindResult, or a failure reported by the group service. */
  datatype Failure = ParamInvalid(errors: seq<string>) | ServiceFailed(code: int)

  /** How a handler ends: it returns a response, or an exception propagates out of it. */
  datatype Outcome<T> = Returned(response: T) | Thrown(failure: Failure)

  /** A plain response; `data` stays `None` until the handler sets it. */
  datatype BaseResponse = BaseResponse(code: RetCode, data: Option<GroupGeneral>)

  /** A paged response; `totalCount` and `data` stay `None` until the handler sets them. */
  datatype BasePageResponse = BasePageResponse(code: RetCode, totalCount: Option<nat>, data: Option<seq<TbGroup>>)
}
