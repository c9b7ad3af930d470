/**
 * The requests the bridge sends to the controller, and the connection that
 * records them in the order they are sent. Message identifiers are random
 * and are not part of the model.
 */
module Commands {
  import opened Wrappers
  import opened Numbers
  import opened Colors

  /** The value of a SetParamList parameter: a text, a number rendered with `${...}`, or a colour's IntelliCenter code. */
  datatype ParamText = Text(s: string) | Numeric(n: Number) | ColorCode(c: Color)

  datatype Request =
    /** GetQuery GetHardwareDefinition with its `arguments` (undefined once the discovery list is exhausted). */
    | GetQuery(arguments: Option<string>)
    /** RequestParamList: subscribe to `keys` of one object. */
    | RequestParamList(objnam: string, keys: seq<string>)
    /** SetParamList: set one parameter of one object. */
    | SetParamList(objnam: string, key: string, value: ParamText)

  /** The connection's outbound side: every request sent, oldest first. */
  class Connection {
    var sent: seq<Request>

    constructor()
      ensures sent == []
    {
      sent := [];
    }

    /** `sendCommandNoWait`: the request is appended; nothing is awaited. */
    method Send(r: Request)
      modifies this
      ensures sent == old(sent) + [r]
    {
      sent := sent + [r];
    }
  }
}
