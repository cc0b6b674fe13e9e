/** JSON-RPC messages as the gateways see them: ids and methods are looked at, the other
    fields are carried along. */
module JsonRpc {
  import opened Wrappers

  datatype Json = Raw(text: string) | ErrorObject(code: int, message: string)

  /** `id` is the raw JSON text of the field, quotes included; None when it is absent. */
  datatype RawMessage = RawMessage(
    id: Option<string>,
    methodName: Option<string>,
    params: Option<Json>,
    result: Option<Json>,
    error: Option<Json>)
  {
    predicate IsRequest() {
      id.Some? && methodName.Some?
    }

    predicate IsResponse() {
      id.Some? && (result.Some? || error.Some?) && methodName.None?
    }

    predicate IsInitializeRequest() {
      IsRequest() && methodName == Some("initialize")
    }
  }

  function ErrorResponse(id: string, code: int, message: string): RawMessage {
    RawMessage(Some(id), None, None, None, Some(ErrorObject(code, message)))
  }

  const INTERNAL_ERROR: int := -32603

  function TrimStart(s: string): string {
    if s != "" && s[0] == '"' then TrimStart(s[1..]) else s
  }

  function TrimEnd(s: string): string {
    if s != "" && s[|s| - 1] == '"' then TrimEnd(s[..|s| - 1]) else s
  }

  /** `trim_matches('"')`. */
  function TrimQuotes(s: string): string {
    TrimEnd(TrimStart(s))
  }

  /** Quoting an id that has no quote at its ends is undone by trimming. */
  lemma TrimQuoted(id: string)
    requires id != "" && id[0] != '"' && id[|id| - 1] != '"'
    ensures TrimQuotes("\"" + id + "\"") == id
  {
    var quoted := "\"" + id + "\"";
    assert quoted[1..] == id + "\"";
    assert TrimStart(quoted) == TrimStart(id + "\"") == id + "\"";
    assert (id + "\"")[..|id|] == id;
    assert TrimEnd(id + "\"") == TrimEnd(id) == id;
  }
}
