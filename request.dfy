/**
 * Building the downstream request of one item: the query object folded from
 * the name/value pairs, the body (read only for methods that carry one and
 * parsed when it is non-blank text), the headers, and the conversion of the
 * response body to the item's output.
 */
module RequestSpec {
  import opened Wrappers
  import opened JsValue

  /** The query object: the pairs written into an empty object one after another. */
  function QueryFold(params: seq<(string, string)>): (qs: map<string, string>)
    ensures qs.Keys == set i | 0 <= i < |params| :: params[i].0
  {
    if |params| == 0 then map[]
    else
      var last := params[|params| - 1];
      QueryFold(params[..|params| - 1])[last.0 := last.1]
  }

  /** Each name is mapped to the value of the last pair that carries it. */
  lemma {:induction false} QueryFoldLastWins(params: seq<(string, string)>, i: nat)
    requires i < |params|
    requires forall j :: i < j < |params| ==> params[j].0 != params[i].0
    ensures params[i].0 in QueryFold(params)
    ensures QueryFold(params)[params[i].0] == params[i].1
  {
    if i < |params| - 1 {
      QueryFoldLastWins(params[..|params| - 1], i);
    }
  }

  /** The methods whose request carries a body. */
  predicate HasBody(verb: string) {
    verb == "POST" || verb == "PATCH" || verb == "PUT"
  }

  const InvalidBodyMessage := "Body must be valid JSON"

  /** A string body that is not blank after trimming: text that must be parsed as JSON. */
  predicate IsJsonText(body: Value) {
    body.Str? && Trim(body.s) != ""
  }

  /**
   * The body sent with the request. It stays undefined for methods without a
   * body; otherwise the parameter is used as given, except that non-blank text
   * is replaced by its JSON parse, and fails the item when it does not parse.
   */
  function ResolveBody(verb: string, param: Value, parse: string -> Option<Value>): (r: Result<Value>)
    ensures !HasBody(verb) ==> r == Ok(Undefined)
    ensures r.Err? <==> HasBody(verb) && IsJsonText(param) && parse(param.s).None?
    ensures r.Err? ==> r.error == InvalidBodyMessage
    ensures r.Ok? && HasBody(verb) && !IsJsonText(param) ==> r.value == param
    ensures r.Ok? && HasBody(verb) && IsJsonText(param) ==> parse(param.s) == Some(r.value)
  {
    if !HasBody(verb) then Ok(Undefined)
    else if IsJsonText(param) then
      match parse(param.s)
      case None => Err(InvalidBodyMessage)
      case Some(v) => Ok(v)
    else Ok(param)
  }

  /** A body of white space only is sent as it is, not parsed. */
  lemma BlankTextIsNotParsed(verb: string, s: string, parse: string -> Option<Value>)
    requires HasBody(verb)
    requires forall i :: 0 <= i < |s| ==> IsJsSpace(s[i])
    ensures ResolveBody(verb, Str(s), parse) == Ok(Str(s))
  {
    TrimEmptyIffBlank(s);
  }

  /**
   * The request headers: always the bearer token and Accept, and a JSON
   * Content-Type exactly when the body is truthy.
   */
  function BuildHeaders(token: Value, body: Value): (h: map<string, string>)
    ensures "Authorization" in h && h["Authorization"] == "Bearer " + ToJsString(token)
    ensures "Accept" in h && h["Accept"] == "application/json"
    ensures "Content-Type" in h <==> Truthy(body)
    ensures "Content-Type" in h ==> h["Content-Type"] == "application/json"
    ensures h.Keys <= {"Authorization", "Accept", "Content-Type"}
  {
    var h := map["Authorization" := "Bearer " + ToJsString(token), "Accept" := "application/json"];
    if Truthy(body) && "Content-Type" !in h then h["Content-Type" := "application/json"] else h
  }

  datatype Request = Request(
    verb: string,
    url: string,
    headers: map<string, string>,
    qs: map<string, string>,
    body: Value,
    json: bool)

  /** The request options of one item; the response body is decoded when the format is 'json'. */
  function BuildRequest(verb: string, url: string, token: Value, query: seq<(string, string)>,
                        body: Value, responseFormat: string): Request
  {
    Request(verb, url, BuildHeaders(token, body), QueryFold(query), body, responseFormat == "json")
  }

  /**
   * The item's output: with format 'string' always a string, the JSON text of
   * an `object` response (null, array or object) and String() of anything
   * else; with any other format the response body unchanged.
   */
  function FormatOutput(response: Value, responseFormat: string, stringify: Value -> string): (out: Value)
    ensures responseFormat == "string" ==> out.Str?
    ensures responseFormat == "string" && IsObjectTypeof(response) ==> out == Str(stringify(response))
    ensures responseFormat == "string" && !IsObjectTypeof(response) ==> out == Str(ToJsString(response))
    ensures responseFormat != "string" ==> out == response
  {
    if responseFormat == "string" then
      if IsObjectTypeof(response) then Str(stringify(response)) else Str(ToJsString(response))
    else response
  }
}
