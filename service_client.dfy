/**
 * What every service function of the client shares: the API root taken from
 * the environment, the shape of an HTTP request, and the normalisation of an
 * axios outcome into a resolved value or an `Error` message
 * (`.then(r => r.data).catch(e => { throw new Error(e.response?.data || fallback) })`).
 */
module ServiceClient {
  import opened Wrappers
  import opened JsValues

  datatype Verb = Get | Post | Put | Delete

  /** An HTTP request as axios is asked to send it: verb, full URL, body and query parameters. */
  datatype Request = Request(verb: Verb, url: string, body: Option<Value>, params: seq<Prop>)

  /**
   * How an axios call settles: with the response body, or with an error whose
   * `response?.data` is given (`undefined` when no response arrived).
   */
  datatype AxiosOutcome = Resolved(data: Value) | Rejected(responseData: Value)

  const DefaultHost := "http://localhost:8080"

  /** `process.env.REACT_APP_API_URL || 'http://localhost:8080'` */
  function ApiRoot(env: Option<string>): (r: string)
    ensures env.Some? && env.value != "" ==> r == env.value
    ensures env.None? || env.value == "" ==> r == DefaultHost
  {
    if env.Some? && env.value != "" then env.value else DefaultHost
  }

  /** The promise a service function returns, given how its axios call settled. */
  function Settle(o: AxiosOutcome, fallback: string): (r: Remote<Value>)
    ensures r.Ok? <==> o.Resolved?
  {
    match o
    case Resolved(data) => Ok(data)
    case Rejected(data) => Err(if Truthy(data) then JsString(data) else fallback)
  }

  /**
   * A resolved call hands back the response body unchanged; a rejected one
   * carries the server's data as its message when that data is truthy, and the
   * operation's fallback when it is missing, null, empty, zero or false.
   */
  lemma SettleCases(o: AxiosOutcome, fallback: string)
    ensures o.Resolved? ==> Settle(o, fallback) == Ok(o.data)
    ensures o.Rejected? && Truthy(o.responseData) ==> Settle(o, fallback) == Err(JsString(o.responseData))
    ensures o.Rejected? && !Truthy(o.responseData) ==> Settle(o, fallback) == Err(fallback)
    ensures o.Rejected? && o.responseData.Str? && o.responseData.s != "" ==>
      Settle(o, fallback) == Err(o.responseData.s)
  {
  }

  /**
   * With a non-empty fallback, the only rejection whose message is empty is
   * one whose server data is an array (arrays are truthy but `[]` renders as "").
   */
  lemma EmptyMessageOnlyFromArray(o: AxiosOutcome, fallback: string)
    requires fallback != ""
    ensures Settle(o, fallback).Err? && Settle(o, fallback).message == "" ==>
      o.Rejected? && o.responseData.Arr?
  {
    if o.Rejected? && Truthy(o.responseData) && !o.responseData.Arr? {
      TruthyNonArrayRendersNonEmpty(o.responseData);
    }
  }
}
