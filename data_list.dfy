/**
 * The data list view: one `fetch` of the totals per budget, the transform of
 * the response's entries into list items, its `loading`/`error` flags, and the
 * screen selection.
 */
module DataList {
  import opened Wrappers
  import opened JsValues

  const DataUrl := "http://localhost:8080/data/totalexpenses-by-budget"
  const NotOkMessage := "Network response was not ok"
  /** The TypeError message of `Object.entries(null)`. */
  const NullEntriesMessage := "Cannot convert undefined or null to object"

  /**
   * How the `fetch` settles: a network failure with its message, or a response
   * with its `ok` flag and the outcome of parsing its body as JSON.
   */
  datatype FetchOutcome = NetworkFailure(message: string) | Response(ok: bool, json: Remote<Value>)

  /** A list item `{ string: key, int: value }`. */
  datatype Item = Item(name: string, amount: Value)

  /** `entries.map(([key, value]) => ({ string: key, int: value }))` */
  function Transform(entries: seq<Prop>): (r: seq<Item>)
    ensures |r| == |entries|
    ensures forall i :: 0 <= i < |entries| ==> r[i] == Item(entries[i].key, entries[i].val)
  {
    if entries == [] then [] else [Item(entries[0].key, entries[0].val)] + Transform(entries[1..])
  }

  /** What the promise chain settles with: the items, or the message of the error it caught. */
  function Outcome(o: FetchOutcome): (r: Remote<seq<Item>>)
    ensures o.NetworkFailure? ==> r == Err(o.message)
    ensures o.Response? && !o.ok ==> r == Err(NotOkMessage)
    ensures o.Response? && o.ok && o.json.Err? ==> r == Err(o.json.message)
    ensures o.Response? && o.ok && o.json.Ok? && (o.json.value.Null? || o.json.value.Undefined?) ==>
      r == Err(NullEntriesMessage)
    ensures o.Response? && o.ok && o.json.Ok? && o.json.value.Obj? ==> r == Ok(Transform(o.json.value.props))
  {
    match o
    case NetworkFailure(message) => Err(message)
    case Response(ok, json) =>
      if !ok then Err(NotOkMessage)
      else match json
        case Err(message) => Err(message)
        case Ok(data) =>
          if data.Null? || data.Undefined? then Err(NullEntriesMessage) else Ok(Transform(Entries(data)))
  }

  datatype Screen = Loading | Failed(message: string) | List(items: seq<Item>)

  /**
   * The screen: loading first, then an error (an error object is always
   * truthy, even with an empty message), then the list; an empty list is
   * still a list.
   */
  function Render(loading: bool, error: Option<string>, data: seq<Item>): (r: Screen)
    ensures r.Loading? <==> loading
    ensures r.Failed? <==> !loading && error.Some?
    ensures r.List? <==> !loading && error.None?
    ensures r.Failed? ==> r.message == error.value
    ensures r.List? ==> r.items == data && |r.items| == |data|
  {
    if loading then Loading
    else if error.Some? then Failed(error.value)
    else List(data)
  }

  datatype ListState = ListState(data: seq<Item>, loading: bool, error: Option<string>)

  class DataListView {
    var data: seq<Item>
    var loading: bool
    /** The message of the caught error object, `None` for `null`. */
    var error: Option<string>

    function State(): ListState
      reads this
    {
      ListState(data, loading, error)
    }

    function Screen(): Screen
      reads this
    {
      Render(loading, error, data)
    }

    constructor ()
      ensures State() == ListState([], true, None) && Screen() == Loading
    {
      data, loading, error := [], true, None;
    }

    /**
     * The mount effect; returns the URL it fetches. Success stores the items
     * and ends loading; any failure stores the error and ends loading, and the
     * list keeps its old items.
     */
    method Load(o: FetchOutcome) returns (url: string)
      modifies this
      ensures url == DataUrl
      ensures Outcome(o).Ok? ==> State() == ListState(Outcome(o).value, false, old(error))
      ensures Outcome(o).Err? ==> State() == old(State()).(loading := false, error := Some(Outcome(o).message))
      ensures o.Response? && !o.ok ==> Screen() == Failed(NotOkMessage)
      ensures old(error).None? && o.Response? && o.ok && o.json.Ok? && o.json.value.Obj? ==>
        Screen() == List(Transform(o.json.value.props))
    {
      url := DataUrl;
      match Outcome(o)
      case Ok(items) =>
        data := items;
        loading := false;
      case Err(message) =>
        error := Some(message);
        loading := false;
    }
  }
}
