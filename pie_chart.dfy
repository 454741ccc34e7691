/** The generic pie chart: the `data` prop projected onto labels and values. */
module PieChart {
  import opened JsValues
  import opened Records

  datatype PieSeries = PieSeries(labels: seq<Value>, values: seq<Value>)

  /**
   * `data.map(item => item.category)` and `data.map(item => item.amount)`:
   * one label and one value per item, in order, and nothing for no items.
   */
  function SeriesOf(data: seq<Value>): (r: PieSeries)
    ensures |r.labels| == |data| && |r.values| == |data|
    ensures forall i :: 0 <= i < |data| ==> r.labels[i] == Get(data[i], "category") && r.values[i] == Get(data[i], "amount")
    ensures data == [] ==> r == PieSeries([], [])
  {
    PieSeries(Pluck(data, "category"), Pluck(data, "amount"))
  }
}
