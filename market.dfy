/** The candle window the bot keeps for the traded symbol. */
module Market {

  /** One kline row of the exchange, reduced to the three columns the indicators read:
      high (column 2), low (column 3) and close (column 4). */
  datatype Candle = Candle(high: real, low: real, close: real)

  /** The closing prices of a window, in order. */
  function Closes(cs: seq<Candle>): (r: seq<real>)
    ensures |r| == |cs|
    ensures forall i :: 0 <= i < |cs| ==> r[i] == cs[i].close
  {
    if cs == [] then [] else Closes(cs[..|cs| - 1]) + [cs[|cs| - 1].close]
  }

  /** The live-tick merge: the last candle's close becomes the tick price; its high and
      low, and every other candle, are left as they were. */
  function MergeClose(cs: seq<Candle>, price: real): (r: seq<Candle>)
    requires |cs| > 0
    ensures |r| == |cs|
    ensures forall i :: 0 <= i < |cs| - 1 ==> r[i] == cs[i]
    ensures r[|r| - 1].close == price
    ensures r[|r| - 1].high == cs[|cs| - 1].high && r[|r| - 1].low == cs[|cs| - 1].low
  {
    cs[..|cs| - 1] + [cs[|cs| - 1].(close := price)]
  }

  /** After a merge the closes are the old ones with the last replaced by the tick price. */
  lemma MergeCloseCloses(cs: seq<Candle>, price: real)
    requires |cs| > 0
    ensures Closes(MergeClose(cs, price)) == Closes(cs)[..|cs| - 1] + [price]
  {
    var merged := MergeClose(cs, price);
    var want := Closes(cs)[..|cs| - 1] + [price];
    assert forall i :: 0 <= i < |cs| ==> Closes(merged)[i] == want[i];
  }
}
