/** The read-side copy of the registry (`ResponseScheduler` and the loop in
    `toResponseScheduler`, scheduler.go). */
module Listing {
  import opened Detail

  /** One listed pair: a key and the instant it is due. */
  datatype ResponseScheduler = ResponseScheduler(key: string, time: int)

  /** The pairs listed for an entry slice: one per slice element, in slice
      order, carrying that element's key and due instant. */
  function Snapshot(s: seq<DetailScheduler>): (r: seq<ResponseScheduler>)
    ensures |r| == |s|
    ensures forall i :: 0 <= i < |s| ==> r[i].key == s[i].key && r[i].time == s[i].dateTime
  {
    if s == [] then []
    else Snapshot(s[..|s| - 1]) + [ResponseScheduler(s[|s| - 1].key, s[|s| - 1].dateTime)]
  }
}
