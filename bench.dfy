/** Per-run latency instrumentation over a monotone logical clock. */
module Bench {
  import opened Results

  /** The (overall, network, wait) triple that `latency()` returns. */
  datatype Latency = LatencyOf(overall: int, network: int, wait: int)

  /** A monotone logical clock standing in for the process-wide performance counter. */
  class Clock {
    var now: int

    constructor (start: int)
      ensures now == start
    {
      now := start;
    }

    /** A reading is never earlier than any reading before it. */
    method Read() returns (t: int)
      modifies this
      ensures old(now) <= t && now == t
    {
      now := now + 1;
      t := now;
    }
  }

  /** Six timestamps of one run; each starts unset and is set once. */
  class BenchTest {
    var init: Option<int>
    var startSend: Option<int>
    var endSend: Option<int>
    var startRecv: Option<int>
    var endRecv: Option<int>
    var done: Option<int>

    constructor ()
      ensures init.None? && startSend.None? && endSend.None?
      ensures startRecv.None? && endRecv.None? && done.None?
    {
      init, startSend, endSend := None, None, None;
      startRecv, endRecv, done := None, None, None;
    }

    predicate Complete()
      reads this
    {
      init.Some? && startSend.Some? && endSend.Some? && startRecv.Some? && endRecv.Some? && done.Some?
    }

    /** The timestamps were taken in the order the run takes them. */
    predicate Ordered()
      reads this
    {
      Complete() &&
      init.value <= startSend.value <= endSend.value <= startRecv.value <= endRecv.value <= done.value
    }

    /** Subtracting an unset timestamp is a TypeError; otherwise the three differences. */
    function Latency(): (r: Result<Latency>)
      reads this
      ensures r.Ok? <==> Complete()
      ensures r.Err? ==> r.error == TypeError
    {
      if !Complete() then Err(TypeError)
      else Ok(LatencyOf(done.value - init.value,
                        endRecv.value - startSend.value,
                        startRecv.value - endSend.value))
    }
  }

  /** Timestamps taken in order give 0 <= wait <= network <= overall. */
  lemma LatencyBounds(t: BenchTest)
    requires t.Ordered()
    ensures t.Latency().Ok?
    ensures 0 <= t.Latency().value.wait <= t.Latency().value.network <= t.Latency().value.overall
  {
  }
}
