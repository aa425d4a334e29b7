/** The live response-time chart (dashboard/src/components/LiveChart.js):
    a sliding window of at most 30 points fed by the WebSocket. Each message
    carries a timestamp in seconds and a response time, which are parameters
    here. */
module LiveChart {
  import opened Text
  import opened JsValues

  /** Points kept from before a new one arrives (`prev.slice(-29)`). */
  const Kept := 29

  /** The window's capacity. */
  const Capacity := Kept + 1

  /** A chart point: `x` is the sample time in milliseconds (the `Date`
      built from `timestamp * 1000`), `y` the response time as received. */
  datatype Point = Point(x: int, y: JsValue)

  /** The window after one message, as a value: the last 29 old points and
      then the new one. */
  function Slide(window: seq<Point>, p: Point): (w: seq<Point>)
    ensures 0 < |w| <= Capacity && w[|w| - 1] == p
    ensures |window| < Capacity ==> w == window + [p]
    ensures |window| == Capacity ==> w == window[1..] + [p]
    ensures w[..|w| - 1] == window[|window| - (|w| - 1)..]
  {
    LastN(window, Kept) + [p]
  }

  /** Sliding keeps the newest points in arrival order: the window after
      a run of messages is the last (at most) 30 of everything received. */
  lemma {:induction false} SlideKeepsSuffix(window: seq<Point>, ps: seq<Point>)
    requires |window| <= Capacity
    ensures SlideAll(window, ps) == LastN(window + ps, Capacity)
    decreases |ps|
  {
    if ps != [] {
      var w' := Slide(window, ps[0]);
      SlideKeepsSuffix(w', ps[1..]);
      SlideThenTail(window, ps);
    }
  }

  /** Dropping the points `Slide` evicts does not change the last 30 of
      what follows. */
  lemma SlideThenTail(window: seq<Point>, ps: seq<Point>)
    requires ps != []
    ensures LastN(Slide(window, ps[0]) + ps[1..], Capacity) == LastN(window + ps, Capacity)
  {
    var l := LastN(window, Kept);
    var pre := window[..|window| - |l|];
    assert Slide(window, ps[0]) + ps[1..] == l + ps;
    assert window + ps == pre + (l + ps);
    LastNOfSuffix(pre, l + ps, Capacity);
  }

  /** Taking the last `n` of a sequence ignores a prefix when the rest is
      long enough or the prefix is empty. */
  lemma LastNOfSuffix<T>(pre: seq<T>, rest: seq<T>, n: nat)
    requires pre == [] || |rest| >= n
    ensures LastN(pre + rest, n) == LastN(rest, n)
  {
    if pre != [] {
      assert (pre + rest)[|pre + rest| - n..] == rest[|rest| - n..];
    }
  }

  /** The window after a run of messages, one `Slide` each. */
  function SlideAll(window: seq<Point>, ps: seq<Point>): (w: seq<Point>)
    decreases |ps|
  {
    if ps == [] then window else SlideAll(Slide(window, ps[0]), ps[1..])
  }

  class Chart {
    var dataPoints: seq<Point>

    ghost predicate Valid()
      reads this
    {
      |dataPoints| <= Capacity
    }

    constructor ()
      ensures Valid() && dataPoints == []
    {
      dataPoints := [];
    }

    /** `socket.onmessage`: the point built from the message joins the
        window, evicting the oldest when 30 are already shown. */
    method OnMessage(timestamp: int, responseTime: JsValue)
      requires Valid()
      modifies this
      ensures Valid()
      ensures dataPoints == Slide(old(dataPoints), Point(timestamp * 1000, responseTime))
      ensures dataPoints[|dataPoints| - 1] == Point(timestamp * 1000, responseTime)
      ensures |old(dataPoints)| < Capacity ==> |dataPoints| == |old(dataPoints)| + 1
    {
      dataPoints := LastN(dataPoints, Kept) + [Point(timestamp * 1000, responseTime)];
    }
  }
}
