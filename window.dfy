/** The bounded, newest-first measurement window behind the dashboard's
    `measurements` signal: seeded with the initial batch, then updated by
    prepending each streamed row and dropping the oldest row once the
    window holds more than fifty. */
module Window {
  import opened Measurements

  /** The window keeps at most this many rows after a push. */
  const MaxMeasurements: nat := 50

  function Min(a: int, b: int): int
  {
    if a <= b then a else b
  }

  /** The window after the row `m` arrives: `m` in front, followed by the
      old rows in their old order, of which only the last (the oldest) is
      dropped, and only when the window was already full. */
  function Pushed(window: seq<Measurement>, m: Measurement): (r: seq<Measurement>)
    ensures |r| > 0 && r[0] == m
    ensures r[1..] <= window
    ensures |r| == if |window| < MaxMeasurements then |window| + 1 else |window|
  {
    [m] + window[..if |window| < MaxMeasurements then |window| else |window| - 1]
  }

  /** Pushing onto a window of at most fifty rows yields min(old + 1, 50)
      rows: the cap is an invariant of the window once it holds. */
  lemma PushedKeepsCap(window: seq<Measurement>, m: Measurement)
    requires |window| <= MaxMeasurements
    ensures |Pushed(window, m)| == Min(|window| + 1, MaxMeasurements)
    ensures |Pushed(window, m)| <= MaxMeasurements
  {
  }

  /** Nothing else changes: below the cap the row is simply prepended; at
      the cap the row is prepended and the last (oldest) row is evicted. */
  lemma PushedContents(window: seq<Measurement>, m: Measurement)
    ensures |window| < MaxMeasurements ==> Pushed(window, m) == [m] + window
    ensures |window| == MaxMeasurements ==> Pushed(window, m) == [m] + window[..MaxMeasurements - 1]
  {
  }

  /** No deduplication: the pushed row is added as one more occurrence,
      whether or not a row with its id (or the row itself) is already
      present; at the cap exactly one occurrence of the oldest row leaves. */
  lemma PushedMultiset(window: seq<Measurement>, m: Measurement)
    ensures |window| < MaxMeasurements ==>
      multiset(Pushed(window, m)) == multiset(window) + multiset{m}
    ensures |window| >= MaxMeasurements ==>
      multiset(Pushed(window, m)) == multiset(window) - multiset{window[|window| - 1]} + multiset{m}
  {
    if |window| >= MaxMeasurements {
      var n := |window|;
      assert window == window[..n - 1] + [window[n - 1]];
      assert multiset(window) == multiset(window[..n - 1]) + multiset{window[n - 1]};
    } else {
      assert window[..|window|] == window;
    }
  }

  /** A row whose id is already in the window still lands in front, below
      the cap and at it alike; the earlier row stays unless it is the
      oldest one, which a full window evicts. */
  lemma PushedDuplicateId(window: seq<Measurement>, m: Measurement)
    requires |window| <= MaxMeasurements
    requires exists i :: 0 <= i < Min(|window|, MaxMeasurements - 1) && window[i].id == m.id
    ensures |Pushed(window, m)| == Min(|window| + 1, MaxMeasurements)
    ensures |set i | 0 <= i < |Pushed(window, m)| && Pushed(window, m)[i].id == m.id| >= 2
  {
    var r := Pushed(window, m);
    var i :| 0 <= i < Min(|window|, MaxMeasurements - 1) && window[i].id == m.id;
    assert r[i + 1] == window[i];
    var both := {0, i + 1};
    assert both <= set j | 0 <= j < |r| && r[j].id == m.id;
    assert |both| == 2;
    SubsetCard(both, set j | 0 <= j < |r| && r[j].id == m.id);
  }

  lemma SubsetCard(a: set<int>, b: set<int>)
    requires a <= b
    ensures |a| <= |b|
  {
    assert b == a + (b - a);
  }

  /** The window after the rows `ms` arrive one after another. */
  function PushAll(window: seq<Measurement>, ms: seq<Measurement>): (r: seq<Measurement>)
    ensures ms != [] ==> |r| > 0 && r[0] == ms[|ms| - 1]
    ensures |window| <= MaxMeasurements ==> |r| <= MaxMeasurements
    ensures |r| >= |window|
    decreases |ms|
  {
    if ms == [] then window
    else Pushed(PushAll(window, ms[..|ms| - 1]), ms[|ms| - 1])
  }

  /** After any run of pushes onto a window within the cap, the window
      holds the newest rows, newest first, followed by the old window,
      truncated to the cap: the oldest rows are the ones evicted. */
  lemma {:induction false} PushAllKeepsNewest(window: seq<Measurement>, ms: seq<Measurement>)
    requires |window| <= MaxMeasurements
    ensures PushAll(window, ms) == (Reverse(ms) + window)[..Min(|ms| + |window|, MaxMeasurements)]
  {
    if ms != [] {
      var n := |ms|;
      var pre, last := ms[..n - 1], ms[n - 1];
      PushAllKeepsNewest(window, pre);
      var p := PushAll(window, pre);
      var k := Min(|pre| + |window|, MaxMeasurements);
      var j := Min(|ms| + |window|, MaxMeasurements);
      assert p == (Reverse(pre) + window)[..k];
      assert Reverse(ms) == [last] + Reverse(pre);
      PushedKeepsCap(p, last);
      var r := Pushed(p, last);
      assert |r| == j;
      forall i | 0 <= i < j
        ensures r[i] == (Reverse(ms) + window)[i]
      {
        if i > 0 {
          assert r[i] == p[i - 1];
        }
      }
    }
  }

  /** Fifty-one pushes onto an empty window leave exactly fifty rows: the
      last fifty pushed, newest first, with the first one evicted. */
  lemma FiftyOnePushes(ms: seq<Measurement>)
    requires |ms| == MaxMeasurements + 1
    ensures |PushAll([], ms)| == MaxMeasurements
    ensures PushAll([], ms) == Reverse(ms[1..])
  {
    PushAllKeepsNewest([], ms);
    assert Reverse(ms) + [] == Reverse(ms);
    ReverseIsMirror(ms);
    ReverseIsMirror(ms[1..]);
  }

  /** The `measurements` signal of the dashboard. */
  class MeasurementWindow {
    /** Rows, newest first. */
    var items: seq<Measurement>

    constructor ()
      ensures items == []
    {
      items := [];
    }

    /** `measurements.set(initialData)`: the batch replaces the contents,
        as given and in the given order. */
    method Seed(batch: seq<Measurement>)
      modifies this
      ensures items == batch
    {
      items := batch;
    }

    /** The update closure run for every streamed row: build the array
        with the new row in front, then pop the last element if the array
        has grown beyond the cap. */
    method Push(m: Measurement)
      modifies this
      ensures items == Pushed(old(items), m)
      ensures Latest() == Some(m)
      ensures |old(items)| <= MaxMeasurements ==> |items| <= MaxMeasurements
    {
      var updated := [m] + items;
      if |updated| > MaxMeasurements {
        updated := updated[..|updated| - 1];
      }
      items := updated;
      assert items == Pushed(old(items), m);
      if |old(items)| <= MaxMeasurements {
        PushedKeepsCap(old(items), m);
      }
    }

    /** `latestMeasurement`: the first row, or nothing when the window is empty. */
    function Latest(): (r: Option<Measurement>)
      reads this
      ensures r.None? <==> items == []
      ensures r.Some? ==> r.value == items[0]
    {
      if items == [] then None else Some(items[0])
    }
  }
}
