/** The record a distance sensor produces, and the sequence helpers the
    window and the chart share. */
module Measurements {

  /** The conventional optional value; `None` stands for JavaScript's
      `undefined` (the classifier's absent distance) and for the `null` of
      an empty window's `latestMeasurement`. */
  datatype Option<+T> = None | Some(value: T)

  /** The `datos_sensor` payload of a row: the distance in centimetres and
      the device's own alert flag. */
  datatype SensorData = SensorData(distanceCm: real, alert: bool)

  /** One row of the `mediciones_distancia` table. `createdAt` is the
      already-parsed timestamp of the row. */
  datatype Measurement = Measurement(
    id: int,
    createdAt: int,
    deviceId: string,
    sensorData: SensorData)

  function Distance(m: Measurement): real
  {
    m.sensorData.distanceCm
  }

  /** The reversed copy `[...s].reverse()`: last element first. */
  function Reverse<T>(s: seq<T>): (r: seq<T>)
    ensures |r| == |s|
  {
    if s == [] then [] else [s[|s| - 1]] + Reverse(s[..|s| - 1])
  }

  /** Element `k` of the reversed copy is element `|s| - 1 - k` of the original. */
  lemma {:induction false} ReverseAt<T>(s: seq<T>, k: int)
    requires 0 <= k < |s|
    ensures Reverse(s)[k] == s[|s| - 1 - k]
  {
    if k > 0 {
      ReverseAt(s[..|s| - 1], k - 1);
    }
  }

  /** Reversing is characterised pointwise: same length, mirrored indices. */
  lemma ReverseIsMirror<T>(s: seq<T>)
    ensures |Reverse(s)| == |s|
    ensures forall k :: 0 <= k < |s| ==> Reverse(s)[k] == s[|s| - 1 - k]
  {
    forall k | 0 <= k < |s|
      ensures Reverse(s)[k] == s[|s| - 1 - k]
    {
      ReverseAt(s, k);
    }
  }

  /** Reversing twice gives back the original sequence. */
  lemma ReverseReverse<T>(s: seq<T>)
    ensures Reverse(Reverse(s)) == s
  {
    ReverseIsMirror(s);
    ReverseIsMirror(Reverse(s));
  }

  /** Reversal keeps exactly the same elements, each as often as before. */
  lemma ReverseSameElements<T>(s: seq<T>)
    ensures multiset(Reverse(s)) == multiset(s)
    ensures forall x :: x in Reverse(s) <==> x in s
  {
    ReverseMultiset(s);
    forall x
      ensures x in Reverse(s) <==> x in s
    {
      assert x in Reverse(s) <==> x in multiset(Reverse(s));
      assert x in s <==> x in multiset(s);
    }
  }

  lemma {:induction false} ReverseMultiset<T>(s: seq<T>)
    ensures multiset(Reverse(s)) == multiset(s)
  {
    if s != [] {
      var pre, last := s[..|s| - 1], s[|s| - 1];
      ReverseMultiset(pre);
      assert Reverse(s) == [last] + Reverse(pre);
      assert s == pre + [last];
      assert multiset(s) == multiset(pre) + multiset{last};
    }
  }

  /** Rows arrive newest first: timestamps never increase along the sequence. */
  predicate NewestFirst(s: seq<Measurement>)
  {
    forall i, j :: 0 <= i < j < |s| ==> s[i].createdAt >= s[j].createdAt
  }

  /** Chronological order, as the time axis wants it. */
  predicate OldestFirst(s: seq<Measurement>)
  {
    forall i, j :: 0 <= i < j < |s| ==> s[i].createdAt <= s[j].createdAt
  }

  /** Reversing a newest-first sequence yields a chronological one. */
  lemma ReverseOfNewestFirst(s: seq<Measurement>)
    requires NewestFirst(s)
    ensures OldestFirst(Reverse(s))
  {
    ReverseIsMirror(s);
  }
}
