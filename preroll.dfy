/**
 * The pre-roll buffer: a deque with a maximum length. Appending to a full
 * deque drops its oldest element; with maximum length 0 nothing is kept.
 */
module PreRoll {
  import opened Common

  function Min(a: int, b: int): int { if a < b then a else b }

  /** The last `min(capacity, |s|)` elements of `s`, in their original order. */
  function Newest(s: seq<Frame>, capacity: nat): (r: seq<Frame>)
    ensures |r| == Min(capacity, |s|)
  {
    s[|s| - Min(capacity, |s|)..]
  }

  /** `deque.append` on a deque of maximum length `capacity`. */
  function Push(buffer: seq<Frame>, x: Frame, capacity: nat): seq<Frame> {
    Newest(buffer + [x], capacity)
  }

  /** Pushing each of `xs` in turn. */
  function PushAll(buffer: seq<Frame>, xs: seq<Frame>, capacity: nat): seq<Frame>
    decreases |xs|
  {
    if xs == [] then buffer else PushAll(Push(buffer, xs[0], capacity), xs[1..], capacity)
  }

  /**
   * One append never lets the buffer exceed its capacity, keeps the new frame
   * last when the capacity is positive, and drops the oldest frame exactly when
   * the buffer was already full.
   */
  lemma PushBounded(buffer: seq<Frame>, x: Frame, capacity: nat)
    requires |buffer| <= capacity
    ensures var r := Push(buffer, x, capacity);
      && |r| <= capacity
      && (capacity > 0 ==> |r| > 0 && r[|r| - 1] == x)
      && (|buffer| < capacity ==> r == buffer + [x])
      && (0 < capacity == |buffer| ==> r == buffer[1..] + [x])
  {
    var r := Push(buffer, x, capacity);
    if 0 < capacity == |buffer| {
      assert r == (buffer + [x])[1..];
    }
  }

  /**
   * After any sequence of appends to an empty buffer, it holds exactly the
   * `min(capacity, k)` most recent frames, in the order they were appended.
   */
  lemma {:induction false} PushAllKeepsNewest(buffer: seq<Frame>, xs: seq<Frame>, capacity: nat)
    requires buffer == Newest(buffer, capacity)
    ensures PushAll(buffer, xs, capacity) == Newest(buffer + xs, capacity)
    decreases |xs|
  {
    if xs != [] {
      var b1 := Push(buffer, xs[0], capacity);
      assert Newest(b1, capacity) == b1;
      PushAllKeepsNewest(b1, xs[1..], capacity);
      AppendNewest(buffer, xs, capacity);
    }
  }

  /** Trimming after each append equals trimming once at the end. */
  lemma AppendNewest(buffer: seq<Frame>, xs: seq<Frame>, capacity: nat)
    requires xs != []
    requires buffer == Newest(buffer, capacity)
    ensures Newest(Newest(buffer + [xs[0]], capacity) + xs[1..], capacity) == Newest(buffer + xs, capacity)
  {
    var t := Newest(buffer + [xs[0]], capacity);
    var a := Newest(t + xs[1..], capacity);
    var b := Newest(buffer + xs, capacity);
    assert buffer + xs == (buffer + [xs[0]]) + xs[1..];
    assert |a| == |b|;
    forall i | 0 <= i < |a| ensures a[i] == b[i] {
      var u := buffer + [xs[0]];
      var j := |t + xs[1..]| - |a| + i;
      var k := |buffer + xs| - |b| + i;
      if j < |t| {
        assert a[i] == t[j] == u[|u| - |t| + j];
        assert |u| - |t| + j == k;
      } else {
        assert a[i] == xs[1..][j - |t|];
      }
    }
  }

  /** Ties a buffer of pushes from empty to the last frames pushed. */
  lemma PushAllFromEmpty(xs: seq<Frame>, capacity: nat)
    ensures PushAll([], xs, capacity) == xs[|xs| - Min(capacity, |xs|)..]
  {
    assert Newest([], capacity) == [];
    PushAllKeepsNewest([], xs, capacity);
    assert [] + xs == xs;
  }
}
