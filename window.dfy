/** The bounded sample window of the actuation tester.

    Each of the four windows is a list of float samples, oldest first, that
    starts as ten zeros and is updated by pushing the new sample at the back
    and popping the front once the list has grown past ten elements. */
module SlidingWindow {

  /** Number of samples a window holds (the literal 10 of the source). */
  const Capacity: nat := 10

  /** `count` copies of `value`: the contents of a list built as `(count, value)`. */
  function Repeat(value: real, count: nat): (r: seq<real>)
    ensures |r| == count
    ensures forall i :: 0 <= i < count ==> r[i] == value
  {
    if count == 0 then [] else Repeat(value, count - 1) + [value]
  }

  /** The last `n` elements of `s`, or all of `s` when it is shorter.
      This is what a window means, independently of how it is updated:
      the most recent samples of everything it has ever received. */
  function Newest(s: seq<real>, n: nat): (r: seq<real>)
    ensures |r| == if |s| <= n then |s| else n
    ensures forall i :: 0 <= i < |r| ==> r[i] == s[|s| - |r| + i]
  {
    if |s| <= n then s else s[|s| - n..]
  }

  /** One update of a window: push `v` at the back, then pop the front
      when the list has become longer than `Capacity`. */
  function Pushed(w: seq<real>, v: real): (r: seq<real>)
    ensures |w| < Capacity ==> r == w + [v]
    ensures |w| >= Capacity ==> r == w[1..] + [v]
    ensures |w| <= Capacity ==> |r| <= Capacity
    ensures |w| == Capacity ==> |r| == Capacity
  {
    var grown := w + [v];
    if |grown| > Capacity then grown[1..] else grown
  }

  /** The window after receiving the samples of `xs`, first to last. */
  function AppendAll(w: seq<real>, xs: seq<real>): (r: seq<real>)
    decreases |xs|
  {
    if xs == [] then w else AppendAll(Pushed(w, xs[0]), xs[1..])
  }

  /** Appending one more sample after a run is one more push/pop step. */
  lemma {:induction false} AppendAllSnoc(w: seq<real>, xs: seq<real>, x: real)
    ensures AppendAll(w, xs + [x]) == Pushed(AppendAll(w, xs), x)
    decreases |xs|
  {
    if xs == [] {
      assert [x][1..] == [];
    } else {
      assert (xs + [x])[1..] == xs[1..] + [x];
      AppendAllSnoc(Pushed(w, xs[0]), xs[1..], x);
    }
  }

  /** One push/pop step keeps a window equal to the newest `Capacity`
      samples of its whole history. */
  lemma PushedKeepsNewest(s: seq<real>, v: real)
    ensures Pushed(Newest(s, Capacity), v) == Newest(s + [v], Capacity)
  {
  }

  /** Any run of appends keeps a window equal to the newest `Capacity`
      samples of its whole history. */
  lemma {:induction false} AppendAllKeepsNewest(s: seq<real>, xs: seq<real>)
    ensures AppendAll(Newest(s, Capacity), xs) == Newest(s + xs, Capacity)
    decreases |xs|
  {
    if xs == [] {
      assert s + xs == s;
    } else {
      var grown := s + [xs[0]];
      calc {
        AppendAll(Newest(s, Capacity), xs);
        AppendAll(Pushed(Newest(s, Capacity), xs[0]), xs[1..]);
        { PushedKeepsNewest(s, xs[0]); }
        AppendAll(Newest(grown, Capacity), xs[1..]);
        { AppendAllKeepsNewest(grown, xs[1..]); }
        Newest(grown + xs[1..], Capacity);
        { assert grown + xs[1..] == s + xs; }
        Newest(s + xs, Capacity);
      }
    }
  }

  /** From the initial ten zeros, after any samples `xs` the window holds
      exactly `Capacity` elements: the newest ones of the zeros followed by `xs`. */
  lemma WindowAfter(xs: seq<real>)
    ensures AppendAll(Repeat(0.0, Capacity), xs) == Newest(Repeat(0.0, Capacity) + xs, Capacity)
    ensures |AppendAll(Repeat(0.0, Capacity), xs)| == Capacity
  {
    var zeros := Repeat(0.0, Capacity);
    assert Newest(zeros, Capacity) == zeros;
    AppendAllKeepsNewest(zeros, xs);
  }

  /** Receiving `Capacity` copies of `v` leaves any window of at most
      `Capacity` elements holding only `v`. */
  lemma FilledWith(w: seq<real>, v: real)
    requires |w| <= Capacity
    ensures AppendAll(w, Repeat(v, Capacity)) == Repeat(v, Capacity)
  {
    assert Newest(w, Capacity) == w;
    AppendAllKeepsNewest(w, Repeat(v, Capacity));
    var all := w + Repeat(v, Capacity);
    assert Newest(all, Capacity) == all[|w|..];
    assert all[|w|..] == Repeat(v, Capacity);
  }

  /** One of the four lists. `samples` runs from oldest to newest. */
  class Window {
    var samples: seq<real>

    /** A list of `count` copies of `value`. */
    constructor Filled(count: nat, value: real)
      ensures samples == Repeat(value, count)
    {
      samples := Repeat(value, count);
    }

    /** `push_back(v)`, then `pop_front()` if the size exceeds `Capacity`. */
    method Append(v: real)
      modifies this
      ensures samples == Pushed(old(samples), v)
    {
      samples := samples + [v];
      if |samples| > Capacity {
        samples := samples[1..];
      }
    }
  }
}
