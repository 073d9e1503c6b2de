/**
 * The waiting part of `collect_data`, over an abstract clock. `clock` lists
 * the readings of `datetime.now()` in the order they are taken; `clock[0]`
 * is the window's start. A reading "has elapsed" when it is at least
 * `interval` past the start. Running out of readings stands for the process
 * being stopped from outside, the only other way the source's loop ends.
 */
module Clock {
  import opened Wrappers

  /** Readings never go backwards. */
  predicate NonDecreasing(clock: seq<int>) {
    forall i, j :: 0 <= i <= j < |clock| ==> clock[i] <= clock[j]
  }

  /** Whether reading `i` is at least `interval` past the start. */
  predicate HasElapsed(clock: seq<int>, interval: int, i: nat)
    requires 0 < |clock| && i < |clock|
  {
    clock[i] - clock[0] >= interval
  }

  /** How the polling loop ends: readings run out, or an elapsed reading stops it. */
  datatype Wake =
    | Exhausted
    | Elapsed(check: nat)  // the loop test (maps_route.py:107) saw the interval elapsed: no sample
    | Fire(check: nat)     // the test after the sleep (maps_route.py:109) saw it: one sample

  /**
   * The loop of `collect_data` as written, from reading `next` on: each round
   * reads the clock for the loop test, sleeps, and reads it again for the
   * test that takes the sample.
   */
  function AsWritten(clock: seq<int>, interval: int, next: nat): (w: Wake)
    requires 0 < |clock|
    ensures w.Elapsed? ==> next <= w.check < |clock| && HasElapsed(clock, interval, w.check)
    ensures w.Fire? ==> next < w.check < |clock| && HasElapsed(clock, interval, w.check) &&
                        !HasElapsed(clock, interval, w.check - 1)
    decreases |clock| - next
  {
    if next >= |clock| then Exhausted
    else if HasElapsed(clock, interval, next) then Elapsed(next)
    else if next + 1 >= |clock| then Exhausted
    else if HasElapsed(clock, interval, next + 1) then Fire(next + 1)
    else AsWritten(clock, interval, next + 2)
  }

  /** The first reading from `next` on that has elapsed, if any. */
  function FirstElapsed(clock: seq<int>, interval: int, next: nat): Option<nat>
    requires 0 < |clock|
    decreases |clock| - next
  {
    if next >= |clock| then None
    else if HasElapsed(clock, interval, next) then Some(next)
    else FirstElapsed(clock, interval, next + 1)
  }

  /**
   * `FirstElapsed` finds reading `k` exactly when `k` has elapsed and no
   * reading from `next` up to `k` has.
   */
  lemma {:induction false} FirstElapsedIs(clock: seq<int>, interval: int, next: nat, k: nat)
    requires 0 < |clock|
    ensures FirstElapsed(clock, interval, next) == Some(k) <==>
      next <= k < |clock| && HasElapsed(clock, interval, k) &&
      forall j :: next <= j < k ==> !HasElapsed(clock, interval, j)
    decreases |clock| - next
  {
    if next < |clock| && !HasElapsed(clock, interval, next) {
      FirstElapsedIs(clock, interval, next + 1, k);
    }
  }

  /** `FirstElapsed` finds nothing exactly when no reading from `next` on has elapsed. */
  lemma {:induction false} FirstElapsedNone(clock: seq<int>, interval: int, next: nat)
    requires 0 < |clock|
    ensures FirstElapsed(clock, interval, next) == None <==>
      forall j :: next <= j < |clock| ==> !HasElapsed(clock, interval, j)
    decreases |clock| - next
  {
    if next < |clock| && !HasElapsed(clock, interval, next) {
      FirstElapsedNone(clock, interval, next + 1);
    }
  }

  /**
   * The loop as written stops at the first elapsed reading, like the
   * intended one; it takes a sample only when that reading is one of the
   * tests after a sleep (an odd distance from `next`), and returns empty-handed
   * when it is a loop test.
   */
  lemma {:induction false} AsWrittenStopsAtFirst(clock: seq<int>, interval: int, next: nat)
    requires 0 < |clock|
    ensures AsWritten(clock, interval, next) ==
      match FirstElapsed(clock, interval, next)
      case None => Exhausted
      case Some(k) => if (k - next) % 2 == 1 then Fire(k) else Elapsed(k)
    decreases |clock| - next
  {
    if next < |clock| && !HasElapsed(clock, interval, next) && next + 1 < |clock| &&
       !HasElapsed(clock, interval, next + 1) {
      AsWrittenStopsAtFirst(clock, interval, next + 2);
      assert FirstElapsed(clock, interval, next) == FirstElapsed(clock, interval, next + 2);
      match FirstElapsed(clock, interval, next + 2)
      case None =>
      case Some(k) =>
        FirstElapsedIs(clock, interval, next + 2, k);
        assert (k - next) % 2 == (k - (next + 2)) % 2;
    }
  }

  /** With `interval <= 0` the loop test passes at once and the loop as written takes no sample. */
  lemma AsWrittenNonPositiveInterval(clock: seq<int>, interval: int)
    requires 2 <= |clock| && NonDecreasing(clock) && interval <= 0
    ensures AsWritten(clock, interval, 1) == Elapsed(1)
  {
    assert clock[0] <= clock[1];
  }

  /** With `interval <= 0` the intended loop samples after its first sleep. */
  lemma FirstElapsedNonPositiveInterval(clock: seq<int>, interval: int)
    requires 2 <= |clock| && NonDecreasing(clock) && interval <= 0
    ensures FirstElapsed(clock, interval, 1) == Some(1)
  {
    assert clock[0] <= clock[1];
  }

  /**
   * Counterexample: with `interval` 10 and readings 0 (start), 0 (loop test),
   * 9 (test after the sleep), 10 (loop test), 10, the interval elapses
   * between the two tests of one round and the loop as written leaves without
   * sampling; the intended loop samples at reading 3.
   */
  lemma MissedWindow()
    ensures NonDecreasing([0, 0, 9, 10, 10])
    ensures AsWritten([0, 0, 9, 10, 10], 10, 1) == Elapsed(3)
    ensures FirstElapsed([0, 0, 9, 10, 10], 10, 1) == Some(3)
  {
    var c := [0, 0, 9, 10, 10];
    assert AsWritten(c, 10, 1) == AsWritten(c, 10, 3);
    assert FirstElapsed(c, 10, 1) == FirstElapsed(c, 10, 2) == FirstElapsed(c, 10, 3);
  }
}
