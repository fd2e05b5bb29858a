/** Unbroken runs in a stream of marks: the common ground of the online timers and the offline
    duration. */
module Runs {

  /** `Joined` extends a run that the previous entry is part of, `Fresh` can only begin one. */
  datatype Mark = Cold | Fresh | Joined

  /** Entries `i` to `n` form one unbroken run. */
  ghost predicate Window(marks: seq<Mark>, i: int, n: int) {
    && 0 <= i <= n < |marks|
    && marks[i] != Cold
    && forall k :: i < k <= n ==> marks[k] == Joined
  }

  /** Where the run that ends at `n` begins. */
  function Start(marks: seq<Mark>, n: nat): (i: nat)
    requires n < |marks|
    ensures i <= n
  {
    if n > 0 && marks[n] == Joined && marks[n - 1] != Cold then Start(marks, n - 1) else n
  }

  lemma {:induction false} StartIsMaximal(marks: seq<Mark>, n: nat)
    requires n < |marks| && marks[n] != Cold
    ensures Window(marks, Start(marks, n), n)
    ensures forall i :: Window(marks, i, n) ==> Start(marks, n) <= i
  {
    if n > 0 && marks[n] == Joined && marks[n - 1] != Cold {
      StartIsMaximal(marks, n - 1);
      forall i | Window(marks, i, n)
        ensures Start(marks, n) <= i
      {
        if i < n {
          assert Window(marks, i, n - 1);
        }
      }
    } else {
      forall i | Window(marks, i, n)
        ensures n <= i
      {
      }
    }
  }

  /** Some run that ends at `n` lasts at least `d`. */
  ghost predicate Lasts(marks: seq<Mark>, times: seq<real>, n: int, d: real)
    requires |times| == |marks|
  {
    exists i :: Window(marks, i, n) && times[n] - times[i] >= d
  }

  /** Where time does not run backwards inside a run, the run from its start is the longest. */
  lemma LastsFromStart(marks: seq<Mark>, times: seq<real>, n: nat, d: real)
    requires |times| == |marks| && n < |marks| && marks[n] != Cold
    requires forall i :: Window(marks, i, n) ==> times[Start(marks, n)] <= times[i]
    ensures Lasts(marks, times, n, d) <==> times[n] - times[Start(marks, n)] >= d
  {
    StartIsMaximal(marks, n);
  }

  /** A run entry that time moved forward to from its predecessor keeps times in order. */
  lemma {:induction false} TimesOrdered(marks: seq<Mark>, times: seq<real>, i: nat, n: nat)
    requires |times| == |marks| && i <= n < |marks|
    requires forall k :: i < k <= n ==> times[k - 1] <= times[k]
    ensures times[i] <= times[n]
  {
    if i < n {
      TimesOrdered(marks, times, i, n - 1);
    }
  }
}
