/** Sums over stretches of a log. */
module Totals {
  /** The sizes of the entries from index `from` up to, not including, `to`. */
  function Total<T>(size: T -> nat, log: seq<T>, from: nat, to: nat): nat
    requires to <= |log|
  {
    if from >= to then 0 else Total(size, log, from, to - 1) + size(log[to - 1])
  }

  lemma {:induction false} TotalPrefix<T>(size: T -> nat, log: seq<T>, more: seq<T>, from: nat, to: nat)
    requires to <= |log|
    ensures Total(size, log + more, from, to) == Total(size, log, from, to)
  {
    if from < to {
      TotalPrefix(size, log, more, from, to - 1);
    }
  }

  lemma TotalSnoc<T>(size: T -> nat, log: seq<T>, x: T, from: nat)
    requires from <= |log|
    ensures Total(size, log + [x], from, |log| + 1) == Total(size, log, from, |log|) + size(x)
  {
    TotalPrefix(size, log, [x], from, |log|);
  }

  lemma {:induction false} TotalFromFirst<T>(size: T -> nat, log: seq<T>, from: nat, to: nat)
    requires from < to <= |log|
    ensures Total(size, log, from, to) == size(log[from]) + Total(size, log, from + 1, to)
  {
    if from + 1 < to {
      TotalFromFirst(size, log, from, to - 1);
    }
  }

  lemma {:induction false} TotalGrows<T>(size: T -> nat, log: seq<T>, from: nat, mid: nat, to: nat)
    requires mid <= to <= |log|
    ensures Total(size, log, from, mid) <= Total(size, log, from, to)
  {
    if mid < to {
      TotalGrows(size, log, from, mid, to - 1);
    }
  }

  /** The sizes of the entries whose key lies in a window. */
  function Between<T>(size: T -> nat, key: T -> real, log: seq<T>, a: real, b: real): nat {
    if log == [] then 0
    else
      var x := log[|log| - 1];
      Between(size, key, log[..|log| - 1], a, b) + if a <= key(x) <= b then size(x) else 0
  }

  /** They lie between the first and the last entry of the window. */
  lemma {:induction false} WindowStretch<T>(size: T -> nat, key: T -> real, log: seq<T>, a: real, b: real)
    returns (lo: nat, hi: nat)
    ensures hi <= |log| && Between(size, key, log, a, b) <= Total(size, log, lo, hi)
    ensures lo < hi ==> a <= key(log[lo]) && key(log[hi - 1]) <= b
    ensures lo >= hi ==> Between(size, key, log, a, b) == 0
  {
    lo, hi := 0, 0;
    if log != [] {
      var n := |log| - 1;
      var front := log[..n];
      lo, hi := WindowStretch(size, key, front, a, b);
      assert front + [log[n]] == log;
      TotalPrefix(size, front, [log[n]], lo, hi);
      if a <= key(log[n]) <= b {
        if lo < hi {
          TotalGrows(size, log, lo, hi, n);
        } else {
          lo := n;
        }
        hi := n + 1;
      }
    }
  }
}
