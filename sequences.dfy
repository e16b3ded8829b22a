/** JavaScript's `flat()` over arrays of arrays, and what its output looks like when
    every inner array has the same length. */
module Sequences {

  /** `xss.flat()`: the inner sequences one after the other. */
  function Flatten<T>(xss: seq<seq<T>>): seq<T> {
    if xss == [] then [] else xss[0] + Flatten(xss[1..])
  }

  predicate Uniform<T>(xss: seq<seq<T>>, k: nat) {
    forall i :: 0 <= i < |xss| ==> |xss[i]| == k
  }

  lemma {:induction false} FlattenAppend<T>(xss: seq<seq<T>>, yss: seq<seq<T>>)
    ensures Flatten(xss + yss) == Flatten(xss) + Flatten(yss)
  {
    if xss != [] {
      assert (xss + yss)[1..] == xss[1..] + yss;
      FlattenAppend(xss[1..], yss);
    } else {
      assert xss + yss == yss;
    }
  }

  /** Flattening `n` records of `k` entries gives `n·k` entries. */
  lemma {:induction false} FlattenLength<T>(xss: seq<seq<T>>, k: nat)
    requires Uniform(xss, k)
    ensures |Flatten(xss)| == k * |xss|
  {
    if xss != [] {
      FlattenLength(xss[1..], k);
      assert k * |xss| == k + k * |xss[1..]|;
    }
  }

  /** Entry `j` of record `i` lands at `k·i + j`. */
  lemma {:induction false} FlattenAt<T>(xss: seq<seq<T>>, k: nat, i: nat, j: nat)
    requires Uniform(xss, k) && i < |xss| && j < k
    ensures k * i + j < |Flatten(xss)| && Flatten(xss)[k * i + j] == xss[i][j]
  {
    FlattenLength(xss, k);
    if i > 0 {
      FlattenAt(xss[1..], k, i - 1, j);
      assert k * i + j == k + (k * (i - 1) + j);
    }
  }

  /** `flat()` keeps every element of every inner sequence and adds nothing. */
  lemma {:induction false} FlattenMembers<T>(xss: seq<seq<T>>, x: T)
    ensures x in Flatten(xss) <==> exists i :: 0 <= i < |xss| && x in xss[i]
  {
    if xss != [] {
      FlattenMembers(xss[1..], x);
      if x in Flatten(xss[1..]) {
        var i :| 0 <= i < |xss[1..]| && x in xss[1..][i];
        assert x in xss[i + 1];
      }
      if exists i :: 0 <= i < |xss| && x in xss[i] {
        var i :| 0 <= i < |xss| && x in xss[i];
        if i > 0 {
          assert x in xss[1..][i - 1];
        }
      }
    }
  }

  /** No element occurs twice. */
  predicate Distinct<T(==)>(s: seq<T>) {
    forall i, j :: 0 <= i < j < |s| ==> s[i] != s[j]
  }
}
