/** Small vocabulary shared by every module: optional values, fallible results,
    and counting the elements of a sequence that satisfy a predicate. */
module Basics {
  datatype Option<+T> = None | Some(value: T)

  /** The outcome of a statement that may return a Go `error`. */
  datatype Result<+T> = Ok(value: T) | Err

  function Max(a: nat, b: nat): nat {
    if a < b then b else a
  }

  function CountIf<T>(p: T -> bool, s: seq<T>): nat {
    if s == [] then 0
    else CountIf(p, s[..|s| - 1]) + if p(s[|s| - 1]) then 1 else 0
  }

  /** Two sequences that agree on `p` everywhere but at `i`. */
  lemma {:induction false} CountChange<T>(p: T -> bool, s: seq<T>, s': seq<T>, i: nat)
    requires i < |s| == |s'|
    requires forall j :: 0 <= j < |s| && j != i ==> p(s[j]) == p(s'[j])
    ensures CountIf(p, s') + (if p(s[i]) then 1 else 0) == CountIf(p, s) + if p(s'[i]) then 1 else 0
  {
    var n := |s| - 1;
    if i == n {
      CountSame(p, s[..n], s'[..n]);
    } else {
      CountChange(p, s[..n], s'[..n], i);
    }
  }

  lemma {:induction false} CountSame<T>(p: T -> bool, s: seq<T>, s': seq<T>)
    requires |s| == |s'| && forall j :: 0 <= j < |s| ==> p(s[j]) == p(s'[j])
    ensures CountIf(p, s') == CountIf(p, s)
  {
    if s != [] {
      CountSame(p, s[..|s| - 1], s'[..|s| - 1]);
    }
  }

  lemma {:induction false} CountZero<T>(p: T -> bool, s: seq<T>)
    ensures CountIf(p, s) == 0 <==> forall i :: 0 <= i < |s| ==> !p(s[i])
  {
    if s != [] {
      CountZero(p, s[..|s| - 1]);
      assert s == s[..|s| - 1] + [s[|s| - 1]];
    }
  }

  lemma {:induction false} CountConcat<T>(p: T -> bool, s: seq<T>, t: seq<T>)
    ensures CountIf(p, s + t) == CountIf(p, s) + CountIf(p, t)
  {
    if t == [] {
      assert s + t == s;
    } else {
      var n := |t| - 1;
      assert (s + t)[..|s| + n] == s + t[..n];
      CountConcat(p, s, t[..n]);
    }
  }

  /** 1 if there is a place `i` in `s` and `p` holds there. */
  function At<T>(p: T -> bool, s: seq<T>, i: int): nat {
    if 0 <= i < |s| && p(s[i]) then 1 else 0
  }

  /** A sequence that changes at `i` (or nowhere, if `i` is no index) and grows by
      elements that do not count. */
  lemma CountMoves<T>(p: T -> bool, s: seq<T>, s': seq<T>, i: int)
    requires i < |s| <= |s'|
    requires forall j :: 0 <= j < |s| && j != i ==> p(s[j]) == p(s'[j])
    requires forall j :: |s| <= j < |s'| ==> !p(s'[j])
    ensures CountIf(p, s') + At(p, s, i) == CountIf(p, s) + At(p, s', i)
  {
    var head, tail := s'[..|s|], s'[|s|..];
    assert s' == head + tail;
    CountConcat(p, head, tail);
    CountZero(p, tail);
    if 0 <= i { CountChange(p, s, head, i); } else { CountSame(p, s, head); }
  }

  lemma PutSize<K, V>(m: map<K, V>, k: K, v: V)
    ensures |m[k := v]| == |m| + if k in m then 0 else 1
  {
    assert m[k := v].Keys == m.Keys + {k};
    assert k in m ==> m.Keys + {k} == m.Keys;
  }

  lemma DropSize<K, V>(m: map<K, V>, k: K)
    requires k in m
    ensures |m - {k}| == |m| - 1
  {
    assert (m - {k}).Keys == m.Keys - {k};
  }
}
