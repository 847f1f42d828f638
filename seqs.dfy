/**
 * Concatenation of per-element pieces: the shape of every check that walks a
 * list and adds zero or more violations per element to an ArrayList.
 */
module Seqs {

  function FlatMap<T, U>(s: seq<T>, f: T -> seq<U>): seq<U>
    decreases |s|
  {
    if s == [] then [] else FlatMap(s[..|s| - 1], f) + f(s[|s| - 1])
  }

  /** One loop step: the pieces of a longer prefix are those of the shorter one plus one more. */
  lemma FlatMapSnoc<T, U>(s: seq<T>, i: nat, f: T -> seq<U>)
    requires i < |s|
    ensures FlatMap(s[..i + 1], f) == FlatMap(s[..i], f) + f(s[i])
  {
    assert s[..i + 1][..i] == s[..i];
  }

  lemma {:induction false} FlatMapEmpty<T, U>(s: seq<T>, f: T -> seq<U>)
    ensures FlatMap(s, f) == [] <==> forall i :: 0 <= i < |s| ==> f(s[i]) == []
    decreases |s|
  {
    if s != [] {
      var n := |s| - 1;
      FlatMapEmpty(s[..n], f);
      assert forall i :: 0 <= i < n ==> s[..n][i] == s[i];
    }
  }

  /** Every element produced comes from the piece of some element. */
  lemma {:induction false} FlatMapMember<T, U>(s: seq<T>, f: T -> seq<U>, u: U)
    requires u in FlatMap(s, f)
    ensures exists i :: 0 <= i < |s| && u in f(s[i])
    decreases |s|
  {
    var n := |s| - 1;
    if u in f(s[n]) {
    } else {
      FlatMapMember(s[..n], f, u);
      var i :| 0 <= i < n && u in f(s[..n][i]);
      assert s[..n][i] == s[i];
    }
  }

  /** A property shared by every piece holds of every element of the concatenation. */
  lemma FlatMapAll<T, U>(s: seq<T>, f: T -> seq<U>, p: U -> bool)
    requires forall i, u :: 0 <= i < |s| && u in f(s[i]) ==> p(u)
    ensures forall u :: u in FlatMap(s, f) ==> p(u)
  {
    forall u | u in FlatMap(s, f)
      ensures p(u)
    {
      FlatMapMember(s, f, u);
    }
  }

  /** The positions whose element contributes exactly one piece. */
  ghost function Contributors<T, U>(s: seq<T>, f: T -> seq<U>): set<int> {
    set i | 0 <= i < |s| && |f(s[i])| == 1
  }

  /** When each element contributes at most one piece, the length counts the contributing elements. */
  lemma {:induction false} FlatMapCount<T, U>(s: seq<T>, f: T -> seq<U>)
    requires forall i :: 0 <= i < |s| ==> |f(s[i])| <= 1
    ensures |FlatMap(s, f)| == |Contributors(s, f)|
    decreases |s|
  {
    if s != [] {
      var n := |s| - 1;
      FlatMapCount(s[..n], f);
      var before := Contributors(s[..n], f);
      var after := Contributors(s, f);
      if |f(s[n])| == 1 {
        assert after == before + {n};
      } else {
        assert after == before;
      }
    }
  }

  /** When each element contributes at most m pieces, the concatenation has at most m per element. */
  lemma {:induction false} FlatMapBound<T, U>(s: seq<T>, f: T -> seq<U>, m: nat)
    requires forall i :: 0 <= i < |s| ==> |f(s[i])| <= m
    ensures |FlatMap(s, f)| <= m * |s|
    decreases |s|
  {
    if s != [] {
      var n := |s| - 1;
      FlatMapBound(s[..n], f, m);
    }
  }

  /** The pieces of a prefix are a prefix of the pieces. */
  lemma {:induction false} FlatMapPrefix<T, U>(s: seq<T>, j: nat, f: T -> seq<U>)
    requires j <= |s|
    ensures FlatMap(s[..j], f) <= FlatMap(s, f)
    decreases |s| - j
  {
    if j < |s| {
      FlatMapPrefix(s, j + 1, f);
      FlatMapSnoc(s, j, f);
    } else {
      assert s[..j] == s;
    }
  }

  /** piece(0) + piece(1) + ... + piece(n - 1). */
  function Gather<T>(n: nat, piece: nat -> seq<T>): seq<T>
    decreases n
  {
    if n == 0 then [] else Gather(n - 1, piece) + piece(n - 1)
  }

  lemma {:induction false} GatherEmpty<T>(n: nat, piece: nat -> seq<T>)
    ensures Gather(n, piece) == [] <==> forall i :: 0 <= i < n ==> piece(i) == []
    decreases n
  {
    if n > 0 {
      GatherEmpty(n - 1, piece);
    }
  }

  lemma {:induction false} GatherAll<T>(n: nat, piece: nat -> seq<T>, p: (nat, T) -> bool)
    requires forall i, u :: 0 <= i < n && u in piece(i) ==> p(i, u)
    ensures forall u :: u in Gather(n, piece) ==> exists i :: 0 <= i < n && p(i, u)
    decreases n
  {
    if n > 0 {
      GatherAll(n - 1, piece, p);
      forall u | u in Gather(n, piece)
        ensures exists i :: 0 <= i < n && p(i, u)
      {
        if u !in Gather(n - 1, piece) {
          assert u in piece(n - 1);
          assert p(n - 1, u);
        }
      }
    }
  }

  /** How many of 0 .. n - 1 satisfy p. */
  function CountWhere(n: nat, p: nat -> bool): nat
    decreases n
  {
    if n == 0 then 0 else CountWhere(n - 1, p) + (if p(n - 1) then 1 else 0)
  }

  /** One more step of a gathered fold and of its pass count. */
  lemma GatherStep<T>(n: nat, piece: nat -> seq<T>, p: nat -> bool, acc: seq<T>, count: nat, found: seq<T>, passes: bool)
    requires acc == Gather(n, piece) && count == CountWhere(n, p)
    requires found == piece(n) && passes == p(n)
    ensures acc + found == Gather(n + 1, piece)
    ensures count + (if passes then 1 else 0) == CountWhere(n + 1, p)
  {
  }

  lemma {:induction false} CountWhereBound(n: nat, p: nat -> bool)
    ensures CountWhere(n, p) <= n
    ensures CountWhere(n, p) == n <==> forall i :: 0 <= i < n ==> p(i)
    decreases n
  {
    if n > 0 {
      CountWhereBound(n - 1, p);
    }
  }

  /** The indices in [0, n) where p holds. */
  ghost function Below(n: int, p: int -> bool): set<int> {
    set i | 0 <= i < n && p(i)
  }

  /** Counting one index further adds one exactly when p holds there. */
  lemma BelowStep(n: nat, p: int -> bool)
    ensures |Below(n + 1, p)| == |Below(n, p)| + (if p(n) then 1 else 0)
  {
    var before := Below(n, p);
    var after := Below(n + 1, p);
    if p(n) {
      assert n !in before;
      assert after == before + {n};
      assert |before + {n}| == |before| + 1;
    } else {
      assert after == before;
    }
  }

  lemma BelowEmpty(n: int, p: int -> bool)
    ensures Below(n, p) == {} <==> forall i :: 0 <= i < n ==> !p(i)
  {
    if Below(n, p) != {} {
      var k :| k in Below(n, p);
    } else {
      forall i | 0 <= i < n
        ensures !p(i)
      {
        assert i !in Below(n, p);
      }
    }
  }

  /** When piece i has one element exactly where p holds and none elsewhere, the gathered length counts those indices. */
  lemma {:induction false} GatherCount<T>(n: nat, piece: nat -> seq<T>, p: int -> bool)
    requires forall i: nat :: i < n ==> |piece(i)| == if p(i) then 1 else 0
    ensures |Gather(n, piece)| == |Below(n, p)|
    decreases n
  {
    if n == 0 {
      BelowEmpty(n, p);
    } else {
      GatherCount(n - 1, piece, p);
      BelowStep(n - 1, p);
    }
  }
}
