/** Generic sequence combinators shared by the checks.

    Every check walks a list fetched from the server and appends report entries
    while it goes. `FlatMap` describes such a walk when nothing can stop it;
    `Scan` describes a walk that may stop early with a value of its own (the
    checks' `return nil, err` and `return HandleError(...)` inside a loop).
    `Filter` and `Dedup` describe the list filters and the "append unless
    already present" idiom. Each is defined by recursion on the LAST element, so
    that a loop which has processed `s[..i]` is described by the function
    applied to `s[..i]`. */
module Seqs {

  /** The concatenation of `f(x)` for every `x` in `s`, in order. */
  function FlatMap<T, U>(s: seq<T>, f: T -> seq<U>): seq<U>
  {
    if s == [] then [] else FlatMap(s[..|s| - 1], f) + f(s[|s| - 1])
  }

  lemma FlatMapSnoc<T, U>(s: seq<T>, x: T, f: T -> seq<U>)
    ensures FlatMap(s + [x], f) == FlatMap(s, f) + f(x)
  {
    assert (s + [x])[..|s|] == s;
  }

  /** FlatMap is a homomorphism: the entries of a concatenation are the
      entries of the first part followed by those of the second, so a walk
      keeps the order of its input. */
  lemma {:induction false} FlatMapAppend<T, U>(a: seq<T>, b: seq<T>, f: T -> seq<U>)
    ensures FlatMap(a + b, f) == FlatMap(a, f) + FlatMap(b, f)
    decreases |b|
  {
    if b == [] {
      assert a + b == a;
    } else {
      var b' := b[..|b| - 1];
      assert a + b == (a + b') + [b[|b| - 1]];
      FlatMapSnoc(a + b', b[|b| - 1], f);
      FlatMapAppend(a, b', f);
      FlatMapSnoc(b', b[|b| - 1], f);
      assert b == b' + [b[|b| - 1]];
    }
  }

  lemma {:induction false} FlatMapMember<T, U>(s: seq<T>, f: T -> seq<U>, u: U)
    ensures u in FlatMap(s, f) <==> exists i :: 0 <= i < |s| && u in f(s[i])
    decreases |s|
  {
    if s != [] {
      var n := |s| - 1;
      FlatMapMember(s[..n], f, u);
      if u in FlatMap(s, f) && u !in f(s[n]) {
        var i :| 0 <= i < n && u in f(s[..n][i]);
        assert s[..n][i] == s[i];
      }
      if u in f(s[n]) {
        assert u in FlatMap(s, f);
      }
      forall i | 0 <= i < n && u in f(s[i])
        ensures u in FlatMap(s, f)
      {
        assert s[..n][i] == s[i];
      }
    }
  }

  lemma {:induction false} FlatMapEmpty<T, U>(s: seq<T>, f: T -> seq<U>)
    ensures FlatMap(s, f) == [] <==> forall i :: 0 <= i < |s| ==> f(s[i]) == []
    decreases |s|
  {
    if s != [] {
      var n := |s| - 1;
      FlatMapEmpty(s[..n], f);
      forall i | 0 <= i < n
        ensures s[..n][i] == s[i]
      {
      }
    }
  }

  /** When `f` yields at most one entry per element, the walk yields at most
      one entry per input element. */
  lemma {:induction false} FlatMapAtMostOne<T, U>(s: seq<T>, f: T -> seq<U>)
    requires forall i :: 0 <= i < |s| ==> |f(s[i])| <= 1
    ensures |FlatMap(s, f)| <= |s|
    decreases |s|
  {
    if s != [] {
      var n := |s| - 1;
      forall i | 0 <= i < n
        ensures |f(s[..n][i])| <= 1
      {
        assert s[..n][i] == s[i];
      }
      FlatMapAtMostOne(s[..n], f);
    }
  }

  /** When each element contributes at most one entry, there are two or
      more entries exactly when two different elements contribute. */
  lemma {:induction false} FlatMapAtLeastTwo<T, U>(s: seq<T>, f: T -> seq<U>)
    requires forall i :: 0 <= i < |s| ==> |f(s[i])| <= 1
    ensures |FlatMap(s, f)| > 1 <==> exists i, j :: 0 <= i < j < |s| && f(s[i]) != [] && f(s[j]) != []
    decreases |s|
  {
    if s != [] {
      var n := |s| - 1;
      assert forall i :: 0 <= i < n ==> s[..n][i] == s[i];
      FlatMapAtLeastTwo(s[..n], f);
      FlatMapEmpty(s[..n], f);
      if exists i, j :: 0 <= i < j < |s| && f(s[i]) != [] && f(s[j]) != [] {
        var i, j :| 0 <= i < j < |s| && f(s[i]) != [] && f(s[j]) != [];
        if j < n {
          assert s[..n][i] == s[i] && s[..n][j] == s[j];
        } else {
          assert s[..n][i] == s[i];
        }
      }
    }
  }

  lemma {:induction false} FlatMapLength<T, U>(s: seq<T>, f: T -> seq<U>)
    requires forall i :: 0 <= i < |s| ==> |f(s[i])| == 1
    ensures |FlatMap(s, f)| == |s|
    decreases |s|
  {
    if s != [] {
      var n := |s| - 1;
      forall i | 0 <= i < n
        ensures |f(s[..n][i])| == 1
      {
        assert s[..n][i] == s[i];
      }
      FlatMapLength(s[..n], f);
    }
  }

  /** One step of a walk that may stop early: either some entries to append,
      or a value that ends the whole walk. */
  datatype Step<U, X> = Emit(items: seq<U>) | Exit(outcome: X)

  /** The result of a walk: all the entries, or the value it stopped with. */
  datatype Scanned<U, X> = Done(items: seq<U>) | Exited(outcome: X)

  /** The walk of `f` over `s`: the first `Exit` ends it; otherwise the
      entries of every `Emit`, in order. */
  function Scan<T, U, X>(s: seq<T>, f: T -> Step<U, X>): Scanned<U, X>
  {
    if s == [] then Done([])
    else match Scan(s[..|s| - 1], f)
      case Exited(x) => Exited(x)
      case Done(acc) =>
        match f(s[|s| - 1])
        case Exit(x) => Exited(x)
        case Emit(us) => Done(acc + us)
  }

  /** Two walks that agree on every element of `s` give the same result. */
  lemma {:induction false} ScanCongruent<T, U, X>(s: seq<T>, f: T -> Step<U, X>, g: T -> Step<U, X>)
    requires forall i :: 0 <= i < |s| ==> f(s[i]) == g(s[i])
    ensures Scan(s, f) == Scan(s, g)
    decreases |s|
  {
    if s != [] {
      ScanCongruent(s[..|s| - 1], f, g);
    }
  }

  lemma ScanSnoc<T, U, X>(s: seq<T>, x: T, f: T -> Step<U, X>)
    ensures Scan(s + [x], f) ==
      match Scan(s, f)
      case Exited(o) => Exited(o)
      case Done(acc) =>
        match f(x)
        case Exit(o) => Exited(o)
        case Emit(us) => Done(acc + us)
  {
    assert (s + [x])[..|s|] == s;
  }

  /** A walk that has stopped stays stopped, whatever follows. */
  lemma {:induction false} ScanExitedExtends<T, U, X>(s: seq<T>, k: nat, f: T -> Step<U, X>)
    requires k <= |s| && Scan(s[..k], f).Exited?
    ensures Scan(s, f) == Scan(s[..k], f)
    decreases |s| - k
  {
    if k < |s| {
      TakeSnoc(s, k);
      ScanSnoc(s[..k], s[k], f);
      ScanExitedExtends(s, k + 1, f);
    } else {
      assert s[..k] == s;
    }
  }

  /** The first `i + 1` elements are the first `i` and then `s[i]`. */
  lemma TakeSnoc<T>(s: seq<T>, i: nat)
    requires i < |s|
    ensures s[..i + 1] == s[..i] + [s[i]]
  {
  }

  /** A loop over `s` that has walked `s[..i]` and meets an element that
      lets it go on. */
  lemma ScanGo<T, U, X>(s: seq<T>, i: nat, f: T -> Step<U, X>, acc: seq<U>)
    requires i < |s| && Scan(s[..i], f) == Done(acc) && f(s[i]).Emit?
    ensures Scan(s[..i + 1], f) == Done(acc + f(s[i]).items)
  {
    TakeSnoc(s, i);
    ScanSnoc(s[..i], s[i], f);
  }

  /** A loop over `s` that has walked `s[..i]` and meets an element that
      stops it: the whole walk stops with that element's value. */
  lemma ScanStop<T, U, X>(s: seq<T>, i: nat, f: T -> Step<U, X>, acc: seq<U>)
    requires i < |s| && Scan(s[..i], f) == Done(acc) && f(s[i]).Exit?
    ensures Scan(s, f) == Exited(f(s[i]).outcome)
  {
    TakeSnoc(s, i);
    ScanSnoc(s[..i], s[i], f);
    ScanExitedExtends(s, i + 1, f);
  }

  /** A loop over `s` that has walked `s[..i]` for `FlatMap` and meets `s[i]`. */
  lemma FlatMapGo<T, U>(s: seq<T>, i: nat, f: T -> seq<U>)
    requires i < |s|
    ensures FlatMap(s[..i + 1], f) == FlatMap(s[..i], f) + f(s[i])
  {
    TakeSnoc(s, i);
    FlatMapSnoc(s[..i], s[i], f);
  }

  /** FlatMapGo with the entries gathered so far appended to `acc`. */
  lemma FlatMapAccGo<T, U>(acc: seq<U>, s: seq<T>, i: nat, f: T -> seq<U>)
    requires i < |s|
    ensures acc + FlatMap(s[..i + 1], f) == (acc + FlatMap(s[..i], f)) + f(s[i])
  {
    FlatMapGo(s, i, f);
    assert acc + (FlatMap(s[..i], f) + f(s[i])) == (acc + FlatMap(s[..i], f)) + f(s[i]);
  }

  /** The entries a step contributes when it does not stop the walk. */
  function Emitted<T, U, X>(f: T -> Step<U, X>): T -> seq<U>
  {
    x => if f(x).Emit? then f(x).items else []
  }

  ghost predicate NoExit<T, U, X>(s: seq<T>, f: T -> Step<U, X>)
  {
    forall i :: 0 <= i < |s| ==> f(s[i]).Emit?
  }

  /** A walk finishes exactly when no element stops it, and then it yields
      the entries of every element in order. */
  lemma {:induction false} ScanDone<T, U, X>(s: seq<T>, f: T -> Step<U, X>)
    ensures Scan(s, f).Done? <==> NoExit(s, f)
    ensures Scan(s, f).Done? ==> Scan(s, f).items == FlatMap(s, Emitted(f))
    decreases |s|
  {
    if s != [] {
      var n := |s| - 1;
      ScanDone(s[..n], f);
      forall i | 0 <= i < n
        ensures s[..n][i] == s[i]
      {
      }
    }
  }

  /** A walk stops with `o` exactly when some element yields `Exit(o)` and
      every element before it lets the walk go on. */
  lemma {:induction false} ScanExited<T, U, X>(s: seq<T>, f: T -> Step<U, X>, o: X)
    ensures Scan(s, f) == Exited(o) <==>
      exists i :: 0 <= i < |s| && f(s[i]) == Exit(o) && NoExit(s[..i], f)
    decreases |s|
  {
    if s != [] {
      var n := |s| - 1;
      ScanExited(s[..n], f, o);
      ScanDone(s[..n], f);
      if Scan(s, f) == Exited(o) {
        if Scan(s[..n], f).Exited? {
          var i :| 0 <= i < n && f(s[..n][i]) == Exit(o) && NoExit(s[..n][..i], f);
          assert s[..n][..i] == s[..i];
          assert s[..n][i] == s[i];
        } else {
          assert s[..n] == s[..n][..n];
        }
      }
      forall i | 0 <= i < |s| && f(s[i]) == Exit(o) && NoExit(s[..i], f)
        ensures Scan(s, f) == Exited(o)
      {
        if i < n {
          assert s[..n][..i] == s[..i];
          assert s[..n][i] == s[i];
        } else {
          assert s[..i] == s[..n];
        }
      }
    }
  }

  /** `slices.Index`: the first index of `x` in `s`, or -1. */
  function IndexOf<T(==)>(s: seq<T>, x: T): (r: int)
    ensures r == -1 <==> x !in s
    ensures r != -1 ==> 0 <= r < |s| && s[r] == x && x !in s[..r]
  {
    if s == [] then -1
    else if s[0] == x then 0
    else
      var r := IndexOf(s[1..], x);
      assert s == [s[0]] + s[1..];
      if r == -1 then -1
      else
        assert s[..r + 1] == [s[0]] + s[1..][..r];
        r + 1
  }

  /** The elements of `s` that satisfy `p`, in order. */
  function Filter<T>(s: seq<T>, p: T -> bool): seq<T>
  {
    if s == [] then []
    else Filter(s[..|s| - 1], p) + (if p(s[|s| - 1]) then [s[|s| - 1]] else [])
  }

  lemma {:induction false} FilterMember<T>(s: seq<T>, p: T -> bool, x: T)
    ensures x in Filter(s, p) <==> x in s && p(x)
    decreases |s|
  {
    if s != [] {
      var n := |s| - 1;
      FilterMember(s[..n], p, x);
      assert s == s[..n] + [s[n]];
    }
  }

  lemma {:induction false} FilterAppend<T>(a: seq<T>, b: seq<T>, p: T -> bool)
    ensures Filter(a + b, p) == Filter(a, p) + Filter(b, p)
    decreases |b|
  {
    if b == [] {
      assert a + b == a;
    } else {
      var n := |b| - 1;
      assert (a + b)[..|a + b| - 1] == a + b[..n];
      FilterAppend(a, b[..n], p);
    }
  }

  /** When each element contributes `g` of itself if it satisfies `p` and
      nothing otherwise, the entries are `g` of the selected elements, one
      each and in order. */
  lemma {:induction false} FlatMapSelect<T, U>(s: seq<T>, p: T -> bool, g: T -> U, f: T -> seq<U>)
    requires forall i :: 0 <= i < |s| ==> f(s[i]) == if p(s[i]) then [g(s[i])] else []
    ensures |FlatMap(s, f)| == |Filter(s, p)|
    ensures forall k :: 0 <= k < |Filter(s, p)| ==> FlatMap(s, f)[k] == g(Filter(s, p)[k])
    decreases |s|
  {
    if s != [] {
      var n := |s| - 1;
      forall i | 0 <= i < n
        ensures f(s[..n][i]) == if p(s[..n][i]) then [g(s[..n][i])] else []
      {
        assert s[..n][i] == s[i];
      }
      FlatMapSelect(s[..n], p, g, f);
    }
  }

  lemma {:induction false} FilterLength<T>(s: seq<T>, p: T -> bool)
    ensures |Filter(s, p)| <= |s|
    decreases |s|
  {
    if s != [] {
      FilterLength(s[..|s| - 1], p);
    }
  }

  /** `s` with every element after its first occurrence removed. */
  function Dedup<T(==)>(s: seq<T>): seq<T>
  {
    if s == [] then []
    else if s[|s| - 1] in s[..|s| - 1] then Dedup(s[..|s| - 1])
    else Dedup(s[..|s| - 1]) + [s[|s| - 1]]
  }

  ghost predicate Distinct<T>(s: seq<T>)
  {
    forall i, j :: 0 <= i < j < |s| ==> s[i] != s[j]
  }

  /** `Dedup` keeps exactly the values of `s` and never repeats one. */
  lemma {:induction false} DedupSpec<T>(s: seq<T>)
    ensures forall x :: x in Dedup(s) <==> x in s
    ensures Distinct(Dedup(s))
    decreases |s|
  {
    if s != [] {
      var n := |s| - 1;
      DedupSpec(s[..n]);
      assert s == s[..n] + [s[n]];
    }
  }

  lemma DedupSnoc<T>(s: seq<T>, x: T)
    ensures Dedup(s + [x]) == if x in s then Dedup(s) else Dedup(s) + [x]
  {
    assert (s + [x])[..|s|] == s;
  }

  /** Filtering twice with the same test changes nothing. */
  lemma {:induction false} FilterIdempotent<T>(s: seq<T>, p: T -> bool)
    ensures Filter(Filter(s, p), p) == Filter(s, p)
    decreases |s|
  {
    if s != [] {
      var n := |s| - 1;
      var init := Filter(s[..n], p);
      FilterIdempotent(s[..n], p);
      if p(s[n]) {
        var t := init + [s[n]];
        assert Filter(s, p) == t;
        assert t[..|t| - 1] == init && t[|t| - 1] == s[n];
        assert Filter(t, p) == Filter(init, p) + [s[n]];
      } else {
        assert Filter(s, p) == init;
      }
    }
  }

  /** A test every element passes keeps all of `s`. */
  lemma {:induction false} FilterAll<T>(s: seq<T>, p: T -> bool)
    requires forall i :: 0 <= i < |s| ==> p(s[i])
    ensures Filter(s, p) == s
    decreases |s|
  {
    if s != [] {
      var n := |s| - 1;
      FilterAll(s[..n], p);
      assert s == s[..n] + [s[n]];
    }
  }

  /** `a` is `b` with some elements left out, the rest in their order:
      `idx` gives, for each element of `a`, its position in `b`. */
  ghost predicate SubsequenceAt<T>(a: seq<T>, b: seq<T>, idx: seq<int>)
  {
    |idx| == |a|
    && (forall k :: 0 <= k < |idx| ==> 0 <= idx[k] < |b| && a[k] == b[idx[k]])
    && (forall k, l :: 0 <= k < l < |idx| ==> idx[k] < idx[l])
  }

  /** A subsequence stays one when an element is appended to the longer
      sequence, and grows by that element when appended to both. */
  lemma SubsequenceSnoc<T>(a: seq<T>, b: seq<T>, idx: seq<int>, x: T)
    requires SubsequenceAt(a, b, idx)
    ensures SubsequenceAt(a, b + [x], idx)
    ensures SubsequenceAt(a + [x], b + [x], idx + [|b|])
  {
  }

  /** `Filter` keeps the order of the elements it keeps. */
  lemma {:induction false} FilterSubsequence<T>(s: seq<T>, p: T -> bool) returns (idx: seq<int>)
    ensures SubsequenceAt(Filter(s, p), s, idx)
    decreases |s|
  {
    if s == [] {
      idx := [];
    } else {
      var n := |s| - 1;
      var init := FilterSubsequence(s[..n], p);
      assert s == s[..n] + [s[n]];
      SubsequenceSnoc(Filter(s[..n], p), s[..n], init, s[n]);
      if p(s[n]) {
        idx := init + [n];
      } else {
        idx := init;
      }
    }
  }

  /** The entries of a `FlatMap`, counted with their multiplicity, do not
      depend on the order of its input. */
  lemma {:induction false} FlatMapPermutation<T, U>(a: seq<T>, b: seq<T>, f: T -> seq<U>)
    requires multiset(a) == multiset(b)
    ensures multiset(FlatMap(a, f)) == multiset(FlatMap(b, f))
    decreases |a|
  {
    if a == [] {
      assert |b| == |multiset(b)| == 0;
    } else {
      var n := |a| - 1;
      var x := a[n];
      assert x in multiset(a);
      assert x in b;
      var i :| 0 <= i < |b| && b[i] == x;
      var rest := b[..i] + b[i + 1..];
      assert b == b[..i] + [x] + b[i + 1..];
      assert a == a[..n] + [x];
      assert multiset(b) == multiset(b[..i]) + multiset{x} + multiset(b[i + 1..]);
      assert multiset(a) == multiset(a[..n]) + multiset{x};
      assert multiset(rest) == multiset(b[..i]) + multiset(b[i + 1..]);
      assert multiset(a[..n]) == multiset(a) - multiset{x};
      assert multiset(rest) == multiset(b) - multiset{x};
      FlatMapPermutation(a[..n], rest, f);
      FlatMapAppend(b[..i], b[i + 1..], f);
      FlatMapAppend(b[..i] + [x], b[i + 1..], f);
      FlatMapSnoc(b[..i], x, f);
    }
  }

  /** `lo.Map`: `f` of each element, in order. */
  function Map<T, U>(s: seq<T>, f: T -> U): (r: seq<U>)
    ensures |r| == |s|
    ensures forall i :: 0 <= i < |s| ==> r[i] == f(s[i])
  {
    if s == [] then [] else Map(s[..|s| - 1], f) + [f(s[|s| - 1])]
  }

  lemma MapMember<T, U>(s: seq<T>, f: T -> U, y: U)
    ensures y in Map(s, f) <==> exists i :: 0 <= i < |s| && f(s[i]) == y
  {
    if y in Map(s, f) {
      var i :| 0 <= i < |s| && Map(s, f)[i] == y;
    }
  }
}
