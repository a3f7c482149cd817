/**
 * The JavaScript `Set`, as far as `[...new Set(values)]` uses it: a set that
 * remembers the order in which its members were first added. Its state is
 * modelled as the sequence of its members in insertion order.
 */
module InsertionSet {

  /** No value occurs twice in `s`. */
  predicate NoDuplicates<T(==,!new)>(s: seq<T>) {
    forall i, j :: 0 <= i < j < |s| ==> s[i] != s[j]
  }

  /** `set.add(x)`: a value already present keeps its place, a new one goes last. */
  function Add<T(==,!new)>(s: seq<T>, x: T): (r: seq<T>)
    ensures |s| <= |r| <= |s| + 1 && r[..|s|] == s
    ensures forall y :: y in r <==> y in s || y == x
    ensures NoDuplicates(s) ==> NoDuplicates(r)
  {
    if x in s then s else s + [x]
  }

  /**
   * `[...new Set(xs)]`: the constructor adds the values of `xs` one after the
   * other, and spreading lists the members in insertion order.
   */
  function FromSeq<T(==,!new)>(xs: seq<T>): (r: seq<T>)
    ensures NoDuplicates(r)
    ensures forall y :: y in r <==> y in xs
    ensures |r| <= |xs|
  {
    if xs == [] then [] else Add(FromSeq(xs[..|xs| - 1]), xs[|xs| - 1])
  }

  /** The position of the first occurrence of `x` in `xs`. */
  function FirstIndex<T(==,!new)>(xs: seq<T>, x: T): (k: nat)
    requires x in xs
    ensures k < |xs| && xs[k] == x && x !in xs[..k]
  {
    if xs[0] == x then 0 else
      var k' := FirstIndex(xs[1..], x);
      assert xs[..k' + 1] == [xs[0]] + xs[1..][..k'];
      1 + k'
  }

  /** Reference definition: one pass from the front, keeping each value the first time it is seen. */
  function FirstSeen<T(==,!new)>(xs: seq<T>, seen: set<T>): seq<T>
  {
    if xs == [] then []
    else if xs[0] in seen then FirstSeen(xs[1..], seen)
    else [xs[0]] + FirstSeen(xs[1..], seen + {xs[0]})
  }

  /** The first occurrence of a value is the only index satisfying the first-occurrence condition. */
  lemma FirstIndexUnique<T(!new)>(xs: seq<T>, x: T, k: nat)
    requires k < |xs| && xs[k] == x && x !in xs[..k]
    ensures FirstIndex(xs, x) == k
  {
  }

  /** Appending a value does not move the first occurrence of a value already present. */
  lemma FirstIndexAppend<T(!new)>(xs: seq<T>, x: T, y: T)
    requires y in xs
    ensures y in xs + [x] && FirstIndex(xs + [x], y) == FirstIndex(xs, y)
  {
    var k := FirstIndex(xs, y);
    assert (xs + [x])[..k] == xs[..k];
    FirstIndexUnique(xs + [x], y, k);
  }

  /**
   * The members of `[...new Set(xs)]` are listed in the order of their first
   * occurrence in `xs`.
   */
  lemma {:induction false} FromSeqFirstOccurrenceOrder<T(!new)>(xs: seq<T>, i: nat, j: nat)
    requires i < j < |FromSeq(xs)|
    ensures FromSeq(xs)[i] in xs && FromSeq(xs)[j] in xs
    ensures FirstIndex(xs, FromSeq(xs)[i]) < FirstIndex(xs, FromSeq(xs)[j])
  {
    var r := FromSeq(xs);
    assert r[i] in r && r[j] in r;
    var p, x := xs[..|xs| - 1], xs[|xs| - 1];
    assert xs == p + [x];
    var d := FromSeq(p);
    assert r == Add(d, x);
    if j < |d| {
      assert r[i] == d[i] && r[j] == d[j];
      FromSeqFirstOccurrenceOrder(p, i, j);
      assert d[i] in d && d[j] in d;
      FirstIndexAppend(p, x, d[i]);
      FirstIndexAppend(p, x, d[j]);
    } else {
      assert x !in d && r == d + [x] && r[j] == x && r[i] == d[i];
      assert d[i] in d;
      FirstIndexAppend(p, x, d[i]);
      assert x !in p;
      assert xs[..|p|] == p;
      FirstIndexUnique(xs, x, |p|);
    }
  }

  /** Without duplicates, building the set changes nothing. */
  lemma {:induction false} FromSeqOfDistinct<T(!new)>(xs: seq<T>)
    requires NoDuplicates(xs)
    ensures FromSeq(xs) == xs
  {
    if xs != [] {
      var p, x := xs[..|xs| - 1], xs[|xs| - 1];
      assert NoDuplicates(p);
      FromSeqOfDistinct(p);
      assert x !in p;
      assert xs == p + [x];
    }
  }

  /** Building the set from its own listing gives the same listing. */
  lemma FromSeqIdempotent<T(!new)>(xs: seq<T>)
    ensures FromSeq(FromSeq(xs)) == FromSeq(xs)
  {
    FromSeqOfDistinct(FromSeq(xs));
  }

  /** The values of `p`, as a set. */
  function Elements<T(==,!new)>(p: seq<T>): set<T>
  {
    if p == [] then {} else Elements(p[..|p| - 1]) + {p[|p| - 1]}
  }

  /** A value is in `Elements(p)` exactly when it occurs in `p`. */
  lemma {:induction false} ElementsHas<T(!new)>(p: seq<T>, x: T)
    ensures x in Elements(p) <==> x in p
  {
    if p != [] {
      ElementsHas(p[..|p| - 1], x);
      assert p == p[..|p| - 1] + [p[|p| - 1]];
    }
  }

  /** Adding one more value to the constructor's input is one `add`. */
  lemma FromSeqSnoc<T(!new)>(p: seq<T>, x: T)
    ensures FromSeq(p + [x]) == Add(FromSeq(p), x)
  {
  }

  /**
   * Sequence concatenation is associative. Stated on its own so that
   * `FromSeqSplit` cites it for three named terms instead of searching for it.
   */
  lemma Associative<T>(a: seq<T>, b: seq<T>, c: seq<T>)
    ensures a + b + c == a + (b + c)
  {
  }

  /** Helper: a value seen before changes neither the Set nor the seen values, and the pass skips it. */
  lemma SplitStepSeen<T(!new)>(p: seq<T>, s: seq<T>)
    requires s != [] && s[0] in p
    ensures FromSeq(p + [s[0]]) == FromSeq(p)
    ensures Elements(p + [s[0]]) == Elements(p)
    ensures FirstSeen(s, Elements(p)) == FirstSeen(s[1..], Elements(p))
  {
    FromSeqSnoc(p, s[0]);
    assert (p + [s[0]])[..|p|] == p;
    ElementsHas(p, s[0]);
  }

  /** Helper: a new value is added to the Set and to the seen values, and the pass emits it. */
  lemma SplitStepNew<T(!new)>(p: seq<T>, s: seq<T>)
    requires s != [] && s[0] !in p
    ensures FromSeq(p + [s[0]]) == FromSeq(p) + [s[0]]
    ensures Elements(p + [s[0]]) == Elements(p) + {s[0]}
    ensures FirstSeen(s, Elements(p)) == [s[0]] + FirstSeen(s[1..], Elements(p) + {s[0]})
  {
    FromSeqSnoc(p, s[0]);
    assert (p + [s[0]])[..|p|] == p;
    ElementsHas(p, s[0]);
  }

  /** Helper: the Set listing of `p + s` continues that of `p` with a first-seen pass over `s`. */
  lemma {:induction false} FromSeqSplit<T(!new)>(p: seq<T>, s: seq<T>)
    ensures FromSeq(p + s) == FromSeq(p) + FirstSeen(s, Elements(p))
    decreases |s|
  {
    if s == [] {
      assert p + s == p;
    } else {
      var x, p' := s[0], p + [s[0]];
      assert p + s == p' + s[1..];
      FromSeqSplit(p', s[1..]);
      if x in p {
        SplitStepSeen(p, s);
      } else {
        SplitStepNew(p, s);
        Associative(FromSeq(p), [x], FirstSeen(s[1..], Elements(p')));
      }
    }
  }

  /**
   * `[...new Set(xs)]` agrees with the single front-to-back pass that keeps
   * each value the first time it is seen.
   */
  lemma FromSeqIsFirstSeen<T(!new)>(xs: seq<T>)
    ensures FromSeq(xs) == FirstSeen(xs, {})
  {
    FromSeqSplit([], xs);
    assert [] + xs == xs;
  }
}
