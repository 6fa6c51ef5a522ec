/**
 * Python's ordering of `str` values (code point by code point, a proper
 * prefix first) and `sorted(set(xs))`: the strictly ascending list of the
 * distinct elements of `xs`.
 */
module Order {

  /** The elements of a list, as a set. */
  function Elems(s: seq<string>): set<string> {
    set y | y in s
  }

  lemma ElemsCons(x: string, s: seq<string>)
    ensures Elems([x] + s) == {x} + Elems(s)
  {
    assert forall y :: y in [x] + s <==> y == x || y in s;
  }

  /** Python `a < b` on strings. */
  predicate Less(a: string, b: string) {
    if a == [] then b != []
    else if b == [] then false
    else a[0] < b[0] || (a[0] == b[0] && Less(a[1..], b[1..]))
  }

  lemma {:induction false} LessIrreflexive(a: string)
    ensures !Less(a, a)
  {
    if a != [] { LessIrreflexive(a[1..]); }
  }

  lemma {:induction false} LessTransitive(a: string, b: string, c: string)
    requires Less(a, b) && Less(b, c)
    ensures Less(a, c)
  {
    if a != [] && b != [] && c != [] && a[0] == b[0] == c[0] {
      LessTransitive(a[1..], b[1..], c[1..]);
    }
  }

  lemma {:induction false} LessTotal(a: string, b: string)
    requires a != b
    ensures Less(a, b) || Less(b, a)
  {
    if a != [] && b != [] && a[0] == b[0] {
      assert a == [a[0]] + a[1..] && b == [b[0]] + b[1..];
      LessTotal(a[1..], b[1..]);
    }
  }

  lemma {:induction false} LessAsymmetric(a: string, b: string)
    requires Less(a, b)
    ensures !Less(b, a)
  {
    if Less(b, a) {
      LessTransitive(a, b, a);
      LessIrreflexive(a);
    }
  }

  /** Every element is below every later one; in particular no element repeats. */
  predicate StrictlySorted(s: seq<string>) {
    forall i, j :: 0 <= i < j < |s| ==> Less(s[i], s[j])
  }

  lemma StrictlySortedDistinct(s: seq<string>)
    requires StrictlySorted(s)
    ensures forall i, j :: 0 <= i < j < |s| ==> s[i] != s[j]
  {
    forall i, j | 0 <= i < j < |s| ensures s[i] != s[j] {
      LessIrreflexive(s[i]);
    }
  }

  /** Put `x` into the ascending list `s`, unless it is already there. */
  function Insert(x: string, s: seq<string>): seq<string> {
    if s == [] then [x]
    else if x == s[0] then s
    else if Less(x, s[0]) then [x] + s
    else [s[0]] + Insert(x, s[1..])
  }

  /** Inserting into a strictly sorted list keeps it strictly sorted and adds exactly `x`. */
  lemma {:induction false} InsertSpec(x: string, s: seq<string>)
    requires StrictlySorted(s)
    ensures StrictlySorted(Insert(x, s))
    ensures Elems(Insert(x, s)) == Elems(s) + {x}
  {
    if s == [] {
    } else if x == s[0] {
      assert x in Elems(s);
    } else if Less(x, s[0]) {
      forall j | 0 <= j < |s| ensures Less(x, s[j]) {
        if j > 0 { LessTransitive(x, s[0], s[j]); }
      }
      ElemsCons(x, s);
    } else {
      InsertSpec(x, s[1..]);
      var t := Insert(x, s[1..]);
      LessTotal(x, s[0]);
      forall j | 0 <= j < |t| ensures Less(s[0], t[j]) {
        assert t[j] in Elems(t);
        if t[j] != x {
          assert t[j] in Elems(s[1..]);
          var k :| 0 <= k < |s[1..]| && s[1..][k] == t[j];
          assert s[k + 1] == t[j];
        }
      }
      ElemsCons(s[0], t);
      ElemsCons(s[0], s[1..]);
      assert [s[0]] + s[1..] == s;
    }
  }

  /** Python `sorted(set(xs))`. */
  function SortedUnique(xs: seq<string>): seq<string> {
    if xs == [] then [] else Insert(xs[|xs| - 1], SortedUnique(xs[..|xs| - 1]))
  }

  /** `sorted(set(xs))` is strictly ascending and holds exactly the elements of `xs`. */
  lemma {:induction false} SortedUniqueSpec(xs: seq<string>)
    ensures StrictlySorted(SortedUnique(xs))
    ensures Elems(SortedUnique(xs)) == Elems(xs)
  {
    if xs != [] {
      var init := xs[..|xs| - 1];
      SortedUniqueSpec(init);
      InsertSpec(xs[|xs| - 1], SortedUnique(init));
      assert xs == init + [xs[|xs| - 1]];
      assert Elems(xs) == Elems(init) + {xs[|xs| - 1]};
    }
  }

  /** A strictly sorted list is determined by its set of elements. */
  lemma {:induction false} SortedUniqueness(a: seq<string>, b: seq<string>)
    requires StrictlySorted(a) && StrictlySorted(b)
    requires Elems(a) == Elems(b)
    ensures a == b
  {
    assert a != [] ==> a[0] in Elems(a);
    assert b != [] ==> b[0] in Elems(b);
    if a != [] && b != [] {
      assert a[0] in Elems(a) && b[0] in Elems(b);
      assert a[0] in b && b[0] in a;
      if a[0] != b[0] {
        var i :| 0 < i < |a| && a[i] == b[0];
        var j :| 0 < j < |b| && b[j] == a[0];
        LessAsymmetric(a[0], a[i]);
      }
      forall y ensures y in a[1..] <==> y in b[1..] {
        if y in a[1..] {
          var i :| 1 <= i < |a| && a[i] == y;
          LessIrreflexive(y);
          assert y in Elems(a);
          assert y in b;
        }
        if y in b[1..] {
          var i :| 1 <= i < |b| && b[i] == y;
          LessIrreflexive(y);
          assert y in Elems(b);
          assert y in a;
        }
      }
      SortedUniqueness(a[1..], b[1..]);
      assert a == [a[0]] + a[1..] && b == [b[0]] + b[1..];
    }
  }

  /** `sorted(set(xs))` depends only on the elements of `xs`, not on their order or repeats. */
  lemma SortedUniqueBySet(xs: seq<string>, ys: seq<string>)
    requires Elems(xs) == Elems(ys)
    ensures SortedUnique(xs) == SortedUnique(ys)
  {
    SortedUniqueSpec(xs);
    SortedUniqueSpec(ys);
    SortedUniqueness(SortedUnique(xs), SortedUnique(ys));
  }
}
