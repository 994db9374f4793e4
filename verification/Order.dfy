/** Strings by code point, and sets of strings as strictly sorted lists. */
module Order {
  predicate Less(a: string, b: string) {
    b != [] && (a == [] || a[0] < b[0] || (a[0] == b[0] && Less(a[1..], b[1..])))
  }

  lemma {:induction false} LessTransitive(a: string, b: string, c: string)
    requires Less(a, b) && Less(b, c)
    ensures Less(a, c)
  {
    if a != [] && a[0] == b[0] && b[0] == c[0] {
      LessTransitive(a[1..], b[1..], c[1..]);
    }
  }

  lemma {:induction false} LessTotal(a: string, b: string)
    ensures Less(a, b) || a == b || Less(b, a)
    ensures !(Less(a, b) && Less(b, a)) && !Less(a, a)
  {
    if a != [] {
      LessTotal(a[1..], a[1..]);
    }
    if a != [] && b != [] && a[0] == b[0] {
      LessTotal(a[1..], b[1..]);
      assert a == [a[0]] + a[1..] && b == [b[0]] + b[1..];
    }
  }

  ghost predicate Sorted(xs: seq<string>) {
    forall i, j :: 0 <= i < j < |xs| ==> Less(xs[i], xs[j])
  }

  function Elements(xs: seq<string>): set<string> {
    set x | x in xs
  }

  lemma {:induction false} ElementsConcat(a: seq<string>, b: seq<string>)
    ensures Elements(a + b) == Elements(a) + Elements(b)
  {}

  function InsertUnique(x: string, xs: seq<string>): seq<string> {
    if xs == [] || Less(x, xs[0]) then [x] + xs
    else if x == xs[0] then xs
    else [xs[0]] + InsertUnique(x, xs[1..])
  }

  lemma {:induction false} SortedCons(x: string, xs: seq<string>)
    requires Sorted(xs) && (forall y :: y in xs ==> Less(x, y))
    ensures Sorted([x] + xs)
  {
    var r := [x] + xs;
    forall i, j | 0 <= i < j < |r| ensures Less(r[i], r[j]) {
      assert r[j] == xs[j - 1] && (i > 0 ==> r[i] == xs[i - 1]);
    }
  }

  lemma {:induction false} InsertUniqueSorted(x: string, xs: seq<string>)
    requires Sorted(xs)
    ensures Sorted(InsertUnique(x, xs))
    ensures Elements(InsertUnique(x, xs)) == Elements(xs) + {x}
  {
    if xs == [] {
    } else if Less(x, xs[0]) {
      forall y | y in xs ensures Less(x, y) {
        if y != xs[0] {
          LessTransitive(x, xs[0], y);
        }
      }
      SortedCons(x, xs);
    } else if x != xs[0] {
      var rest := xs[1..];
      InsertUniqueSorted(x, rest);
      LessTotal(x, xs[0]);
      assert xs == [xs[0]] + rest;
      forall y | y in InsertUnique(x, rest) ensures Less(xs[0], y) {
        assert y in Elements(rest) + {x};
      }
      SortedCons(xs[0], InsertUnique(x, rest));
      assert Elements([xs[0]] + InsertUnique(x, rest)) == {xs[0]} + Elements(InsertUnique(x, rest));
    }
  }

  /** Python's `sorted(set(xs))`. */
  function SortUnique(xs: seq<string>): seq<string> {
    if xs == [] then [] else InsertUnique(xs[0], SortUnique(xs[1..]))
  }

  lemma {:induction false} SortUniqueCorrect(xs: seq<string>)
    ensures Sorted(SortUnique(xs)) && Elements(SortUnique(xs)) == Elements(xs)
  {
    if xs != [] {
      SortUniqueCorrect(xs[1..]);
      InsertUniqueSorted(xs[0], SortUnique(xs[1..]));
      assert xs == [xs[0]] + xs[1..];
    }
  }

  lemma {:induction false} ElementsNonEmpty(xs: seq<string>)
    requires xs != []
    ensures Elements(xs) != {}
  {
    assert xs[0] in Elements(xs);
  }

  /** A set has only one sorted list. */
  lemma {:induction false} SortedUnique(xs: seq<string>, ys: seq<string>)
    requires Sorted(xs) && Sorted(ys) && Elements(xs) == Elements(ys)
    ensures xs == ys
  {
    if xs == [] {
      if ys != [] {
        ElementsNonEmpty(ys);
      }
    } else {
      assert xs[0] in Elements(ys);
      assert ys[0] in Elements(xs);
      LessTotal(xs[0], ys[0]);
      forall z | z in Elements(xs[1..])
        ensures z in Elements(ys[1..])
      {
        LessTotal(xs[0], xs[0]);
        assert z in Elements(ys);
      }
      forall z | z in Elements(ys[1..])
        ensures z in Elements(xs[1..])
      {
        LessTotal(ys[0], ys[0]);
        assert z in Elements(xs);
      }
      SortedUnique(xs[1..], ys[1..]);
    }
  }

  /** Sorting a set, taken in any order. */
  method SortSet(s: set<string>) returns (r: seq<string>)
    ensures Sorted(r) && Elements(r) == s
  {
    r := [];
    var todo := s;
    while todo != {}
      invariant Sorted(r) && todo <= s && Elements(r) == s - todo
      decreases todo
    {
      var x :| x in todo;
      InsertUniqueSorted(x, r);
      r := InsertUnique(x, r);
      todo := todo - {x};
    }
  }

  /** The sorted list of a set, for specifications. */
  ghost function SortedOf(s: set<string>): (r: seq<string>)
    ensures Sorted(r) && Elements(r) == s
  {
    SortedExists(s);
    var r :| Sorted(r) && Elements(r) == s;
    r
  }

  lemma {:induction false} SortedExists(s: set<string>)
    ensures exists r :: Sorted(r) && Elements(r) == s
    decreases |s|
  {
    if s == {} {
      assert Sorted([]) && Elements([]) == s;
    } else {
      var x :| x in s;
      SortedExists(s - {x});
      var r :| Sorted(r) && Elements(r) == s - {x};
      InsertUniqueSorted(x, r);
      assert Elements(InsertUnique(x, r)) == s;
    }
  }
}
