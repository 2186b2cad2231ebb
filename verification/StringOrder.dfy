/** The order `Array.prototype.sort` uses on strings, and sorting by it. */
module StringOrder {

  /** Lexicographic by code unit. */
  predicate Less(a: string, b: string) {
    b != [] && (a == [] || a[0] < b[0] || (a[0] == b[0] && Less(a[1..], b[1..])))
  }

  ghost predicate Increasing(s: seq<string>) {
    forall i, j | 0 <= i < j < |s| :: Less(s[i], s[j])
  }

  ghost predicate Distinct<T>(s: seq<T>) {
    forall i, j | 0 <= i < j < |s| :: s[i] != s[j]
  }

  lemma {:induction false} Trichotomy(a: string, b: string)
    ensures a == b || Less(a, b) || Less(b, a)
    ensures !(Less(a, b) && Less(b, a))
    ensures !Less(a, a)
  {
    if a != [] && b != [] {
      Trichotomy(a[1..], b[1..]);
      assert a == [a[0]] + a[1..] && b == [b[0]] + b[1..];
    }
    if a != [] {
      Trichotomy(a[1..], a[1..]);
    }
  }

  lemma {:induction false} Transitive(a: string, b: string, c: string)
    requires Less(a, b) && Less(b, c)
    ensures Less(a, c)
  {
    if a != [] && a[0] == b[0] == c[0] {
      Transitive(a[1..], b[1..], c[1..]);
    }
  }

  function Insert(x: string, s: seq<string>): seq<string> {
    if s == [] || Less(x, s[0]) || x == s[0] then [x] + s else [s[0]] + Insert(x, s[1..])
  }

  function Sort(s: seq<string>): seq<string> {
    if s == [] then [] else Insert(s[0], Sort(s[1..]))
  }

  lemma {:induction false} InsertPermutes(x: string, s: seq<string>)
    ensures multiset(Insert(x, s)) == multiset{x} + multiset(s)
  {
    if s != [] && !Less(x, s[0]) && x != s[0] {
      InsertPermutes(x, s[1..]);
      assert s == [s[0]] + s[1..];
    }
  }

  lemma {:induction false} InsertKeeps(x: string, s: seq<string>)
    requires Increasing(s) && x !in s
    ensures Increasing(Insert(x, s))
  {
    if s == [] {
    } else if Less(x, s[0]) {
      forall j | 0 < j < |s|
        ensures Less(x, s[j])
      {
        Transitive(x, s[0], s[j]);
      }
    } else {
      InsertKeeps(x, s[1..]);
      Trichotomy(x, s[0]);
      var rest := Insert(x, s[1..]);
      InsertPermutes(x, s[1..]);
      forall j | 0 <= j < |rest|
        ensures Less(s[0], rest[j])
      {
        assert rest[j] in multiset(rest);
        assert rest[j] == x || rest[j] in s[1..];
      }
    }
  }

  /** Sorting permutes; what is distinct becomes strictly increasing. */
  lemma {:induction false} SortKeeps(s: seq<string>)
    ensures multiset(Sort(s)) == multiset(s)
    ensures |Sort(s)| == |s|
    ensures Distinct(s) ==> Increasing(Sort(s))
  {
    if s != [] {
      SortKeeps(s[1..]);
      assert s == [s[0]] + s[1..];
      InsertPermutes(s[0], Sort(s[1..]));
      assert s[0] in multiset(Sort(s[1..])) <==> s[0] in multiset(s[1..]);
      if Distinct(s) {
        InsertKeeps(s[0], Sort(s[1..]));
      }
    }
    assert |multiset(Sort(s))| == |multiset(s)|;
  }

  lemma {:induction false} SortedIsFixed(s: seq<string>)
    requires Increasing(s)
    ensures Sort(s) == s && Distinct(s)
  {
    if s != [] {
      SortedIsFixed(s[1..]);
      assert s == [s[0]] + s[1..];
    }
    forall i, j | 0 <= i < j < |s|
      ensures s[i] != s[j]
    {
      Trichotomy(s[i], s[j]);
    }
  }

  /** A list is strictly increasing exactly when it has no duplicates and sorting leaves it alone. */
  lemma IncreasingIff(s: seq<string>)
    ensures Increasing(s) <==> Distinct(s) && Sort(s) == s
  {
    if Increasing(s) {
      SortedIsFixed(s);
    }
    SortKeeps(s);
  }

  lemma SameHead(s: seq<string>, t: seq<string>)
    requires Increasing(s) && Increasing(t) && s != [] && t != [] && s[0] in t && t[0] in s
    ensures s[0] == t[0]
  {
    Trichotomy(s[0], t[0]);
  }

  lemma SameMembers(s: seq<string>, t: seq<string>)
    requires s != [] && t != [] && s[0] == t[0] && multiset(s) == multiset(t)
    ensures multiset(s[1..]) == multiset(t[1..])
  {
    assert s == [s[0]] + s[1..] && t == [t[0]] + t[1..];
    assert multiset(s[1..]) == multiset(s) - multiset{s[0]};
    assert multiset(t[1..]) == multiset(t) - multiset{t[0]};
  }

  /** Only one order of its members is strictly increasing. */
  lemma {:induction false} IncreasingIsUnique(s: seq<string>, t: seq<string>)
    requires Increasing(s) && Increasing(t) && multiset(s) == multiset(t)
    ensures s == t
  {
    assert |multiset(s)| == |s| && |multiset(t)| == |t|;
    if s != [] {
      assert s[0] in multiset(t) && t[0] in multiset(s);
      SameHead(s, t);
      SameMembers(s, t);
      IncreasingIsUnique(s[1..], t[1..]);
      assert s == [s[0]] + s[1..] && t == [t[0]] + t[1..];
    }
  }

  function Elements<T(==)>(s: seq<T>): set<T> {
    set x | x in s
  }

  /** A list has as many members as elements exactly when nothing repeats. */
  lemma {:induction false} SizeIff<T>(s: seq<T>)
    ensures |Elements(s)| <= |s|
    ensures |Elements(s)| == |s| <==> Distinct(s)
  {
    if s == [] {
      assert Elements(s) == {};
    } else {
      var front, last := s[..|s| - 1], s[|s| - 1];
      SizeIff(front);
      assert Elements(s) == Elements(front) + {last};
      if last in front {
        assert Elements(s) == Elements(front);
        var i :| 0 <= i < |front| && front[i] == last;
        assert s[i] == s[|s| - 1];
      } else {
        assert Distinct(s) <==> Distinct(front) by {
          assert forall i | 0 <= i < |front| :: s[i] == front[i];
        }
      }
    }
  }
}
