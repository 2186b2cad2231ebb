/** The normalisation of complaint texts inside `hashReason` (anti-scam.service.ts). */
module ScamText {
  import opened Decimal

  /** `toLowerCase`. All that is assumed of it is that it neither makes nor loses white space at the
      ends of a text. */
  type Lowering = f: string -> string | CommutesWithTrim(f) ghost witness (s: string) => s

  ghost predicate CommutesWithTrim(f: string -> string) {
    forall s :: f(Trim(s)) == Trim(f(s))
  }

  /** `replace(/\s+/g, ' ')` */
  function Collapse(s: string): string {
    if s == [] then []
    else if !IsSpace(s[0]) then [s[0]] + Collapse(s[1..])
    else if |s| > 1 && IsSpace(s[1]) then Collapse(s[1..])
    else " " + Collapse(s[1..])
  }

  /** `reason.trim().toLowerCase().replace(/\s+/g, ' ')` */
  function Normalise(reason: string, lower: Lowering): string {
    Collapse(lower(Trim(reason)))
  }

  // ---------- What the normal form is ----------

  function WordLength(s: string): (n: nat)
    ensures n <= |s| && (n < |s| ==> IsSpace(s[n])) && forall i | 0 <= i < n :: !IsSpace(s[i])
  {
    if s == [] || IsSpace(s[0]) then 0 else 1 + WordLength(s[1..])
  }

  lemma {:induction false} TrimStartSuffix(s: string)
    ensures |TrimStart(s)| <= |s| && TrimStart(s) == s[|s| - |TrimStart(s)|..]
    ensures TrimStart(s) != [] ==> !IsSpace(TrimStart(s)[0])
    ensures forall i | 0 <= i < |s| - |TrimStart(s)| :: IsSpace(s[i])
  {
    if s != [] && IsSpace(s[0]) {
      TrimStartSuffix(s[1..]);
      var n := |s[1..]| - |TrimStart(s[1..])|;
      assert s[1..][n..] == s[n + 1..];
      assert forall i | 0 < i < n + 1 :: s[i] == s[1..][i - 1];
    } else {
      assert s[0..] == s;
    }
  }

  /** The words of a text: maximal runs without white space. */
  function Words(s: string): seq<string>
    decreases |s|
  {
    TrimStartSuffix(s);
    var t := TrimStart(s);
    if t == [] then [] else [t[..WordLength(t)]] + Words(t[WordLength(t)..])
  }

  function Join(words: seq<string>): string {
    if words == [] then ""
    else if |words| == 1 then words[0]
    else words[0] + " " + Join(words[1..])
  }

  lemma {:induction false} CollapseWord(w: string, rest: string)
    requires forall i | 0 <= i < |w| :: !IsSpace(w[i])
    ensures Collapse(w + rest) == w + Collapse(rest)
  {
    if w == [] {
      assert w + rest == rest;
    } else {
      assert (w + rest)[1..] == w[1..] + rest;
      CollapseWord(w[1..], rest);
      assert w == [w[0]] + w[1..];
    }
  }

  lemma {:induction false} CollapseSpaces(s: string)
    requires s != [] && IsSpace(s[0]) && !IsSpace(s[|s| - 1])
    ensures Collapse(s) == " " + Collapse(TrimStart(s)) && TrimStart(s) != []
    ensures TrimStart(s)[|TrimStart(s)| - 1] == s[|s| - 1]
  {
    if IsSpace(s[1]) {
      CollapseSpaces(s[1..]);
    } else {
      assert TrimStart(s) == s[1..];
    }
  }

  lemma TrimTwice(s: string)
    ensures TrimStart(TrimStart(s)) == TrimStart(s)
  {
    TrimStartSuffix(s);
  }

  lemma WordsFirst(s: string)
    requires s != [] && !IsSpace(s[0])
    ensures WordLength(s) > 0 && Words(s) == [s[..WordLength(s)]] + Words(s[WordLength(s)..])
  {
  }

  lemma WordsSkip(s: string)
    ensures Words(TrimStart(s)) == Words(s)
  {
    TrimTwice(s);
  }

  lemma JoinMore(w: string, words: seq<string>)
    requires words != []
    ensures Join([w] + words) == w + (" " + Join(words))
  {
    assert ([w] + words)[1..] == words;
  }

  /** A trimmed text collapses to its words with single spaces between them. */
  lemma {:induction false} CollapseJoins(s: string)
    requires s != [] ==> !IsSpace(s[0]) && !IsSpace(s[|s| - 1])
    ensures Collapse(s) == Join(Words(s))
    decreases |s|
  {
    if s != [] {
      WordsFirst(s);
      var n := WordLength(s);
      var w, rest := s[..n], s[n..];
      CollapseWord(w, rest);
      assert s == w + rest;
      if rest != [] {
        CollapseSpaces(rest);
        var t := TrimStart(rest);
        TrimStartSuffix(rest);
        WordsSkip(rest);
        WordsFirst(t);
        CollapseJoins(t);
        JoinMore(w, Words(t));
      }
    }
  }

  /** A space behind a text that starts with a word stays behind what follows the word. */
  lemma TailOfFirst(u: string, c: char)
    requires u != [] && !IsSpace(u[0]) && IsSpace(c)
    ensures WordLength(u + [c]) == WordLength(u) > 0
    ensures Words(u + [c]) == [u[..WordLength(u)]] + Words(u[WordLength(u)..] + [c])
  {
    WordLengthOfFront(u, c);
    WordsFirst(u + [c]);
    var n := WordLength(u);
    assert (u + [c])[..n] == u[..n] && (u + [c])[n..] == u[n..] + [c];
  }

  lemma {:induction false} WordsIgnoreSpace(u: string, c: char)
    requires IsSpace(c)
    ensures Words(u + [c]) == Words(u)
    decreases |u|
  {
    TrimStartSuffix(u);
    var t := TrimStart(u);
    TrimOfFront(u + [c]);
    assert (u + [c])[..|u|] == u;
    WordsSkip(u + [c]);
    WordsSkip(u);
    if t != [] {
      TailOfFirst(t, c);
      WordsFirst(t);
      WordsIgnoreSpace(t[WordLength(t)..], c);
    }
  }

  lemma WordsIgnoreTail(s: string)
    requires s != [] && IsSpace(s[|s| - 1])
    ensures Words(s) == Words(s[..|s| - 1])
  {
    assert s == s[..|s| - 1] + [s[|s| - 1]];
    WordsIgnoreSpace(s[..|s| - 1], s[|s| - 1]);
  }

  lemma {:induction false} WordLengthOfFront(u: string, c: char)
    requires IsSpace(c)
    ensures WordLength(u + [c]) == WordLength(u)
  {
    if u != [] && !IsSpace(u[0]) {
      assert (u + [c])[1..] == u[1..] + [c];
      WordLengthOfFront(u[1..], c);
    }
  }

  /** Dropping a trailing space before trimming the front drops it from the result. */
  lemma {:induction false} TrimOfFront(s: string)
    requires s != [] && IsSpace(s[|s| - 1])
    ensures var u := TrimStart(s[..|s| - 1]); TrimStart(s) == if u == [] then [] else u + [s[|s| - 1]]
  {
    var front := s[..|s| - 1];
    if front == [] {
    } else if IsSpace(s[0]) {
      assert s[1..][..|s| - 2] == front[1..];
      TrimOfFront(s[1..]);
    } else {
      assert TrimStart(front) == front;
    }
  }

  lemma {:induction false} WordsOfTrimEnd(s: string)
    ensures Words(TrimEnd(s)) == Words(s)
    ensures TrimEnd(s) != [] ==> !IsSpace(TrimEnd(s)[|TrimEnd(s)| - 1])
    ensures TrimEnd(s) <= s
  {
    if s != [] && IsSpace(s[|s| - 1]) {
      WordsIgnoreTail(s);
      WordsOfTrimEnd(s[..|s| - 1]);
    }
  }

  /** The normal form of a complaint is its words in lower case, one space apart: two complaints with
      the same words, whatever their case and spacing, have one normal form. */
  lemma NormaliseIsWords(reason: string, lower: Lowering)
    ensures Normalise(reason, lower) == Join(Words(lower(reason)))
  {
    var l := lower(reason);
    assert lower(Trim(reason)) == Trim(l);
    WordsOfTrimEnd(TrimStart(l));
    TrimStartSuffix(l);
    WordsSkip(l);
    CollapseJoins(Trim(l));
  }

  predicate IsWord(w: string) {
    w != [] && forall i | 0 <= i < |w| :: !IsSpace(w[i])
  }

  lemma {:induction false} WordsAreWords(s: string)
    ensures forall i | 0 <= i < |Words(s)| :: IsWord(Words(s)[i])
    decreases |s|
  {
    TrimStartSuffix(s);
    var t := TrimStart(s);
    if t != [] {
      WordsAreWords(t[WordLength(t)..]);
    }
  }

  lemma {:induction false} WordLengthOf(w: string, rest: string)
    requires IsWord(w) && (rest != [] ==> IsSpace(rest[0]))
    ensures WordLength(w + rest) == |w|
  {
    assert (w + rest)[1..] == w[1..] + rest;
    if |w| > 1 {
      WordLengthOf(w[1..], rest);
    } else {
      assert w[1..] + rest == rest;
    }
  }

  lemma {:induction false} WordsOfJoin(words: seq<string>)
    requires forall i | 0 <= i < |words| :: IsWord(words[i])
    ensures Words(Join(words)) == words
  {
    if words != [] {
      var w, more := words[0], words[1..];
      WordsOfJoin(more);
      assert words == [w] + more;
      var rest := if more == [] then "" else " " + Join(more);
      assert Join(words) == w + rest;
      WordLengthOf(w, rest);
      WordsFirst(w + rest);
      assert (w + rest)[..|w|] == w && (w + rest)[|w|..] == rest;
      if more != [] {
        WordsSkip(rest);
        assert rest[1..] == Join(more);
        WordsSkip(Join(more));
      }
    }
  }

  /** Two complaints have one normal form exactly when they are the same words in lower case. */
  lemma SameNormalForm(a: string, b: string, lower: Lowering)
    ensures Normalise(a, lower) == Normalise(b, lower) <==> Words(lower(a)) == Words(lower(b))
  {
    NormaliseIsWords(a, lower);
    NormaliseIsWords(b, lower);
    JoinInjective(Words(lower(a)), Words(lower(b)), lower(a), lower(b));
  }

  lemma JoinInjective(v: seq<string>, w: seq<string>, s: string, t: string)
    requires v == Words(s) && w == Words(t)
    ensures Join(v) == Join(w) <==> v == w
  {
    WordsAreWords(s);
    WordsAreWords(t);
    WordsOfJoin(v);
    WordsOfJoin(w);
  }
}
