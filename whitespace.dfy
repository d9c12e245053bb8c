/**
 * The reply clean-up of the relay handlers:
 *
 * every newline becomes a space, surrounding whitespace is stripped, and
 * then every run of whitespace becomes a single space.
 *
 * `strip()` with no argument and the `\s` class of a `str` pattern use the
 * same whitespace test in CPython, so one predicate, IsSpace, serves both.
 * Besides the output-form and idempotence properties, the normaliser is
 * proved equal to an independent reference: joining the whitespace-separated
 * words of the input with single spaces (Python's `" ".join(s.split())`).
 */
module Whitespace {

  /** CPython's whitespace test (str.isspace, str.strip, `\s`). */
  predicate IsSpace(c: char) {
    || ('\t' <= c <= '\r')
    || ('\U{1C}' <= c <= '\U{1F}')
    || c == ' '
    || c == '\U{85}'
    || c == '\U{A0}'
    || c == '\U{1680}'
    || ('\U{2000}' <= c <= '\U{200A}')
    || c == '\U{2028}'
    || c == '\U{2029}'
    || c == '\U{202F}'
    || c == '\U{205F}'
    || c == '\U{3000}'
  }

  predicate AllSpaces(s: string) {
    forall i :: 0 <= i < |s| ==> IsSpace(s[i])
  }

  predicate NoSpaces(s: string) {
    forall i :: 0 <= i < |s| ==> !IsSpace(s[i])
  }

  /** The shape every cleaned reply has: no leading or trailing whitespace,
      no two whitespace characters in a row, and the only whitespace is ' '. */
  predicate IsNormal(t: string) {
    && (forall i :: 0 <= i < |t| && IsSpace(t[i]) ==> t[i] == ' ')
    && (forall i :: 0 <= i < |t| - 1 && IsSpace(t[i]) ==> !IsSpace(t[i + 1]))
    && (|t| > 0 ==> !IsSpace(t[0]) && !IsSpace(t[|t| - 1]))
  }

  // ---------------------------------------------------------------------------
  // The three steps of the clean-up

  /** `s.replace("\n", " ")` */
  function ReplaceNewlines(s: string): (r: string)
    ensures |r| == |s|
    ensures forall i :: 0 <= i < |s| ==> r[i] == if s[i] == '\n' then ' ' else s[i]
  {
    seq(|s|, i requires 0 <= i < |s| => if s[i] == '\n' then ' ' else s[i])
  }

  /** Drops leading whitespace (the left half of `strip()`). */
  function TrimStart(s: string): (r: string)
    ensures |r| <= |s| && r == s[|s| - |r|..]
    ensures AllSpaces(s[..|s| - |r|])
    ensures r == [] || !IsSpace(r[0])
  {
    if s != [] && IsSpace(s[0]) then
      var r := TrimStart(s[1..]);
      assert s[..|s| - |r|] == [s[0]] + s[1..][..|s| - 1 - |r|];
      r
    else s
  }

  /** Drops trailing whitespace (the right half of `strip()`). */
  function TrimEnd(s: string): (r: string)
    ensures |r| <= |s| && r == s[..|r|]
    ensures AllSpaces(s[|r|..])
    ensures r == [] || !IsSpace(r[|r| - 1])
  {
    if s != [] && IsSpace(s[|s| - 1]) then
      var r := TrimEnd(s[..|s| - 1]);
      assert s[|r|..] == s[..|s| - 1][|r|..] + [s[|s| - 1]];
      r
    else s
  }

  /** `s.strip()` */
  function Strip(s: string): string {
    TrimEnd(TrimStart(s))
  }

  /** Stripping keeps the words of s, leaves a string that neither starts nor
      ends with whitespace, and leaves such a string alone. */
  lemma {:induction false} StripKeepsWords(s: string)
    ensures Words(Strip(s)) == Words(s)
    ensures Strip(s) == [] || (!IsSpace(Strip(s)[0]) && !IsSpace(Strip(s)[|Strip(s)| - 1]))
    ensures s == [] || (!IsSpace(s[0]) && !IsSpace(s[|s| - 1])) ==> Strip(s) == s
  {
    var t := TrimStart(s);
    WordsOfTrimStart(s);
    WordsOfTrimEnd(t);
    if Strip(s) != [] {
      assert Strip(s)[0] == t[0];
    }
  }

  /** The regular-expression substitution: every maximal run of whitespace
      becomes one ' '. */
  function Collapse(s: string): string
    decreases |s|
  {
    if s == [] then []
    else if IsSpace(s[0]) then [' '] + Collapse(TrimStart(s))
    else [s[0]] + Collapse(s[1..])
  }

  /** The clean-up applied to a successfully extracted reply. */
  function Normalize(s: string): (r: string)
    ensures IsNormal(r)
    ensures '\n' !in r
    ensures NonSpaces(r) == NonSpaces(s)
  {
    var r := Collapse(Strip(ReplaceNewlines(s)));
    NormalizeIsNormal(s);
    NormalizeKeepsNonSpaces(s);
    r
  }

  // ---------------------------------------------------------------------------
  // Reference definitions: the non-whitespace characters, and the words

  /** The non-whitespace characters of s, in order. */
  function NonSpaces(s: string): string {
    if s == [] then []
    else (if IsSpace(s[0]) then [] else [s[0]]) + NonSpaces(s[1..])
  }

  /** Length of the longest prefix of s without whitespace. */
  function WordLen(s: string): (n: nat)
    ensures n <= |s|
    ensures NoSpaces(s[..n])
    ensures n < |s| ==> IsSpace(s[n])
  {
    if s == [] || IsSpace(s[0]) then 0 else 1 + WordLen(s[1..])
  }

  /** `s.split()`: the maximal whitespace-free pieces of s, in order. */
  function Words(s: string): seq<string>
    decreases |s|
  {
    if s == [] then []
    else if IsSpace(s[0]) then Words(s[1..])
    else
      var n := WordLen(s);
      [s[..n]] + Words(s[n..])
  }

  /** `" ".join(ws)` */
  function Join(ws: seq<string>): string {
    if |ws| == 0 then ""
    else if |ws| == 1 then ws[0]
    else ws[0] + " " + Join(ws[1..])
  }

  // ---------------------------------------------------------------------------
  // Main results

  /** Cleaning a reply is the same as joining its words with single spaces. */
  lemma NormalizeIsJoinOfWords(s: string)
    ensures Normalize(s) == Join(Words(s))
  {
    WordsOfNormalize(s);
    JoinWordsOfNormal(Normalize(s));
  }

  /** Cleaning twice is cleaning once. */
  lemma NormalizeIdempotent(s: string)
    ensures Normalize(Normalize(s)) == Normalize(s)
  {
    NormalizeFixesNormal(Normalize(s));
  }

  /** A string already in normal form is left alone. */
  lemma NormalizeFixesNormal(t: string)
    requires IsNormal(t)
    ensures Normalize(t) == t
  {
    NormalizeIsJoinOfWords(t);
    JoinWordsOfNormal(t);
  }

  /** Cleaning keeps the words of the reply: the same words, in the same order. */
  lemma WordsOfNormalize(s: string)
    ensures Words(Normalize(s)) == Words(s)
  {
    var a := ReplaceNewlines(s);
    var c := Strip(a);
    assert Words(a) == Words(s) by {
      ReplaceNewlinesSameShape(s);
      WordsSameShape(s, a);
    }
    assert Words(c) == Words(a) by {
      StripKeepsWords(a);
    }
    assert Words(Collapse(c)) == Words(c) by {
      WordsOfCollapse(c);
    }
  }

  lemma WordsOfTrimStart(x: string)
    ensures Words(TrimStart(x)) == Words(x)
  {
    var k := |x| - |TrimStart(x)|;
    assert x == x[..k] + x[k..];
    WordsPrependSpaces(x[..k], x[k..]);
  }

  lemma WordsOfTrimEnd(x: string)
    ensures Words(TrimEnd(x)) == Words(x)
  {
    var k := |TrimEnd(x)|;
    assert x == x[..k] + x[k..];
    WordsAppendSpaces(x[..k], x[k..]);
  }

  // ---------------------------------------------------------------------------
  // Output form

  lemma NormalizeIsNormal(s: string)
    ensures IsNormal(Collapse(Strip(ReplaceNewlines(s))))
  {
    var t := Strip(ReplaceNewlines(s));
    CollapseSpacesAreBlank(t);
    CollapseNoDoubleSpace(t);
    if |t| > 0 {
      CollapseEnds(t);
    } else {
      assert Collapse(t) == [];
    }
  }

  /** Every whitespace character that Collapse emits is ' '. */
  lemma {:induction false} CollapseSpacesAreBlank(s: string)
    ensures forall i :: 0 <= i < |Collapse(s)| && IsSpace(Collapse(s)[i]) ==> Collapse(s)[i] == ' '
    decreases |s|
  {
    if s == [] {
    } else if IsSpace(s[0]) {
      CollapseSpacesAreBlank(TrimStart(s));
    } else {
      CollapseSpacesAreBlank(s[1..]);
    }
  }

  /** Collapse starts with whitespace exactly when its input does, and keeps
      a leading non-whitespace character as it is. */
  lemma {:induction false} CollapseFirst(s: string)
    requires s != []
    ensures Collapse(s) != []
    ensures IsSpace(Collapse(s)[0]) <==> IsSpace(s[0])
    ensures IsSpace(s[0]) ==> Collapse(s)[0] == ' '
  {
  }

  /** Collapse emits no two whitespace characters in a row. */
  lemma {:induction false} CollapseNoDoubleSpace(s: string)
    ensures forall i :: 0 <= i < |Collapse(s)| - 1 && IsSpace(Collapse(s)[i]) ==> !IsSpace(Collapse(s)[i + 1])
    decreases |s|
  {
    if s == [] {
    } else if IsSpace(s[0]) {
      var t := TrimStart(s);
      CollapseNoDoubleSpace(t);
      if t != [] {
        CollapseFirst(t);
      }
    } else {
      CollapseNoDoubleSpace(s[1..]);
    }
  }

  /** Collapse ends with whitespace exactly when its input does. */
  lemma {:induction false} CollapseEnds(s: string)
    requires s != []
    ensures Collapse(s) != []
    ensures IsSpace(Collapse(s)[0]) <==> IsSpace(s[0])
    ensures IsSpace(Collapse(s)[|Collapse(s)| - 1]) <==> IsSpace(s[|s| - 1])
    decreases |s|
  {
    CollapseFirst(s);
    if IsSpace(s[0]) {
      var t := TrimStart(s);
      if t == [] {
        assert s[..|s|] == s;
        assert IsSpace(s[|s| - 1]);
      } else {
        CollapseEnds(t);
      }
    } else if |s| > 1 {
      CollapseEnds(s[1..]);
    }
  }

  // ---------------------------------------------------------------------------
  // Non-whitespace characters are kept

  lemma NormalizeKeepsNonSpaces(s: string)
    ensures NonSpaces(Collapse(Strip(ReplaceNewlines(s)))) == NonSpaces(s)
  {
    var a := ReplaceNewlines(s);
    var c := Strip(a);
    assert NonSpaces(a) == NonSpaces(s) by {
      ReplaceNewlinesSameShape(s);
      NonSpacesSameShape(s, a);
    }
    assert NonSpaces(c) == NonSpaces(a) by {
      NonSpacesOfTrimStart(a);
      NonSpacesOfTrimEnd(TrimStart(a));
    }
    assert NonSpaces(Collapse(c)) == NonSpaces(c) by {
      CollapseKeepsNonSpaces(c);
    }
  }

  lemma NonSpacesOfTrimStart(x: string)
    ensures NonSpaces(TrimStart(x)) == NonSpaces(x)
  {
    var b := TrimStart(x);
    assert x == x[..|x| - |b|] + b;
    NonSpacesAppend(x[..|x| - |b|], b);
    NonSpacesOfSpaces(x[..|x| - |b|]);
  }

  lemma NonSpacesOfTrimEnd(x: string)
    ensures NonSpaces(TrimEnd(x)) == NonSpaces(x)
  {
    var c := TrimEnd(x);
    assert x == c + x[|c|..];
    NonSpacesAppend(c, x[|c|..]);
    NonSpacesOfSpaces(x[|c|..]);
  }

  lemma {:induction false} NonSpacesAppend(a: string, b: string)
    ensures NonSpaces(a + b) == NonSpaces(a) + NonSpaces(b)
  {
    if a == [] {
      assert a + b == b;
    } else {
      assert (a + b)[1..] == a[1..] + b;
      NonSpacesAppend(a[1..], b);
    }
  }

  lemma {:induction false} NonSpacesOfSpaces(s: string)
    requires AllSpaces(s)
    ensures NonSpaces(s) == []
  {
    if s != [] {
      NonSpacesOfSpaces(s[1..]);
    }
  }

  /** Two strings with whitespace in the same places and the same other
      characters have the same non-whitespace characters. */
  lemma {:induction false} NonSpacesSameShape(a: string, b: string)
    requires SameShape(a, b)
    ensures NonSpaces(a) == NonSpaces(b)
  {
    if a != [] {
      NonSpacesSameShape(a[1..], b[1..]);
    }
  }

  lemma {:induction false} CollapseKeepsNonSpaces(s: string)
    ensures NonSpaces(Collapse(s)) == NonSpaces(s)
    decreases |s|
  {
    if s == [] {
    } else if IsSpace(s[0]) {
      var t := TrimStart(s);
      CollapseKeepsNonSpaces(t);
      NonSpacesOfTrimStart(s);
      NonSpacesAppend([' '], Collapse(t));
    } else {
      CollapseKeepsNonSpaces(s[1..]);
      NonSpacesAppend([s[0]], Collapse(s[1..]));
    }
  }

  // ---------------------------------------------------------------------------
  // Words are kept

  /** a and b have whitespace at the same positions and agree elsewhere. */
  predicate SameShape(a: string, b: string) {
    && |a| == |b|
    && forall i :: 0 <= i < |a| ==> (IsSpace(a[i]) <==> IsSpace(b[i])) && (!IsSpace(a[i]) ==> a[i] == b[i])
  }

  lemma ReplaceNewlinesSameShape(s: string)
    ensures SameShape(s, ReplaceNewlines(s))
  {
    var r := ReplaceNewlines(s);
    forall i | 0 <= i < |s|
      ensures (IsSpace(s[i]) <==> IsSpace(r[i])) && (!IsSpace(s[i]) ==> s[i] == r[i])
    {
      if s[i] == '\n' {
        assert IsSpace(s[i]) && IsSpace(r[i]);
      }
    }
  }

  lemma {:induction false} WordLenSameShape(a: string, b: string)
    requires SameShape(a, b)
    ensures WordLen(a) == WordLen(b)
  {
    if a != [] && !IsSpace(a[0]) {
      WordLenSameShape(a[1..], b[1..]);
    }
  }

  lemma {:induction false} WordsSameShape(a: string, b: string)
    requires SameShape(a, b)
    ensures Words(a) == Words(b)
    decreases |a|
  {
    if a == [] {
    } else if IsSpace(a[0]) {
      WordsSameShape(a[1..], b[1..]);
    } else {
      var n := WordLen(a);
      WordLenSameShape(a, b);
      assert a[..n] == b[..n];
      WordsSameShape(a[n..], b[n..]);
    }
  }

  lemma {:induction false} WordsPrependSpaces(q: string, p: string)
    requires AllSpaces(q)
    ensures Words(q + p) == Words(p)
  {
    if q != [] {
      assert (q + p)[1..] == q[1..] + p;
      WordsPrependSpaces(q[1..], p);
    } else {
      assert q + p == p;
    }
  }

  /** A word followed by nothing or by whitespace is read as that word. */
  lemma {:induction false} WordLenOfWordThenSpace(w: string, x: string)
    requires NoSpaces(w)
    requires x == [] || IsSpace(x[0])
    ensures WordLen(w + x) == |w|
  {
    if w != [] {
      assert (w + x)[1..] == w[1..] + x;
      WordLenOfWordThenSpace(w[1..], x);
    } else {
      assert w + x == x;
    }
  }

  lemma {:induction false} WordsAllSpaces(q: string)
    requires AllSpaces(q)
    ensures Words(q) == []
  {
    if q != [] {
      WordsAllSpaces(q[1..]);
    }
  }

  lemma {:induction false} WordsAppendSpaces(p: string, q: string)
    requires AllSpaces(q)
    ensures Words(p + q) == Words(p)
    decreases |p|
  {
    if p == [] {
      assert p + q == q;
      WordsAllSpaces(q);
    } else if IsSpace(p[0]) {
      assert (p + q)[1..] == p[1..] + q;
      WordsAppendSpaces(p[1..], q);
    } else {
      var n := WordLen(p);
      var x := p[n..] + q;
      assert p + q == p[..n] + x;
      WordLenOfWordThenSpace(p[..n], x);
      assert (p + q)[..n] == p[..n];
      assert (p + q)[n..] == x;
      WordsAppendSpaces(p[n..], q);
    }
  }

  /** Collapse copies a leading word unchanged. */
  lemma CollapseWord(s: string)
    requires s != [] && !IsSpace(s[0])
    ensures Collapse(s) == s[..WordLen(s)] + Collapse(s[WordLen(s)..])
  {
    var n := WordLen(s);
    assert s == s[..n] + s[n..];
    CollapseKeepsWord(s[..n], s[n..]);
  }

  /** Collapse copies text without whitespace unchanged. */
  lemma {:induction false} CollapseKeepsWord(w: string, x: string)
    requires NoSpaces(w)
    ensures Collapse(w + x) == w + Collapse(x)
  {
    if w == [] {
      assert w + x == x;
    } else {
      assert (w + x)[1..] == w[1..] + x;
      CollapseKeepsWord(w[1..], x);
      assert Collapse(w + x) == [w[0]] + Collapse(w[1..] + x);
      assert [w[0]] + (w[1..] + Collapse(x)) == w + Collapse(x);
    }
  }

  lemma {:induction false} WordsOfCollapse(s: string)
    ensures Words(Collapse(s)) == Words(s)
    decreases |s|
  {
    if s == [] {
    } else if IsSpace(s[0]) {
      var t := TrimStart(s);
      WordsOfCollapse(t);
      assert ([' '] + Collapse(t))[1..] == Collapse(t);
      WordsOfTrimStart(s);
    } else {
      var n := WordLen(s);
      var rest := s[n..];
      var x := Collapse(rest);
      CollapseWord(s);
      if rest != [] {
        CollapseFirst(rest);
      }
      WordLenOfWordThenSpace(s[..n], x);
      assert (s[..n] + x)[..n] == s[..n];
      assert (s[..n] + x)[n..] == x;
      WordsOfCollapse(rest);
    }
  }

  // ---------------------------------------------------------------------------
  // A normal string is the join of its words

  lemma {:induction false} JoinWordsOfNormal(t: string)
    requires IsNormal(t)
    ensures Join(Words(t)) == t
    decreases |t|
  {
    if t != [] {
      var n := WordLen(t);
      if n == |t| {
        assert Words(t) == [t[..n]] + Words(t[n..]);
        assert t[..n] == t;
        assert Words(t[n..]) == [];
      } else {
        NormalAfterFirstWord(t);
        JoinWordsOfNormal(t[n + 1..]);
        JoinFirstWord(t);
      }
    }
  }

  /** A normal string whose rest after the first word and its space is the
      join of its words is itself the join of its words. */
  lemma JoinFirstWord(t: string)
    requires IsNormal(t) && t != [] && WordLen(t) < |t|
    requires Join(Words(t[WordLen(t) + 1..])) == t[WordLen(t) + 1..]
    ensures Join(Words(t)) == t
  {
    var n := WordLen(t);
    var u := t[n + 1..];
    NormalAfterFirstWord(t);
    WordsSkipSpace(t[n..]);
    assert t[n..][1..] == u;
    WordsNonEmpty(u);
    JoinCons(t[..n], Words(u));
    SplitAtSpace(t, n);
  }

  /** Leading whitespace is not a word. */
  lemma WordsSkipSpace(x: string)
    requires x != [] && IsSpace(x[0])
    ensures Words(x) == Words(x[1..])
  {
  }

  /** A string that starts with a non-whitespace character has a word. */
  lemma WordsNonEmpty(u: string)
    requires u != [] && !IsSpace(u[0])
    ensures Words(u) != []
  {
    assert Words(u) == [u[..WordLen(u)]] + Words(u[WordLen(u)..]);
  }

  /** A string is what comes before its space at n, the space, and the rest. */
  lemma SplitAtSpace(t: string, n: nat)
    requires n < |t| && t[n] == ' '
    ensures t == t[..n] + " " + t[n + 1..]
  {
    assert t[n..n + 1] == " ";
    assert t == t[..n] + t[n..n + 1] + t[n + 1..];
  }

  lemma JoinCons(w: string, ws: seq<string>)
    requires ws != []
    ensures Join([w] + ws) == w + " " + Join(ws)
  {
    assert ([w] + ws)[1..] == ws;
  }

  /** In a normal string, a first word that is not all of it is followed by
      exactly one ' ' and then by a normal, non-empty rest. */
  lemma NormalAfterFirstWord(t: string)
    requires IsNormal(t) && t != [] && WordLen(t) < |t|
    ensures t[WordLen(t)] == ' '
    ensures WordLen(t) + 1 < |t|
    ensures IsNormal(t[WordLen(t) + 1..])
  {
    var n := WordLen(t);
    var u := t[n + 1..];
    assert n + 1 < |t|;
    forall i | 0 <= i < |u| - 1 && IsSpace(u[i])
      ensures !IsSpace(u[i + 1])
    {
      assert u[i] == t[n + 1 + i] && u[i + 1] == t[n + 2 + i];
    }
  }

  // ---------------------------------------------------------------------------
  // A worked example: a reply with a newline and a double space

  /** A word followed by nothing or by whitespace is the first word. */
  lemma WordsCons(w: string, x: string)
    requires w != [] && NoSpaces(w)
    requires x == [] || IsSpace(x[0])
    ensures Words(w + x) == [w] + Words(x)
  {
    WordLenOfWordThenSpace(w, x);
    assert (w + x)[..|w|] == w;
    assert (w + x)[|w|..] == x;
  }

  /** A word, then a run of whitespace, then the rest. */
  lemma WordsStep(w: string, gap: string, rest: string)
    requires w != [] && NoSpaces(w) && gap != [] && AllSpaces(gap)
    ensures Words(w + (gap + rest)) == [w] + Words(rest)
  {
    WordsPrependSpaces(gap, rest);
    WordsCons(w, gap + rest);
  }

  /** The sample reply, "Write\na  detailed poem", assembled from its words
      and gaps. */
  lemma SampleText()
    ensures "Write\na  detailed poem" == "Write" + ("\n" + ("a" + ("  " + ("detailed" + (" " + "poem")))))
  {
  }

  lemma SampleLastWord()
    ensures Words("poem") == ["poem"]
  {
    WordsCons("poem", "");
    assert "poem" + "" == "poem";
  }

  lemma SampleWords3()
    ensures Words("detailed" + (" " + "poem")) == ["detailed", "poem"]
  {
    SampleLastWord();
    WordsStep("detailed", " ", "poem");
  }

  lemma SampleWords2()
    ensures Words("a" + ("  " + ("detailed" + (" " + "poem")))) == ["a", "detailed", "poem"]
  {
    SampleWords3();
    WordsStep("a", "  ", "detailed" + (" " + "poem"));
  }

  lemma SampleFirstWord()
    ensures NoSpaces("Write")
  {
    var w := "Write";
    assert w[0] == 'W' && w[1] == 'r' && w[2] == 'i' && w[3] == 't' && w[4] == 'e';
  }

  lemma SampleWords(s: string)
    requires s == "Write" + ("\n" + ("a" + ("  " + ("detailed" + (" " + "poem")))))
    ensures Words(s) == ["Write", "a", "detailed", "poem"]
  {
    SampleWords2();
    SampleFirstWord();
    WordsStep("Write", "\n", "a" + ("  " + ("detailed" + (" " + "poem"))));
  }

  lemma SampleJoin()
    ensures Join(["Write", "a", "detailed", "poem"]) == "Write a detailed poem"
  {
    JoinCons("detailed", ["poem"]);
    assert ["detailed"] + ["poem"] == ["detailed", "poem"];
    JoinCons("a", ["detailed", "poem"]);
    assert ["a"] + ["detailed", "poem"] == ["a", "detailed", "poem"];
    JoinCons("Write", ["a", "detailed", "poem"]);
    assert ["Write"] + ["a", "detailed", "poem"] == ["Write", "a", "detailed", "poem"];
  }

  lemma NormalizeSampleAt(s: string)
    requires Words(s) == ["Write", "a", "detailed", "poem"]
    ensures Normalize(s) == "Write a detailed poem"
  {
    NormalizeIsJoinOfWords(s);
    SampleJoin();
  }

  /** The newline becomes a space and the double space a single one. */
  lemma NormalizeSample()
    ensures Normalize("Write\na  detailed poem") == "Write a detailed poem"
  {
    SampleText();
    SampleWords("Write\na  detailed poem");
    NormalizeSampleAt("Write\na  detailed poem");
  }
}
