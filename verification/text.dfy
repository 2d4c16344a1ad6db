/** The string operations of Rust's `str` that the gateway relies on:
    prefix tests, `trim_start_matches`, `trim`, `split_whitespace` and
    `to_lowercase` on ASCII. */
module Text {

  /** Unicode White_Space, the class `char::is_whitespace` tests and hence
      the class `trim` and `split_whitespace` use. */
  predicate IsWhitespace(c: char) {
    || ('\t' <= c <= '\r')
    || c == ' '
    || c == '\U{0085}'
    || c == '\U{00A0}'
    || c == '\U{1680}'
    || ('\U{2000}' <= c <= '\U{200A}')
    || c == '\U{2028}'
    || c == '\U{2029}'
    || c == '\U{202F}'
    || c == '\U{205F}'
    || c == '\U{3000}'
  }

  predicate NoWhitespace(s: string) {
    forall i | 0 <= i < |s| :: !IsWhitespace(s[i])
  }

  predicate AllWhitespace(s: string) {
    forall i | 0 <= i < |s| :: IsWhitespace(s[i])
  }

  /** `str::starts_with` */
  predicate StartsWith(s: string, p: string) {
    |p| <= |s| && s[..|p|] == p
  }

  /** `n` copies of `p`, one after the other. */
  function Repeat(p: string, n: nat): (r: string)
    ensures |r| == n * |p|
  {
    if n == 0 then [] else p + Repeat(p, n - 1)
  }

  /* ---------------------------------------------------------------------
     trim_start_matches
     --------------------------------------------------------------------- */

  /** `str::trim_start_matches(p)`: removes every leading copy of `p`.
      An empty pattern removes nothing. */
  function TrimStartMatches(s: string, p: string): (r: string)
    ensures |r| <= |s| && r == s[|s| - |r|..]
    ensures |p| > 0 ==> !StartsWith(r, p)
    ensures |p| == 0 ==> r == s
    decreases |s|
  {
    if |p| > 0 && StartsWith(s, p) then TrimStartMatches(s[|p|..], p) else s
  }

  /** What `TrimStartMatches` removed is a whole number of copies of the
      pattern: the input is those copies followed by the result. */
  lemma {:induction false} TrimStartMatchesRemovesCopies(s: string, p: string)
    ensures exists n: nat :: s == Repeat(p, n) + TrimStartMatches(s, p)
    decreases |s|
  {
    var r := TrimStartMatches(s, p);
    if |p| > 0 && StartsWith(s, p) {
      var t := s[|p|..];
      assert r == TrimStartMatches(t, p);
      TrimStartMatchesRemovesCopies(t, p);
      var n: nat :| t == Repeat(p, n) + r;
      assert s == p + t by { assert s[..|p|] == p; }
      PrependCopy(p, n, r);
      assert s == Repeat(p, n + 1) + r;
    } else {
      assert s == Repeat(p, 0) + r;
    }
  }

  lemma PrependCopy(p: string, n: nat, r: string)
    ensures p + (Repeat(p, n) + r) == Repeat(p, n + 1) + r
  {
    assert Repeat(p, n + 1) == p + Repeat(p, n);
  }

  /** One leading copy of the pattern comes off, then stripping goes on. */
  lemma TrimStartMatchesCons(p: string, rest: string)
    requires |p| > 0
    ensures TrimStartMatches(p + rest, p) == TrimStartMatches(rest, p)
  {
    assert (p + rest)[..|p|] == p;
    assert (p + rest)[|p|..] == rest;
  }

  /** Stripping `n` leading copies of the pattern off a text that does not
      itself start with the pattern gives back that text. */
  lemma {:induction false} TrimStartMatchesCopies(p: string, n: nat, r: string)
    requires |p| > 0 && !StartsWith(r, p)
    ensures TrimStartMatches(Repeat(p, n) + r, p) == r
  {
    if n == 0 {
      assert Repeat(p, 0) + r == r;
    } else {
      PrependCopy(p, n - 1, r);
      TrimStartMatchesCons(p, Repeat(p, n - 1) + r);
      TrimStartMatchesCopies(p, n - 1, r);
    }
  }

  /** Stripping is idempotent: nothing more comes off a second time. */
  lemma TrimStartMatchesIdempotent(s: string, p: string)
    ensures TrimStartMatches(TrimStartMatches(s, p), p) == TrimStartMatches(s, p)
  {
  }

  /* ---------------------------------------------------------------------
     trim
     --------------------------------------------------------------------- */

  /** `str::trim_start` */
  function TrimStart(s: string): (r: string)
    ensures |r| <= |s| && r == s[|s| - |r|..]
    ensures forall i | 0 <= i < |s| - |r| :: IsWhitespace(s[i])
    ensures |r| > 0 ==> !IsWhitespace(r[0])
  {
    if |s| > 0 && IsWhitespace(s[0]) then
      var r := TrimStart(s[1..]);
      assert forall i | 1 <= i < |s| - |r| :: s[i] == s[1..][i - 1];
      r
    else s
  }

  /** `s` is the whitespace `TrimStart` removed, `s[..i]`, followed by what
      it kept. */
  lemma TrimStartSplits(s: string) returns (i: nat)
    ensures i == |s| - |TrimStart(s)|
    ensures s == s[..i] + TrimStart(s)
    ensures AllWhitespace(s[..i])
  {
    var t := TrimStart(s);
    i := |s| - |t|;
    WhitespaceThenSuffix(s, t);
  }

  lemma WhitespaceThenSuffix(s: string, t: string)
    requires |t| <= |s| && t == s[|s| - |t|..]
    requires forall k | 0 <= k < |s| - |t| :: IsWhitespace(s[k])
    ensures s == s[..|s| - |t|] + t
    ensures AllWhitespace(s[..|s| - |t|])
  {
    var i := |s| - |t|;
    assert s == s[..i] + s[i..];
    assert forall k | 0 <= k < i :: s[..i][k] == s[k];
  }

  /** `str::trim_end` */
  function TrimEnd(s: string): (r: string)
    ensures |r| <= |s| && r == s[..|r|]
    ensures AllWhitespace(s[|r|..])
    ensures |r| > 0 ==> !IsWhitespace(r[|r| - 1])
  {
    if |s| > 0 && IsWhitespace(s[|s| - 1]) then
      var r := TrimEnd(s[..|s| - 1]);
      assert s[|r|..] == s[..|s| - 1][|r|..] + [s[|s| - 1]];
      r
    else s
  }

  /** `str::trim`: the result neither begins nor ends with whitespace. */
  function Trim(s: string): (r: string)
    ensures |r| <= |s|
    ensures |r| > 0 ==> !IsWhitespace(r[0]) && !IsWhitespace(r[|r| - 1])
  {
    TrimEnd(TrimStart(s))
  }

  /** What `Trim` returns is a slice of its input with only whitespace cut
      off on either side. */
  lemma TrimCutsOnlyWhitespace(s: string)
    ensures exists i :: (0 <= i <= |s| - |Trim(s)| && Trim(s) == s[i..i + |Trim(s)|]
                         && AllWhitespace(s[..i]) && AllWhitespace(s[i + |Trim(s)|..]))
  {
    var t := TrimStart(s);
    var r := Trim(s);
    assert r == TrimEnd(t);
    var i := CutWhitespace(s, t, r);
    assert 0 <= i <= |s| - |r| && r == s[i..i + |r|] && AllWhitespace(s[..i]) && AllWhitespace(s[i + |r|..]);
  }

  /** Whitespace cut off the front of `s`, giving `t`, and then off the back
      of `t`, giving `r`: `r` is the slice of `s` at `i`, between two
      whitespace runs. */
  lemma CutWhitespace(s: string, t: string, r: string) returns (i: nat)
    requires |t| <= |s| && t == s[|s| - |t|..]
    requires forall k | 0 <= k < |s| - |t| :: IsWhitespace(s[k])
    requires |r| <= |t| && r == t[..|r|]
    requires AllWhitespace(t[|r|..])
    ensures i <= |s| - |r| && r == s[i..i + |r|]
    ensures AllWhitespace(s[..i]) && AllWhitespace(s[i + |r|..])
  {
    SliceOfSuffix(s, t, r);
    i := |s| - |t|;
    assert AllWhitespace(s[..i]) by {
      assert forall k | 0 <= k < i :: s[..i][k] == s[k];
    }
  }

  /** A prefix of a suffix is a slice, and what follows it in the suffix
      is what follows it in the whole. */
  lemma SliceOfSuffix(s: string, t: string, r: string)
    requires |t| <= |s| && t == s[|s| - |t|..]
    requires |r| <= |t| && r == t[..|r|]
    ensures var i := |s| - |t|;
      && r == s[i..i + |r|]
      && s[i + |r|..] == t[|r|..]
  {
  }

  /** A string without surrounding whitespace is left as it is by `Trim`,
      so trimming twice is trimming once. */
  lemma TrimKeepsTrimmed(s: string)
    requires |s| > 0 ==> !IsWhitespace(s[0]) && !IsWhitespace(s[|s| - 1])
    ensures Trim(s) == s
  {
  }

  lemma TrimIdempotent(s: string)
    ensures Trim(Trim(s)) == Trim(s)
  {
    TrimKeepsTrimmed(Trim(s));
  }

  /* ---------------------------------------------------------------------
     split_whitespace
     --------------------------------------------------------------------- */

  /** The longest prefix of `s` without whitespace. */
  function LeadingWord(s: string): (w: string)
    ensures |w| <= |s| && w == s[..|w|]
    ensures NoWhitespace(w)
    ensures |w| < |s| ==> IsWhitespace(s[|w|])
  {
    if |s| > 0 && !IsWhitespace(s[0]) then [s[0]] + LeadingWord(s[1..]) else []
  }

  /** `s` with every whitespace character dropped. */
  function NonWhitespace(s: string): (r: string)
    ensures |r| <= |s| && NoWhitespace(r)
  {
    if |s| == 0 then []
    else (if IsWhitespace(s[0]) then [] else [s[0]]) + NonWhitespace(s[1..])
  }

  /** The words of a list, one after the other. */
  function Concat(words: seq<string>): string {
    if |words| == 0 then [] else words[0] + Concat(words[1..])
  }

  lemma {:induction false} NonWhitespaceAppend(a: string, b: string)
    ensures NonWhitespace(a + b) == NonWhitespace(a) + NonWhitespace(b)
    decreases |a|
  {
    if |a| == 0 {
      assert a + b == b;
    } else {
      assert (a + b)[1..] == a[1..] + b;
      NonWhitespaceAppend(a[1..], b);
    }
  }

  lemma {:induction false} NonWhitespaceOfWhitespace(a: string)
    requires AllWhitespace(a)
    ensures NonWhitespace(a) == []
    decreases |a|
  {
    if |a| > 0 {
      NonWhitespaceOfWhitespace(a[1..]);
    }
  }

  lemma {:induction false} NonWhitespaceOfWord(w: string)
    requires NoWhitespace(w)
    ensures NonWhitespace(w) == w
    decreases |w|
  {
    if |w| > 0 {
      NonWhitespaceOfWord(w[1..]);
      assert w == [w[0]] + w[1..];
    }
  }

  /** `str::split_whitespace`, collected: the maximal runs of
      non-whitespace characters, in order. Every word is non-empty and free
      of whitespace, and the words put back together are the text with its
      whitespace taken out. Where the words break is fixed by
      `SplitAtWhitespace`, `SplitOfWord` and `SplitOfWhitespace`: every
      whitespace character separates the words on its two sides, a lone word
      is one word, and whitespace alone has none. With them,
      `SplitWhitespaceIsNonEmptyPieces` shows the result is the text cut at
      every whitespace character with the empty pieces dropped. */
  function SplitWhitespace(s: string): (words: seq<string>)
    ensures forall k | 0 <= k < |words| :: |words[k]| > 0 && NoWhitespace(words[k])
    ensures Concat(words) == NonWhitespace(s)
    decreases |s|
  {
    var t := TrimStart(s);
    NonWhitespaceOfFirstWord(s);
    if |t| == 0 then []
    else
      var w := LeadingWord(t);
      var rest := SplitWhitespace(t[|w|..]);
      ConsWord(w, rest);
      [w] + rest
  }

  /** The non-whitespace of a text is its first word, if any, followed by
      the non-whitespace of what comes after that word. */
  lemma NonWhitespaceOfFirstWord(s: string)
    ensures var t := TrimStart(s);
      NonWhitespace(s) == if |t| == 0 then [] else LeadingWord(t) + NonWhitespace(t[|LeadingWord(t)|..])
  {
    var t := TrimStart(s);
    var i := TrimStartSplits(s);
    var k := |LeadingWord(t)|;
    NonWhitespaceOfParts(s, s[..i], t, k);
    if |t| == 0 {
      assert t[..k] + NonWhitespace(t[k..]) == [];
    }
  }

  /** Whitespace, then a word of `k` characters, then anything: only the
      word and the non-whitespace of the rest remain. */
  lemma NonWhitespaceOfParts(s: string, space: string, t: string, k: nat)
    requires s == space + t && AllWhitespace(space)
    requires k <= |t| && NoWhitespace(t[..k])
    ensures NonWhitespace(s) == t[..k] + NonWhitespace(t[k..])
  {
    assert t == t[..k] + t[k..];
    NonWhitespaceAppend(space, t);
    NonWhitespaceOfWhitespace(space);
    NonWhitespaceAppend(t[..k], t[k..]);
    NonWhitespaceOfWord(t[..k]);
  }

  /** Putting a word in front of a list of words. */
  lemma ConsWord(w: string, rest: seq<string>)
    requires |w| > 0 && NoWhitespace(w)
    requires forall k | 0 <= k < |rest| :: |rest[k]| > 0 && NoWhitespace(rest[k])
    ensures forall k | 0 <= k < |[w] + rest| :: |([w] + rest)[k]| > 0 && NoWhitespace(([w] + rest)[k])
    ensures Concat([w] + rest) == w + Concat(rest)
  {
    assert ([w] + rest)[1..] == rest;
  }

  /** Whitespace in front of a text does not change where `trim_start`
      stops. */
  lemma {:induction false} TrimStartAfterWhitespace(space: string, t: string)
    requires AllWhitespace(space)
    ensures TrimStart(space + t) == TrimStart(t)
    decreases |space|
  {
    if |space| > 0 {
      assert (space + t)[0] == space[0];
      assert (space + t)[1..] == space[1..] + t;
      assert AllWhitespace(space[1..]) by {
        assert forall k | 0 <= k < |space[1..]| :: space[1..][k] == space[k + 1];
      }
      TrimStartAfterWhitespace(space[1..], t);
    } else {
      assert space + t == t;
    }
  }

  /** The leading word of a word followed by whitespace, or by nothing, is
      that word. */
  lemma {:induction false} LeadingWordOfWord(w: string, r: string)
    requires NoWhitespace(w)
    requires |r| > 0 ==> IsWhitespace(r[0])
    ensures LeadingWord(w + r) == w
    decreases |w|
  {
    if |w| > 0 {
      assert (w + r)[0] == w[0];
      assert (w + r)[1..] == w[1..] + r;
      LeadingWordOfWord(w[1..], r);
    } else {
      assert w + r == r;
    }
  }

  /** Whitespace in front of a text adds no words. */
  lemma SplitAfterWhitespace(space: string, t: string)
    requires AllWhitespace(space)
    ensures SplitWhitespace(space + t) == SplitWhitespace(t)
  {
    TrimStartAfterWhitespace(space, t);
  }

  /** A word followed by whitespace, or by nothing, is the first word. */
  lemma SplitAfterWord(w: string, r: string)
    requires |w| > 0 && NoWhitespace(w)
    requires |r| > 0 ==> IsWhitespace(r[0])
    ensures SplitWhitespace(w + r) == [w] + SplitWhitespace(r)
  {
    assert (w + r)[0] == w[0];
    assert TrimStart(w + r) == w + r;
    LeadingWordOfWord(w, r);
    assert (w + r)[|w|..] == r;
  }

  /** A text of whitespace only has no words. */
  lemma SplitOfWhitespace(s: string)
    requires AllWhitespace(s)
    ensures SplitWhitespace(s) == []
  {
    assert s + [] == s;
    SplitAfterWhitespace(s, []);
  }

  /** A word on its own is a single word. */
  lemma SplitOfWord(w: string)
    requires |w| > 0 && NoWhitespace(w)
    ensures SplitWhitespace(w) == [w]
  {
    assert w + [] == w;
    SplitAfterWord(w, []);
  }

  /** Every whitespace character is a word boundary: the words on its two
      sides are split separately and put one after the other. */
  lemma {:induction false} SplitAtWhitespace(a: string, c: char, b: string)
    requires IsWhitespace(c)
    ensures SplitWhitespace(a + [c] + b) == SplitWhitespace(a) + SplitWhitespace(b)
    decreases |a|, 1
  {
    var t := TrimStart(a);
    var i := TrimStartSplits(a);
    if |t| == 0 {
      BoundaryAfterWhitespace(a, c, b);
    } else {
      BoundaryAfterWord(a, a[..i], t, c, b);
    }
  }

  /** `SplitAtWhitespace` when `a` is all whitespace. */
  lemma BoundaryAfterWhitespace(a: string, c: char, b: string)
    requires IsWhitespace(c) && AllWhitespace(a)
    ensures SplitWhitespace(a + [c] + b) == SplitWhitespace(a) + SplitWhitespace(b)
  {
    assert AllWhitespace(a + [c]) by {
      assert forall k | 0 <= k < |a| :: (a + [c])[k] == a[k];
    }
    SplitAfterWhitespace(a + [c], b);
    SplitOfWhitespace(a);
  }

  /** `SplitAtWhitespace` when `a` is whitespace, then a first word, then
      the rest: the boundary in the rest gives the boundary in `a`. */
  lemma {:induction false} BoundaryAfterWord(a: string, space: string, t: string, c: char, b: string)
    requires IsWhitespace(c)
    requires a == space + t && AllWhitespace(space) && |t| > 0 && !IsWhitespace(t[0])
    ensures SplitWhitespace(a + [c] + b) == SplitWhitespace(a) + SplitWhitespace(b)
    decreases |a|, 0
  {
    var w := LeadingWord(t);
    var r := t[|w|..];
    var rest := r + [c] + b;
    assert |w| > 0;
    SplitAtWhitespace(r, c, b);
    Regroup(a, space, t, w, r, c, b);
    assert SplitWhitespace(a) == [w] + SplitWhitespace(r) by {
      SplitAfterWhitespace(space, w + r);
      SplitAfterWord(w, r);
    }
    assert SplitWhitespace(a + [c] + b) == [w] + SplitWhitespace(rest) by {
      assert |rest| > 0 && IsWhitespace(rest[0]) by {
        assert rest[0] == if |r| > 0 then r[0] else c;
      }
      SplitAfterWhitespace(space, w + rest);
      SplitAfterWord(w, rest);
    }
    ConsThenAppend(w, SplitWhitespace(a), SplitWhitespace(r), SplitWhitespace(a + [c] + b),
                   SplitWhitespace(rest), SplitWhitespace(b));
  }

  lemma ConsThenAppend(w: string, sa: seq<string>, sr: seq<string>, sab: seq<string>, srest: seq<string>, sb: seq<string>)
    requires sa == [w] + sr && sab == [w] + srest && srest == sr + sb
    ensures sab == sa + sb
  {
  }

  /** The regrouping `SplitAtWhitespace` needs, kept apart from the
      recursive definitions. */
  lemma Regroup(a: string, space: string, t: string, w: string, r: string, c: char, b: string)
    requires a == space + t && |w| <= |t| && w == t[..|w|] && r == t[|w|..]
    ensures a == space + (w + r)
    ensures a + [c] + b == space + (w + (r + [c] + b))
  {
    assert t == w + r;
  }

  /** Index of the first whitespace character of `s`, or `|s|` if none. */
  function FirstWhitespace(s: string): (j: nat)
    ensures j <= |s| && NoWhitespace(s[..j])
    ensures j < |s| ==> IsWhitespace(s[j])
  {
    if |s| == 0 || IsWhitespace(s[0]) then 0
    else
      var j := 1 + FirstWhitespace(s[1..]);
      assert forall k | 1 <= k < j :: s[..j][k] == s[1..][..j - 1][k - 1];
      j
  }

  /** `s.split(char::is_whitespace)` with the empty pieces dropped: the
      definition of `split_whitespace` in Rust's documentation, cutting at
      every whitespace character. */
  function NonEmptyPieces(s: string): (pieces: seq<string>)
    decreases |s|
  {
    var j := FirstWhitespace(s);
    var first := if j == 0 then [] else [s[..j]];
    if j == |s| then first else first + NonEmptyPieces(s[j + 1..])
  }

  /** `SplitWhitespace` agrees with the cut-and-filter definition on
      every text. */
  lemma {:induction false} SplitWhitespaceIsNonEmptyPieces(s: string)
    ensures SplitWhitespace(s) == NonEmptyPieces(s)
    decreases |s|
  {
    var j := FirstWhitespace(s);
    FirstPieceSplit(s);
    if j == |s| {
      assert s[..j] == s;
    } else {
      var rest := s[j + 1..];
      SplitAtFirstWhitespace(s);
      SplitWhitespaceIsNonEmptyPieces(rest);
      JoinPieces(SplitWhitespace(s), SplitWhitespace(s[..j]), SplitWhitespace(rest),
                 NonEmptyPieces(s), NonEmptyPieces(rest));
    }
  }

  /** Both sides of `SplitWhitespaceIsNonEmptyPieces` cut at the first
      whitespace character. */
  lemma SplitAtFirstWhitespace(s: string)
    requires FirstWhitespace(s) < |s|
    ensures var j := FirstWhitespace(s);
      && SplitWhitespace(s) == SplitWhitespace(s[..j]) + SplitWhitespace(s[j + 1..])
      && NonEmptyPieces(s) == (if j == 0 then [] else [s[..j]]) + NonEmptyPieces(s[j + 1..])
  {
    var j := FirstWhitespace(s);
    CutAt(s, j);
    SplitAtWhitespace(s[..j], s[j], s[j + 1..]);
  }

  lemma JoinPieces(ss: seq<string>, sp: seq<string>, sr: seq<string>, ns: seq<string>, nr: seq<string>)
    requires ss == sp + sr && sr == nr && ns == sp + nr
    ensures ss == ns
  {
  }

  lemma CutAt(s: string, j: nat)
    requires j < |s|
    ensures s == s[..j] + [s[j]] + s[j + 1..]
  {
  }

  /** The text before the first whitespace character is one word, or
      none when it is empty. */
  lemma FirstPieceSplit(s: string)
    ensures var j := FirstWhitespace(s);
      SplitWhitespace(s[..j]) == if j == 0 then [] else [s[..j]]
  {
    var j := FirstWhitespace(s);
    if j == 0 {
      SplitOfWhitespace(s[..j]);
    } else {
      SplitOfWord(s[..j]);
    }
  }

  /** Two words around one whitespace character split into exactly those
      two words: "ab cd" gives ["ab", "cd"] and no other split of the same
      letters. */
  lemma TwoWords(u: string, c: char, v: string)
    requires |u| > 0 && NoWhitespace(u) && IsWhitespace(c) && |v| > 0 && NoWhitespace(v)
    ensures SplitWhitespace(u + [c] + v) == [u, v]
  {
    SplitAtWhitespace(u, c, v);
    SplitOfWord(u);
    SplitOfWord(v);
  }

  lemma TwoWordsExample()
    ensures SplitWhitespace("ab cd") == ["ab", "cd"]
  {
    assert "ab" + [' '] + "cd" == "ab cd";
    TwoWords("ab", ' ', "cd");
  }

  /** Number of words in `s`, scanning left to right; `inWord` says whether
      the character before `s` ended a word that is already counted. */
  function WordsFrom(s: string, inWord: bool): nat
    decreases |s|
  {
    if |s| == 0 then 0
    else if IsWhitespace(s[0]) then WordsFrom(s[1..], false)
    else (if inWord then 0 else 1) + WordsFrom(s[1..], true)
  }

  /** `split_whitespace().count()` */
  function WordCount(s: string): nat {
    WordsFrom(s, false)
  }

  lemma {:induction false} WordsFromSkipsWhitespace(s: string, t: string)
    requires AllWhitespace(s)
    ensures WordsFrom(s + t, false) == WordsFrom(t, false)
    decreases |s|
  {
    if |s| > 0 {
      assert (s + t)[1..] == s[1..] + t;
      WordsFromSkipsWhitespace(s[1..], t);
    } else {
      assert s + t == t;
    }
  }

  lemma {:induction false} WordsFromInsideWord(w: string, t: string)
    requires NoWhitespace(w)
    ensures WordsFrom(w + t, true) == WordsFrom(t, true)
    decreases |w|
  {
    if |w| > 0 {
      assert (w + t)[1..] == w[1..] + t;
      WordsFromInsideWord(w[1..], t);
    } else {
      assert w + t == t;
    }
  }

  /** A non-empty string that begins with a word: counting from the start
      finds that word and then the words of what follows it. */
  lemma WordsFromLeadingWord(t: string)
    requires |t| > 0 && !IsWhitespace(t[0])
    ensures WordsFrom(t, false) == 1 + WordsFrom(t[|LeadingWord(t)|..], false)
  {
    var w := LeadingWord(t);
    var rest := t[|w|..];
    assert |w| > 0;
    assert WordsFrom(t, false) == 1 + WordsFrom(t[1..], true);
    assert t[1..] == w[1..] + rest;
    assert NoWhitespace(w[1..]);
    WordsFromInsideWord(w[1..], rest);
    WordsFromAfterWord(rest);
  }

  /** After a word ends, whether it was counted no longer matters. */
  lemma WordsFromAfterWord(rest: string)
    requires |rest| > 0 ==> IsWhitespace(rest[0])
    ensures WordsFrom(rest, true) == WordsFrom(rest, false)
  {
  }

  /** Counting agrees with splitting: `WordCount` is the number of pieces
      `SplitWhitespace` yields. */
  lemma {:induction false} WordCountIsSplitLength(s: string)
    ensures WordCount(s) == |SplitWhitespace(s)|
    decreases |s|
  {
    var t := TrimStart(s);
    var i := TrimStartSplits(s);
    WordsFromSkipsWhitespace(s[..i], t);
    if |t| > 0 {
      WordsFromLeadingWord(t);
      WordCountIsSplitLength(t[|LeadingWord(t)|..]);
    }
  }

  /** Extending a text never loses words: the count of a prefix is at most
      the count of the whole. */
  lemma {:induction false} WordsFromPrefixMonotone(p: string, s: string, inWord: bool)
    requires |p| <= |s| && s[..|p|] == p
    ensures WordsFrom(p, inWord) <= WordsFrom(s, inWord)
    decreases |p|
  {
    if |p| > 0 {
      assert s[1..][..|p[1..]|] == p[1..];
      WordsFromPrefixMonotone(p[1..], s[1..], false);
      WordsFromPrefixMonotone(p[1..], s[1..], true);
    }
  }

  /** `split_whitespace().count()` as the source's iterator computes it: one
      pass, counting each non-whitespace character that follows whitespace
      or the start of the text. */
  method CountWords(s: string) returns (n: nat)
    ensures n == WordCount(s)
    ensures n == |SplitWhitespace(s)|
  {
    n := 0;
    var inWord := false;
    var i := 0;
    while i < |s|
      invariant 0 <= i <= |s|
      invariant n + WordsFrom(s[i..], inWord) == WordCount(s)
    {
      assert s[i..][1..] == s[i + 1..];
      if IsWhitespace(s[i]) {
        inWord := false;
      } else {
        if !inWord {
          n := n + 1;
        }
        inWord := true;
      }
      i := i + 1;
    }
    WordCountIsSplitLength(s);
  }

  /* ---------------------------------------------------------------------
     to_lowercase
     --------------------------------------------------------------------- */

  function LowerChar(c: char): char {
    if 'A' <= c <= 'Z' then (c as int - 'A' as int + 'a' as int) as char else c
  }

  /** `str::to_lowercase`, on the ASCII letters only. */
  function ToLowercase(s: string): (r: string)
    ensures |r| == |s|
    ensures forall i | 0 <= i < |s| :: r[i] == LowerChar(s[i])
  {
    if |s| == 0 then [] else [LowerChar(s[0])] + ToLowercase(s[1..])
  }

  predicate HasNoUppercase(s: string) {
    forall i | 0 <= i < |s| :: !('A' <= s[i] <= 'Z')
  }

  /** Lowercasing a string that has no upper-case letter changes nothing. */
  lemma ToLowercaseOfLowercase(s: string)
    requires HasNoUppercase(s)
    ensures ToLowercase(s) == s
  {
  }
}
