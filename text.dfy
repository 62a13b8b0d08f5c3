/**
 Whitespace handling of the monitor: the `cleanText` helper, which is
 `strings.Join(strings.Fields(text), " ")`, and `strings.TrimSpace`, both over
 Go's `unicode.IsSpace` classification.
 */
module Text {

  /** Go's `unicode.IsSpace`: the Latin-1 spaces plus the Unicode White_Space set. */
  predicate IsSpace(c: char) {
    var n := c as int;
    (9 <= n <= 13) || n == 0x20 || n == 0x85 || n == 0xA0 || n == 0x1680
    || (0x2000 <= n <= 0x200A) || n == 0x2028 || n == 0x2029 || n == 0x202F
    || n == 0x205F || n == 0x3000
  }

  predicate NoSpace(s: string) {
    forall i :: 0 <= i < |s| ==> !IsSpace(s[i])
  }

  predicate AllSpace(s: string) {
    forall i :: 0 <= i < |s| ==> IsSpace(s[i])
  }

  /** A field as `strings.Fields` returns it: a non-empty run of non-space characters. */
  predicate IsWord(w: string) {
    w != [] && NoSpace(w)
  }

  predicate AllWords(ws: seq<string>) {
    forall k :: 0 <= k < |ws| ==> IsWord(ws[k])
  }

  /** No whitespace at either end. */
  predicate Trimmed(s: string) {
    s == [] || (!IsSpace(s[0]) && !IsSpace(s[|s| - 1]))
  }

  /**
   Normal form of `cleanText`: no whitespace at either end, no whitespace
   other than the plain blank, and no two blanks in a row.
   */
  predicate Normalized(s: string) {
    Trimmed(s) && OnlyBlanks(s) && NoDoubleBlank(s)
  }

  predicate OnlyBlanks(s: string) {
    forall i :: 0 <= i < |s| && IsSpace(s[i]) ==> s[i] == ' '
  }

  predicate NoDoubleBlank(s: string) {
    forall i :: 0 <= i < |s| - 1 && s[i] == ' ' ==> s[i + 1] != ' '
  }

  /** The non-whitespace characters of `s`, in order. */
  function NonSpace(s: string): string {
    if s == [] then []
    else (if IsSpace(s[0]) then [] else [s[0]]) + NonSpace(s[1..])
  }

  function Concat(ws: seq<string>): string {
    if ws == [] then [] else ws[0] + Concat(ws[1..])
  }

  /** Length of the run of non-space characters at the front of `s`. */
  function WordLength(s: string): (n: nat)
    ensures n <= |s|
    ensures NoSpace(s[..n])
    ensures n < |s| ==> IsSpace(s[n])
  {
    if s == [] || IsSpace(s[0]) then 0
    else
      var m := WordLength(s[1..]);
      assert s[..1 + m] == [s[0]] + s[1..][..m];
      1 + m
  }

  /** `strings.Fields`: the maximal runs of non-space characters, in order. */
  function Fields(s: string): (r: seq<string>)
    decreases |s|
  {
    if s == [] then []
    else if IsSpace(s[0]) then Fields(s[1..])
    else
      var n := WordLength(s);
      [s[..n]] + Fields(s[n..])
  }

  /** `strings.Join`. */
  function Join(ws: seq<string>, sep: string): (r: string)
    ensures ws != [] ==> |r| == |Concat(ws)| + (|ws| - 1) * |sep|
  {
    if ws == [] then []
    else if |ws| == 1 then ws[0]
    else ws[0] + sep + Join(ws[1..], sep)
  }

  /**
   `cleanText` (yuc.go:35-38). The result is in normal form, has the same
   fields and the same non-space characters as the input, and is empty exactly
   when the input is all whitespace.
   */
  function CleanText(text: string): (r: string)
    ensures Normalized(r)
    ensures Fields(r) == Fields(text)
    ensures NonSpace(r) == NonSpace(text)
    ensures r == [] <==> AllSpace(text)
  {
    var ws := Fields(text);
    FieldsAreWords(text);
    JoinNormalized(ws);
    FieldsOfJoin(ws);
    NonSpaceOfJoin(ws);
    NonSpaceIsConcatOfFields(text);
    FieldsEmpty(text);
    JoinEmpty(ws);
    Join(ws, " ")
  }

  function TrimLeft(s: string): (r: string)
    ensures |r| <= |s| && r == s[|s| - |r|..]
    ensures AllSpace(s[..|s| - |r|])
    ensures r != [] ==> !IsSpace(r[0])
  {
    if s != [] && IsSpace(s[0]) then
      var t := TrimLeft(s[1..]);
      assert s[..|s| - |t|] == [s[0]] + s[1..][..|s| - 1 - |t|];
      t
    else s
  }

  function TrimRight(s: string): (r: string)
    ensures |r| <= |s| && r == s[..|r|]
    ensures AllSpace(s[|r|..])
    ensures r != [] ==> !IsSpace(r[|r| - 1])
  {
    if s != [] && IsSpace(s[|s| - 1]) then
      var t := TrimRight(s[..|s| - 1]);
      assert s[|t|..] == s[..|s| - 1][|t|..] + [s[|s| - 1]];
      t
    else s
  }

  /**
   `r` is trimmed and is what is left of `s` once a whitespace-only prefix and
   a whitespace-only suffix are removed.
   */
  ghost predicate TrimOf(r: string, s: string) {
    Trimmed(r) && exists i :: 0 <= i <= |s| && TrimAt(r, s, i)
  }

  /**
   `strings.TrimSpace`: the result is trimmed and is the infix of `s` left
   after removing a whitespace-only prefix and a whitespace-only suffix.
   */
  function TrimSpace(s: string): (r: string)
    ensures TrimOf(r, s)
  {
    var t := TrimLeft(s);
    var r := TrimRight(t);
    var i := |s| - |t|;
    assert TrimAt(r, s, i) by {
      assert s[i..] == t;
      assert r == s[i..][..|r|] == s[i..i + |r|];
      assert s[i + |r|..] == t[|r|..];
    }
    assert Trimmed(r) by {
      if r != [] { assert r[0] == t[0]; }
    }
    r
  }

  // ---------------------------------------------------------------------------
  // Lemmas about Fields and Join

  /** Every field is a non-empty run of non-space characters. */
  lemma {:induction false} FieldsAreWords(s: string)
    ensures AllWords(Fields(s))
    decreases |s|
  {
    if s != [] {
      if IsSpace(s[0]) {
        FieldsAreWords(s[1..]);
      } else {
        var n := WordLength(s);
        FieldsAreWords(s[n..]);
        assert forall k :: 1 <= k < 1 + |Fields(s[n..])| ==> Fields(s)[k] == Fields(s[n..])[k - 1];
      }
    }
  }

  lemma {:induction false} WordLengthOfWordPrefix(w: string, t: string)
    requires NoSpace(w)
    requires t == [] || IsSpace(t[0])
    ensures WordLength(w + t) == |w|
    decreases |w|
  {
    if w != [] {
      assert (w + t)[1..] == w[1..] + t;
      WordLengthOfWordPrefix(w[1..], t);
    } else {
      assert w + t == t;
    }
  }

  /** A word followed by a blank or by nothing splits off as the first field. */
  lemma FieldsOfWordPrefix(w: string, t: string)
    requires IsWord(w)
    requires t == [] || IsSpace(t[0])
    ensures Fields(w + t) == [w] + Fields(t)
  {
    WordLengthOfWordPrefix(w, t);
    assert (w + t)[..|w|] == w;
    assert (w + t)[|w|..] == t;
  }

  lemma {:induction false} JoinNormalized(ws: seq<string>)
    requires AllWords(ws)
    ensures Normalized(Join(ws, " "))
  {
    if |ws| == 1 {
      assert Join(ws, " ") == ws[0];
    } else if |ws| > 1 {
      var w, rest := ws[0], Join(ws[1..], " ");
      JoinNormalized(ws[1..]);
      JoinEmpty(ws[1..]);
      var r := w + " " + rest;
      assert r == Join(ws, " ");
      assert forall i :: 0 <= i < |w| ==> r[i] == w[i];
      assert forall i :: |w| < i < |r| ==> r[i] == rest[i - |w| - 1];
      assert r[|w|] == ' ';
      assert Trimmed(r) by {
        assert r[|r| - 1] == rest[|rest| - 1];
      }
      assert NoDoubleBlank(r) by {
        forall i | 0 <= i < |r| - 1 && r[i] == ' ' ensures r[i + 1] != ' ' {
          if i == |w| {
            assert r[i + 1] == rest[0];
          }
        }
      }
    }
  }

  lemma {:induction false} JoinEmpty(ws: seq<string>)
    requires AllWords(ws)
    ensures Join(ws, " ") == [] <==> ws == []
  {
    if |ws| > 1 {
      assert |Join(ws, " ")| >= |ws[0]| > 0;
    }
  }

  /** Joining well-formed fields with single blanks and splitting again gives them back. */
  lemma {:induction false} FieldsOfJoin(ws: seq<string>)
    requires AllWords(ws)
    ensures Fields(Join(ws, " ")) == ws
  {
    if |ws| == 1 {
      FieldsOfWordPrefix(ws[0], []);
      assert ws[0] + [] == ws[0];
    } else if |ws| > 1 {
      var rest := Join(ws[1..], " ");
      FieldsOfJoin(ws[1..]);
      FieldsOfWordPrefix(ws[0], " " + rest);
      assert ws[0] + " " + rest == ws[0] + (" " + rest);
      assert (" " + rest)[1..] == rest;
    }
  }

  lemma {:induction false} NonSpaceAppend(a: string, b: string)
    ensures NonSpace(a + b) == NonSpace(a) + NonSpace(b)
  {
    if a == [] {
      assert a + b == b;
    } else {
      assert (a + b)[1..] == a[1..] + b;
      NonSpaceAppend(a[1..], b);
    }
  }

  lemma {:induction false} NonSpaceOfWord(w: string)
    requires NoSpace(w)
    ensures NonSpace(w) == w
  {
    if w != [] {
      NonSpaceOfWord(w[1..]);
    }
  }

  lemma {:induction false} NonSpaceOfJoin(ws: seq<string>)
    requires AllWords(ws)
    ensures NonSpace(Join(ws, " ")) == Concat(ws)
  {
    if |ws| == 1 {
      NonSpaceOfWord(ws[0]);
      assert Concat(ws) == ws[0] + Concat([]);
    } else if |ws| > 1 {
      NonSpaceOfJoin(ws[1..]);
      NonSpaceOfWord(ws[0]);
      NonSpaceAppend(ws[0] + " ", Join(ws[1..], " "));
      NonSpaceAppend(ws[0], " ");
      assert NonSpace(" ") == [];
    }
  }

  /** The fields carry exactly the non-space characters of their source. */
  lemma {:induction false} NonSpaceIsConcatOfFields(s: string)
    ensures NonSpace(s) == Concat(Fields(s))
    decreases |s|
  {
    if s != [] {
      if IsSpace(s[0]) {
        NonSpaceIsConcatOfFields(s[1..]);
      } else {
        var n := WordLength(s);
        NonSpaceIsConcatOfFields(s[n..]);
        assert s == s[..n] + s[n..];
        NonSpaceAppend(s[..n], s[n..]);
        NonSpaceOfWord(s[..n]);
      }
    }
  }

  lemma {:induction false} FieldsEmpty(s: string)
    ensures Fields(s) == [] <==> AllSpace(s)
    decreases |s|
  {
    if s != [] {
      FieldsEmpty(s[1..]);
    }
  }

  // ---------------------------------------------------------------------------
  // Properties of cleanText

  /** `cleanText` is idempotent. */
  lemma CleanTextIdempotent(s: string)
    ensures CleanText(CleanText(s)) == CleanText(s)
  {
  }

  lemma {:induction false} NormalizedSuffix(s: string, k: nat)
    requires Normalized(s)
    requires 0 < k < |s| && s[k - 1] == ' '
    ensures Normalized(s[k..])
  {
    var t := s[k..];
    assert forall j :: 0 <= j < |t| ==> t[j] == s[k + j];
    assert t[0] == s[k] && t[|t| - 1] == s[|s| - 1];
  }

  lemma JoinCons(w: string, ws: seq<string>)
    requires ws != []
    ensures Join([w] + ws, " ") == w + " " + Join(ws, " ")
  {
    assert ([w] + ws)[1..] == ws;
  }

  lemma FieldsOfBlankJoin(w: string, u: string)
    requires IsWord(w)
    ensures Fields(w + " " + u) == [w] + Fields(u)
  {
    var t := [' '] + u;
    assert w + " " + u == w + t;
    FieldsOfWordPrefix(w, t);
    assert t[1..] == u;
  }

  /** In a normalized string, whitespace is a single blank between two words. */
  lemma NormalizedGap(s: string, n: nat)
    requires Normalized(s)
    requires n < |s| && IsSpace(s[n])
    ensures s[n] == ' ' && 0 < n < |s| - 1
    ensures !AllSpace(s[n + 1..])
    ensures Normalized(s[n + 1..])
  {
    assert s[n] == ' ';
    NormalizedSuffix(s, n + 1);
    assert s[n + 1..][0] == s[n + 1];
  }

  /** A string already in normal form is its own clean text. */
  lemma {:induction false} CleanTextOfNormalized(s: string)
    requires Normalized(s)
    ensures Join(Fields(s), " ") == s
    decreases |s|
  {
    if s != [] {
      var n := WordLength(s);
      var w := s[..n];
      if n < |s| {
        NormalizedGap(s, n);
        var u := s[n + 1..];
        CleanTextOfNormalized(u);
        assert s == w + " " + u;
        FieldsOfBlankJoin(w, u);
        FieldsEmpty(u);
        JoinCons(w, Fields(u));
      } else {
        assert s == w + [];
        FieldsOfWordPrefix(w, []);
      }
    }
  }

  /** The fixed points of `cleanText` are exactly the normalized strings. */
  lemma CleanTextFixpoint(s: string)
    ensures CleanText(s) == s <==> Normalized(s)
  {
    if Normalized(s) {
      CleanTextOfNormalized(s);
    }
  }

  /** Leading whitespace does not change the fields. */
  lemma {:induction false} FieldsOfSpacePrefix(sp: string, t: string)
    requires AllSpace(sp)
    ensures Fields(sp + t) == Fields(t)
    decreases |sp|
  {
    if sp != [] {
      assert (sp + t)[1..] == sp[1..] + t;
      FieldsOfSpacePrefix(sp[1..], t);
    } else {
      assert sp + t == t;
    }
  }

  /** The fields of a text mixing newlines, a run of blanks and a tab. */
  lemma FieldsExample(s: string)
    requires s == "a\n\n  b\tc"
    ensures Fields(s) == ["a", "b", "c"]
  {
    var c := "c";
    var tc := "\t" + c;
    var btc := "b" + tc;
    var sbtc := "\n\n  " + btc;
    assert s == "a" + sbtc;
    assert c + [] == c;
    FieldsOfWordPrefix(c, []);
    FieldsOfSpacePrefix("\t", c);
    FieldsOfWordPrefix("b", tc);
    FieldsOfSpacePrefix("\n\n  ", btc);
    FieldsOfWordPrefix("a", sbtc);
  }

  /** Tabs, runs of blanks and newlines collapse to single blanks. */
  lemma CleanTextExample(s: string)
    requires s == "a\n\n  b\tc"
    ensures CleanText(s) == "a b c"
  {
    FieldsExample(s);
    assert ["a", "b", "c"][1..] == ["b", "c"];
    assert ["b", "c"][1..] == ["c"];
  }

  // ---------------------------------------------------------------------------
  // Properties of TrimSpace

  /** A trim of `s` is empty exactly when `s` is all whitespace. */
  lemma TrimOfEmpty(r: string, s: string, i: nat)
    requires i <= |s| - |r| && r == s[i..i + |r|] && AllSpace(s[..i]) && AllSpace(s[i + |r|..])
    requires Trimmed(r)
    ensures r == [] <==> AllSpace(s)
  {
    if r == [] {
      forall k | 0 <= k < |s| ensures IsSpace(s[k]) {
        if k < i { assert s[..i][k] == s[k]; } else { assert s[i..][k - i] == s[k]; }
      }
    } else {
      assert s[i] == r[0];
    }
  }

  /** A trim starts at the first and ends after the last non-space character. */
  lemma TrimOfBounds(r: string, s: string, i: nat, k: nat)
    requires i <= |s| - |r| && r == s[i..i + |r|] && AllSpace(s[..i]) && AllSpace(s[i + |r|..])
    requires Trimmed(r)
    requires k < |s| && !IsSpace(s[k])
    ensures i <= k < i + |r|
  {
    assert forall m :: 0 <= m < i ==> s[..i][m] == s[m];
    assert forall m :: i + |r| <= m < |s| ==> s[i + |r|..][m - i - |r|] == s[m];
  }

  predicate TrimAt(r: string, s: string, i: int) {
    0 <= i <= |s| - |r| && r == s[i..i + |r|] && AllSpace(s[..i]) && AllSpace(s[i + |r|..])
  }

  lemma TrimAtUnique(r1: string, r2: string, s: string, i1: nat, i2: nat)
    requires Trimmed(r1) && TrimAt(r1, s, i1)
    requires Trimmed(r2) && TrimAt(r2, s, i2)
    ensures r1 == r2
  {
    TrimOfEmpty(r1, s, i1);
    TrimOfEmpty(r2, s, i2);
    if r1 != [] {
      assert s[i1] == r1[0] && s[i2] == r2[0];
      assert s[i1 + |r1| - 1] == r1[|r1| - 1] && s[i2 + |r2| - 1] == r2[|r2| - 1];
      TrimOfBounds(r1, s, i1, i2);
      TrimOfBounds(r2, s, i2, i1);
      TrimOfBounds(r1, s, i1, i2 + |r2| - 1);
      TrimOfBounds(r2, s, i2, i1 + |r1| - 1);
    }
  }

  /** At most one string is a trim of `s`, so TrimOf characterises TrimSpace. */
  lemma TrimOfUnique(r1: string, r2: string, s: string)
    requires TrimOf(r1, s) && TrimOf(r2, s)
    ensures r1 == r2
  {
    var i1: nat :| i1 <= |s| && TrimAt(r1, s, i1);
    var i2: nat :| i2 <= |s| && TrimAt(r2, s, i2);
    TrimAtUnique(r1, r2, s, i1, i2);
  }

  lemma TrimSpaceCharacterised(r: string, s: string)
    ensures TrimOf(r, s) <==> r == TrimSpace(s)
  {
    if TrimOf(r, s) {
      TrimOfUnique(r, TrimSpace(s), s);
    }
  }

  lemma TrimSpaceOfTrimmed(s: string)
    requires Trimmed(s)
    ensures TrimSpace(s) == s
  {
  }

  /** TrimSpace is idempotent. */
  lemma TrimSpaceIdempotent(s: string)
    ensures TrimSpace(TrimSpace(s)) == TrimSpace(s)
  {
    TrimSpaceOfTrimmed(TrimSpace(s));
  }
}
