/**
 The notification text built at yuc.go:139,
 `fmt.Sprintf("标题: %s\n链接: %s\n帖子内容: %s", title, postURL, message)`,
 and a reader that takes such a text apart again.
 */
module Message {
  import opened Wrappers

  const TitleLabel: string := "标题: "
  const LinkLabel: string := "\n链接: "
  const ContentLabel: string := "\n帖子内容: "

  /** The three labelled fields joined into one text. */
  function FormatMessage(title: string, postURL: string, body: string): (m: string)
    ensures |m| == |TitleLabel| + |title| + |LinkLabel| + |postURL| + |ContentLabel| + |body|
    ensures TitleLabel <= m
    ensures LinkAt(m, |TitleLabel| + |title| + |LinkLabel|, postURL)
  {
    TitleLabel + (title + (LinkLabel + (postURL + (ContentLabel + body))))
  }

  /** `postURL` occurs in `m` starting at offset `k`. */
  predicate LinkAt(m: string, k: nat, postURL: string) {
    k + |postURL| <= |m| && m[k..k + |postURL|] == postURL
  }

  /** Index of the first `c` in `s`, or `|s|` when there is none. */
  function IndexOf(s: string, c: char): (n: nat)
    ensures n <= |s|
    ensures c !in s[..n]
    ensures n < |s| ==> s[n] == c
  {
    if s == [] || s[0] == c then 0
    else
      var n := IndexOf(s[1..], c);
      assert s[..n + 1] == [s[0]] + s[1..][..n];
      n + 1
  }

  /** The rest of `s` after the prefix `p`, if `s` begins with `p`. */
  function AfterPrefix(p: string, s: string): Option<string> {
    if p <= s then Some(s[|p|..]) else None
  }

  /** Splits `s` at its first newline: the text before it and the rest. */
  function ToNewline(s: string): (string, string) {
    var i := IndexOf(s, '\n');
    (s[..i], s[i..])
  }

  /**
   Reads a notification text back into (title, link, content), taking the
   title and the link to end at the next newline.
   */
  function SplitMessage(m: string): Option<(string, string, string)> {
    match AfterPrefix(TitleLabel, m)
    case None => None
    case Some(rest) =>
      var (title, afterTitle) := ToNewline(rest);
      match AfterPrefix(LinkLabel, afterTitle)
      case None => None
      case Some(rest2) =>
        var (link, afterLink) := ToNewline(rest2);
        match AfterPrefix(ContentLabel, afterLink)
        case None => None
        case Some(body) => Some((title, link, body))
  }

  lemma AfterPrefixOfConcat(p: string, s: string)
    ensures AfterPrefix(p, p + s) == Some(s)
  {
    assert (p + s)[..|p|] == p;
    assert (p + s)[|p|..] == s;
  }

  lemma ToNewlineOfConcat(f: string, tail: string)
    requires '\n' !in f
    requires tail != [] && tail[0] == '\n'
    ensures ToNewline(f + tail) == (f, tail)
  {
    IndexOfPrefix(f, tail, '\n');
    assert (f + tail)[..|f|] == f;
    assert (f + tail)[|f|..] == tail;
  }

  lemma {:induction false} IndexOfPrefix(a: string, b: string, c: char)
    requires c !in a
    requires b != [] && b[0] == c
    ensures IndexOf(a + b, c) == |a|
    decreases |a|
  {
    if a != [] {
      assert (a + b)[1..] == a[1..] + b;
      IndexOfPrefix(a[1..], b, c);
    } else {
      assert a + b == b;
    }
  }

  /**
   The message can be decoded back into its fields whenever the title and the
   link hold no newline.
   */
  lemma SplitFormat(title: string, postURL: string, body: string)
    requires '\n' !in title && '\n' !in postURL
    ensures SplitMessage(FormatMessage(title, postURL, body)) == Some((title, postURL, body))
  {
    var tail2 := ContentLabel + body;
    var tail1 := LinkLabel + (postURL + tail2);
    assert FormatMessage(title, postURL, body) == TitleLabel + (title + tail1);
    AfterPrefixOfConcat(TitleLabel, title + tail1);
    assert tail1[0] == '\n';
    ToNewlineOfConcat(title, tail1);
    AfterPrefixOfConcat(LinkLabel, postURL + tail2);
    assert tail2[0] == '\n';
    ToNewlineOfConcat(postURL, tail2);
    AfterPrefixOfConcat(ContentLabel, body);
  }
}
