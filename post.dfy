/**
 Result shaping of `parsePostContent` (yuc.go:41-66). Fetching the post page
 and querying it are not modelled: their outcome is a `PostPage`, carrying the
 text of the first `#myshares a` element and of the first `.message` element
 (each empty when the selector matches nothing).
 */
module Post {
  import opened Text

  datatype PostPage =
    | PostFetchFailed                                  // fetchPageContent returned an error
    | PostUnparsable                                   // goquery.NewDocumentFromReader failed
    | PostPage(titleText: string, messageText: string)

  /** The (title, body) pair the source returns. */
  datatype PostDetail = PostDetail(title: string, body: string)

  /** The body used when the cleaned message is empty ("no content found"). */
  const Placeholder: string := "未找到内容"

  lemma PlaceholderIsWord()
    ensures IsWord(Placeholder) && Normalized(Placeholder)
    ensures Fields(Placeholder) == [Placeholder]
  {
    assert forall i :: 0 <= i < |Placeholder| ==> Placeholder[i] as int >= 0x4E00;
    FieldsOfWordPrefix(Placeholder, []);
    assert Placeholder + [] == Placeholder;
  }

  /**
   A failed fetch or parse gives the empty pair. Otherwise the title is the
   trim of the title text, and the body is never empty: it is in normal form,
   it is the placeholder exactly when the message is blank or already cleans
   to the placeholder, and for a non-blank message it has the message's
   fields and non-space characters.
   */
  function ParsePostContent(page: PostPage): (d: PostDetail)
    ensures !page.PostPage? ==> d == PostDetail("", "")
    ensures page.PostPage? ==> TrimOf(d.title, page.titleText)
    ensures page.PostPage? ==> d.body != [] && Normalized(d.body)
    ensures page.PostPage? ==>
              (d.body == Placeholder <==> AllSpace(page.messageText) || Fields(page.messageText) == [Placeholder])
    ensures page.PostPage? && !AllSpace(page.messageText) ==>
              Fields(d.body) == Fields(page.messageText) && NonSpace(d.body) == NonSpace(page.messageText)
  {
    match page
    case PostFetchFailed => PostDetail("", "")
    case PostUnparsable => PostDetail("", "")
    case PostPage(title, message) =>
      var cleaned := CleanText(message);
      PlaceholderIsWord();
      assert Fields(message) == [Placeholder] ==> cleaned == Placeholder by {
        assert [Placeholder][1..] == [];
      }
      var body := if cleaned == "" then Placeholder else cleaned;
      PostDetail(TrimSpace(title), body)
  }
}
