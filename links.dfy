/**
 `parseForumPage` (yuc.go:69-96): pick the first `a.th_item` anchor of the
 listing page and make its href a full URL. The document query and the URL
 library are not modelled: the query's answer is a `ListingDoc`, and
 `url.Parse` + `ResolveReference` (section 5.2 of RFC 3986) is an arbitrary
 `Resolver` supplied by the caller.
 */
module Links {
  import opened Wrappers

  /** An anchor element: its `href` attribute, if present, and its text. */
  datatype Anchor = Anchor(href: Option<string>, text: string)

  /** The listing page as the document query sees it. */
  datatype ListingDoc =
    | ListingUnparsable                    // goquery.NewDocumentFromReader failed
    | Listing(firstItem: Option<Anchor>)   // first `a.th_item`, if any

  /** The newest item of the listing: its URL and its anchor text. */
  datatype Candidate = Candidate(postURL: string, anchorText: string)

  /** The conditions on which the source calls `log.Fatalf` and ends the process. */
  datatype Fatal =
    | MalformedListing   // yuc.go:71-73
    | BadURL             // yuc.go:83-85 and 87-89

  /**
   Resolution of a reference against a base URL; `None` when either does not
   parse.
   */
  type Resolver = (string, string) -> Option<string>

  /** `strings.HasPrefix(link, "http")`. */
  predicate HasHttpPrefix(s: string)
    ensures HasHttpPrefix(s) <==> |s| >= 4 && s[0] == 'h' && s[1] == 't' && s[2] == 't' && s[3] == 'p'
  {
    "http" <= s
  }

  /** The href of the first listing item, when there is one. */
  function FirstHref(doc: ListingDoc): Option<string>
    requires doc.Listing?
  {
    if doc.firstItem.Some? then doc.firstItem.value.href else None
  }

  /**
   A listing without an item or whose item has no href gives the empty pair;
   an href beginning with "http" is taken as it is, together with the anchor
   text; only any other href is resolved against the base, and a failure to
   resolve is fatal, as is a page the query cannot parse.
   */
  function ParseForumPage(doc: ListingDoc, baseURL: string, resolve: Resolver): (r: Result<Candidate, Fatal>)
    ensures doc.ListingUnparsable? ==> r == Err(MalformedListing)
    ensures doc.Listing? && FirstHref(doc).None? ==> r == Ok(Candidate("", ""))
    ensures doc.Listing? && FirstHref(doc).Some? && HasHttpPrefix(FirstHref(doc).value) ==>
              r == Ok(Candidate(FirstHref(doc).value, doc.firstItem.value.text))
    ensures doc.Listing? && FirstHref(doc).Some? && !HasHttpPrefix(FirstHref(doc).value) ==>
              r == (match resolve(baseURL, FirstHref(doc).value)
                    case None => Err(BadURL)
                    case Some(u) => Ok(Candidate(u, doc.firstItem.value.text)))
  {
    match doc
    case ListingUnparsable => Err(MalformedListing)
    case Listing(first) =>
      if first.Some? && first.value.href.Some? then
        var link := first.value.href.value;
        if HasHttpPrefix(link) then Ok(Candidate(link, first.value.text))
        else
          match resolve(baseURL, link)
          case None => Err(BadURL)
          case Some(u) => Ok(Candidate(u, first.value.text))
      else Ok(Candidate("", ""))
  }

  /** The resolver is consulted only for an href without the "http" prefix. */
  lemma ResolverOnlyForOtherHrefs(doc: ListingDoc, baseURL: string, f: Resolver, g: Resolver)
    requires doc.Listing? && FirstHref(doc).Some? ==>
               HasHttpPrefix(FirstHref(doc).value) || f(baseURL, FirstHref(doc).value) == g(baseURL, FirstHref(doc).value)
    ensures ParseForumPage(doc, baseURL, f) == ParseForumPage(doc, baseURL, g)
  {
  }

  /**
   When the resolver turns every reference into an "http" URL, every
   non-empty candidate the listing yields begins with "http".
   */
  lemma CandidateIsHttp(doc: ListingDoc, baseURL: string, resolve: Resolver)
    requires forall h :: resolve(baseURL, h).Some? ==> HasHttpPrefix(resolve(baseURL, h).value)
    ensures ParseForumPage(doc, baseURL, resolve).Ok? && ParseForumPage(doc, baseURL, resolve).value.postURL != "" ==>
              HasHttpPrefix(ParseForumPage(doc, baseURL, resolve).value.postURL)
  {
  }
}
