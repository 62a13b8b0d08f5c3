# yuc forum monitor — a Dafny model

The program `yuc.go` polls the "new threads" listing of the FishC forum and
posts each newly seen thread to a Telegram chat. It makes one HTTP request to
the listing, takes the href of its first `a.th_item` anchor and turns it into a
full URL, and compares that URL with `lastPostURL`. When the URL is new, it
fetches the post and extracts its title and cleaned body. It then formats a
three-line message and sends it to the Telegram Bot API. It sleeps 30 seconds
and starts again. Start-up refuses to run without a bot token and a chat ID.

This project models the program's decisions and proves what they guarantee:

- `wrappers.dfy` — `Option` and `Result`.
- `text.dfy` — `cleanText`, that is `strings.Join(strings.Fields(text), " ")`,
  and `strings.TrimSpace`, over Go's `unicode.IsSpace`.
- `post.dfy` — how `parsePostContent` shapes its (title, body) result.
- `links.dfy` — how `parseForumPage` decides between an href passed through
  and an href resolved against the base.
- `message.dfy` — the notification template, and a reader that inverts it.
- `startup.dfy` — the argument check in `main`.
- `monitor.dfy` — the poll–detect–notify cycle of `monitorForum`, in two parts:
  - on values: a cycle reduced to a `Sample`, the state transition `Next`, and
    the URLs notified over a run;
  - as the `Monitor` class: a field `lastPostURL`, a `Step` method for one loop
    iteration (the state is written before the message is sent) and a `Run`
    method for a finite run of cycles.

The main results:

- A cycle notifies exactly when its candidate is non-empty and differs from
  `lastPostURL`. The new state is that candidate, whatever the send's outcome.
  This is the at-most-once rule: a URL whose message was lost is never retried.
- Failed fetches and empty listings neither notify nor change the state, so a
  candidate seen again after them is not notified twice.
- From the initial empty state, a run notifies exactly the cycles whose
  non-empty candidate differs from the latest earlier non-empty candidate. The
  run ends at the first fatal cycle. This is proved against a second definition
  that reads the run backwards.
- The requests a run sends are one per notified URL, in order. Request `k`
  comes from the `k`-th notifying cycle: it carries that cycle's post page and
  delivery outcome, and the cycles' positions strictly increase. Runs that
  differ only in post pages and delivery outcomes notify the same URLs.
- `cleanText` produces a normal form:
  - no whitespace at either end;
  - no whitespace other than single blanks;
  - the same fields and the same non-space characters as the input.

  It is idempotent, and its fixed points are exactly the normalized strings.
- The message always carries the post URL right after the link label, which
  follows the title. It decodes back into its three parts when the title and
  the URL contain no newline.

## Model

| member | source | states |
|---|---|---|
| Text.CleanText | yuc.go:35-38 | the result is normalized (trimmed, only single blanks as whitespace), has the input's fields and non-space characters, and is empty exactly when the input is all whitespace |
| Text.FieldsAreWords | yuc.go:37 | every field `strings.Fields` returns is a non-empty run of non-space characters |
| Text.FieldsOfJoin | yuc.go:37 | splitting the blank-joined fields gives back the same fields |
| Text.FieldsEmpty | yuc.go:37 | there are no fields exactly when the text is all whitespace |
| Text.NonSpaceIsConcatOfFields | yuc.go:37 | the fields, concatenated, are the text's non-space characters in order |
| Text.Join | yuc.go:37 | a non-empty list joins to the total length of its items plus one separator between each two |
| Text.JoinNormalized | yuc.go:37 | joining words with single blanks gives a normalized string |
| Text.CleanTextIdempotent | yuc.go:35-38 | cleaning twice is cleaning once |
| Text.CleanTextOfNormalized | yuc.go:35-38 | a normalized string is its own clean text |
| Text.CleanTextFixpoint | yuc.go:35-38 | the fixed points of `cleanText` are exactly the normalized strings |
| Text.FieldsOfSpacePrefix | yuc.go:37 | leading whitespace adds no field |
| Text.FieldsExample | yuc.go:37 | the fields of "a\n\n  b\tc" are "a", "b" and "c" |
| Text.CleanTextExample | yuc.go:35-38 | "a\n\n  b\tc" cleans to "a b c" |
| Text.TrimSpace | yuc.go:65 | the result is trimmed and is what is left of the input after a whitespace prefix and a whitespace suffix are removed |
| Text.TrimSpaceCharacterised | yuc.go:65 | a string is such a trim of the input if and only if it is `TrimSpace` of it |
| Text.TrimSpaceOfTrimmed | yuc.go:65 | a trimmed string is left as it is |
| Text.TrimSpaceIdempotent | yuc.go:65 | trimming twice is trimming once |
| Post.PlaceholderIsWord | yuc.go:61-63 | the placeholder is a single normalized word |
| Post.ParsePostContent | yuc.go:41-66 | a failed fetch or parse gives ("", ""); otherwise the title is the trim of the title text and the body is never empty, is normalized, is the placeholder exactly when the message is blank or already cleans to the placeholder, and otherwise keeps the message's fields and non-space characters |
| Links.ParseForumPage | yuc.go:69-96 | an unparsable page is fatal; no item or no href gives ("", ""); an href starting with "http" is returned unchanged with the anchor text; any other href is resolved against the base and a failed resolution is fatal |
| Links.HasHttpPrefix | yuc.go:81 | an href has the prefix exactly when its first four characters are "http" |
| Links.ResolverOnlyForOtherHrefs | yuc.go:80-91 | two resolvers that agree on every href lacking the "http" prefix give the same result: the resolver is consulted only for such hrefs |
| Links.CandidateIsHttp | yuc.go:78-93 | when resolution always yields "http" URLs, every non-empty candidate starts with "http" |
| Message.FormatMessage | yuc.go:139 | the text has the length of its three labels and three fields, starts with the title label and holds the post URL right after the link label |
| Message.SplitFormat | yuc.go:139 | the message decodes back into (title, URL, body) when the title and URL hold no newline |
| Startup.CheckArgs | yuc.go:161-166 | start-up is refused exactly when the token or the chat ID is empty; otherwise the configuration keeps both values and the 30-second interval |
| Monitoring.Observe | yuc.go:125-133 | a failed listing fetch is skipped; a fatal `parseForumPage` result halts with its reason; otherwise the sample is the candidate URL `parseForumPage` returned |
| Monitoring.Notifies | yuc.go:134 | a notifying cycle is neither quiet nor fatal; a non-empty candidate notifies exactly when it differs from `lastPostURL` |
| Monitoring.Next | yuc.go:134-135 | the state changes exactly when the cycle notifies, and then to the cycle's candidate |
| Monitoring.DeliveryOutcomeIgnored | yuc.go:137-145 | two runs with the same listings but other post pages and delivery outcomes observe the same samples and send as many requests, for the same URLs in the same order |
| Monitoring.NotificationCount | yuc.go:121-149 | the number of notifications from the initial state is at most the number of cycles, and equals the number of cycles whose non-empty candidate differs from the latest earlier one, before the first fatal cycle |
| Monitoring.Live | yuc.go:70-91 | the cycles before the first fatal one, a prefix of the run without a fatal cycle |
| Monitoring.AppendRun | yuc.go:123-149 | a run split in two: the notifications concatenate and the state carries over |
| Monitoring.NotifiedURLsShape | yuc.go:134 | at most one notification per cycle, never for "", never for the starting state, never the same URL twice in a row |
| Monitoring.FinalStateIsLastNotified | yuc.go:135 | the state is the last URL notified, or the starting state when none was |
| Monitoring.QuietRun | yuc.go:125-134 | failed and empty cycles notify nothing and leave the state unchanged |
| Monitoring.NoRenotifyAcrossQuietCycles | yuc.go:125-135 | a candidate seen again after only failed or empty cycles is not notified again |
| Monitoring.RunUpToHalt | yuc.go:70-91 | only the cycles before a fatal one affect the notifications and the state |
| Monitoring.RunMatchesReference | yuc.go:121-149 | from the empty state, the notified URLs are exactly the backward reference's new URLs before the first fatal cycle, and the final state is the latest non-empty candidate |
| Monitoring.FirstSightingNotifies | yuc.go:121-135 | from the empty state the first non-empty candidate is notified, whatever quiet cycles come before it |
| Monitoring.RepeatsExample | yuc.go:134-135 | candidates A, A, B, B, C notify A, B, C once each, and only B, C from state A |
| Monitoring.GapExample | yuc.go:125-135 | A, a failed fetch, no candidate, A notifies once |
| Monitoring.Announcement | yuc.go:138-139 | the message for a new post is a filled template whose link field is that post's URL |
| Monitoring.RequestFor | yuc.go:136-140 | a notifying cycle's request names its URL, goes to the configured token and chat, announces that URL and carries the cycle's delivery outcome |
| Monitoring.RequestsMatchNotified | yuc.go:123-149 | the requests of a run are one per notified URL, in order, each to the configured chat and announcing that URL |
| Monitoring.NotifyingCyclesShape | yuc.go:123-135 | the positions of the notifying cycles lie in the run, strictly increase, and each holds the candidate notified at that place |
| Monitoring.RequestsFromOwnCycle | yuc.go:123-145 | request `k` is the one the `k`-th notifying cycle builds from its own post page, with its own delivery outcome |
| Monitoring.RequestFromItsCycle | yuc.go:123-145 | the same for one given `k` |
| Monitoring.RequestsAppend | yuc.go:123-149 | a run split in two: the requests concatenate, the second part starting from the state the first leaves |
| Monitoring.RequestsAtHalt | yuc.go:70-91 | the requests of a run end at its first fatal cycle |
| Monitoring.Monitor.constructor | yuc.go:121 | a new monitor starts with `lastPostURL` empty |
| Monitoring.Monitor.Step | yuc.go:123-149 | one iteration: a failed fetch is skipped; a fatal listing terminates; otherwise a message is sent exactly when the candidate is new; the state is that candidate whether or not delivery succeeded; the request carries the token, the chat ID and the formatted message |
| Monitoring.Monitor.Run | yuc.go:123-149 | over a finite run, the state ends at `FinalState`, the loop halts exactly at a fatal cycle, and the requests sent are exactly `Requests`: one per notifying cycle, in order, each built from that cycle's own post page and delivery outcome |
| Monitoring.RunStep | yuc.go:123-149 | one non-fatal cycle keeps Run's loop invariant |
| Monitoring.Launch | yuc.go:152-170 | nothing runs and nothing is sent without both arguments; otherwise a monitor starting from the empty state sends exactly `Requests` of the run: `NotificationCount` of them, one per notified URL in order, each to the given token and chat and announcing its URL |

## Left out

- `fetchPageContent` (yuc.go:17-32) is network I/O. Its outcome is an input: `ListingFetchFailed`, or for a post page `PostFetchFailed`.
- `sendToTelegram` (yuc.go:99-116) is network I/O. It is modelled as the `Request` it would post plus a `delivered` flag given as input. The Bot API URL and the HTTP status check are not modelled.
- goquery parsing and the selectors `a.th_item`, `#myshares a` and `.message` (yuc.go:48-58, 70-77) are library code. Their answers are inputs (`ListingDoc`, `PostPage`).
- `url.Parse` and `ResolveReference` (section 5.2 of RFC 3986, yuc.go:82-90) are library code. They are an arbitrary `Resolver` function, and `None` stands for either parse failure.
- The unbounded `for {}` loop is modelled as a finite sequence of cycles. `time.Sleep` (yuc.go:128, 148) is timing and is not modelled.
- `log.Printf` only logs and is not modelled.
- `log.Fatalf` ends the process (yuc.go:72, 84, 88, 162). It is modelled as a `Halted` sample, a `Terminated` step result and a refused start.
- `flag.Parse` and the flag definitions (yuc.go:154-158) are not modelled. The two flag values are inputs.
- The anchor text returned by `parseForumPage` is discarded by the caller (yuc.go:133). It is kept in `Candidate` but not used further.
- Text.Fields and Text.TrimSpace work on characters. Go's handling of invalid UTF-8 bytes is not modelled.
- Post.ParsePostContent: the body is never empty only when the post fetch and parse succeed. After a failed fetch or parse the source returns an empty body, and the message is still sent with it (yuc.go:42-52, 138-140). The model follows the code here, not the stronger "body never empty" reading.
