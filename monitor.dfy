/**
 The poll–detect–notify loop of `monitorForum` (yuc.go:119-150).

 The only state that survives a cycle is `lastPostURL`. What a cycle sees of
 the outside world (the listing fetch, the post page, whether Telegram
 accepted the message) is an input (`Cycle`); sleeping and logging are not
 modelled. The decision part is first stated on values — a cycle reduced to a
 `Sample` — and then carried out by the `Monitor` class.
 */
module Monitoring {
  import opened Wrappers
  import opened Links
  import opened Post
  import opened Message
  import opened Startup

  /** The fixed listing page polled every cycle (yuc.go:120). */
  const BaseURL: string := "https://fishc.com.cn/forum.php?mod=guide&view=newthread&mobile=2"

  /** Outcome of `fetchPageContent(baseURL)`. */
  datatype ListingFetch = ListingFetchFailed | ListingFetched(doc: ListingDoc)

  /**
   Everything one cycle observes: the listing fetch, the post page fetched
   when the candidate is new, and whether `sendToTelegram` succeeded.
   */
  datatype Cycle = Cycle(listing: ListingFetch, post: PostPage, delivered: bool)

  /** What the novelty decision sees of a cycle. */
  datatype Sample =
    | ListingFailed            // the listing fetch returned an error
    | Halted(reason: Fatal)    // parseForumPage called log.Fatalf
    | Found(postURL: string)   // parseForumPage returned; "" when there is no candidate

  /**
   The sample of one cycle: a failed fetch is skipped, a fatal listing halts,
   and otherwise the candidate is the URL `parseForumPage` returned.
   */
  function Observe(listing: ListingFetch, resolve: Resolver): (r: Sample)
    ensures r.ListingFailed? <==> listing.ListingFetchFailed?
    ensures r.Halted? <==> listing.ListingFetched? && ParseForumPage(listing.doc, BaseURL, resolve).Err?
    ensures r.Halted? ==> r.reason == ParseForumPage(listing.doc, BaseURL, resolve).error
    ensures r.Found? ==> r.postURL == ParseForumPage(listing.doc, BaseURL, resolve).value.postURL
  {
    match listing
    case ListingFetchFailed => ListingFailed
    case ListingFetched(doc) =>
      match ParseForumPage(doc, BaseURL, resolve)
      case Err(e) => Halted(e)
      case Ok(c) => Found(c.postURL)
  }

  function Samples(cycles: seq<Cycle>, resolve: Resolver): seq<Sample> {
    seq(|cycles|, i requires 0 <= i < |cycles| => Observe(cycles[i].listing, resolve))
  }

  // ---------------------------------------------------------------------------
  // The decision, on values

  /** The novelty test of yuc.go:134. */
  predicate Notifies(last: string, s: Sample)
    ensures Notifies(last, s) ==> !Quiet(s) && !s.Halted?
    ensures s.Found? && s.postURL != "" ==> (Notifies(last, s) <==> s.postURL != last)
  {
    s.Found? && s.postURL != "" && s.postURL != last
  }

  /** A cycle with nothing to report: the fetch failed or no candidate was found. */
  predicate Quiet(s: Sample) {
    s.ListingFailed? || s == Found("")
  }

  /**
   The state after one cycle: it changes exactly when the cycle notifies, and
   then only to the cycle's candidate.
   */
  function Next(last: string, s: Sample): (r: string)
    ensures r != last <==> Notifies(last, s)
    ensures r != last ==> r == s.postURL
  {
    if Notifies(last, s) then s.postURL else last
  }

  /**
   The URLs notified over a run starting in state `last`, in order; the run
   ends at a fatal cycle.
   */
  function NotifiedURLs(last: string, ss: seq<Sample>): (r: seq<string>)
    decreases |ss|
  {
    if ss == [] || ss[0].Halted? then []
    else (if Notifies(last, ss[0]) then [ss[0].postURL] else []) + NotifiedURLs(Next(last, ss[0]), ss[1..])
  }

  /** The state at the end of a run (or at its fatal cycle). */
  function FinalState(last: string, ss: seq<Sample>): (r: string)
    decreases |ss|
  {
    if ss == [] || ss[0].Halted? then last
    else FinalState(Next(last, ss[0]), ss[1..])
  }

  /** The number of notifications a run from the monitor's initial state dispatches. */
  function NotificationCount(ss: seq<Sample>): (n: nat)
    ensures n <= |ss|
    ensures n == |NewURLs(Live(ss))|
  {
    RunMatchesReference(ss);
    NotifiedURLsShape("", ss);
    |NotifiedURLs("", ss)|
  }

  predicate NoHalt(ss: seq<Sample>) {
    forall i :: 0 <= i < |ss| ==> !ss[i].Halted?
  }

  /** The cycles before the first fatal one. */
  function Live(ss: seq<Sample>): (p: seq<Sample>)
    ensures p <= ss && NoHalt(p)
    ensures p == ss || ss[|p|].Halted?
    decreases |ss|
  {
    if ss == [] || ss[0].Halted? then []
    else [ss[0]] + Live(ss[1..])
  }

  // ---------------------------------------------------------------------------
  // An independent description of the notified URLs, read backwards

  /** The most recent non-empty candidate URL in `ss`, or "" when there is none. */
  function LastSeen(ss: seq<Sample>): string
    decreases |ss|
  {
    if ss == [] then ""
    else
      var s := ss[|ss| - 1];
      if s.Found? && s.postURL != "" then s.postURL else LastSeen(ss[..|ss| - 1])
  }

  /** Cycle `i` has a non-empty candidate that differs from the latest earlier one. */
  predicate IsNewAt(ss: seq<Sample>, i: nat)
    requires i < |ss|
  {
    ss[i].Found? && ss[i].postURL != "" && ss[i].postURL != LastSeen(ss[..i])
  }

  /** The candidates of the cycles satisfying IsNewAt, in order. */
  function NewURLs(ss: seq<Sample>): seq<string>
    decreases |ss|
  {
    if ss == [] then []
    else
      var n := |ss| - 1;
      NewURLs(ss[..n]) + (if IsNewAt(ss, n) then [ss[n].postURL] else [])
  }

  // ---------------------------------------------------------------------------
  // Lemmas

  lemma {:induction false} AppendRun(last: string, a: seq<Sample>, b: seq<Sample>)
    requires NoHalt(a)
    ensures NotifiedURLs(last, a + b) == NotifiedURLs(last, a) + NotifiedURLs(FinalState(last, a), b)
    ensures FinalState(last, a + b) == FinalState(FinalState(last, a), b)
    decreases |a|
  {
    if a == [] {
      assert a + b == b;
    } else {
      TailOfConcat(a, b);
      AppendRun(Next(last, a[0]), a[1..], b);
    }
  }

  /**
   At most one notification per cycle, never for the empty URL, never for the
   starting state, and never the same URL twice in a row.
   */
  lemma {:induction false} NotifiedURLsShape(last: string, ss: seq<Sample>)
    ensures var urls := NotifiedURLs(last, ss);
            && |urls| <= |ss|
            && (forall k :: 0 <= k < |urls| ==> urls[k] != "")
            && (urls != [] ==> urls[0] != last)
            && (forall k :: 0 <= k < |urls| - 1 ==> urls[k] != urls[k + 1])
    decreases |ss|
  {
    if ss != [] && !ss[0].Halted? {
      var next := Next(last, ss[0]);
      NotifiedURLsShape(next, ss[1..]);
      var rest := NotifiedURLs(next, ss[1..]);
      if Notifies(last, ss[0]) {
        assert NotifiedURLs(last, ss) == [ss[0].postURL] + rest;
        assert forall k :: 1 <= k < |rest| + 1 ==> ([ss[0].postURL] + rest)[k] == rest[k - 1];
      } else {
        assert NotifiedURLs(last, ss) == rest;
      }
    }
  }

  /** One more cycle at the end of a run. */
  lemma RunSnoc(last: string, p: seq<Sample>, s: Sample)
    requires NoHalt(p) && !s.Halted?
    ensures NotifiedURLs(last, p + [s]) ==
              NotifiedURLs(last, p) + (if Notifies(FinalState(last, p), s) then [s.postURL] else [])
    ensures FinalState(last, p + [s]) == Next(FinalState(last, p), s)
  {
    AppendRun(last, p, [s]);
    assert [s][1..] == [];
  }

  /** The state is the last URL notified, or the starting state if none was. */
  lemma {:induction false} FinalStateIsLastNotified(last: string, ss: seq<Sample>)
    ensures var urls := NotifiedURLs(last, ss);
            FinalState(last, ss) == if urls == [] then last else urls[|urls| - 1]
    decreases |ss|
  {
    if ss != [] && !ss[0].Halted? {
      FinalStateIsLastNotified(Next(last, ss[0]), ss[1..]);
    }
  }

  /** Failed and empty cycles neither notify nor change the state. */
  lemma {:induction false} QuietRun(last: string, q: seq<Sample>)
    requires forall i :: 0 <= i < |q| ==> Quiet(q[i])
    ensures NotifiedURLs(last, q) == [] && FinalState(last, q) == last
  {
    if q != [] {
      QuietRun(last, q[1..]);
    }
  }

  /**
   A candidate seen again after any number of failed or empty cycles is not
   notified again: its second sighting adds nothing to the run.
   */
  lemma NoRenotifyAcrossQuietCycles(last: string, ss: seq<Sample>, i: nat, j: nat)
    requires i < j < |ss|
    requires ss[i].Found? && ss[i].postURL != "" && ss[j] == ss[i]
    requires NoHalt(ss[..i])
    requires forall k :: i < k < j ==> Quiet(ss[k])
    ensures !Notifies(FinalState(last, ss[..j]), ss[j])
    ensures NotifiedURLs(last, ss[..j + 1]) == NotifiedURLs(last, ss[..i + 1])
  {
    var u := ss[i].postURL;
    var a, q := ss[..i + 1], ss[i + 1..j];
    assert NoHalt(a) by {
      assert forall k :: 0 <= k < i ==> a[k] == ss[..i][k];
    }
    assert FinalState(last, a) == u by {
      SnocSlice(ss, i);
      RunSnoc(last, ss[..i], ss[i]);
    }
    assert forall k :: 0 <= k < |q| ==> Quiet(q[k]) by {
      forall k | 0 <= k < |q| ensures Quiet(q[k]) {
        assert q[k] == ss[i + 1 + k];
      }
    }
    SplitSlice(ss, i + 1, j);
    assert FinalState(last, ss[..j]) == u && NotifiedURLs(last, ss[..j]) == NotifiedURLs(last, a) by {
      QuietRun(u, q);
      AppendRun(last, a, q);
    }
    assert NoHalt(ss[..j]) by {
      forall k | 0 <= k < j ensures !ss[..j][k].Halted? {
        if k > i { assert ss[..j][k] == q[k - i - 1]; }
        else { assert ss[..j][k] == a[k]; }
      }
    }
    assert NotifiedURLs(last, ss[..j + 1]) == NotifiedURLs(last, ss[..j]) by {
      SnocSlice(ss, j);
      RunSnoc(last, ss[..j], ss[j]);
    }
  }

  /** Only the cycles before a fatal one matter. */
  lemma {:induction false} RunUpToHalt(last: string, ss: seq<Sample>)
    ensures NotifiedURLs(last, ss) == NotifiedURLs(last, Live(ss))
    ensures FinalState(last, ss) == FinalState(last, Live(ss))
    decreases |ss|
  {
    if ss != [] && !ss[0].Halted? {
      RunUpToHalt(Next(last, ss[0]), ss[1..]);
      assert ([ss[0]] + Live(ss[1..]))[1..] == Live(ss[1..]);
    }
  }

  lemma {:induction false} ForwardMatchesBackward(ss: seq<Sample>)
    requires NoHalt(ss)
    ensures NotifiedURLs("", ss) == NewURLs(ss)
    ensures FinalState("", ss) == LastSeen(ss)
    decreases |ss|
  {
    if ss != [] {
      var n := |ss| - 1;
      var p, s := ss[..n], ss[n];
      assert NoHalt(p);
      ForwardMatchesBackward(p);
      assert p + [s] == ss;
      AppendRun("", p, [s]);
      assert ss[..n] == p;
      assert [s][1..] == [];
    }
  }

  /**
   From the initial empty state, the run notifies exactly the cycles whose
   non-empty candidate differs from the latest earlier non-empty candidate,
   up to the first fatal cycle; the state ends as that latest candidate.
   */
  lemma RunMatchesReference(ss: seq<Sample>)
    ensures NotifiedURLs("", ss) == NewURLs(Live(ss))
    ensures FinalState("", ss) == LastSeen(Live(ss))
  {
    RunUpToHalt("", ss);
    ForwardMatchesBackward(Live(ss));
  }

  /** From the initial state, the first non-empty candidate is notified, whatever quiet cycles precede it. */
  lemma FirstSightingNotifies(q: seq<Sample>, u: string)
    requires u != ""
    requires forall i :: 0 <= i < |q| ==> Quiet(q[i])
    ensures NotifiedURLs("", q + [Found(u)]) == [u]
    ensures FinalState("", q + [Found(u)]) == u
  {
    QuietRun("", q);
    assert NoHalt(q) by {
      assert forall i :: 0 <= i < |q| ==> Quiet(q[i]) && !q[i].Halted?;
    }
    RunSnoc("", q, Found(u));
  }

  /** Candidates [A, A, B, B, C]: A, B and C are notified once each. */
  lemma RepeatsExample(a: string, b: string, c: string)
    requires a != "" && b != "" && c != "" && a != b && b != c
    ensures NotifiedURLs("", [Found(a), Found(a), Found(b), Found(b), Found(c)]) == [a, b, c]
    ensures NotifiedURLs(a, [Found(a), Found(a), Found(b), Found(b), Found(c)]) == [b, c]
  {
    var t4 := [Found(c)];
    var t3 := [Found(b)] + t4;
    var t2 := [Found(b)] + t3;
    var t1 := [Found(a)] + t2;
    var t0 := [Found(a)] + t1;
    assert t0 == [Found(a), Found(a), Found(b), Found(b), Found(c)];
    assert t4 == [Found(c)] + [];
    NotifiedURLsCons(b, Found(c), []);
    NotifiedURLsCons(b, Found(b), t4);
    NotifiedURLsCons(a, Found(b), t3);
    NotifiedURLsCons(a, Found(a), t2);
    NotifiedURLsCons("", Found(a), t1);
    NotifiedURLsCons(a, Found(a), t1);
  }

  /** The first cycle of a run, taken apart. */
  lemma NotifiedURLsCons(last: string, s: Sample, rest: seq<Sample>)
    requires !s.Halted?
    ensures NotifiedURLs(last, [s] + rest) ==
              (if Notifies(last, s) then [s.postURL] else []) + NotifiedURLs(Next(last, s), rest)
  {
    assert ([s] + rest)[1..] == rest;
  }

  /** Candidates A, a failed fetch, no candidate, A again: one notification. */
  lemma GapExample(a: string)
    requires a != ""
    ensures NotifiedURLs("", [Found(a), ListingFailed, Found(""), Found(a)]) == [a]
  {
    var ss := [Found(a), ListingFailed, Found(""), Found(a)];
    NoRenotifyAcrossQuietCycles("", ss, 0, 3);
    assert ss[..4] == ss;
    assert ss[..1] == [Found(a)];
    assert [Found(a)][1..] == [];
  }

  // ---------------------------------------------------------------------------
  // The monitor

  /** The request `sendToTelegram` makes. */
  datatype Request = Request(botToken: string, chatID: string, text: string)

  datatype StepResult =
    | Skipped                  // the listing fetch failed (yuc.go:126-130)
    | Unchanged                // no candidate, or it was already notified
    | Notified(postURL: string, request: Request, delivered: bool)
    | Terminated(reason: Fatal)

  /** `text` is a notification text whose link field is `postURL`. */
  ghost predicate AnnouncesURL(text: string, postURL: string) {
    exists title, body :: text == FormatMessage(title, postURL, body)
  }

  /**
   The message a notifying cycle sends for `postURL`: the template filled with
   the title and body parsed from that cycle's own post page (yuc.go:138-139).
   */
  function Announcement(c: Cycle, postURL: string): (m: string)
    ensures AnnouncesURL(m, postURL)
  {
    var d := ParsePostContent(c.post);
    FormatMessage(d.title, postURL, d.body)
  }

  class Monitor {
    const botToken: string
    const chatID: string
    const resolve: Resolver
    /** The last candidate a notification was dispatched for; "" at start. */
    var lastPostURL: string

    constructor (botToken: string, chatID: string, resolve: Resolver)
      ensures this.botToken == botToken && this.chatID == chatID && this.resolve == resolve
      ensures lastPostURL == ""
    {
      this.botToken := botToken;
      this.chatID := chatID;
      this.resolve := resolve;
      lastPostURL := "";
    }

    /**
     One pass of the loop. The state moves to the candidate exactly when the
     cycle notifies, whatever the delivery outcome; a failed fetch or an empty
     candidate changes nothing; the message sent names the candidate.
     */
    method Step(c: Cycle) returns (r: StepResult)
      modifies this
      ensures lastPostURL == Next(old(lastPostURL), Observe(c.listing, resolve))
      ensures r.Skipped? <==> c.listing.ListingFetchFailed?
      ensures r.Terminated? <==> Observe(c.listing, resolve).Halted?
      ensures r.Terminated? ==> r.reason == Observe(c.listing, resolve).reason
      ensures r.Notified? <==> Notifies(old(lastPostURL), Observe(c.listing, resolve))
      ensures r.Notified? ==>
                r == RequestFor(c, lastPostURL, botToken, chatID)
    {
      match c.listing
      case ListingFetchFailed =>
        r := Skipped;
      case ListingFetched(doc) =>
        var parsed := ParseForumPage(doc, BaseURL, resolve);
        if parsed.Err? {
          r := Terminated(parsed.error);
          return;
        }
        var postURL := parsed.value.postURL;
        if postURL != "" && postURL != lastPostURL {
          lastPostURL := postURL;
          var detail := ParsePostContent(c.post);
          var text := FormatMessage(detail.title, postURL, detail.body);
          r := Notified(postURL, Request(botToken, chatID, text), c.delivered);
        } else {
          r := Unchanged;
        }
    }

    /**
     The loop over a finite run of cycles, stopping at a fatal one. It sends
     exactly the requests of `Requests` (one per URL of NotifiedURLs, in order,
     each built from its own cycle's post page) and leaves the state at
     FinalState.
     */
    method Run(cycles: seq<Cycle>) returns (sent: seq<StepResult>, halted: bool)
      modifies this
      ensures var ss := Samples(cycles, resolve);
              && lastPostURL == FinalState(old(lastPostURL), ss)
              && (halted <==> Live(ss) != ss)
              && sent == Requests(old(lastPostURL), ss, cycles, botToken, chatID)
    {
      ghost var ss := Samples(cycles, resolve);
      ghost var last0 := lastPostURL;
      sent, halted := [], false;
      var i := 0;
      while i < |cycles|
        invariant 0 <= i <= |cycles|
        invariant NoHalt(ss[..i])
        invariant lastPostURL == FinalState(last0, ss[..i])
        invariant sent == Requests(last0, ss[..i], cycles[..i], botToken, chatID)
        invariant !halted
      {
        ghost var before := lastPostURL;
        var r := Step(cycles[i]);
        assert ss[i] == Observe(cycles[i].listing, resolve);
        if r.Terminated? {
          halted := true;
          LiveAtHalt(ss, i);
          RunUpToHalt(last0, ss);
          RequestsAtHalt(last0, ss, cycles, i, botToken, chatID);
          return;
        }
        RunStep(last0, ss, cycles, i, before, lastPostURL, r, sent, botToken, chatID);
        if r.Notified? {
          sent := sent + [r];
        }
        i := i + 1;
      }
      assert ss[..i] == ss;
      assert cycles[..i] == cycles;
      LiveOfNoHalt(ss);
    }
  }

  // ---------------------------------------------------------------------------
  // The requests of a run

  /**
   The request a notifying cycle `c` sends for `postURL`: the message announcing
   it to the configured chat, and the cycle's delivery outcome.
   */
  function RequestFor(c: Cycle, postURL: string, botToken: string, chatID: string): (r: StepResult)
    ensures r.Notified? && r.postURL == postURL && r.delivered == c.delivered
    ensures r.request.botToken == botToken && r.request.chatID == chatID
    ensures AnnouncesURL(r.request.text, postURL)
  {
    Notified(postURL, Request(botToken, chatID, Announcement(c, postURL)), c.delivered)
  }

  /**
   The requests a run sends from state `last`, given the cycles `cycles` and
   what each of them observes (`ss`): one for each cycle that notifies, in
   order, built from that cycle. The run ends at a fatal cycle.
   */
  function Requests(last: string, ss: seq<Sample>, cycles: seq<Cycle>, botToken: string, chatID: string)
    : seq<StepResult>
    requires |ss| == |cycles|
    decreases |ss|
  {
    if ss == [] || ss[0].Halted? then []
    else
      (if Notifies(last, ss[0]) then [RequestFor(cycles[0], ss[0].postURL, botToken, chatID)] else [])
      + Requests(Next(last, ss[0]), ss[1..], cycles[1..], botToken, chatID)
  }

  /**
   Requests sent, one per URL of `urls` and in the same order, each to the
   configured chat and announcing its URL.
   */
  ghost predicate Dispatched(sent: seq<StepResult>, urls: seq<string>, botToken: string, chatID: string) {
    && |sent| == |urls|
    && forall k :: 0 <= k < |sent| ==>
         && sent[k].Notified?
         && sent[k].postURL == urls[k]
         && sent[k].request.botToken == botToken
         && sent[k].request.chatID == chatID
         && AnnouncesURL(sent[k].request.text, urls[k])
  }

  lemma DispatchedConcat(a: seq<StepResult>, ua: seq<string>, b: seq<StepResult>, ub: seq<string>,
                         botToken: string, chatID: string)
    requires Dispatched(a, ua, botToken, chatID) && Dispatched(b, ub, botToken, chatID)
    ensures Dispatched(a + b, ua + ub, botToken, chatID)
  {
    forall k | |a| <= k < |a| + |b|
      ensures (a + b)[k] == b[k - |a|] && (ua + ub)[k] == ub[k - |a|]
    {
    }
  }

  /**
   The requests of a run are one per notified URL, in order, each to the
   configured chat and announcing that URL.
   */
  lemma {:induction false} RequestsMatchNotified(last: string, ss: seq<Sample>, cycles: seq<Cycle>,
                                                 botToken: string, chatID: string)
    requires |ss| == |cycles|
    ensures Dispatched(Requests(last, ss, cycles, botToken, chatID), NotifiedURLs(last, ss), botToken, chatID)
    decreases |ss|
  {
    if ss != [] && !ss[0].Halted? {
      var next := Next(last, ss[0]);
      RequestsMatchNotified(next, ss[1..], cycles[1..], botToken, chatID);
      var head := if Notifies(last, ss[0]) then [RequestFor(cycles[0], ss[0].postURL, botToken, chatID)] else [];
      var urls := if Notifies(last, ss[0]) then [ss[0].postURL] else [];
      assert Dispatched(head, urls, botToken, chatID);
      DispatchedConcat(head, urls, Requests(next, ss[1..], cycles[1..], botToken, chatID),
                       NotifiedURLs(next, ss[1..]), botToken, chatID);
    }
  }

  /**
   Whether Telegram accepted a message, and what the post page held, play no
   part in what later cycles do: two runs with the same listings reduce to the
   same samples, so they end in the same state (see Monitor.Run) and send the
   same number of requests, for the same URLs in the same order.
   */
  lemma {:induction false} DeliveryOutcomeIgnored(last: string, cycles: seq<Cycle>, others: seq<Cycle>, resolve: Resolver,
                                                botToken: string, chatID: string)
    requires |cycles| == |others|
    requires forall i :: 0 <= i < |cycles| ==> cycles[i].listing == others[i].listing
    ensures Samples(cycles, resolve) == Samples(others, resolve)
    ensures var ss := Samples(cycles, resolve);
            var a, b := Requests(last, ss, cycles, botToken, chatID), Requests(last, ss, others, botToken, chatID);
            && |a| == |b|
            && forall k :: 0 <= k < |a| ==> a[k].Notified? && b[k].Notified? && a[k].postURL == b[k].postURL
  {
    var ss := Samples(cycles, resolve);
    assert ss == Samples(others, resolve);
    RequestsMatchNotified(last, ss, cycles, botToken, chatID);
    RequestsMatchNotified(last, ss, others, botToken, chatID);
  }

  /** The positions of the cycles that notify in a run from state `last`, up to its first fatal cycle. */
  function NotifyingCycles(last: string, ss: seq<Sample>): seq<nat>
    decreases |ss|
  {
    if ss == [] || ss[0].Halted? then []
    else (if Notifies(last, ss[0]) then [0] else []) + Shifted(NotifyingCycles(Next(last, ss[0]), ss[1..]))
  }

  function Shifted(xs: seq<nat>): (ys: seq<nat>)
    ensures |ys| == |xs| && forall k :: 0 <= k < |xs| ==> ys[k] == xs[k] + 1
  {
    seq(|xs|, k requires 0 <= k < |xs| => xs[k] + 1)
  }

  /**
   The positions of the notifying cycles lie within the run, increase, and
   are cycles whose candidate is notified.
   */
  lemma {:induction false} NotifyingCyclesShape(last: string, ss: seq<Sample>)
    ensures var idx, urls := NotifyingCycles(last, ss), NotifiedURLs(last, ss);
            && |idx| == |urls|
            && (forall k :: 0 <= k < |idx| ==> idx[k] < |ss| && ss[idx[k]].Found? && ss[idx[k]].postURL == urls[k])
            && (forall k :: 0 <= k < |idx| - 1 ==> idx[k] < idx[k + 1])
    decreases |ss|
  {
    if ss != [] && !ss[0].Halted? {
      var next := Next(last, ss[0]);
      var tidx, turls := NotifyingCycles(next, ss[1..]), NotifiedURLs(next, ss[1..]);
      NotifyingCyclesShape(next, ss[1..]);
      var idx, urls := NotifyingCycles(last, ss), NotifiedURLs(last, ss);
      var ihead: seq<nat> := if Notifies(last, ss[0]) then [0] else [];
      var uhead := if Notifies(last, ss[0]) then [ss[0].postURL] else [];
      assert idx == ihead + Shifted(tidx);
      assert urls == uhead + turls;
      forall k | |ihead| <= k < |idx|
        ensures idx[k] == tidx[k - |ihead|] + 1 && urls[k] == turls[k - |ihead|]
      {
        ShiftedIndex(urls, uhead, turls, idx, ihead, tidx, k);
      }
      forall k | 0 <= k < |idx|
        ensures idx[k] < |ss| && ss[idx[k]].Found? && ss[idx[k]].postURL == urls[k]
      {
        if k >= |ihead| {
          assert ss[idx[k]] == ss[1..][tidx[k - |ihead|]];
        }
      }
      forall k | 0 <= k < |idx| - 1
        ensures idx[k] < idx[k + 1]
      {
        if k >= |ihead| {
          assert idx[k] == tidx[k - |ihead|] + 1 && idx[k + 1] == tidx[k + 1 - |ihead|] + 1;
        }
      }
    }
  }

  /**
   Request `k` of a run is sent by the cycle at position `k` of
   NotifyingCycles: it announces that cycle's candidate with that cycle's own
   post page and carries that cycle's delivery outcome.
   */
  lemma RequestsFromOwnCycle(last: string, ss: seq<Sample>, cycles: seq<Cycle>, botToken: string, chatID: string)
    requires |ss| == |cycles|
    ensures var rs, idx := Requests(last, ss, cycles, botToken, chatID), NotifyingCycles(last, ss);
            && |idx| == |rs|
            && forall k :: 0 <= k < |idx| ==>
                 idx[k] < |ss| && ss[idx[k]].Found?
                 && rs[k] == RequestFor(cycles[idx[k]], ss[idx[k]].postURL, botToken, chatID)
  {
    NotifyingCyclesShape(last, ss);
    RequestsMatchNotified(last, ss, cycles, botToken, chatID);
    var rs, idx := Requests(last, ss, cycles, botToken, chatID), NotifyingCycles(last, ss);
    forall k | 0 <= k < |idx|
      ensures idx[k] < |ss| && ss[idx[k]].Found?
              && rs[k] == RequestFor(cycles[idx[k]], ss[idx[k]].postURL, botToken, chatID)
    {
      RequestFromItsCycle(last, ss, cycles, botToken, chatID, k);
    }
  }

  /** RequestsFromOwnCycle for one request `k`, by induction on the run. */
  lemma {:induction false} RequestFromItsCycle(last: string, ss: seq<Sample>, cycles: seq<Cycle>,
                                               botToken: string, chatID: string, k: nat)
    requires |ss| == |cycles| && k < |NotifyingCycles(last, ss)|
    ensures var rs, idx := Requests(last, ss, cycles, botToken, chatID), NotifyingCycles(last, ss);
            && k < |rs| && idx[k] < |ss| && ss[idx[k]].Found?
            && rs[k] == RequestFor(cycles[idx[k]], ss[idx[k]].postURL, botToken, chatID)
    decreases |ss|
  {
    assert ss != [] && !ss[0].Halted?;
    var next := Next(last, ss[0]);
    var rs, idx := Requests(last, ss, cycles, botToken, chatID), NotifyingCycles(last, ss);
    var tail, tidx := Requests(next, ss[1..], cycles[1..], botToken, chatID), NotifyingCycles(next, ss[1..]);
    var rhead := if Notifies(last, ss[0]) then [RequestFor(cycles[0], ss[0].postURL, botToken, chatID)] else [];
    var ihead: seq<nat> := if Notifies(last, ss[0]) then [0] else [];
    RequestsCons(last, ss, cycles, botToken, chatID);
    assert idx == ihead + Shifted(tidx);
    if k >= |ihead| {
      var j := k - |ihead|;
      RequestFromItsCycle(next, ss[1..], cycles[1..], botToken, chatID, j);
      ShiftedIndex(rs, rhead, tail, idx, ihead, tidx, k);
      assert cycles[tidx[j] + 1] == cycles[1..][tidx[j]] && ss[tidx[j] + 1] == ss[1..][tidx[j]];
    }
  }

  /** Entry `k` past the heads of two split sequences, one of them shifted by one. */
  lemma ShiftedIndex<T>(rs: seq<T>, rhead: seq<T>, tail: seq<T>, idx: seq<nat>, ihead: seq<nat>, tidx: seq<nat>, k: nat)
    requires rs == rhead + tail && idx == ihead + Shifted(tidx)
    requires |rhead| == |ihead| <= k < |idx| && k - |ihead| < |tail|
    ensures rs[k] == tail[k - |ihead|] && idx[k] == tidx[k - |ihead|] + 1
  {
  }

  /** A run split in two: the requests concatenate, the second part starting from the state the first leaves. */
  lemma {:induction false} RequestsAppend(last: string, a: seq<Sample>, ca: seq<Cycle>, b: seq<Sample>, cb: seq<Cycle>,
                                          botToken: string, chatID: string)
    requires |a| == |ca| && |b| == |cb| && NoHalt(a)
    ensures Requests(last, a + b, ca + cb, botToken, chatID) ==
              Requests(last, a, ca, botToken, chatID) + Requests(FinalState(last, a), b, cb, botToken, chatID)
    decreases |a|
  {
    if a == [] {
      assert a + b == b && ca + cb == cb;
    } else {
      var next := Next(last, a[0]);
      var head := if Notifies(last, a[0]) then [RequestFor(ca[0], a[0].postURL, botToken, chatID)] else [];
      var x := Requests(next, a[1..], ca[1..], botToken, chatID);
      var y := Requests(FinalState(last, a), b, cb, botToken, chatID);
      NoHaltTail(a);
      RequestsAppend(next, a[1..], ca[1..], b, cb, botToken, chatID);
      calc {
        Requests(last, a + b, ca + cb, botToken, chatID);
        == { TailOfConcat(a, b); TailOfConcat(ca, cb);
             RequestsCons(last, a + b, ca + cb, botToken, chatID); }
        head + Requests(next, a[1..] + b, ca[1..] + cb, botToken, chatID);
        ==
        head + (x + y);
        == { ConcatAssoc(head, x, y); }
        (head + x) + y;
        == { RequestsCons(last, a, ca, botToken, chatID); }
        Requests(last, a, ca, botToken, chatID) + y;
      }
    }
  }

  lemma TailOfConcat<T>(p: seq<T>, q: seq<T>)
    requires p != []
    ensures (p + q)[0] == p[0] && (p + q)[1..] == p[1..] + q
  {
  }

  lemma SnocSlice<T>(s: seq<T>, i: nat)
    requires i < |s|
    ensures s[..i] + [s[i]] == s[..i + 1]
  {
  }

  lemma SplitSlice<T>(s: seq<T>, i: nat, j: nat)
    requires i <= j <= |s|
    ensures s[..j] == s[..i] + s[i..j]
  {
  }

  lemma IndexOfConcat<T>(p: seq<T>, q: seq<T>, k: int)
    requires |p| <= k < |p| + |q|
    ensures (p + q)[k] == q[k - |p|]
  {
  }

  lemma ConcatAssoc<T>(p: seq<T>, q: seq<T>, r: seq<T>)
    ensures p + (q + r) == (p + q) + r
  {
  }

  lemma NoHaltTail(ss: seq<Sample>)
    requires ss != [] && NoHalt(ss)
    ensures !ss[0].Halted? && NoHalt(ss[1..])
    ensures forall last :: FinalState(last, ss) == FinalState(Next(last, ss[0]), ss[1..])
  {
    assert forall k :: 0 <= k < |ss| - 1 ==> ss[1..][k] == ss[k + 1];
  }

  /** The first cycle of a run, taken apart. */
  lemma RequestsCons(last: string, ss: seq<Sample>, cycles: seq<Cycle>, botToken: string, chatID: string)
    requires |ss| == |cycles| && ss != [] && !ss[0].Halted?
    ensures Requests(last, ss, cycles, botToken, chatID) ==
              (if Notifies(last, ss[0]) then [RequestFor(cycles[0], ss[0].postURL, botToken, chatID)] else [])
              + Requests(Next(last, ss[0]), ss[1..], cycles[1..], botToken, chatID)
  {
  }

  /** The requests of a run end at its first fatal cycle. */
  lemma RequestsAtHalt(last: string, ss: seq<Sample>, cycles: seq<Cycle>, i: nat, botToken: string, chatID: string)
    requires |ss| == |cycles| && i < |ss| && ss[i].Halted? && NoHalt(ss[..i])
    ensures Requests(last, ss, cycles, botToken, chatID) == Requests(last, ss[..i], cycles[..i], botToken, chatID)
  {
    assert ss == ss[..i] + ss[i..] && cycles == cycles[..i] + cycles[i..];
    RequestsAppend(last, ss[..i], cycles[..i], ss[i..], cycles[i..], botToken, chatID);
    assert ss[i..][0] == ss[i];
  }

  /** One non-fatal cycle of the loop in Run keeps its invariant. */
  lemma RunStep(last0: string, ss: seq<Sample>, cycles: seq<Cycle>, i: nat, before: string, after: string,
                r: StepResult, sent: seq<StepResult>, botToken: string, chatID: string)
    requires |ss| == |cycles| && i < |ss|
    requires !ss[i].Halted? && NoHalt(ss[..i]) && before == FinalState(last0, ss[..i])
    requires after == Next(before, ss[i])
    requires r.Notified? <==> Notifies(before, ss[i])
    requires sent == Requests(last0, ss[..i], cycles[..i], botToken, chatID)
    requires r.Notified? ==> r == RequestFor(cycles[i], after, botToken, chatID)
    ensures NoHalt(ss[..i + 1]) && after == FinalState(last0, ss[..i + 1])
    ensures (if r.Notified? then sent + [r] else sent) == Requests(last0, ss[..i + 1], cycles[..i + 1], botToken, chatID)
  {
    SnocSlice(ss, i);
    SnocSlice(cycles, i);
    RunSnoc(last0, ss[..i], ss[i]);
    NoHaltSnoc(ss[..i], ss[i]);
    RequestsAppend(last0, ss[..i], cycles[..i], [ss[i]], [cycles[i]], botToken, chatID);
    assert [ss[i]][1..] == [] && [cycles[i]][1..] == [];
    RequestsCons(before, [ss[i]], [cycles[i]], botToken, chatID);
  }

  lemma NoHaltSnoc(p: seq<Sample>, s: Sample)
    requires NoHalt(p) && !s.Halted?
    ensures NoHalt(p + [s])
  {
  }

  lemma {:induction false} LiveOfNoHalt(ss: seq<Sample>)
    requires NoHalt(ss)
    ensures Live(ss) == ss
  {
    if ss != [] {
      LiveOfNoHalt(ss[1..]);
    }
  }

  lemma {:induction false} LiveAtHalt(ss: seq<Sample>, i: nat)
    requires i < |ss| && ss[i].Halted? && NoHalt(ss[..i])
    ensures Live(ss) == ss[..i]
  {
    if i > 0 {
      assert ss[1..][..i - 1] == ss[..i][1..];
      LiveAtHalt(ss[1..], i - 1);
    }
  }

  /**
   `main`: with an empty token or chat ID nothing runs and nothing is sent;
   otherwise a fresh monitor, starting from the empty state, runs the cycles.
   */
  method Launch(botToken: string, chatID: string, resolve: Resolver, cycles: seq<Cycle>)
    returns (sent: seq<StepResult>, started: bool)
    ensures started <==> botToken != "" && chatID != ""
    ensures !started ==> sent == []
    ensures started ==> |sent| == NotificationCount(Samples(cycles, resolve))
    ensures started ==> sent == Requests("", Samples(cycles, resolve), cycles, botToken, chatID)
    ensures started ==> Dispatched(sent, NotifiedURLs("", Samples(cycles, resolve)), botToken, chatID)
  {
    var config := CheckArgs(botToken, chatID);
    if config.None? {
      return [], false;
    }
    var monitor := new Monitor(config.value.botToken, config.value.chatID, resolve);
    var halted;
    sent, halted := monitor.Run(cycles);
    RequestsMatchNotified("", Samples(cycles, resolve), cycles, botToken, chatID);
    started := true;
  }
}
