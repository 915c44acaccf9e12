/** The loop of api_scraper.py `run(i)`: the same interest and document loops as
    summarize.py, with newline separators and no model call. `formatted_abstracts`
    is reset per subscriber and written once, after the subscriber loop. */
module Scraper {
  import opened Records
  import opened Selection
  import opened Batch

  /** A 404 exit; the write reached with `formatted_abstracts` never bound (no
      subscriber had the flag set: Python raises there); or the text written. */
  datatype ScrapeOutcome = NoIssue | Unbound | Wrote(text: string)

  /** `formatted_abstracts` of one subscriber after the interests `xs`. */
  function PlainAppendix(agencies: seq<Agency>, rows: seq<InterestRow>, fetch: string -> DocRecord, xs: seq<string>): string {
    if xs == [] then ""
    else PlainAppendix(agencies, rows, fetch, xs[..|xs| - 1]) + Formatted(Plain, InterestBatch(agencies, rows, fetch, xs[|xs| - 1]))
  }

  /** The value the final write receives, for the subscriber rows `subs`. */
  function WrittenText(agencies: seq<Agency>, rows: seq<InterestRow>, fetch: string -> DocRecord, subs: seq<Subscriber>): (written: Option<string>)
    ensures written.None? <==> forall s :: s in subs ==> s.subscribed != 1
    ensures written.Some? ==>
              exists s :: s in subs && s.subscribed == 1 && written.value == PlainAppendix(agencies, rows, fetch, s.interests)
  {
    var active := Subscribed(subs);
    if active == [] then None else Some(PlainAppendix(agencies, rows, fetch, active[|active| - 1].interests))
  }

  lemma InterestStep(agencies: seq<Agency>, rows: seq<InterestRow>, fetch: string -> DocRecord, xs: seq<string>, i: nat)
    requires i < |xs|
    ensures PlainAppendix(agencies, rows, fetch, xs[..i + 1])
            == PlainAppendix(agencies, rows, fetch, xs[..i]) + Formatted(Plain, InterestBatch(agencies, rows, fetch, xs[i]))
  {
    assert xs[..i + 1][..i] == xs[..i];
  }

  /** The interest loop of one subscriber; `abstracts` is rebuilt per interest and
      then dropped, `formatted_abstracts` grows across the interests. */
  method CollectAppendix(agencies: seq<Agency>, rows: seq<InterestRow>, fetch: string -> DocRecord, xs: seq<string>)
    returns (formatted: string)
    ensures formatted == PlainAppendix(agencies, rows, fetch, xs)
  {
    formatted := "";
    var i := 0;
    while i < |xs|
      invariant 0 <= i <= |xs|
      invariant formatted == PlainAppendix(agencies, rows, fetch, xs[..i])
    {
      var interest := xs[i];
      var docNumbers := InterestDocs(agencies, rows, interest);
      var abstracts;
      abstracts, formatted := AssembleBatch(Plain, fetch, docNumbers, formatted);
      InterestStep(agencies, rows, fetch, xs, i);
      i := i + 1;
    }
    assert xs[..|xs|] == xs;
  }

  /** `run(i)` from the issue response on: a 404 ends it before subscribers are
      read; otherwise each subscribed subscriber's appendix replaces the previous
      one, and the last one is what the final write receives. */
  method Run(issue: IssueResponse, subscribers: seq<Subscriber>, rows: seq<InterestRow>, fetch: string -> DocRecord)
    returns (outcome: ScrapeOutcome)
    ensures issue.NotFound? <==> outcome.NoIssue?
    ensures issue.Issue? ==>
              match WrittenText(issue.agencies, rows, fetch, subscribers)
              case None => outcome.Unbound?
              case Some(text) => outcome == Wrote(text)
  {
    if issue.NotFound? {
      return NoIssue;
    }
    var subs := Subscribed(subscribers);
    var bound := false;
    var formatted := "";
    var k := 0;
    while k < |subs|
      invariant 0 <= k <= |subs|
      invariant bound <==> k > 0
      invariant k > 0 ==> formatted == PlainAppendix(issue.agencies, rows, fetch, subs[k - 1].interests)
    {
      formatted := CollectAppendix(issue.agencies, rows, fetch, subs[k].interests);
      bound := true;
      k := k + 1;
    }
    if !bound {
      return Unbound;
    }
    return Wrote(formatted);
  }

  /** Only the last subscribed subscriber's appendix is written: subscribers before
      it, whatever their interests, leave no trace in the written text. */
  lemma LastSubscriberWins(agencies: seq<Agency>, rows: seq<InterestRow>, fetch: string -> DocRecord,
                           earlier: seq<Subscriber>, last: Subscriber, later: seq<Subscriber>)
    requires last.subscribed == 1
    requires forall s :: s in later ==> s.subscribed != 1
    ensures WrittenText(agencies, rows, fetch, earlier + [last] + later)
            == Some(PlainAppendix(agencies, rows, fetch, last.interests))
  {
    SubscribedAppend(earlier, [last]);
    SubscribedAppend(earlier + [last], later);
    assert Subscribed([last]) == [last];
  }

  /** `formatted_abstracts` of one subscriber accumulates across the interests in
      declared order. */
  lemma {:induction false} PlainAppendixAppend(agencies: seq<Agency>, rows: seq<InterestRow>, fetch: string -> DocRecord,
                                               a: seq<string>, b: seq<string>)
    ensures PlainAppendix(agencies, rows, fetch, a + b)
            == PlainAppendix(agencies, rows, fetch, a) + PlainAppendix(agencies, rows, fetch, b)
    decreases |b|
  {
    if b == [] {
      assert a + b == a;
    } else {
      assert (a + b)[..|a + b| - 1] == a + b[..|b| - 1];
      PlainAppendixAppend(agencies, rows, fetch, a, b[..|b| - 1]);
      SeqAssoc(PlainAppendix(agencies, rows, fetch, a), PlainAppendix(agencies, rows, fetch, b[..|b| - 1]),
               Formatted(Plain, InterestBatch(agencies, rows, fetch, b[|b| - 1])));
    }
  }
}
