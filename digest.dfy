/** The digest loop of summarize.py `run()`: per subscribed subscriber, one block
    per declared interest (a summary or a placeholder) and the formatted appendix
    of every accepted document. The completion call is the parameter `summarise`,
    the tokenizer the parameter `tokens`, the document endpoint the parameter `fetch`. */
module Digest {
  import opened Records
  import opened Selection
  import opened Batch
  import opened TokenBudget

  /** The run's inputs once the issue is known: the issue's agency tree, the
      Interest table and the three external services. */
  datatype Env = Env(
    agencies: seq<Agency>,
    rows: seq<InterestRow>,
    fetch: string -> DocRecord,
    tokens: string -> nat,
    summarise: Request -> string)

  /** What goes to the email sink for one subscriber: the recipient and the
      `summary` template value; `appendix` is the formatted abstracts text. */
  datatype Digest = Digest(to: string, body: string, appendix: string)

  /** Either the early exit on a 404, or the digests and the completion requests
      in the order they were made. */
  datatype RunOutcome = NoIssue | Sent(digests: seq<Digest>, calls: seq<Request>)

  /** The completion request made for an interest, if the gate lets one through. */
  function RequestOf(env: Env, interest: string): (req: Option<Request>)
    ensures var text := Abstracts(Html, InterestBatch(env.agencies, env.rows, env.fetch, interest));
            req.Some? <==> Gate(env.tokens(text), SummarySize(env.tokens(text)), text)
    ensures req.Some? ==>
              var r := req.value;
              && r.text == Abstracts(Html, InterestBatch(env.agencies, env.rows, env.fetch, interest))
              && RoundsThreeTenths(env.tokens(r.text), r.size)
              && env.tokens(r.text) + r.size <= TokenCeiling
              && r.maxTokens == SummaryLimit(r.size)
  {
    var text := Abstracts(Html, InterestBatch(env.agencies, env.rows, env.fetch, interest));
    var t := env.tokens(text);
    var s := SummarySize(t);
    if Gate(t, s, text) then Some(RequestFor(s, text)) else None
  }

  /** The block for an interest whose request was not made: it carries no
      "{interest}:" header. */
  function Placeholder(interest: string): (block: string)
    ensures StartsWith(block, "There are no " + interest)
    ensures EndsWith(block, " documents published today.<br><br>")
  {
    "There are no " + interest + " documents published today.<br><br>"
  }

  /** The block that carries a summary. */
  function Headed(interest: string, summary: string): (block: string)
    ensures StartsWith(block, interest + ":<br>")
    ensures EndsWith(block, "<br><br>")
  {
    var head := interest + ":<br>" + summary;
    StartsWithConcat(interest + ":<br>", summary);
    StartsWithConcat(head, "<br><br>");
    EndsWithConcat(head, "<br><br>");
    head + "<br><br>"
  }

  /** A summary block is headed by the interest; every block ends with a double break. */
  function BlockOf(env: Env, interest: string): (block: string)
    ensures EndsWith(block, "<br><br>")
    ensures RequestOf(env, interest).Some? ==> StartsWith(block, interest + ":<br>")
    ensures RequestOf(env, interest).None? ==> block == Placeholder(interest)
  {
    match RequestOf(env, interest)
    case None => Placeholder(interest)
    case Some(req) => Headed(interest, env.summarise(req))
  }

  /** `result` after the interests `xs`. */
  function Body(env: Env, xs: seq<string>): string {
    if xs == [] then "" else Body(env, xs[..|xs| - 1]) + BlockOf(env, xs[|xs| - 1])
  }

  /** `formatted_abstracts` after the interests `xs`. */
  function Appendix(env: Env, xs: seq<string>): string {
    if xs == [] then "" else Appendix(env, xs[..|xs| - 1]) + Formatted(Html, InterestBatch(env.agencies, env.rows, env.fetch, xs[|xs| - 1]))
  }

  /** The completion requests made for the interests `xs`, in order. */
  function Calls(env: Env, xs: seq<string>): seq<Request> {
    if xs == [] then []
    else
      Calls(env, xs[..|xs| - 1])
      + match RequestOf(env, xs[|xs| - 1]) case None => [] case Some(r) => [r]
  }

  function DigestOf(env: Env, sub: Subscriber): Digest {
    Digest(sub.email, Body(env, sub.interests), Appendix(env, sub.interests))
  }

  /** The digests of the subscribers `subs`, in order. */
  function RunDigests(env: Env, subs: seq<Subscriber>): seq<Digest> {
    if subs == [] then [] else RunDigests(env, subs[..|subs| - 1]) + [DigestOf(env, subs[|subs| - 1])]
  }

  /** One digest per subscriber. */
  lemma {:induction false} RunDigestsLength(env: Env, subs: seq<Subscriber>)
    ensures |RunDigests(env, subs)| == |subs|
  {
    if subs != [] {
      RunDigestsLength(env, subs[..|subs| - 1]);
    }
  }

  /** The k-th digest is the k-th subscriber's. */
  lemma {:induction false} RunDigestAt(env: Env, subs: seq<Subscriber>, k: nat)
    requires k < |subs|
    ensures |RunDigests(env, subs)| == |subs|
    ensures RunDigests(env, subs)[k] == DigestOf(env, subs[k])
  {
    var init := subs[..|subs| - 1];
    RunDigestsLength(env, init);
    assert RunDigests(env, subs) == RunDigests(env, init) + [DigestOf(env, subs[|subs| - 1])];
    if k < |init| {
      RunDigestAt(env, init, k);
      assert subs[k] == init[k];
    }
  }

  /** One digest per subscriber, the k-th for the k-th subscriber. */
  lemma RunDigestsAt(env: Env, subs: seq<Subscriber>)
    ensures |RunDigests(env, subs)| == |subs|
    ensures forall k :: 0 <= k < |subs| ==> RunDigests(env, subs)[k] == DigestOf(env, subs[k])
  {
    RunDigestsLength(env, subs);
    forall k | 0 <= k < |subs|
      ensures RunDigests(env, subs)[k] == DigestOf(env, subs[k])
    {
      RunDigestAt(env, subs, k);
    }
  }

  /** The completion requests made for the subscribers `subs`, in order. */
  function RunCalls(env: Env, subs: seq<Subscriber>): seq<Request> {
    if subs == [] then [] else RunCalls(env, subs[..|subs| - 1]) + Calls(env, subs[|subs| - 1].interests)
  }

  lemma InterestStep(env: Env, xs: seq<string>, i: nat)
    requires i < |xs|
    ensures Body(env, xs[..i + 1]) == Body(env, xs[..i]) + BlockOf(env, xs[i])
    ensures Appendix(env, xs[..i + 1]) == Appendix(env, xs[..i]) + Formatted(Html, InterestBatch(env.agencies, env.rows, env.fetch, xs[i]))
    ensures Calls(env, xs[..i + 1]) == Calls(env, xs[..i]) + match RequestOf(env, xs[i]) case None => [] case Some(r) => [r]
  {
    assert xs[..i + 1][..i] == xs[..i];
  }

  /** The gate decision for an interest, from the abstracts the document loop built. */
  lemma GateStep(env: Env, interest: string, abstracts: string)
    requires abstracts == Abstracts(Html, InterestBatch(env.agencies, env.rows, env.fetch, interest))
    ensures var t := env.tokens(abstracts);
            var s := SummarySize(t);
            if Gate(t, s, abstracts) then
              var req := RequestFor(s, abstracts);
              && RequestOf(env, interest) == Some(req)
              && BlockOf(env, interest) == interest + ":<br>" + env.summarise(req) + "<br><br>"
            else
              && RequestOf(env, interest) == None
              && BlockOf(env, interest) == Placeholder(interest)
  {
  }

  /** The interest loop for one subscriber: `result` and `formatted_abstracts` start
      empty; each interest runs the document loop, then calls the model if the
      gate passes and appends a summary block, or appends the placeholder. */
  method ComposeDigest(env: Env, sub: Subscriber) returns (result: string, formatted: string, calls: seq<Request>)
    ensures result == Body(env, sub.interests)
    ensures formatted == Appendix(env, sub.interests)
    ensures calls == Calls(env, sub.interests)
  {
    var xs := sub.interests;
    result, formatted, calls := "", "", [];
    var i := 0;
    while i < |xs|
      invariant 0 <= i <= |xs|
      invariant result == Body(env, xs[..i])
      invariant formatted == Appendix(env, xs[..i])
      invariant calls == Calls(env, xs[..i])
    {
      var interest := xs[i];
      var docNumbers := InterestDocs(env.agencies, env.rows, interest);
      var abstracts;
      abstracts, formatted := AssembleBatch(Html, env.fetch, docNumbers, formatted);
      var tokenCount := env.tokens(abstracts);
      var summarySize := SummarySize(tokenCount);
      InterestStep(env, xs, i);
      GateStep(env, interest, abstracts);
      if tokenCount + summarySize <= TokenCeiling && |abstracts| > 0 {
        var req := RequestFor(summarySize, abstracts);
        var summary := env.summarise(req);
        SeqAssoc(result, interest + ":<br>" + summary, "<br><br>");
        result := result + (interest + ":<br>" + summary + "<br><br>");
        calls := calls + [req];
      } else {
        result := result + Placeholder(interest);
      }
      i := i + 1;
    }
    assert xs[..|xs|] == xs;
  }

  lemma SubscriberStep(env: Env, subs: seq<Subscriber>, k: nat)
    requires k < |subs|
    ensures RunCalls(env, subs[..k + 1]) == RunCalls(env, subs[..k]) + Calls(env, subs[k].interests)
    ensures RunDigests(env, subs[..k + 1]) == RunDigests(env, subs[..k]) + [DigestOf(env, subs[k])]
  {
    assert subs[..k + 1][..k] == subs[..k];
  }

  /** `run()` from the issue response on: a 404 ends the run before any subscriber
      is read; otherwise every subscriber whose flag is 1 gets one digest, in
      table order, and the requests are those of their interests in turn. */
  method Run(issue: IssueResponse, subscribers: seq<Subscriber>, rows: seq<InterestRow>,
             fetch: string -> DocRecord, tokens: string -> nat, summarise: Request -> string)
    returns (outcome: RunOutcome)
    ensures issue.NotFound? <==> outcome.NoIssue?
    ensures issue.Issue? ==>
              var env := Env(issue.agencies, rows, fetch, tokens, summarise);
              var active := Subscribed(subscribers);
              && outcome.digests == RunDigests(env, active)
              && outcome.calls == RunCalls(env, active)
  {
    if issue.NotFound? {
      return NoIssue;
    }
    var env := Env(issue.agencies, rows, fetch, tokens, summarise);
    var subs := Subscribed(subscribers);
    var digests: seq<Digest> := [];
    var calls: seq<Request> := [];
    var k := 0;
    while k < |subs|
      invariant 0 <= k <= |subs|
      invariant digests == RunDigests(env, subs[..k])
      invariant calls == RunCalls(env, subs[..k])
    {
      var sub := subs[k];
      var result, formatted, subCalls := ComposeDigest(env, sub);
      SubscriberStep(env, subs, k);
      assert Digest(sub.email, result, formatted) == DigestOf(env, sub);
      digests := digests + [Digest(sub.email, result, formatted)];
      calls := calls + subCalls;
      k := k + 1;
    }
    assert subs[..|subs|] == subs;
    return Sent(digests, calls);
  }

  /** `result` is the concatenation of the blocks of the declared interests, in
      declared order: the blocks of a prefix come before those of the rest. */
  lemma {:induction false} BodyAppend(env: Env, a: seq<string>, b: seq<string>)
    ensures Body(env, a + b) == Body(env, a) + Body(env, b)
    decreases |b|
  {
    if b == [] {
      assert a + b == a;
    } else {
      assert (a + b)[..|a + b| - 1] == a + b[..|b| - 1];
      BodyAppend(env, a, b[..|b| - 1]);
      SeqAssoc(Body(env, a), Body(env, b[..|b| - 1]), BlockOf(env, b[|b| - 1]));
    }
  }

  /** `formatted_abstracts` accumulates across all of a subscriber's interests. */
  lemma {:induction false} AppendixAppend(env: Env, a: seq<string>, b: seq<string>)
    ensures Appendix(env, a + b) == Appendix(env, a) + Appendix(env, b)
    decreases |b|
  {
    if b == [] {
      assert a + b == a;
    } else {
      assert (a + b)[..|a + b| - 1] == a + b[..|b| - 1];
      AppendixAppend(env, a, b[..|b| - 1]);
      SeqAssoc(Appendix(env, a), Appendix(env, b[..|b| - 1]), Formatted(Html, InterestBatch(env.agencies, env.rows, env.fetch, b[|b| - 1])));
    }
  }

  /** Every completion request was let through by the gate: its text is non-empty,
      fits the budget with its size, and so asks for at most 1846 tokens with a
      `max_tokens` of floor(3s/2); the 8000 cap is never used. */
  lemma {:induction false} CallsAreGated(env: Env, xs: seq<string>)
    ensures forall c :: c in Calls(env, xs) ==>
              && |c.text| > 0
              && env.tokens(c.text) + c.size <= TokenCeiling
              && c.size == SummarySize(env.tokens(c.text))
              && c.size <= 1846
              && c.maxTokens == (3 * c.size) / 2 <= 2769
  {
    if xs != [] {
      CallsAreGated(env, xs[..|xs| - 1]);
      match RequestOf(env, xs[|xs| - 1])
      case None =>
      case Some(r) =>
        GateForcesSmallSize(env.tokens(r.text), r.size);
    }
  }

  /** A request is made exactly for the interests whose gate passes. */
  lemma {:induction false} CallsMembership(env: Env, xs: seq<string>, c: Request)
    ensures c in Calls(env, xs) <==> exists x :: x in xs && RequestOf(env, x) == Some(c)
  {
    if xs != [] {
      var init := xs[..|xs| - 1];
      CallsMembership(env, init, c);
      assert forall x :: x in xs <==> x in init || x == xs[|xs| - 1];
    }
  }

  /** An interest the Interest table maps to no agency of the issue gets the
      placeholder, and the model is not called for it. */
  lemma UnmappedInterestGetsPlaceholder(env: Env, interest: string)
    requires forall a :: a in env.agencies ==> InterestRow(interest, a.name) !in env.rows
    ensures RequestOf(env, interest) == None
    ensures BlockOf(env, interest) == Placeholder(interest)
  {
  }

  /** When no selected document is accepted, the abstracts are empty and the
      interest gets the placeholder. */
  lemma NothingAcceptedGetsPlaceholder(env: Env, interest: string)
    requires forall d :: d in InterestBatch(env.agencies, env.rows, env.fetch, interest) ==> !Accepted(d)
    ensures RequestOf(env, interest) == None
    ensures BlockOf(env, interest) == Placeholder(interest)
  {
    var docs := InterestBatch(env.agencies, env.rows, env.fetch, interest);
    AbstractsNonEmptyIff(Html, docs);
  }

  /** The model is called for an interest exactly when some selected document is
      accepted and the abstracts fit the budget (at most 6154 tokens). */
  lemma SummarisedIff(env: Env, interest: string)
    ensures RequestOf(env, interest).Some? <==>
              var docs := InterestBatch(env.agencies, env.rows, env.fetch, interest);
              && (exists i :: 0 <= i < |docs| && Accepted(docs[i]))
              && env.tokens(Abstracts(Html, docs)) <= 6154
    ensures RequestOf(env, interest).Some? ==>
              var r := RequestOf(env, interest).value;
              && r.text == Abstracts(Html, InterestBatch(env.agencies, env.rows, env.fetch, interest))
              && BlockOf(env, interest) == interest + ":<br>" + env.summarise(r) + "<br><br>"
  {
    var docs := InterestBatch(env.agencies, env.rows, env.fetch, interest);
    AbstractsNonEmptyIff(Html, docs);
    var t := env.tokens(Abstracts(Html, docs));
    BudgetThreshold(t, SummarySize(t));
  }
}
