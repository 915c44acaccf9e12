# Apprise digest pipeline — a Dafny model

Apprise sends each subscriber a daily digest of the Federal Register. `summarize.py`
fetches the day's issue, then for every subscriber whose `Subscribed` flag is 1 and
for each of that subscriber's interests it:

1. looks up the interest's agencies in the Interest table;
2. collects the document numbers those agencies published;
3. fetches each document and keeps it if it has an abstract that does not
   contain the phrase "Paperwork Reduction Act";
4. sizes a summary at 30% of the abstracts' token count;
5. asks the language model for a summary if the abstracts are non-empty and
   their token count plus the summary size is at most 8000, and otherwise
   appends a "There are no … documents published today" placeholder.

`api_scraper.py` runs the same selection and acceptance loop with plain-text
separators and no model call. It writes the formatted abstracts to a file.

This model covers that decision logic. Four external services become parameters:

- the document endpoint is `fetch: string -> DocRecord`;
- the tokenizer is `tokens: string -> nat`;
- the completion call is `summarise: Request -> string`;
- the day's issue is an `IssueResponse` value, either `NotFound` (a 404) or an agency tree.

Files and modules:

- `records.dfy` (`Records`): issue tree, document record, table rows, and `Render`. `Render` gives the f-string text of an optional field (`None` prints as "None").
- `selection.dfy` (`Selection`): the interest→agency lookup, the agency filter, the flattening into document numbers, and the subscriber filter.
- `batch.dfy` (`Batch`): acceptance of a document and the two accumulators. The document loop `AssembleBatch` is shared by both scripts through a `Style` (`Html` or `Plain`).
- `budget.dfy` (`TokenBudget`): summary size, `summary_limit` and the gate.
- `schedule.dfy` (`Schedule`): the hour-11 cut-off that picks the day. The hour is the one `now()` reports, which is the UTC hour only on a host set to UTC.
- `digest.dfy` (`Digest`): the subscriber and interest loops of `summarize.py`.
- `scraper.dfy` (`Scraper`): the subscriber and interest loops of `api_scraper.py`, and the value its final write receives.

The model keeps these details of the code:

- In `summarize.py`, blocks and separators are written with `<br>`.
- The placeholder block has no `"{interest}:"` header.
- `max_tokens` is `8000` when the size exceeds 5333 and `int(1.5·size)` otherwise.

## Model

| member | source | states |
|---|---|---|
| `Selection.AgenciesFor` | summarize.py:110 | an agency name is returned iff some Interest row pairs it with the interest; no more names than rows |
| `Selection.AgenciesForAppend` | summarize.py:110 | the lookup is an order-preserving filter: the names from two row blocks are the first block's followed by the second's |
| `Selection.SelectAgencies` | summarize.py:113 | an agency bundle is kept iff it is in the issue and its name is in the interest's agency list |
| `Selection.SelectAgenciesAppend` | summarize.py:113 | the agency filter preserves issue order |
| `Selection.EntryNumbers` | summarize.py:114 | a number is listed iff some document entry carries it; a single entry contributes exactly its own numbers |
| `Selection.CategoryNumbers` | summarize.py:114 | a number is listed iff some document of some category carries it |
| `Selection.DocNumbers` | summarize.py:114 | a number is listed iff some agency → category → document path carries it |
| `Selection.DocNumbersAppend` | summarize.py:114 | the flattening is an in-order concatenation over agencies |
| `Selection.InterestDocs` | summarize.py:110-114 | the numbers of the issue agencies that the interest's Interest rows name, flattened in order (the `…Append` lemmas below); an interest with no Interest row selects no document |
| `Selection.EntryNumbersAppend` | summarize.py:114 | the numbers of a document list are concatenated in document order |
| `Selection.CategoryNumbersAppend` | summarize.py:114 | the numbers of a category list are concatenated in category order |
| `Selection.InterestDocsMembership` | summarize.py:110-114 | a number is selected for an interest iff an issue agency that the Interest table maps the interest to lists it |
| `Selection.UnmappedInterestSelectsNothing` | summarize.py:110-114 | an interest mapped to no agency of the issue selects no document |
| `Selection.Subscribed` | summarize.py:101 | a subscriber is kept iff its row is present and its flag equals 1 |
| `Selection.SubscribedAppend` | summarize.py:101 | the subscriber filter preserves table order |
| `Records.Render` | summarize.py:130 | an f-string prints a present field as its value and a missing one as `None` |
| `Batch.Accepted` | summarize.py:128 | a document is accepted iff it has an abstract in which "Paperwork Reduction Act" occurs at no position |
| `Batch.AbstractPiece` | summarize.py:128-129 | a document adds to `abstracts` iff it is accepted, and then its abstract followed by the separator (`<br><br>`, or `\n\n` at api_scraper.py:108) |
| `Batch.FormattedPiece` | summarize.py:128-130 | a rejected document adds nothing; an accepted one adds an entry that starts with `"{title}: <br>{abstract} <br>"` and ends with `Full document: {pdf_url}<br><br>`, or, in the plain style of api_scraper.py:109, starts with `"{title}: \n"` and ends with `{abstract} \n` |
| `Batch.AssembleBatch` | summarize.py:116-130 | the document loop leaves `abstracts` equal to the accepted abstracts of the fetched records, each with its separator, and extends the formatted text by their formatted entries |
| `Batch.AbstractsAppend` | summarize.py:129 | `abstracts` is an in-order concatenation over the fetched documents |
| `Batch.FormattedAppend` | summarize.py:130 | `formatted_abstracts` gains its entries in fetch order |
| `Batch.AbstractsNonEmptyIff` | summarize.py:128-129 | `abstracts` is non-empty iff at least one fetched document was accepted |
| `Batch.PieceShape` | summarize.py:128-130 | an accepted document adds its abstract plus the separator and a formatted entry starting with `"{title}:"`; a rejected one adds nothing to either text |
| `TokenBudget.SummarySize` | summarize.py:134 | the summary size is within one half of 0.3 times the token count |
| `TokenBudget.SummaryLimit` | summarize.py:46 | `max_tokens` never exceeds 8000; it is 8000 iff the size exceeds 5333, and otherwise it is the floor of 1.5 times the size and at least the size |
| `TokenBudget.RequestFor` | summarize.py:45-53 | a request carries the size and the abstracts unchanged, and its `max_tokens` is `summary_limit` of the size, so at most 8000 |
| `TokenBudget.Gate` | summarize.py:137 | a passing gate means non-empty abstracts, and a token count and a size each within the 8000 budget |
| `TokenBudget.GateForcesSmallSize` | summarize.py:133-140 | whenever the gate's budget check passes, the size is at most 1846, so `max_tokens` is floor(3s/2) ≤ 2769 and the 8000 branch is unreachable |
| `TokenBudget.BudgetThreshold` | summarize.py:133-137 | for any size within rounding of 30% of the token count, the budget check passes exactly for token counts up to 6154 |
| `TokenBudget.LargestSummarySize` | summarize.py:134-137 | the 1846 bound is reached, by 6154 tokens |
| `Schedule.ChosenDay` | api_scraper.py:56-59 | the day is yesterday iff the hour is before 11, and otherwise today; it is always one of the two |
| `Digest.RequestOf` | summarize.py:133-140 | a request is made iff the gate passes on the interest's abstracts; it then carries those abstracts, a size within rounding of 30% of their token count whose sum with that count is at most 8000, and `max_tokens` equal to `summary_limit` of the size |
| `Digest.Placeholder` | summarize.py:148 | the placeholder starts "There are no {interest}" and ends " documents published today.<br><br>", with no "{interest}:" header |
| `Digest.Headed` | summarize.py:145 | a summary block starts with `"{interest}:<br>"` and ends with `<br><br>` |
| `Digest.BlockOf` | summarize.py:137-148 | every block ends with `<br><br>`; a summarised interest's block starts `"{interest}:<br>"`, and an interest without a request gets the placeholder |
| `Digest.ComposeDigest` | summarize.py:106-148 | for one subscriber the interest loop yields `Body` (one block per declared interest, in order), `Appendix` (the formatted entries of every accepted document across all interests) and `Calls` (one request per interest whose gate passes) |
| `Digest.Run` | summarize.py:93-148 | a 404 ends the run with nothing produced; otherwise there is one digest per flagged subscriber in table order, and the requests are theirs in turn |
| `Digest.RunDigestsLength` | summarize.py:104-107 | one digest per flagged subscriber |
| `Digest.RunDigestAt` | summarize.py:104-107 | the k-th digest is built from the k-th flagged subscriber |
| `Digest.RunDigestsAt` | summarize.py:104-107 | there are exactly as many digests as flagged subscribers, and the k-th digest is addressed to and built from the k-th of them |
| `Digest.BodyAppend` | summarize.py:145-148 | `result` is the concatenation of one block per interest, in declared interest order |
| `Digest.AppendixAppend` | summarize.py:107 | `formatted_abstracts` accumulates across all interests of a subscriber, in order |
| `Digest.CallsAreGated` | summarize.py:133-140 | every model request has non-empty text, fits the 8000 budget with its size, asks for at most 1846 tokens and has a `max_tokens` of floor(3s/2) |
| `Digest.CallsMembership` | summarize.py:137-140 | a request is made iff it is the gated request of one of the subscriber's interests |
| `Digest.UnmappedInterestGetsPlaceholder` | summarize.py:110-148 | an interest mapped to no agency of the issue makes no request and gets the placeholder block |
| `Digest.NothingAcceptedGetsPlaceholder` | summarize.py:128-148 | when no selected document is accepted, no request is made and the block is the placeholder |
| `Digest.SummarisedIff` | summarize.py:133-145 | the model is called iff some selected document is accepted and the abstracts count at most 6154 tokens; the block is then `"{interest}:<br>{summary}<br><br>"` |
| `Scraper.CollectAppendix` | api_scraper.py:88-109 | the interest loop yields the plain-text entries `"{title}: \n{abstract} \n"` of all accepted documents of all interests, in order |
| `Scraper.Run` | api_scraper.py:72-113 | a 404 ends the run before anything is written; with no flagged subscriber the write finds `formatted_abstracts` unbound; otherwise the text written is the last flagged subscriber's appendix |
| `Scraper.WrittenText` | api_scraper.py:83-113 | nothing is bound iff no subscriber has the flag set; otherwise the text is the appendix of a flagged subscriber, namely the last (`Scraper.LastSubscriberWins`) |
| `Scraper.LastSubscriberWins` | api_scraper.py:83-113 | subscribers before the last flagged one leave no trace in the written text |
| `Scraper.PlainAppendixAppend` | api_scraper.py:86-109 | the plain appendix accumulates over the interests in declared order |

## Left out

- HTTP requests to the Federal Register API and the URLs they use, including the fixed month and day in `summarize.py`. The issue is an `IssueResponse` value and the document endpoint is a function. Statuses other than 404 are not modelled.
- `TableDF` and the pandas/Airtable plumbing. The tables are sequences of records. An empty table, for which `TableDF` returns `None` and the query then fails, is not modelled.
- The tiktoken tokenizer. It is the parameter `tokens`.
- The OpenAI call, its prompt text, and the retry decorator with its randomized exponential backoff. The summariser is a total function `summarise`, so a call that fails after six attempts is not modelled. Such a failure would not become a placeholder: the code does not catch it, so the run stops.
- SendGrid message construction and sending, the template id, the subject line with its date text, the prints and the file append. The model returns the values handed to them.
- TokenBudget.SummarySize: rounds ties (token counts ending in 5) upward, while Python's `round` on the float `t*0.3` may round them either way. `GateForcesSmallSize` and `BudgetThreshold` assume only the bound `|10s − 3t| ≤ 5`, which holds either way. `LargestSummarySize` and the `c.size == SummarySize(...)` clause of `Digest.CallsAreGated` are stated about the half-up function.
- The summariser is a fixed function of its request. The source samples at temperature 1, so two identical requests may get different answers; the model does not capture that variation, and in it two subscribers with the same interests always get the same digest body.
- `datetime.now()` is replaced by an explicit hour and day ordinal.
- The 31-day driver loop of `api_scraper.py` and its day arithmetic are not modelled.
- The `appendix` field of a digest carries `formatted_abstracts`. The source only prints this text and does not send it.
