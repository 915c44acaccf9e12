/** The per-interest batch: which fetched documents are accepted, and the two text
    accumulators they feed. summarize.py and api_scraper.py run the same loop and
    differ only in the separators, so the loop is written once over a `Style`. */
module Batch {
  import opened Records
  import opened Selection

  /** summarize.py separates with HTML line breaks, api_scraper.py with newlines. */
  datatype Style = Html | Plain

  /** The marker of a paperwork-burden notice. */
  const Boilerplate: string := "Paperwork Reduction Act"

  predicate StartsWith(s: string, prefix: string) {
    |prefix| <= |s| && s[..|prefix|] == prefix
  }

  predicate EndsWith(s: string, suffix: string) {
    |suffix| <= |s| && s[|s| - |suffix|..] == suffix
  }

  lemma StartsWithConcat(prefix: string, s: string)
    ensures StartsWith(prefix + s, prefix)
  {
    assert (prefix + s)[..|prefix|] == prefix;
  }

  lemma EndsWithConcat(s: string, suffix: string)
    ensures EndsWith(s + suffix, suffix)
  {
    assert (s + suffix)[|s|..] == suffix;
  }

  /** `pattern` occurs in `s` at position `i`. */
  predicate OccursAt(s: string, pattern: string, i: int) {
    0 <= i <= |s| - |pattern| && s[i..i + |pattern|] == pattern
  }

  /** Python's substring operator `pattern in s`. */
  predicate Contains(s: string, pattern: string) {
    exists i | 0 <= i <= |s| - |pattern| :: OccursAt(s, pattern, i)
  }

  /** A document enters the batch iff it has an abstract that does not contain
      the phrase "Paperwork Reduction Act" anywhere. */
  predicate Accepted(d: DocRecord)
    ensures Accepted(d) <==>
              d.docAbstract.Some? && forall i :: !OccursAt(d.docAbstract.value, Boilerplate, i)
  {
    d.docAbstract.Some? && !Contains(d.docAbstract.value, Boilerplate)
  }

  function Separator(style: Style): string {
    match style
    case Html => "<br><br>"
    case Plain => "\n\n"
  }

  /** What one document adds to `abstracts`. */
  function AbstractPiece(style: Style, d: DocRecord): (piece: string)
    ensures |piece| > 0 <==> Accepted(d)
    ensures Accepted(d) ==> StartsWith(piece, d.docAbstract.value) && EndsWith(piece, Separator(style))
  {
    if Accepted(d) then d.docAbstract.value + Separator(style) else ""
  }

  /** What one document adds to `formatted_abstracts`. */
  function FormattedPiece(style: Style, d: DocRecord): (entry: string)
    ensures !Accepted(d) ==> entry == ""
    ensures Accepted(d) ==> StartsWith(entry, Render(d.title) + ":")
    ensures Accepted(d) && style == Html ==>
              StartsWith(entry, Render(d.title) + ": <br>" + d.docAbstract.value + " <br>")
    ensures Accepted(d) && style == Plain ==> StartsWith(entry, Render(d.title) + ": \n")
    ensures Accepted(d) && style == Html ==> EndsWith(entry, "Full document: " + Render(d.pdfUrl) + "<br><br>")
    ensures Accepted(d) && style == Plain ==> EndsWith(entry, d.docAbstract.value + " \n")
  {
    if !Accepted(d) then ""
    else match style
      case Html =>
        var head := Render(d.title) + ": <br>" + d.docAbstract.value + " <br>";
        var tail := "Full document: " + Render(d.pdfUrl) + "<br><br>";
        SeqAssoc(head, "Full document: " + Render(d.pdfUrl), "<br><br>");
        EndsWithConcat(head, tail);
        StartsWithConcat(head, tail);
        head + tail
      case Plain =>
        var head := Render(d.title) + ": \n";
        var tail := d.docAbstract.value + " \n";
        SeqAssoc(head, d.docAbstract.value, " \n");
        EndsWithConcat(head, tail);
        StartsWithConcat(head, tail);
        head + tail
  }

  /** The records fetched for `nums`, one per number, in order. */
  function FetchAll(fetch: string -> DocRecord, nums: seq<string>): (docs: seq<DocRecord>)
    ensures |docs| == |nums|
    ensures forall i :: 0 <= i < |nums| ==> docs[i] == fetch(nums[i])
  {
    seq(|nums|, i requires 0 <= i < |nums| => fetch(nums[i]))
  }

  /** The records fetched for the document numbers an interest selects. */
  function InterestBatch(agencies: seq<Agency>, rows: seq<InterestRow>, fetch: string -> DocRecord, interest: string): seq<DocRecord> {
    FetchAll(fetch, InterestDocs(agencies, rows, interest))
  }

  /** The abstract accumulator after the documents `docs`. */
  function Abstracts(style: Style, docs: seq<DocRecord>): string {
    if docs == [] then ""
    else Abstracts(style, docs[..|docs| - 1]) + AbstractPiece(style, docs[|docs| - 1])
  }

  /** What the documents `docs` add to the formatted accumulator. */
  function Formatted(style: Style, docs: seq<DocRecord>): string {
    if docs == [] then ""
    else Formatted(style, docs[..|docs| - 1]) + FormattedPiece(style, docs[|docs| - 1])
  }

  lemma PrefixStep(style: Style, docs: seq<DocRecord>, i: nat)
    requires i < |docs|
    ensures Accepted(docs[i]) ==>
              Abstracts(style, docs[..i + 1]) == Abstracts(style, docs[..i]) + (docs[i].docAbstract.value + Separator(style))
    ensures Formatted(style, docs[..i + 1]) == Formatted(style, docs[..i]) + FormattedPiece(style, docs[i])
    ensures !Accepted(docs[i]) ==>
              Abstracts(style, docs[..i + 1]) == Abstracts(style, docs[..i])
              && Formatted(style, docs[..i + 1]) == Formatted(style, docs[..i])
  {
    assert docs[..i + 1][..i] == docs[..i];
    assert Abstracts(style, docs[..i]) + "" == Abstracts(style, docs[..i]);
    assert Formatted(style, docs[..i]) + "" == Formatted(style, docs[..i]);
  }

  /** The inner document loop: `abstracts` starts empty, `formatted` continues from
      `formattedSoFar`, and each accepted document appends to both. */
  method AssembleBatch(style: Style, fetch: string -> DocRecord, nums: seq<string>, formattedSoFar: string)
    returns (abstracts: string, formatted: string)
    ensures abstracts == Abstracts(style, FetchAll(fetch, nums))
    ensures formatted == formattedSoFar + Formatted(style, FetchAll(fetch, nums))
  {
    ghost var docs := FetchAll(fetch, nums);
    abstracts, formatted := "", formattedSoFar;
    var i := 0;
    while i < |nums|
      invariant 0 <= i <= |nums|
      invariant abstracts == Abstracts(style, docs[..i])
      invariant formatted == formattedSoFar + Formatted(style, docs[..i])
    {
      var d := fetch(nums[i]);
      PrefixStep(style, docs, i);
      if Accepted(d) {
        abstracts := abstracts + (d.docAbstract.value + Separator(style));
        SeqAssoc(formattedSoFar, Formatted(style, docs[..i]), FormattedPiece(style, d));
        formatted := formatted + FormattedPiece(style, d);
      }
      i := i + 1;
    }
    assert docs[..|nums|] == docs;
  }

  lemma {:induction false} AbstractsAppend(style: Style, a: seq<DocRecord>, b: seq<DocRecord>)
    ensures Abstracts(style, a + b) == Abstracts(style, a) + Abstracts(style, b)
    decreases |b|
  {
    if b == [] {
      assert a + b == a;
    } else {
      assert (a + b)[..|a + b| - 1] == a + b[..|b| - 1];
      AbstractsAppend(style, a, b[..|b| - 1]);
      SeqAssoc(Abstracts(style, a), Abstracts(style, b[..|b| - 1]), AbstractPiece(style, b[|b| - 1]));
    }
  }

  lemma {:induction false} FormattedAppend(style: Style, a: seq<DocRecord>, b: seq<DocRecord>)
    ensures Formatted(style, a + b) == Formatted(style, a) + Formatted(style, b)
    decreases |b|
  {
    if b == [] {
      assert a + b == a;
    } else {
      assert (a + b)[..|a + b| - 1] == a + b[..|b| - 1];
      FormattedAppend(style, a, b[..|b| - 1]);
      SeqAssoc(Formatted(style, a), Formatted(style, b[..|b| - 1]), FormattedPiece(style, b[|b| - 1]));
    }
  }

  /** The abstract accumulator is non-empty exactly when some document was accepted. */
  lemma {:induction false} AbstractsNonEmptyIff(style: Style, docs: seq<DocRecord>)
    ensures |Abstracts(style, docs)| > 0 <==> exists i :: 0 <= i < |docs| && Accepted(docs[i])
  {
    if docs != [] {
      var init := docs[..|docs| - 1];
      AbstractsNonEmptyIff(style, init);
      if exists i :: 0 <= i < |init| && Accepted(init[i]) {
        var i :| 0 <= i < |init| && Accepted(init[i]);
        assert docs[i] == init[i];
      }
      if exists i :: 0 <= i < |docs| && Accepted(docs[i]) {
        var i :| 0 <= i < |docs| && Accepted(docs[i]);
        if i < |init| {
          assert init[i] == docs[i];
        }
      }
    }
  }

  /** Accepted documents are exactly those whose abstract and formatted entry appear:
      each accepted abstract is followed by the separator, and a rejected document
      contributes to neither accumulator. */
  lemma PieceShape(style: Style, d: DocRecord)
    ensures Accepted(d) ==> AbstractPiece(style, d) == d.docAbstract.value + Separator(style)
    ensures !Accepted(d) ==> AbstractPiece(style, d) == "" && FormattedPiece(style, d) == ""
    ensures Accepted(d) ==> StartsWith(FormattedPiece(style, d), Render(d.title) + ":")
  {
  }
}
