/** The values the digest pipeline reads: the issue tree of one publication day,
    the fields of a fetched document, and the rows of the two subscriber-store tables. */
module Records {

  datatype Option<+T> = None | Some(value: T)

  /** One entry of a category: the document numbers it lists. */
  datatype DocEntry = DocEntry(documentNumbers: seq<string>)

  /** A document category of an agency (its `documents` list). */
  datatype Category = Category(documents: seq<DocEntry>)

  /** One agency bundle of an issue: its name and its document categories. */
  datatype Agency = Agency(name: string, categories: seq<Category>)

  /** The answer to the request for a day's issue: a 404 (no register that day)
      or the issue's agency tree. */
  datatype IssueResponse = NotFound | Issue(agencies: seq<Agency>)

  /** The three fields read from a fetched document. A field missing from the
      JSON answer (an unknown document number included) reads as None. */
  datatype DocRecord = DocRecord(title: Option<string>, docAbstract: Option<string>, pdfUrl: Option<string>)

  /** A row of the Interest table: one (interest, agency) pair. */
  datatype InterestRow = InterestRow(interest: string, agencyName: string)

  /** A row of the Subscriber table. `subscribed` is the numeric flag the
      `Subscribed == 1` query compares. */
  datatype Subscriber = Subscriber(email: string, subscribed: int, interests: seq<string>)

  /** How an f-string renders an optional field: a missing value prints as "None". */
  function Render(field: Option<string>): (text: string)
    ensures field.Some? ==> text == field.value
    ensures field.None? ==> text == "None"
  {
    match field
    case None => "None"
    case Some(s) => s
  }

  lemma SeqAssoc<T>(a: seq<T>, b: seq<T>, c: seq<T>)
    ensures (a + b) + c == a + (b + c)
  {
  }
}
