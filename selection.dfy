/** Which documents an interest selects: the interest-table lookup, the agency
    filter on the issue tree and the flattening of that tree into document
    numbers; and the subscriber filter. All of these are order-preserving filters
    or concatenations, which the `...Append` lemmas state. */
module Selection {
  import opened Records

  /** The agency names of the rows whose interest is `interest`, in table order. */
  function AgenciesFor(rows: seq<InterestRow>, interest: string): (names: seq<string>)
    ensures |names| <= |rows|
    ensures forall name :: name in names <==>
              exists r :: r in rows && r.interest == interest && r.agencyName == name
  {
    if rows == [] then []
    else
      (if rows[0].interest == interest then [rows[0].agencyName] else [])
      + AgenciesFor(rows[1..], interest)
  }

  lemma {:induction false} AgenciesForAppend(a: seq<InterestRow>, b: seq<InterestRow>, interest: string)
    ensures AgenciesFor(a + b, interest) == AgenciesFor(a, interest) + AgenciesFor(b, interest)
  {
    if a == [] {
      assert a + b == b;
    } else {
      assert (a + b)[0] == a[0] && (a + b)[1..] == a[1..] + b;
      AgenciesForAppend(a[1..], b, interest);
      SeqAssoc(if a[0].interest == interest then [a[0].agencyName] else [], AgenciesFor(a[1..], interest), AgenciesFor(b, interest));
    }
  }

  /** The agency bundles of the issue whose name is one of `names`, in issue order. */
  function SelectAgencies(agencies: seq<Agency>, names: seq<string>): (kept: seq<Agency>)
    ensures |kept| <= |agencies|
    ensures forall a :: a in kept <==> a in agencies && a.name in names
  {
    if agencies == [] then []
    else
      (if agencies[0].name in names then [agencies[0]] else [])
      + SelectAgencies(agencies[1..], names)
  }

  lemma {:induction false} SelectAgenciesAppend(a: seq<Agency>, b: seq<Agency>, names: seq<string>)
    ensures SelectAgencies(a + b, names) == SelectAgencies(a, names) + SelectAgencies(b, names)
  {
    if a == [] {
      assert a + b == b;
    } else {
      assert (a + b)[0] == a[0] && (a + b)[1..] == a[1..] + b;
      SelectAgenciesAppend(a[1..], b, names);
      SeqAssoc(if a[0].name in names then [a[0]] else [], SelectAgencies(a[1..], names), SelectAgencies(b, names));
    }
  }

  /** The document numbers of a list of documents, concatenated in order. */
  function EntryNumbers(docs: seq<DocEntry>): (nums: seq<string>)
    ensures forall n :: n in nums <==> exists d :: d in docs && n in d.documentNumbers
    ensures |docs| == 1 ==> nums == docs[0].documentNumbers
  {
    if docs == [] then [] else docs[0].documentNumbers + EntryNumbers(docs[1..])
  }

  /** The document numbers of a list of categories, concatenated in order. */
  function CategoryNumbers(cats: seq<Category>): (nums: seq<string>)
    ensures forall n :: n in nums <==>
              exists c, d :: c in cats && d in c.documents && n in d.documentNumbers
  {
    if cats == [] then [] else EntryNumbers(cats[0].documents) + CategoryNumbers(cats[1..])
  }

  /** Some document of some category of agency `a` carries the number `n`. */
  predicate Lists(a: Agency, n: string) {
    exists c, d :: c in a.categories && d in c.documents && n in d.documentNumbers
  }

  /** The flattening agencies -> document_categories -> documents -> document_numbers. */
  function DocNumbers(agencies: seq<Agency>): (nums: seq<string>)
    ensures forall n :: n in nums <==> exists a :: a in agencies && Lists(a, n)
  {
    if agencies == [] then []
    else
      var first := CategoryNumbers(agencies[0].categories);
      assert forall n :: n in first <==> Lists(agencies[0], n);
      assert forall a :: a in agencies <==> a == agencies[0] || a in agencies[1..];
      first + DocNumbers(agencies[1..])
  }

  lemma {:induction false} DocNumbersAppend(a: seq<Agency>, b: seq<Agency>)
    ensures DocNumbers(a + b) == DocNumbers(a) + DocNumbers(b)
  {
    if a == [] {
      assert a + b == b;
    } else {
      assert (a + b)[0] == a[0] && (a + b)[1..] == a[1..] + b;
      DocNumbersAppend(a[1..], b);
      SeqAssoc(CategoryNumbers(a[0].categories), DocNumbers(a[1..]), DocNumbers(b));
    }
  }

  lemma {:induction false} EntryNumbersAppend(a: seq<DocEntry>, b: seq<DocEntry>)
    ensures EntryNumbers(a + b) == EntryNumbers(a) + EntryNumbers(b)
  {
    if a == [] {
      assert a + b == b;
    } else {
      assert (a + b)[0] == a[0] && (a + b)[1..] == a[1..] + b;
      EntryNumbersAppend(a[1..], b);
      SeqAssoc(a[0].documentNumbers, EntryNumbers(a[1..]), EntryNumbers(b));
    }
  }

  lemma {:induction false} CategoryNumbersAppend(a: seq<Category>, b: seq<Category>)
    ensures CategoryNumbers(a + b) == CategoryNumbers(a) + CategoryNumbers(b)
  {
    if a == [] {
      assert a + b == b;
    } else {
      assert (a + b)[0] == a[0] && (a + b)[1..] == a[1..] + b;
      CategoryNumbersAppend(a[1..], b);
      SeqAssoc(EntryNumbers(a[0].documents), CategoryNumbers(a[1..]), CategoryNumbers(b));
    }
  }

  /** The document numbers one interest selects from an issue. */
  function InterestDocs(agencies: seq<Agency>, rows: seq<InterestRow>, interest: string): (nums: seq<string>)
    ensures (forall r :: r in rows ==> r.interest != interest) ==> nums == []
  {
    DocNumbers(SelectAgencies(agencies, AgenciesFor(rows, interest)))
  }

  /** A document number is selected for an interest exactly when some agency of the
      issue that the interest table maps the interest to lists it. */
  lemma InterestDocsMembership(agencies: seq<Agency>, rows: seq<InterestRow>, interest: string, n: string)
    ensures n in InterestDocs(agencies, rows, interest) <==>
              exists a :: a in agencies && Lists(a, n) && InterestRow(interest, a.name) in rows
  {
  }

  /** An interest that maps to no agency of the issue selects no document. */
  lemma UnmappedInterestSelectsNothing(agencies: seq<Agency>, rows: seq<InterestRow>, interest: string)
    requires forall a :: a in agencies ==> InterestRow(interest, a.name) !in rows
    ensures InterestDocs(agencies, rows, interest) == []
  {
  }

  /** The subscribers whose flag equals 1, in table order. */
  function Subscribed(subs: seq<Subscriber>): (active: seq<Subscriber>)
    ensures |active| <= |subs|
    ensures forall s :: s in active <==> s in subs && s.subscribed == 1
  {
    if subs == [] then []
    else (if subs[0].subscribed == 1 then [subs[0]] else []) + Subscribed(subs[1..])
  }

  lemma {:induction false} SubscribedAppend(a: seq<Subscriber>, b: seq<Subscriber>)
    ensures Subscribed(a + b) == Subscribed(a) + Subscribed(b)
  {
    if a == [] {
      assert a + b == b;
    } else {
      assert (a + b)[0] == a[0] && (a + b)[1..] == a[1..] + b;
      SubscribedAppend(a[1..], b);
      SeqAssoc(if a[0].subscribed == 1 then [a[0]] else [], Subscribed(a[1..]), Subscribed(b));
    }
  }
}
