/**
 * The document library page: the signed-in user's converted statements, narrowed by a search term,
 * ordered by one of four keys, deleted one at a time and downloaded under a CSV name.
 */
module Documents {
  import opened Wrappers
  import opened Text
  import opened Sorting
  import opened DodoPayments

  /**
   * One entry of the list. `conversionDate` is the time stamp `new Date(conversion_date)` parses
   * the stored date to.
   */
  datatype Document = Document(id: string, originalFilename: string, conversionDate: int, fileSize: nat,
                               pageCount: nat, status: string)

  /** `Array.prototype.filter`: the elements that pass, in their order. */
  function Filter<T>(s: seq<T>, p: T -> bool): (r: seq<T>)
    ensures |r| <= |s|
    ensures forall i :: 0 <= i < |r| ==> p(r[i]) && r[i] in s
  {
    if s == [] then [] else (if p(s[0]) then [s[0]] else []) + Filter(s[1..], p)
  }

  /** An element is kept exactly when it is in the input and passes. */
  lemma {:induction false} FilterMembers<T>(s: seq<T>, p: T -> bool, x: T)
    ensures x in Filter(s, p) <==> x in s && p(x)
    decreases |s|
  {
    if s != [] {
      FilterMembers(s[1..], p, x);
      assert s == [s[0]] + s[1..];
    }
  }

  /** Filtering a concatenation filters each part, so the kept elements keep their order. */
  lemma {:induction false} FilterAppend<T>(a: seq<T>, b: seq<T>, p: T -> bool)
    ensures Filter(a + b, p) == Filter(a, p) + Filter(b, p)
    decreases |a|
  {
    if a == [] {
      assert a + b == b;
    } else {
      assert (a + b)[1..] == a[1..] + b;
      FilterAppend(a[1..], b, p);
    }
  }

  /** When every element passes, nothing is dropped. */
  lemma {:induction false} FilterAll<T>(s: seq<T>, p: T -> bool)
    requires forall i :: 0 <= i < |s| ==> p(s[i])
    ensures Filter(s, p) == s
    decreases |s|
  {
    if s != [] {
      FilterAll(s[1..], p);
      assert s == [s[0]] + s[1..];
    }
  }

  // ---------------------------------------------------------------------------------------------
  // Search and order

  /** The search: the file name contains the term, both lower-cased (ASCII capitals only). */
  predicate Matches(term: string, d: Document) {
    Contains(LowerStr(d.originalFilename), LowerStr(term))
  }

  function Searched(docs: seq<Document>, term: string): seq<Document> {
    Filter(docs, (d: Document) => Matches(term, d))
  }

  /**
   * The comparator of each order as a key for the stable sort: newest first and largest first
   * negate their number, the name order compares the characters, and any other choice gives every
   * document the same key, as the comparator that returns 0 does.
   */
  function SortKey(sortBy: string): Document -> seq<int> {
    if sortBy == "newest" then (d: Document) => [-d.conversionDate]
    else if sortBy == "oldest" then (d: Document) => [d.conversionDate]
    else if sortBy == "name" then (d: Document) => StringKey(d.originalFilename)
    else if sortBy == "size" then (d: Document) => [-(d.fileSize as int)]
    else (d: Document) => []
  }

  /** `filteredAndSortedDocuments`. */
  function FilteredAndSorted(docs: seq<Document>, term: string, sortBy: string): seq<Document> {
    SortBy(Searched(docs, term), SortKey(sortBy))
  }

  /** The list shown is a rearrangement of exactly the matching documents, ordered by the chosen key. */
  lemma FilteredAndSortedSpec(docs: seq<Document>, term: string, sortBy: string)
    ensures var r := FilteredAndSorted(docs, term, sortBy);
      && multiset(r) == multiset(Searched(docs, term))
      && (forall d :: d in r <==> d in docs && Matches(term, d))
      && Sorted(r, SortKey(sortBy))
  {
    var r := FilteredAndSorted(docs, term, sortBy);
    SortBySorted(Searched(docs, term), SortKey(sortBy));
    forall d
      ensures d in r <==> d in docs && Matches(term, d)
    {
      FilterMembers(docs, (d: Document) => Matches(term, d), d);
      assert d in r <==> d in multiset(r);
      assert d in Searched(docs, term) <==> d in multiset(Searched(docs, term));
    }
  }

  /** Every file name contains the empty term, so an empty search keeps every document in place. */
  lemma EmptySearchKeepsAll(docs: seq<Document>)
    ensures Searched(docs, "") == docs
  {
    forall i | 0 <= i < |docs|
      ensures Matches("", docs[i])
    {
      assert OccursAt(LowerStr(docs[i].originalFilename), "", 0);
    }
    FilterAll(docs, (d: Document) => Matches("", d));
  }

  /** The search ignores case on both sides. */
  lemma SearchIgnoresCase(docs: seq<Document>, term: string)
    ensures Searched(docs, LowerStr(term)) == Searched(docs, term)
  {
    LowerIdempotent(term);
    FilterSamePredicate(docs, (d: Document) => Matches(LowerStr(term), d), (d: Document) => Matches(term, d));
  }

  lemma {:induction false} FilterSamePredicate<T>(s: seq<T>, p: T -> bool, q: T -> bool)
    requires forall x :: p(x) == q(x)
    ensures Filter(s, p) == Filter(s, q)
    decreases |s|
  {
    if s != [] {
      FilterSamePredicate(s[1..], p, q);
    }
  }

  /** The four orders: newest and oldest by date, name ascending, size descending. */
  lemma OrdersMeanWhatTheySay(docs: seq<Document>, term: string, sortBy: string)
    ensures var r := FilteredAndSorted(docs, term, sortBy);
      forall i, j :: 0 <= i < j < |r| ==>
        && (sortBy == "newest" ==> r[i].conversionDate >= r[j].conversionDate)
        && (sortBy == "oldest" ==> r[i].conversionDate <= r[j].conversionDate)
        && (sortBy == "size" ==> r[i].fileSize >= r[j].fileSize)
        && (sortBy == "name" ==> Le(StringKey(r[i].originalFilename), StringKey(r[j].originalFilename)))
  {
    SortBySorted(Searched(docs, term), SortKey(sortBy));
  }

  /** Any other choice of order leaves the search result as it came. */
  lemma UnknownOrderKeepsOrder(docs: seq<Document>, term: string, sortBy: string)
    requires sortBy != "newest" && sortBy != "oldest" && sortBy != "name" && sortBy != "size"
    ensures FilteredAndSorted(docs, term, sortBy) == Searched(docs, term)
  {
    SortByConstantKey(Searched(docs, term), SortKey(sortBy), []);
  }

  /** Documents converted at the same moment keep their list order under either date order. */
  lemma SameDateKeepsOrder(docs: seq<Document>, term: string, sortBy: string, date: int)
    requires sortBy == "newest" || sortBy == "oldest"
    ensures var k := if sortBy == "newest" then [-date] else [date];
      WithKey(FilteredAndSorted(docs, term, sortBy), SortKey(sortBy), k) == WithKey(Searched(docs, term), SortKey(sortBy), k)
  {
    var k := if sortBy == "newest" then [-date] else [date];
    SortByStable(Searched(docs, term), SortKey(sortBy), k);
  }

  // ---------------------------------------------------------------------------------------------
  // Delete, download and sizes

  /** The list after deleting `docId`. */
  function Deleted(docs: seq<Document>, docId: string): seq<Document> {
    Filter(docs, (d: Document) => d.id != docId)
  }

  /**
   * Deleting drops exactly the documents with that id and keeps the others in their order: a list
   * split anywhere loses them from each part, and a list without the id is unchanged.
   */
  lemma DeletedSpec(docs: seq<Document>, docId: string, a: seq<Document>, b: seq<Document>)
    ensures forall d :: d in Deleted(docs, docId) <==> d in docs && d.id != docId
    ensures Deleted(a + b, docId) == Deleted(a, docId) + Deleted(b, docId)
    ensures (forall i :: 0 <= i < |docs| ==> docs[i].id != docId) ==> Deleted(docs, docId) == docs
  {
    forall d
      ensures d in Deleted(docs, docId) <==> d in docs && d.id != docId
    {
      FilterMembers(docs, (d: Document) => d.id != docId, d);
    }
    FilterAppend(a, b, (d: Document) => d.id != docId);
    if forall i :: 0 <= i < |docs| ==> docs[i].id != docId {
      FilterAll(docs, (d: Document) => d.id != docId);
    }
  }

  /** `filename.replace('.pdf', '-converted.csv')`: only the first `.pdf`, and only in lower case. */
  function DownloadName(filename: string): string {
    ReplaceFirst(filename, ".pdf", "-converted.csv")
  }

  /**
   * The first `.pdf` is replaced, and what follows it is kept as it is, another `.pdf` included.
   */
  lemma DownloadNameOfPdf(stem: string, rest: string)
    requires IndexOf(stem, ".pdf").None?
    ensures DownloadName(stem + ".pdf" + rest) == stem + "-converted.csv" + rest
  {
    var s := stem + ".pdf" + rest;
    PdfAfterStem(stem, rest);
    assert s[..|stem|] == stem;
    assert s[|stem| + 4..] == rest;
  }

  /** The replace is case sensitive: a name ending in `.PDF` is saved under its own name. */
  lemma DownloadNameUpperCase()
    ensures DownloadName("a.PDF") == "a.PDF"
  {
    assert "a.PDF"[0..4][0] == 'a' && "a.PDF"[1..5][1] == 'P';
  }

  /** The size label's unit: the exact integer logarithm base 1024, as an index into `sizes`. */
  function UnitIndex(bytes: nat): (i: nat)
    requires bytes >= 1
    decreases bytes
  {
    if bytes < 1024 then 0 else 1 + UnitIndex(bytes / 1024)
  }

  function Pow1024(i: nat): (r: nat)
    ensures r >= 1
  {
    if i == 0 then 1 else 1024 * Pow1024(i - 1)
  }

  lemma {:induction false} UnitIndexBounds(bytes: nat)
    requires bytes >= 1
    ensures Pow1024(UnitIndex(bytes)) <= bytes < 1024 * Pow1024(UnitIndex(bytes))
    decreases bytes
  {
    if bytes >= 1024 {
      UnitIndexBounds(bytes / 1024);
    }
  }

  const SizeUnits: seq<string> := ["Bytes", "KB", "MB", "GB"]

  /**
   * `formatFileSize`: zero is `0 Bytes`; any other size is the scaled number, whose two-decimal
   * floating-point text is given as `scaledText`, and the unit found by the logarithm.
   * `sizes[i]` past `GB` is `undefined` in JavaScript.
   */
  function FormatFileSize(bytes: nat, scaledText: string): (r: string)
    ensures bytes == 0 ==> r == "0 Bytes"
    ensures bytes >= 1 ==> (r == scaledText + " "
      + (if UnitIndex(bytes) < 4 then SizeUnits[UnitIndex(bytes)] else "undefined"))
  {
    if bytes == 0 then "0 Bytes"
    else
      var i := UnitIndex(bytes);
      scaledText + " " + (if i < |SizeUnits| then SizeUnits[i] else "undefined")
  }

  /** The unit is the one whose power of 1024 the size reaches but does not reach a thousand and twenty-four times over. */
  lemma FileSizeUnits(bytes: nat, scaledText: string)
    requires bytes >= 1
    ensures bytes < 1024 ==> FormatFileSize(bytes, scaledText) == scaledText + " Bytes"
    ensures 1024 <= bytes < 1024 * 1024 ==> FormatFileSize(bytes, scaledText) == scaledText + " KB"
    ensures 1024 * 1024 <= bytes < 1024 * 1024 * 1024 ==> FormatFileSize(bytes, scaledText) == scaledText + " MB"
  {
    UnitIndexBounds(bytes);
    var i := UnitIndex(bytes);
    if i >= 3 {
      assert Pow1024(3) == 1024 * 1024 * 1024;
      PowMonotone(3, i);
    }
    if i == 2 {
      assert Pow1024(2) == 1024 * 1024;
    }
    if i == 1 {
      assert Pow1024(1) == 1024;
    }
  }

  lemma {:induction false} PowMonotone(i: nat, j: nat)
    requires i <= j
    ensures Pow1024(i) <= Pow1024(j)
    decreases j
  {
    if i < j {
      PowMonotone(i, j - 1);
    }
  }

  // ---------------------------------------------------------------------------------------------
  // The page

  class DocumentsPage {
    var documents: seq<Document>
    var loading: bool
    var searchTerm: string
    var sortBy: string

    constructor ()
      ensures documents == [] && loading && searchTerm == "" && sortBy == "newest"
    {
      documents := [];
      loading := true;
      searchTerm := "";
      sortBy := "newest";
    }

    /** The documents shown. */
    function Visible(): seq<Document>
      reads this
    {
      FilteredAndSorted(documents, searchTerm, sortBy)
    }

    /** The heading shown instead of the list when nothing is shown. */
    function EmptyTitle(): (r: Option<string>)
      reads this
      ensures r.None? <==> Visible() != []
      ensures r.Some? ==> r.value == (if documents == [] then "No documents yet" else "No documents found")
    {
      if Visible() == [] then Some(if documents == [] then "No documents yet" else "No documents found") else None
    }

    /** `fetchDocuments`: the fetched list, when the request succeeded, replaces the list; loading ends either way. */
    method FetchDocuments(fetched: Option<seq<Document>>)
      modifies this
      ensures documents == (if fetched.Some? then fetched.value else old(documents))
      ensures !loading && searchTerm == old(searchTerm) && sortBy == old(sortBy)
    {
      if fetched.Some? {
        documents := fetched.value;
      }
      loading := false;
    }

    method SetSearchTerm(term: string)
      modifies this
      ensures searchTerm == term && documents == old(documents) && sortBy == old(sortBy) && loading == old(loading)
    {
      searchTerm := term;
    }

    method SetSortBy(order: string)
      modifies this
      ensures sortBy == order && documents == old(documents) && searchTerm == old(searchTerm) && loading == old(loading)
    {
      sortBy := order;
    }

    /**
     * `handleDelete`: nothing happens unless the user confirms; a successful request drops the
     * document from the list; `response` is the request's `ok`, or `None` when it threw.
     */
    method HandleDelete(docId: string, confirmed: bool, response: Option<bool>) returns (toast: Option<string>)
      modifies this
      ensures documents == (if confirmed && response == Some(true) then Deleted(old(documents), docId) else old(documents))
      ensures !confirmed ==> toast.None?
      ensures confirmed ==> toast == Some(if response == Some(true) then "Document deleted successfully"
        else if response == Some(false) then "Failed to delete document" else "Delete failed")
      ensures searchTerm == old(searchTerm) && sortBy == old(sortBy) && loading == old(loading)
    {
      if !confirmed {
        return None;
      }
      if response == Some(true) {
        documents := Deleted(documents, docId);
        toast := Some("Document deleted successfully");
      } else if response == Some(false) {
        toast := Some("Failed to delete document");
      } else {
        toast := Some("Delete failed");
      }
    }

    /** `handleDownload`: the name the file is saved under when the request succeeded, and the toast. */
    method HandleDownload(filename: string, response: Option<bool>) returns (savedAs: Option<string>, toast: string)
      ensures savedAs == (if response == Some(true) then Some(DownloadName(filename)) else None)
      ensures toast == (if response == Some(true) then "File downloaded successfully"
        else if response == Some(false) then "Failed to download file" else "Download failed")
    {
      if response == Some(true) {
        savedAs, toast := Some(DownloadName(filename)), "File downloaded successfully";
      } else if response == Some(false) {
        savedAs, toast := None, "Failed to download file";
      } else {
        savedAs, toast := None, "Download failed";
      }
    }
  }

  /** After deleting a shown document it is no longer shown, and every other shown document still is. */
  lemma DeleteHidesOnlyThatDocument(docs: seq<Document>, term: string, sortBy: string, docId: string)
    ensures forall d :: d in FilteredAndSorted(Deleted(docs, docId), term, sortBy) <==>
      d in FilteredAndSorted(docs, term, sortBy) && d.id != docId
  {
    FilteredAndSortedSpec(docs, term, sortBy);
    FilteredAndSortedSpec(Deleted(docs, docId), term, sortBy);
    DeletedSpec(docs, docId, [], []);
  }
}
