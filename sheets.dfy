/**
 * Worksheet contents as the generators build them: rows of cells, each row pushed in turn by a
 * `forEach` over a transaction list.
 */
module Sheets {

  /** A cell holds text or, for the summary's counts, a number. */
  datatype Cell = Text(text: string) | Count(count: nat)

  type Row = seq<Cell>

  datatype Sheet = Sheet(name: string, rows: seq<Row>)

  /** One value per item, in the items' order. */
  function MapSeq<T, U>(items: seq<T>, f: T -> U): (r: seq<U>)
    ensures |r| == |items|
    ensures forall i :: 0 <= i < |items| ==> r[i] == f(items[i])
  {
    if items == [] then [] else [f(items[0])] + MapSeq(items[1..], f)
  }

  /** `const data = [headers]; items.forEach(x => data.push(toRow(x)))`. */
  method PushRows<T>(header: Row, items: seq<T>, toRow: T -> Row) returns (data: seq<Row>)
    ensures data == [header] + MapSeq(items, toRow)
  {
    data := [header];
    var i := 0;
    while i < |items|
      invariant 0 <= i <= |items|
      invariant |data| == i + 1 && data[0] == header
      invariant forall j :: 0 <= j < i ==> data[j + 1] == toRow(items[j])
    {
      data := data + [toRow(items[i])];
      i := i + 1;
    }
  }

  /** `items.forEach(x => acc.push(f(x)))` on a list being gathered. */
  method PushAll<T, U>(acc: seq<U>, items: seq<T>, f: T -> U) returns (r: seq<U>)
    ensures r == acc + MapSeq(items, f)
  {
    r := acc;
    var i := 0;
    while i < |items|
      invariant 0 <= i <= |items|
      invariant |r| == |acc| + i && r[..|acc|] == acc
      invariant forall j :: 0 <= j < i ==> r[|acc| + j] == f(items[j])
    {
      r := r + [f(items[i])];
      i := i + 1;
    }
  }

  /** A sheet appended only when `present`. */
  function Optional(present: bool, s: Sheet): seq<Sheet> {
    if present then [s] else []
  }

  /** The names of a workbook's sheets, in order. */
  function Names(book: seq<Sheet>): (r: seq<string>)
    ensures |r| == |book| && forall i :: 0 <= i < |book| ==> r[i] == book[i].name
  {
    if book == [] then [] else [book[0].name] + Names(book[1..])
  }

  lemma NamesAppend(a: seq<Sheet>, b: seq<Sheet>)
    ensures Names(a + b) == Names(a) + Names(b)
  {
    var l, r := Names(a + b), Names(a) + Names(b);
    assert |l| == |r|;
    forall i | 0 <= i < |l|
      ensures l[i] == r[i]
    {
      if i < |a| {
        assert (a + b)[i] == a[i];
      } else {
        assert (a + b)[i] == b[i - |a|];
      }
    }
  }

  function OptionalName(present: bool, name: string): seq<string> {
    if present then [name] else []
  }

  lemma NamesOptional(present: bool, s: Sheet)
    ensures Names(Optional(present, s)) == OptionalName(present, s.name)
  {
  }
}
