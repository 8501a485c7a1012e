/** Text files built line by line, each line ended by a newline, as `csv += `...\n`` builds them. */
module Csv {
  import opened Sheets

  /** A line and its terminating newline. */
  function Line(l: string): string {
    l + "\n"
  }

  /** The lines, each followed by a newline. */
  function Unlines(ls: seq<string>): (r: string)
    ensures ls == [] ==> r == ""
  {
    if ls == [] then "" else Unlines(ls[..|ls| - 1]) + Line(ls[|ls| - 1])
  }

  lemma UnlinesSnoc(ls: seq<string>, l: string)
    ensures Unlines(ls + [l]) == Unlines(ls) + Line(l)
  {
    assert (ls + [l])[..|ls|] == ls;
  }

  lemma UnlinesPair(a: string, b: string)
    ensures Unlines([a, b]) == Line(a) + Line(b)
  {
    assert [a, b][..1] == [a];
    assert [a][..0] == [];
  }

  lemma {:induction false} UnlinesAppend(a: seq<string>, b: seq<string>)
    ensures Unlines(a + b) == Unlines(a) + Unlines(b)
    decreases |b|
  {
    if b == [] {
      assert a + b == a;
    } else {
      var c := b[..|b| - 1];
      var l := b[|b| - 1];
      assert b == c + [l];
      assert a + b == (a + c) + [l];
      UnlinesSnoc(a + c, l);
      UnlinesAppend(a, c);
      UnlinesSnoc(c, l);
    }
  }

  /** Text already holding some lines, extended by the text of more lines, holds all of them. */
  lemma ExtendUnlines(csv: string, done: seq<string>, next: seq<string>)
    ensures (csv + Unlines(done)) + Unlines(next) == csv + Unlines(done + next)
  {
    UnlinesAppend(done, next);
    var x, y, z := csv, Unlines(done), Unlines(next);
    assert (x + y) + z == x + (y + z);
  }

  /** One element's image appended to the images of a prefix gives the images of the longer prefix. */
  lemma MapSeqPrefix<T, U>(items: seq<T>, f: T -> U, i: nat)
    requires i < |items|
    ensures MapSeq(items[..i + 1], f) == MapSeq(items[..i], f) + [f(items[i])]
  {
    var l, r := MapSeq(items[..i + 1], f), MapSeq(items[..i], f) + [f(items[i])];
    assert |l| == |r|;
    forall j | 0 <= j < |l|
      ensures l[j] == r[j]
    {
      assert items[..i + 1][j] == items[j];
      if j < i {
        assert items[..i][j] == items[j];
      }
    }
  }

  /** `items.forEach(x => csv += `${line(x)}\n`)`. */
  method AppendLines<T>(csv: string, items: seq<T>, line: T -> string) returns (r: string)
    ensures r == csv + Unlines(MapSeq(items, line))
  {
    r := csv;
    var i := 0;
    while i < |items|
      invariant 0 <= i <= |items|
      invariant r == csv + Unlines(MapSeq(items[..i], line))
    {
      MapSeqPrefix(items, line, i);
      UnlinesSnoc(MapSeq(items[..i], line), line(items[i]));
      r := r + Line(line(items[i]));
      i := i + 1;
    }
    assert items[..i] == items;
  }
}
