/**
 * The two text forms in which the dialogs show and read back lists of strings:
 * comma lists (`split(',').map(trim).filter(nonEmpty)`, shown with
 * `join(', ')`) for skills and event tags, and line lists
 * (`split('\n').filter(line => line.trim())`, shown with `join('\n')`) for the
 * array fields of the generic list editor.
 */
module ListText {
  import opened JsString
  import opened Seqs

  predicate NonEmpty(s: string) { s != [] }

  /** `line.trim()` is truthy. */
  predicate HasText(line: string) { Trim(line) != [] }

  /** `text.split(',').map(s => s.trim()).filter(s => s)`. */
  function ParseCommaList(text: string): (r: seq<string>)
    ensures forall i :: 0 <= i < |r| ==> CleanCommaItem(r[i])
  {
    var pieces := Map(Split(text, ','), Trim);
    TrimmedPiecesClean(Split(text, ','));
    FilterPreserves(pieces, NonEmpty, TrimmedCommaFree);
    Filter(pieces, NonEmpty)
  }

  predicate TrimmedCommaFree(s: string) { IsTrimmed(s) && ',' !in s }

  lemma TrimmedPiecesClean(pieces: seq<string>)
    requires forall i :: 0 <= i < |pieces| ==> ',' !in pieces[i]
    ensures forall i :: 0 <= i < |pieces| ==> TrimmedCommaFree(Map(pieces, Trim)[i])
  {
  }

  /** `items.join(', ')`. */
  function FormatCommaList(items: seq<string>): string {
    Join(items, ", ")
  }

  /** An item that survives a comma-list round trip unchanged. */
  predicate CleanCommaItem(s: string) {
    s != [] && IsTrimmed(s) && ',' !in s
  }

  /** `text.split('\n').filter(line => line.trim())`; the kept lines are not trimmed. */
  function ParseLines(text: string): (r: seq<string>)
    ensures forall i :: 0 <= i < |r| ==> CleanLine(r[i])
  {
    var lines := Split(text, '\n');
    FilterPreserves(lines, HasText, BreakFree);
    Filter(lines, HasText)
  }

  predicate BreakFree(s: string) { '\n' !in s }

  /** `lines.join('\n')`. */
  function FormatLines(lines: seq<string>): string {
    Join(lines, "\n")
  }

  /** A line that survives a line-list round trip unchanged. */
  predicate CleanLine(s: string) {
    !IsBlank(s) && '\n' !in s
  }

  /** A comma splits the text exactly there: the items of both sides, in order. */
  lemma CommaListConcat(a: string, b: string)
    ensures ParseCommaList(a + "," + b) == ParseCommaList(a) + ParseCommaList(b)
  {
    SplitConcat(a, b, ',');
    MapAppend(Split(a, ','), Split(b, ','), Trim);
    FilterAppend(Map(Split(a, ','), Trim), Map(Split(b, ','), Trim), NonEmpty);
  }

  /** A line break splits the text exactly there: the lines of both sides, in order. */
  lemma LinesConcat(a: string, b: string)
    ensures ParseLines(a + "\n" + b) == ParseLines(a) + ParseLines(b)
  {
    SplitConcat(a, b, '\n');
    FilterAppend(Split(a, '\n'), Split(b, '\n'), HasText);
  }

  /** Text without a comma is one item: itself trimmed, or none if it is blank. */
  lemma CommaListSingle(s: string)
    requires ',' !in s
    ensures ParseCommaList(s) == if IsBlank(s) then [] else [Trim(s)]
  {
    SplitNoSeparator(s, ',');
  }

  lemma BlankIsCommaFree(p: string)
    requires IsBlank(p)
    ensures ',' !in p
  {
    forall i | 0 <= i < |p| ensures p[i] != ',' {
      assert IsSpace(p[i]);
    }
  }

  /** A blank prefix followed by a clean item reads back as that item. */
  lemma PaddedItem(p: string, x: string)
    requires IsBlank(p) && CleanCommaItem(x)
    ensures ParseCommaList(p + x) == [x]
  {
    BlankIsCommaFree(p);
    assert ',' !in p + x;
    TrimPadded(p, x);
    TrimOfTrimmed(x);
    CommaListSingle(p + x);
  }

  lemma {:induction false} CommaRoundTripPadded(p: string, items: seq<string>)
    requires IsBlank(p)
    requires forall i :: 0 <= i < |items| ==> CleanCommaItem(items[i])
    ensures ParseCommaList(p + FormatCommaList(items)) == items
    decreases |items|
  {
    if |items| == 0 {
      assert p + FormatCommaList(items) == p;
      BlankIsCommaFree(p);
      CommaListSingle(p);
    } else if |items| == 1 {
      assert p + FormatCommaList(items) == p + items[0];
      PaddedItem(p, items[0]);
    } else {
      assert IsBlank(" ");
      CommaRoundTripPadded(" ", items[1..]);
      CommaRoundTripStep(p, items);
    }
  }

  lemma CommaRoundTripStep(p: string, items: seq<string>)
    requires IsBlank(p) && |items| >= 2 && CleanCommaItem(items[0])
    requires ParseCommaList(" " + FormatCommaList(items[1..])) == items[1..]
    ensures ParseCommaList(p + FormatCommaList(items)) == items
  {
    var x, rest := items[0], FormatCommaList(items[1..]);
    var text := p + FormatCommaList(items);
    JoinStep(p, items);
    assert text == (p + x) + "," + (" " + rest);
    CommaListConcat(p + x, " " + rest);
    PaddedItem(p, x);
    calc {
      ParseCommaList(text);
      ParseCommaList(p + x) + ParseCommaList(" " + rest);
      [x] + items[1..];
      { assert items == [x] + items[1..]; }
      items;
    }
  }

  lemma JoinStep(p: string, items: seq<string>)
    requires |items| >= 2
    ensures p + FormatCommaList(items) == (p + items[0]) + "," + (" " + FormatCommaList(items[1..]))
  {
  }

  /** Showing trimmed, non-empty, comma-free items and reading the text back gives them back. */
  lemma CommaRoundTrip(items: seq<string>)
    requires forall i :: 0 <= i < |items| ==> CleanCommaItem(items[i])
    ensures ParseCommaList(FormatCommaList(items)) == items
  {
    CommaRoundTripPadded("", items);
    assert "" + FormatCommaList(items) == FormatCommaList(items);
  }

  /** Reading a comma list, showing it and reading it again changes nothing. */
  lemma CommaParseIdempotent(text: string)
    ensures ParseCommaList(FormatCommaList(ParseCommaList(text))) == ParseCommaList(text)
  {
    CommaRoundTrip(ParseCommaList(text));
  }

  /** Showing non-blank, break-free lines and reading the text back gives them back. */
  lemma {:induction false} LinesRoundTrip(lines: seq<string>)
    requires forall i :: 0 <= i < |lines| ==> CleanLine(lines[i])
    ensures ParseLines(FormatLines(lines)) == lines
  {
    if |lines| == 0 {
      SplitNoSeparator("", '\n');
    } else {
      SplitJoin(lines, '\n');
      LinesKeepsClean(lines);
    }
  }

  lemma {:induction false} LinesKeepsClean(lines: seq<string>)
    requires forall i :: 0 <= i < |lines| ==> CleanLine(lines[i])
    ensures Filter(lines, HasText) == lines
  {
    if lines != [] {
      assert Trim(lines[0]) != [];
      LinesKeepsClean(lines[1..]);
    }
  }

  /** Reading a line list, showing it and reading it again changes nothing. */
  lemma LinesParseIdempotent(text: string)
    ensures ParseLines(FormatLines(ParseLines(text))) == ParseLines(text)
  {
    LinesRoundTrip(ParseLines(text));
  }

  /**
   * A break-free line is kept as it is, surrounding spaces included, unless it
   * is blank (a comma item, by contrast, is trimmed: `CommaListSingle`).
   */
  lemma LineSingle(s: string)
    requires '\n' !in s
    ensures ParseLines(s) == if IsBlank(s) then [] else [s]
  {
    SplitNoSeparator(s, '\n');
  }
}
