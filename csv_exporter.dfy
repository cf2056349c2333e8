/**
 * CSVExporter.ExportRows: a header line made of the record type's field names, then one line
 * per record, each line's values joined by commas, and a value that contains a comma wrapped
 * in double quotes. Reflection over the record type is replaced by an explicit list of field
 * names and, per record, the list of its field values in the same order (None for null).
 * The file write becomes the returned text.
 */
module CsvExporter {
  import opened Wrappers

  /** One field value as reflection hands it over: None stands for null. */
  type Cell = Option<string>

  const Comma: char := ','
  const Quote: char := '"'
  /** StringBuilder.AppendLine ends every line with the platform newline, taken here as "\n". */
  const NewLine: char := '\n'

  /** v != null ? v.ToString() : "" */
  function Show(v: Cell): (s: string)
    ensures v.None? ==> s == ""
    ensures v.Some? ==> s == v.value
  {
    match v
    case None => ""
    case Some(t) => t
  }

  /** A value containing a comma is wrapped in double quotes; any other value is kept as is. */
  function Escape(s: string): (r: string)
    ensures r == s <==> Comma !in s
    ensures r != s ==> |r| == |s| + 2 && r[0] == Quote && r[|r| - 1] == Quote && r[1..|r| - 1] == s
  {
    if Comma in s then [Quote] + s + [Quote] else s
  }

  /** The text written for one field value. */
  function Field(v: Cell): string {
    Escape(Show(v))
  }

  /** Parts joined by commas, with no comma after the last one. */
  function Joined(parts: seq<string>): string {
    if |parts| == 0 then ""
    else if |parts| == 1 then parts[0]
    else Joined(parts[..|parts| - 1]) + [Comma] + parts[|parts| - 1]
  }

  /** The text a joining loop has produced after its first i parts. */
  function JoinedPrefix(parts: seq<string>, i: nat): string
    requires i <= |parts|
  {
    if i == 0 then ""
    else if i < |parts| then Joined(parts[..i]) + [Comma]
    else Joined(parts)
  }

  /** The line written for one record. */
  function RowLine(cells: seq<Cell>): string {
    Joined(seq(|cells|, k requires 0 <= k < |cells| => Field(cells[k])))
  }

  /** The lines of the file: the header, then one line per record. */
  function Lines(names: seq<string>, rows: seq<seq<Cell>>): (ls: seq<string>)
    ensures |ls| == |rows| + 1
    ensures ls[0] == Joined(names)
    ensures forall k :: 0 <= k < |rows| ==> ls[k + 1] == RowLine(rows[k])
  {
    [Joined(names)] + seq(|rows|, k requires 0 <= k < |rows| => RowLine(rows[k]))
  }

  /** What ExportRows writes: nothing for a null or empty list, otherwise the lines. */
  function Render(names: seq<string>, rows: Option<seq<seq<Cell>>>): (r: Option<seq<string>>)
    ensures r.None? <==> (rows.None? || |rows.value| == 0)
    ensures r.Some? ==> |r.value| == |rows.value| + 1
  {
    if rows.None? || |rows.value| == 0 then None else Some(Lines(names, rows.value))
  }

  /** Lines, each followed by a newline. */
  function Text(lines: seq<string>): string {
    if |lines| == 0 then ""
    else Text(lines[..|lines| - 1]) + lines[|lines| - 1] + [NewLine]
  }

  /** How many times c occurs in s. */
  function Count(s: string, c: char): nat {
    if |s| == 0 then 0 else Count(s[..|s| - 1], c) + (if s[|s| - 1] == c then 1 else 0)
  }

  lemma {:induction false} CountAppend(a: string, b: string, c: char)
    ensures Count(a + b, c) == Count(a, c) + Count(b, c)
    decreases |b|
  {
    if |b| == 0 {
      assert a + b == a;
    } else {
      assert (a + b)[..|a + b| - 1] == a + b[..|b| - 1];
      CountAppend(a, b[..|b| - 1], c);
    }
  }

  lemma {:induction false} CountAbsent(s: string, c: char)
    requires c !in s
    ensures Count(s, c) == 0
    decreases |s|
  {
    if |s| > 0 {
      CountAbsent(s[..|s| - 1], c);
    }
  }

  /** When no line holds a newline of its own, the text has exactly one newline per line. */
  lemma {:induction false} TextLineCount(lines: seq<string>)
    requires forall k :: 0 <= k < |lines| ==> NewLine !in lines[k]
    ensures Count(Text(lines), NewLine) == |lines|
    decreases |lines|
  {
    if |lines| > 0 {
      var n := |lines| - 1;
      TextLineCount(lines[..n]);
      CountAbsent(lines[n], NewLine);
      CountAppend(Text(lines[..n]), lines[n], NewLine);
      CountAppend(Text(lines[..n]) + lines[n], [NewLine], NewLine);
      assert Count([NewLine], NewLine) == Count([], NewLine) + 1 by {
        assert [NewLine][..0] == [];
      }
    }
  }

  /** Joining comma-free parts puts exactly one comma between each two of them. */
  lemma {:induction false} JoinedCommas(parts: seq<string>)
    requires |parts| > 0 && forall i :: 0 <= i < |parts| ==> Comma !in parts[i]
    ensures Count(Joined(parts), Comma) == |parts| - 1
    decreases |parts|
  {
    var n := |parts| - 1;
    CountAbsent(parts[n], Comma);
    if n > 0 {
      JoinedCommas(parts[..n]);
      CountAppend(Joined(parts[..n]), [Comma], Comma);
      CountAppend(Joined(parts[..n]) + [Comma], parts[n], Comma);
      assert Count([Comma], Comma) == 1 by {
        assert [Comma][..0] == [];
      }
    }
  }

  /** A record with no comma in any value is written with exactly one comma between each two values. */
  lemma RowLineCommas(cells: seq<Cell>)
    requires |cells| > 0 && forall k :: 0 <= k < |cells| ==> Comma !in Show(cells[k])
    ensures Count(RowLine(cells), Comma) == |cells| - 1
  {
    var fields := seq(|cells|, k requires 0 <= k < |cells| => Field(cells[k]));
    forall i | 0 <= i < |fields| ensures Comma !in fields[i] {
      assert fields[i] == Show(cells[i]);
    }
    JoinedCommas(fields);
  }

  /** One more turn of a joining loop: the part, then a comma unless it was the last part. */
  lemma JoinedPrefixStep(parts: seq<string>, i: nat)
    requires i < |parts|
    ensures JoinedPrefix(parts, i + 1)
         == JoinedPrefix(parts, i) + parts[i] + (if i < |parts| - 1 then [Comma] else [])
  {
    if i > 0 {
      assert parts[..i + 1][..i] == parts[..i];
    }
    if i + 1 == |parts| {
      assert parts[..i + 1] == parts;
    }
  }

  /** The header loop: the field names, separated by commas. */
  method WriteHeader(names: seq<string>) returns (line: string)
    ensures line == Joined(names)
  {
    line := "";
    for i := 0 to |names|
      invariant line == JoinedPrefix(names, i)
    {
      JoinedPrefixStep(names, i);
      line := line + names[i];
      if i < |names| - 1 {
        line := line + [Comma];
      }
    }
  }

  /** The inner row loop: each value shown, quoted when it holds a comma, separated by commas. */
  method WriteRow(vals: seq<Cell>) returns (line: string)
    ensures line == RowLine(vals)
  {
    ghost var fields := seq(|vals|, k requires 0 <= k < |vals| => Field(vals[k]));
    line := "";
    for i := 0 to |vals|
      invariant line == JoinedPrefix(fields, i)
    {
      JoinedPrefixStep(fields, i);
      var s := Show(vals[i]);
      if Comma in s {
        s := [Quote] + s + [Quote];
      }
      assert s == fields[i];
      line := line + s;
      if i < |vals| - 1 {
        line := line + [Comma];
      }
    }
  }

  /** One more record: its line and a newline follow the text of the records before it. */
  lemma TextNextRow(names: seq<string>, rs: seq<seq<Cell>>, r: nat)
    requires r < |rs|
    ensures Text(Lines(names, rs[..r + 1])) == Text(Lines(names, rs[..r])) + RowLine(rs[r]) + [NewLine]
  {
    var done := Lines(names, rs[..r]);
    var next := Lines(names, rs[..r + 1]);
    assert next == done + [RowLine(rs[r])];
    assert next[..|next| - 1] == done;
  }

  /**
   * ExportRows<T>(rows): the header, then one line per record, building the text that
   * File.WriteAllText would receive; None where the source logs "No rows to export."
   */
  method ExportRows(names: seq<string>, rows: Option<seq<seq<Cell>>>) returns (written: Option<string>)
    ensures written.None? <==> (rows.None? || |rows.value| == 0)
    ensures written.Some? ==> written.value == Text(Lines(names, rows.value))
  {
    if rows.None? || |rows.value| == 0 {
      return None;
    }
    var rs := rows.value;
    var header := WriteHeader(names);
    var sb := header + [NewLine];
    assert sb == Text(Lines(names, rs[..0])) by {
      assert Lines(names, rs[..0]) == [Joined(names)];
      assert [Joined(names)][..0] == [];
    }
    for r := 0 to |rs|
      invariant sb == Text(Lines(names, rs[..r]))
    {
      var line := WriteRow(rs[r]);
      TextNextRow(names, rs, r);
      sb := sb + line + [NewLine];
    }
    assert rs[..|rs|] == rs;
    written := Some(sb);
  }

  // ---- Reading a line back: an independent, quote-aware splitter ----

  /**
   * Splits a line at the commas that lie outside double quotes, keeping the quotes in the
   * fields; inQuote says whether an opening quote is pending, cur is the field read so far.
   */
  function Fields(s: string, inQuote: bool, cur: string): seq<string>
    decreases |s|
  {
    if |s| == 0 then [cur]
    else if s[0] == Quote then Fields(s[1..], !inQuote, cur + [s[0]])
    else if s[0] == Comma && !inQuote then [cur] + Fields(s[1..], false, "")
    else Fields(s[1..], inQuote, cur + [s[0]])
  }

  /** Whether a quote is still open after reading s from state q. */
  function QuoteOpenAfter(s: string, q: bool): bool
    decreases |s|
  {
    if |s| == 0 then q else QuoteOpenAfter(s[1..], if s[0] == Quote then !q else q)
  }

  /** Drops the quotes that Escape put around a value. */
  function Unescape(s: string): string {
    if |s| >= 2 && s[0] == Quote && s[|s| - 1] == Quote then s[1..|s| - 1] else s
  }

  /** The values a reader recovers from one line. */
  function ParseRow(line: string): seq<string> {
    var fs := Fields(line, false, "");
    seq(|fs|, k requires 0 <= k < |fs| => Unescape(fs[k]))
  }

  /** Text with no quote, and no comma unless inside quotes, just extends the current field. */
  lemma {:induction false} FieldsPlain(w: string, t: string, q: bool, cur: string)
    requires Quote !in w
    requires q || Comma !in w
    ensures Fields(w + t, q, cur) == Fields(t, q, cur + w)
    ensures QuoteOpenAfter(w + t, q) == QuoteOpenAfter(t, q)
    decreases |w|
  {
    if |w| == 0 {
      assert w + t == t;
      assert cur + w == cur;
    } else {
      assert (w + t)[0] == w[0];
      assert (w + t)[1..] == w[1..] + t;
      FieldsPlain(w[1..], t, q, cur + [w[0]]);
      assert cur + [w[0]] + w[1..] == cur + w;
    }
  }

  /** A comma read with no quote open ends the fields of a and starts those of b. */
  lemma {:induction false} FieldsAtComma(a: string, b: string, q: bool, cur: string)
    requires !QuoteOpenAfter(a, q)
    ensures Fields(a + [Comma] + b, q, cur) == Fields(a, q, cur) + Fields(b, false, "")
    ensures QuoteOpenAfter(a + [Comma] + b, q) == QuoteOpenAfter(b, false)
    decreases |a|
  {
    if |a| == 0 {
      assert a + [Comma] + b == [Comma] + b;
      assert ([Comma] + b)[1..] == b;
    } else {
      assert (a + [Comma] + b)[0] == a[0];
      assert (a + [Comma] + b)[1..] == a[1..] + [Comma] + b;
      if a[0] == Quote {
        FieldsAtComma(a[1..], b, !q, cur + [a[0]]);
      } else if a[0] == Comma && !q {
        FieldsAtComma(a[1..], b, false, "");
      } else {
        FieldsAtComma(a[1..], b, q, cur + [a[0]]);
      }
    }
  }

  /** A value without quotes, escaped, reads back as one field and leaves no quote open. */
  lemma EscapedIsOneField(v: string)
    requires Quote !in v
    ensures Fields(Escape(v), false, "") == [Escape(v)]
    ensures !QuoteOpenAfter(Escape(v), false)
    ensures Unescape(Escape(v)) == v
  {
    if Comma in v {
      var e := [Quote] + v + [Quote];
      assert e == Escape(v);
      assert e[0] == Quote;
      assert e[1..] == v + [Quote];
      assert Fields(e, false, "") == Fields(v + [Quote], true, [Quote]) by {
        assert "" + [e[0]] == [Quote];
      }
      FieldsPlain(v, [Quote], true, [Quote]);
      assert Fields([Quote], true, [Quote] + v) == Fields([], false, [Quote] + v + [Quote]) by {
        assert [Quote][1..] == [];
      }
      assert QuoteOpenAfter([Quote], true) == QuoteOpenAfter([], false) by {
        assert [Quote][1..] == [];
      }
    } else {
      FieldsPlain(v, [], false, "");
      assert v + [] == v;
      assert "" + v == v;
      if |v| >= 2 {
        assert v[0] != Quote;
      }
    }
  }

  /** Joined parts that each read back as one field are split back into exactly those parts. */
  lemma {:induction false} SplitJoined(parts: seq<string>)
    requires |parts| >= 1
    requires forall k :: 0 <= k < |parts| ==> Fields(parts[k], false, "") == [parts[k]]
    requires forall k :: 0 <= k < |parts| ==> !QuoteOpenAfter(parts[k], false)
    ensures Fields(Joined(parts), false, "") == parts
    ensures !QuoteOpenAfter(Joined(parts), false)
    decreases |parts|
  {
    if |parts| > 1 {
      var n := |parts| - 1;
      SplitJoined(parts[..n]);
      FieldsAtComma(Joined(parts[..n]), parts[n], false, "");
      assert parts[..n] + [parts[n]] == parts;
    }
  }

  /**
   * Round trip of a record line: when no value holds a double quote, a quote-aware reader
   * recovers every value, a null one as the empty string.
   */
  lemma RowLineRoundTrip(cells: seq<Cell>)
    requires |cells| >= 1
    requires forall k :: 0 <= k < |cells| ==> Quote !in Show(cells[k])
    ensures ParseRow(RowLine(cells)) == seq(|cells|, k requires 0 <= k < |cells| => Show(cells[k]))
  {
    var fields := seq(|cells|, k requires 0 <= k < |cells| => Field(cells[k]));
    forall k | 0 <= k < |cells|
      ensures Fields(fields[k], false, "") == [fields[k]]
      ensures !QuoteOpenAfter(fields[k], false)
      ensures Unescape(fields[k]) == Show(cells[k])
    {
      EscapedIsOneField(Show(cells[k]));
    }
    SplitJoined(fields);
  }

  /**
   * Embedded quotes are not escaped: the one value a",b is written as "a",b" and a
   * quote-aware reader splits it into two fields.
   */
  lemma EmbeddedQuoteSplits()
    ensures Field(Some(['a', Quote, Comma, 'b'])) == [Quote, 'a', Quote, Comma, 'b', Quote]
    ensures |ParseRow(RowLine([Some(['a', Quote, Comma, 'b'])]))| == 2
  {
    EmbeddedQuoteLine();
    EmbeddedQuoteFields();
  }

  /** The value a",b holds a comma, so it is quoted as it is, inner quote included. */
  lemma EmbeddedQuoteLine()
    ensures Field(Some(['a', Quote, Comma, 'b'])) == [Quote, 'a', Quote, Comma, 'b', Quote]
    ensures RowLine([Some(['a', Quote, Comma, 'b'])]) == [Quote, 'a', Quote, Comma, 'b', Quote]
  {
    var w := [Quote, 'a', Quote, Comma, 'b', Quote];
    assert Field(Some(['a', Quote, Comma, 'b'])) == w;
    assert seq(1, k requires 0 <= k < 1 => Field([Some(['a', Quote, Comma, 'b'])][k])) == [w];
  }

  /** The line "a",b" splits at its comma, which lies outside quotes. */
  lemma EmbeddedQuoteFields()
    ensures Fields([Quote, 'a', Quote, Comma, 'b', Quote], false, "") == [[Quote, 'a', Quote], ['b', Quote]]
  {
    var w := [Quote, 'a', Quote, Comma, 'b', Quote];
    var w1 := ['a', Quote, Comma, 'b', Quote];
    var w2 := [Quote, Comma, 'b', Quote];
    var w3 := [Comma, 'b', Quote];
    var w4 := ['b', Quote];
    var w5 := [Quote];
    assert w[1..] == w1 && w1[1..] == w2 && w2[1..] == w3 && w3[1..] == w4 && w4[1..] == w5;
    assert w5[1..] == [];
    assert ['b'] + [Quote] == ['b', Quote];
    assert "" + ['b'] == ['b'];
    assert [Quote, 'a'] + [Quote] == [Quote, 'a', Quote];
    assert [Quote] + ['a'] == [Quote, 'a'];
    assert "" + [Quote] == [Quote];
    assert Fields(w5, false, ['b']) == [['b', Quote]];
    assert Fields(w4, false, "") == [['b', Quote]];
    assert Fields(w3, false, [Quote, 'a', Quote]) == [[Quote, 'a', Quote], ['b', Quote]];
    assert Fields(w2, true, [Quote, 'a']) == [[Quote, 'a', Quote], ['b', Quote]];
    assert Fields(w1, true, [Quote]) == [[Quote, 'a', Quote], ['b', Quote]];
  }
}
