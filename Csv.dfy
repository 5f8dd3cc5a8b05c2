/** The CSV writer of the archive summary: a header line of the column
    names, then one line per record with each field escaped in the manner
    of section 2 of RFC 4180 (rules 6 and 7), lines joined with a bare line
    feed. */
module Csv {
  import opened Js

  type Record = map<string, Cell>

  /** `v == null ? '' : String(v)`; a missing key reads `undefined`. */
  function FieldText(r: Record, h: string, rt: Runtime): string
  {
    if h !in r then ""
    else match r[h]
      case Null => ""
      case Undefined => ""
      case v => CellToString(v, rt)
  }

  /** `s.replace(/"/g, '""')`. */
  function DoubleQuotes(s: string): (e: string)
    ensures |e| >= |s|
    ensures (forall i :: 0 <= i < |s| ==> s[i] != '"') ==> e == s
  {
    if s == [] then []
    else (if s[0] == '"' then "\"\"" else [s[0]]) + DoubleQuotes(s[1..])
  }

  predicate Special(c: char)
  {
    c == ',' || c == '"' || c == '\n'
  }

  /** `/[",\n]/.test(e)`: a carriage return alone does not count. */
  predicate NeedsQuotes(e: string)
  {
    exists i :: 0 <= i < |e| && Special(e[i])
  }

  /** `esc`: the quotes doubled, and the whole wrapped in quotes when the
      result holds a comma, a quote or a line feed. */
  function Escape(s: string): (f: string)
    ensures NeedsQuotes(s) ==> f == "\"" + DoubleQuotes(s) + "\""
    ensures !NeedsQuotes(s) ==> f == s
  {
    QuotedIffSpecial(s);
    var e := DoubleQuotes(s);
    if NeedsQuotes(e) then "\"" + e + "\"" else e
  }

  /** A field is quoted exactly when the original text holds a comma, a
      quote or a line feed. */
  lemma {:induction false} QuotedIffSpecial(s: string)
    ensures NeedsQuotes(DoubleQuotes(s)) <==> NeedsQuotes(s)
  {
    if s != [] {
      QuotedIffSpecial(s[1..]);
      var head := if s[0] == '"' then "\"\"" else [s[0]];
      NeedsQuotesConcat(head, DoubleQuotes(s[1..]));
      NeedsQuotesConcat([s[0]], s[1..]);
      assert s == [s[0]] + s[1..];
    }
  }

  lemma NeedsQuotesConcat(a: string, b: string)
    ensures NeedsQuotes(a + b) <==> NeedsQuotes(a) || NeedsQuotes(b)
  {
    if NeedsQuotes(a + b) {
      var i :| 0 <= i < |a + b| && Special((a + b)[i]);
      if i >= |a| { assert b[i - |a|] == (a + b)[i]; }
    }
    if NeedsQuotes(a) {
      var i :| 0 <= i < |a| && Special(a[i]);
      assert (a + b)[i] == a[i];
    }
    if NeedsQuotes(b) {
      var i :| 0 <= i < |b| && Special(b[i]);
      assert (a + b)[|a| + i] == b[i];
    }
  }

  /** Reading a doubled-quote text back: each `""` becomes `"`. */
  function HalveQuotes(t: string): string
  {
    if t == [] then []
    else if |t| >= 2 && t[0] == '"' && t[1] == '"' then "\"" + HalveQuotes(t[2..])
    else [t[0]] + HalveQuotes(t[1..])
  }

  lemma {:induction false} HalveDoubled(s: string)
    ensures HalveQuotes(DoubleQuotes(s)) == s
  {
    if s != [] {
      HalveDoubled(s[1..]);
      var rest := DoubleQuotes(s[1..]);
      if s[0] == '"' {
        assert DoubleQuotes(s) == "\"\"" + rest;
        assert (DoubleQuotes(s))[2..] == rest;
      } else {
        assert DoubleQuotes(s) == [s[0]] + rest;
        assert (DoubleQuotes(s))[1..] == rest;
      }
      assert s == [s[0]] + s[1..];
    }
  }

  /** Stripping the outer quotes of a quoted field and halving its doubled
      quotes. */
  function Unescape(f: string): string
  {
    if |f| >= 2 && f[0] == '"' && f[|f| - 1] == '"' then HalveQuotes(f[1..|f| - 1]) else f
  }

  /** Escaping loses nothing: the original text is recovered from the
      field. */
  lemma UnescapeEscape(s: string)
    ensures Unescape(Escape(s)) == s
  {
    var e := DoubleQuotes(s);
    if NeedsQuotes(s) {
      var f := "\"" + e + "\"";
      assert f[1..|f| - 1] == e;
      HalveDoubled(s);
    } else {
      assert |s| >= 1 ==> !Special(s[0]);
    }
  }

  /** `parts.join(sep)`. */
  function Join(parts: seq<string>, sep: string): string
  {
    if parts == [] then []
    else if |parts| == 1 then parts[0]
    else parts[0] + sep + Join(parts[1..], sep)
  }

  /** The field texts of one record, column by column. */
  function FieldTexts(headers: seq<string>, r: Record, rt: Runtime): (t: seq<string>)
    ensures |t| == |headers|
    ensures forall i :: 0 <= i < |headers| ==> t[i] == FieldText(r, headers[i], rt)
  {
    if headers == [] then [] else [FieldText(r, headers[0], rt)] + FieldTexts(headers[1..], r, rt)
  }

  function EscapeAll(fields: seq<string>): (t: seq<string>)
    ensures |t| == |fields|
  {
    if fields == [] then [] else [Escape(fields[0])] + EscapeAll(fields[1..])
  }

  /** `headers.map(h => esc(row[h])).join(',')`. */
  function RecordLine(headers: seq<string>, r: Record, rt: Runtime): string
  {
    Join(EscapeAll(FieldTexts(headers, r, rt)), ",")
  }

  /** The whole text: the header line unescaped, then one line per record. */
  function CsvText(headers: seq<string>, data: seq<Record>, rt: Runtime): string
  {
    Join([Join(headers, ",")] + seq(|data|, k requires 0 <= k < |data| => RecordLine(headers, data[k], rt)), "\n")
  }

  /** toCsv: the loop over the records pushing one line each, then the
      join. */
  method ToCsv(headers: seq<string>, data: seq<Record>, rt: Runtime) returns (csv: string)
    ensures csv == CsvText(headers, data, rt)
  {
    var lines: seq<string> := [Join(headers, ",")];
    for k := 0 to |data|
      invariant lines == [Join(headers, ",")] + seq(k, j requires 0 <= j < k => RecordLine(headers, data[j], rt))
    {
      lines := lines + [RecordLine(headers, data[k], rt)];
    }
    csv := Join(lines, "\n");
  }

  // -------------------------------------------------------------------
  // Reading back: a record parser for the text the writer produces.

  /** The inside of a quoted field up to its closing quote: the text (with
      doubled quotes halved) and what follows the closing quote. */
  function ParseQuoted(t: string): (r: (string, string))
    ensures |r.1| < |t| || t == []
  {
    if t == [] then ([], [])
    else if t[0] == '"' then
      if |t| >= 2 && t[1] == '"' then
        var (v, rest) := ParseQuoted(t[2..]); ("\"" + v, rest)
      else ([], t[1..])
    else
      var (v, rest) := ParseQuoted(t[1..]); ([t[0]] + v, rest)
  }

  /** An unquoted field runs up to the next comma or the end. */
  function ParsePlain(t: string): (r: (string, string))
    ensures |r.1| <= |t|
  {
    if t == [] || t[0] == ',' then ([], t)
    else
      var (v, rest) := ParsePlain(t[1..]); ([t[0]] + v, rest)
  }

  function ParseField(t: string): (r: (string, string))
    ensures |r.1| <= |t|
  {
    if t != [] && t[0] == '"' then ParseQuoted(t[1..]) else ParsePlain(t)
  }

  /** The fields of one record, separated by commas. */
  function ParseRecord(t: string): seq<string>
    decreases |t|
  {
    var (v, rest) := ParseField(t);
    if rest != [] && rest[0] == ',' then [v] + ParseRecord(rest[1..]) else [v]
  }

  lemma ConcatRegroup(a: string, b: string, c: string, d: string)
    ensures (a + b) + c + d == a + (b + c + d)
  {
  }

  lemma {:induction false} ParseQuotedDoubled(s: string, rest: string)
    requires rest == [] || rest[0] == ','
    ensures ParseQuoted(DoubleQuotes(s) + "\"" + rest) == (s, rest)
  {
    var t := DoubleQuotes(s) + "\"" + rest;
    if s == [] {
      assert t == "\"" + rest;
      assert t[1..] == rest;
    } else {
      ParseQuotedDoubled(s[1..], rest);
      var tail := DoubleQuotes(s[1..]) + "\"" + rest;
      var head := if s[0] == '"' then "\"\"" else [s[0]];
      ConcatRegroup(head, DoubleQuotes(s[1..]), "\"", rest);
      assert t == head + tail;
      assert t[|head|..] == tail;
      assert s == [s[0]] + s[1..];
    }
  }

  lemma {:induction false} ParsePlainUnspecial(s: string, rest: string)
    requires !NeedsQuotes(s)
    requires rest == [] || rest[0] == ','
    ensures ParsePlain(s + rest) == (s, rest)
  {
    if s == [] {
      assert s + rest == rest;
    } else {
      assert !Special(s[0]);
      assert (s + rest)[1..] == s[1..] + rest;
      assert !NeedsQuotes(s[1..]) by {
        forall i | 0 <= i < |s[1..]| ensures !Special(s[1..][i]) {
          assert s[1..][i] == s[i + 1];
        }
      }
      ParsePlainUnspecial(s[1..], rest);
      assert s == [s[0]] + s[1..];
    }
  }

  /** An escaped field followed by a comma or the end reads back as the
      original text and leaves the comma in place. */
  lemma ParseFieldEscape(s: string, rest: string)
    requires rest == [] || rest[0] == ','
    ensures ParseField(Escape(s) + rest) == (s, rest)
  {
    var e := DoubleQuotes(s);
    QuotedIffSpecial(s);
    if NeedsQuotes(e) {
      var t := "\"" + e + "\"" + rest;
      assert t[1..] == e + "\"" + rest;
      ParseQuotedDoubled(s, rest);
    } else {
      assert s != [] ==> !Special(s[0]);
      ParsePlainUnspecial(s, rest);
    }
  }

  /** A record line reads back field by field as the records' texts. */
  lemma {:induction false} ParseRecordRoundTrip(fields: seq<string>)
    requires fields != []
    ensures ParseRecord(Join(EscapeAll(fields), ",")) == fields
  {
    if |fields| == 1 {
      ParseFieldEscape(fields[0], []);
      assert Join(EscapeAll(fields), ",") == Escape(fields[0]) + [];
      ParseRecordLast(Join(EscapeAll(fields), ","), fields[0]);
    } else {
      var tail := fields[1..];
      ParseRecordRoundTrip(tail);
      var tailLine := Join(EscapeAll(tail), ",");
      var after := "," + tailLine;
      assert EscapeAll(fields)[1..] == EscapeAll(tail);
      assert Join(EscapeAll(fields), ",") == Escape(fields[0]) + after;
      ParseFieldEscape(fields[0], after);
      ParseRecordNext(Join(EscapeAll(fields), ","), fields[0], after);
      assert after[1..] == tailLine;
      HeadTail(fields);
    }
  }

  lemma HeadTail<T>(s: seq<T>)
    requires s != []
    ensures s == [s[0]] + s[1..]
  {
  }

  /** A field that ends the line is the record's last field. */
  lemma ParseRecordLast(t: string, v: string)
    requires ParseField(t) == (v, [])
    ensures ParseRecord(t) == [v]
  {
  }

  /** A field followed by a comma is followed by the rest of the record. */
  lemma ParseRecordNext(t: string, v: string, rest: string)
    requires ParseField(t) == (v, rest) && rest != [] && rest[0] == ','
    ensures ParseRecord(t) == [v] + ParseRecord(rest[1..])
  {
  }

  /** Every line after the header reads back as the record's field texts,
      column by column. */
  lemma RecordLineRoundTrip(headers: seq<string>, r: Record, rt: Runtime)
    requires headers != []
    ensures ParseRecord(RecordLine(headers, r, rt)) == FieldTexts(headers, r, rt)
  {
    ParseRecordRoundTrip(FieldTexts(headers, r, rt));
  }
}
