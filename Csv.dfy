/**
 * Field escaping of the CSV log (TrialManager.js, escapeCSVField) and a
 * reader for one record. The quoting is in the style of rules 6 and 7 of
 * section 2 of RFC 4180, but it quotes only on a comma, a double quote or a
 * line feed (not on a carriage return), and records end in a line feed
 * rather than CRLF. The reader is the partner of the writer: every record
 * the recorder writes reads back into the values it was built from.
 */
module Csv {
  import opened Wrappers

  /** A field must be quoted when it holds a comma, a double quote or a line feed. */
  predicate NeedsQuotes(s: string)
  {
    ',' in s || '"' in s || '\n' in s
  }

  /** `s` with every double quote doubled. */
  function DoubleQuotes(s: string): (r: string)
    ensures |r| >= |s|
    ensures '"' !in s ==> r == s
    ensures ',' in r <==> ',' in s
    ensures '\n' in r <==> '\n' in s
  {
    if s == [] then []
    else if s[0] == '"' then ['"', '"'] + DoubleQuotes(s[1..])
    else [s[0]] + DoubleQuotes(s[1..])
  }

  /**
   * escapeCSVField on a string: returned unchanged unless it needs quotes;
   * otherwise wrapped in double quotes with its own quotes doubled.
   */
  function EscapeField(s: string): (r: string)
    ensures !NeedsQuotes(s) ==> r == s
    ensures NeedsQuotes(s) ==> |r| >= |s| + 2 && r[0] == '"' && r[|r| - 1] == '"'
  {
    if NeedsQuotes(s) then ['"'] + DoubleQuotes(s) + ['"'] else s
  }

  /** The cells joined by commas (Array.prototype.join(',')). */
  function Join(cells: seq<string>): string
  {
    if cells == [] then ""
    else if |cells| == 1 then cells[0]
    else cells[0] + [','] + Join(cells[1..])
  }

  // ----- Reading a record back -------------------------------------------

  /** An unquoted field: everything up to the next comma, line feed or the end. */
  function ParseBare(s: string): (r: (string, string))
    ensures |r.1| <= |s|
  {
    if s == [] || s[0] == ',' || s[0] == '\n' then ([], s)
    else
      var (f, rest) := ParseBare(s[1..]);
      ([s[0]] + f, rest)
  }

  /**
   * The body of a quoted field, read after its opening quote: a doubled
   * quote stands for one quote, a single quote closes the field.
   */
  function ParseQuoted(s: string): (r: Option<(string, string)>)
    ensures r.Some? ==> |r.value.1| < |s|
  {
    if s == [] then None
    else if s[0] == '"' then
      if |s| > 1 && s[1] == '"' then
        match ParseQuoted(s[2..])
        case None => None
        case Some((f, rest)) => Some((['"'] + f, rest))
      else Some(([], s[1..]))
    else
      match ParseQuoted(s[1..])
      case None => None
      case Some((f, rest)) => Some(([s[0]] + f, rest))
  }

  /** One field at the start of `s` and what follows it. */
  function ParseField(s: string): (r: Option<(string, string)>)
    ensures r.Some? ==> |r.value.1| <= |s|
  {
    if |s| > 0 && s[0] == '"' then ParseQuoted(s[1..]) else Some(ParseBare(s))
  }

  /** A whole record: fields separated by commas, terminated by a line feed. */
  function ParseRecord(s: string): Option<seq<string>>
    decreases |s|
  {
    match ParseField(s)
    case None => None
    case Some((f, rest)) =>
      if rest == ['\n'] then Some([f])
      else if |rest| > 0 && rest[0] == ',' then
        match ParseRecord(rest[1..])
        case None => None
        case Some(fs) => Some([f] + fs)
      else None
  }

  // ----- Round trips -----------------------------------------------------

  /** What may follow a field: a separator or the record's end. */
  predicate Delimited(tail: string)
  {
    |tail| > 0 && (tail[0] == ',' || tail[0] == '\n')
  }

  lemma {:induction false} ParseBareOfPlain(v: string, tail: string)
    requires ',' !in v && '\n' !in v
    requires Delimited(tail)
    ensures ParseBare(v + tail) == (v, tail)
  {
    if v == [] {
      assert v + tail == tail;
    } else {
      assert v[0] in v;
      assert (v + tail)[0] == v[0];
      assert (v + tail)[1..] == v[1..] + tail;
      ParseBareOfPlain(v[1..], tail);
      assert [v[0]] + v[1..] == v;
    }
  }

  lemma {:induction false} ParseQuotedOfDoubled(v: string, tail: string)
    requires Delimited(tail)
    ensures ParseQuoted(DoubleQuotes(v) + ['"'] + tail) == Some((v, tail))
  {
    var s := DoubleQuotes(v) + ['"'] + tail;
    if v == [] {
      assert s == ['"'] + tail;
      assert s[1] == tail[0];
      assert s[1..] == tail;
    } else {
      var inner := DoubleQuotes(v[1..]) + ['"'] + tail;
      ParseQuotedOfDoubled(v[1..], tail);
      if v[0] == '"' {
        assert DoubleQuotes(v) == ['"', '"'] + DoubleQuotes(v[1..]);
        assert s == ['"', '"'] + inner;
        assert s[0] == '"' && s[1] == '"' && s[2..] == inner;
      } else {
        assert DoubleQuotes(v) == [v[0]] + DoubleQuotes(v[1..]);
        assert s == [v[0]] + inner;
        assert s[0] == v[0] && s[1..] == inner;
      }
      assert [v[0]] + v[1..] == v;
    }
  }

  /** A quoted field reads back as the value it quotes. */
  lemma QuotedFieldRoundTrip(v: string, tail: string)
    requires Delimited(tail)
    ensures ParseField(['"'] + DoubleQuotes(v) + ['"'] + tail) == Some((v, tail))
  {
    var body := DoubleQuotes(v) + ['"'] + tail;
    assert ['"'] + DoubleQuotes(v) + ['"'] + tail == ['"'] + body;
    assert (['"'] + body)[1..] == body;
    ParseQuotedOfDoubled(v, tail);
  }

  /** A field with no comma, quote or line feed reads back as itself. */
  lemma BareFieldRoundTrip(v: string, tail: string)
    requires !NeedsQuotes(v) && Delimited(tail)
    ensures ParseField(v + tail) == Some((v, tail))
  {
    ParseBareOfPlain(v, tail);
    if v == [] {
      assert v + tail == tail;
    } else {
      assert v[0] in v;
      assert (v + tail)[0] == v[0];
    }
  }

  /** Un-escaping an escaped field recovers the original string, whatever it holds. */
  lemma EscapeFieldRoundTrip(v: string, tail: string)
    requires Delimited(tail)
    ensures ParseField(EscapeField(v) + tail) == Some((v, tail))
  {
    if NeedsQuotes(v) {
      QuotedFieldRoundTrip(v, tail);
    } else {
      BareFieldRoundTrip(v, tail);
    }
  }

  /** Every value, escaped. */
  function EscapeAll(values: seq<string>): (r: seq<string>)
    ensures |r| == |values|
    ensures forall k :: 0 <= k < |values| ==> r[k] == EscapeField(values[k])
  {
    if values == [] then [] else [EscapeField(values[0])] + EscapeAll(values[1..])
  }

  /** A record written from escaped values reads back into exactly those values. */
  lemma {:induction false} RecordRoundTrip(values: seq<string>)
    requires |values| > 0
    ensures ParseRecord(Join(EscapeAll(values)) + ['\n']) == Some(values)
  {
    var cells := EscapeAll(values);
    if |values| == 1 {
      assert Join(cells) == EscapeField(values[0]);
      EscapeFieldRoundTrip(values[0], ['\n']);
      assert ParseField(Join(cells) + ['\n']) == Some((values[0], ['\n']));
      assert [values[0]] == values;
    } else {
      var rest := Join(EscapeAll(values[1..])) + ['\n'];
      assert cells[1..] == EscapeAll(values[1..]);
      assert Join(cells) + ['\n'] == EscapeField(values[0]) + ([','] + rest);
      EscapeFieldRoundTrip(values[0], [','] + rest);
      assert ([','] + rest)[1..] == rest;
      RecordRoundTrip(values[1..]);
      assert [values[0]] + values[1..] == values;
    }
  }
}
