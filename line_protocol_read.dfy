/**
 * A reader for the lines the encoder writes, as the partner of the encoder:
 * it reads a line back into its measurement, tags, fields and timestamp, and
 * the lemmas below show which lines it recovers exactly and which
 * texts the encoder makes ambiguous.
 *
 * Reading goes left to right. The measurement and each tag value run to
 * the first space or comma that is not escaped by a backslash; keys run to
 * their `=`; a field value is either a double-quoted text (up to the next
 * double quote) or a bare text (up to the next comma or space); whatever
 * follows the fields after a space is the timestamp.
 */
module LineProtocolRead {
  import opened Wrappers
  import opened JsValues
  import opened LineProtocol

  // ---------------------------------------------------------------------
  // Scanners
  // ---------------------------------------------------------------------

  /** Splits `s` before the first character in `stops`. */
  function ScanUntil(s: string, stops: set<char>): (r: (string, string))
    ensures r.0 + r.1 == s
    ensures forall c :: c in r.0 ==> c !in stops
    ensures r.1 == [] || r.1[0] in stops
  {
    if s == [] then ([], [])
    else if s[0] in stops then ([], s)
    else
      var (t, rest) := ScanUntil(s[1..], stops);
      ([s[0]] + t, rest)
  }

  /** Splits `s` before the first space or comma that is not escaped; the
      token keeps its escapes. */
  function ScanEscaped(s: string): (r: (string, string))
    ensures r.0 + r.1 == s
    ensures r.1 == [] || r.1[0] == ' ' || r.1[0] == ','
  {
    if s == [] then ([], [])
    else if s[0] == ' ' || s[0] == ',' then ([], s)
    else if |s| >= 2 && s[0] == '\\' && (s[1] == ' ' || s[1] == ',') then
      var (t, rest) := ScanEscaped(s[2..]);
      (s[..2] + t, rest)
    else
      var (t, rest) := ScanEscaped(s[1..]);
      ([s[0]] + t, rest)
  }

  // ---------------------------------------------------------------------
  // Reading a line
  // ---------------------------------------------------------------------

  /** A field value as written: between double quotes, or bare. */
  datatype FieldText = Quoted(s: string) | Bare(s: string)

  datatype ParsedLine = ParsedLine(
    measurement: string,
    tags: seq<(string, string)>,
    fields: seq<(string, FieldText)>,
    timestamp: Option<string>)

  const KeyStops: set<char> := {'=', ',', ' '}

  /** Tags, each introduced by a comma; stops at the first character that is
      not a comma. */
  function ParseTags(s: string): (r: Option<(seq<(string, string)>, string)>)
    ensures r.Some? ==> |r.value.1| <= |s|
    decreases |s|
  {
    if s == [] || s[0] != ',' then Some(([], s))
    else
      var key := ScanUntil(s[1..], KeyStops);
      if key.1 == [] || key.1[0] != '=' then None
      else
        var value := ScanEscaped(key.1[1..]);
        var more := ParseTags(value.1);
        if more.None? then None else Some(([(key.0, Unescape(value.0))] + more.value.0, more.value.1))
  }

  function ParseFieldValue(s: string): (r: Option<(FieldText, string)>)
    ensures r.Some? ==> |r.value.1| <= |s|
  {
    if s != [] && s[0] == '"' then
      var quoted := ScanUntil(s[1..], {'"'});
      if quoted.1 == [] then None else Some((Quoted(quoted.0), quoted.1[1..]))
    else
      var bare := ScanUntil(s, {',', ' '});
      Some((Bare(bare.0), bare.1))
  }

  /** One or more fields separated by commas. */
  function ParseFieldList(s: string): (r: Option<(seq<(string, FieldText)>, string)>)
    ensures r.Some? ==> |r.value.1| <= |s|
    decreases |s|
  {
    var key := ScanUntil(s, KeyStops);
    if key.1 == [] || key.1[0] != '=' then None
    else
      var value := ParseFieldValue(key.1[1..]);
      if value.None? then None
      else if value.value.1 != [] && value.value.1[0] == ',' then
        var more := ParseFieldList(value.value.1[1..]);
        if more.None? then None else Some(([(key.0, value.value.0)] + more.value.0, more.value.1))
      else Some(([(key.0, value.value.0)], value.value.1))
  }

  /** The fields of a line: none when it goes on with a space or ends. */
  function ParseFields(s: string): Option<(seq<(string, FieldText)>, string)>
  {
    if s == [] || s[0] == ' ' then Some(([], s)) else ParseFieldList(s)
  }

  function ParseLine(line: string): Option<ParsedLine>
  {
    var measurement := ScanEscaped(line);
    ParseAfterMeasurement(Unescape(measurement.0), measurement.1)
  }

  /** The rest of a line after its measurement: the tags, a space, the
      fields, and a timestamp after a further space. */
  function ParseAfterMeasurement(measurement: string, s: string): Option<ParsedLine>
  {
    var tags := ParseTags(s);
    if tags.None? || tags.value.1 == [] || tags.value.1[0] != ' ' then None
    else
      var fields := ParseFields(tags.value.1[1..]);
      if fields.None? then None
      else
        var after := fields.value.1;
        if after == [] then Some(ParsedLine(measurement, tags.value.0, fields.value.0, None))
        else if after[0] == ' ' then Some(ParsedLine(measurement, tags.value.0, fields.value.0, Some(after[1..])))
        else None
  }

  // ---------------------------------------------------------------------
  // What a line encodes
  // ---------------------------------------------------------------------

  function FieldTextOf(v: Value): FieldText
  {
    if v.Str? then Quoted(v.s) else Bare(Text(v))
  }

  function FieldTexts(o: KeyValues): (r: seq<(string, FieldText)>)
    ensures |r| == |o|
  {
    if o == [] then [] else [(o[0].0, FieldTextOf(o[0].1))] + FieldTexts(o[1..])
  }

  function TagTexts(o: KeyValues): (r: seq<(string, string)>)
    ensures |r| == |o|
  {
    if o == [] then [] else [(o[0].0, Text(o[0].1))] + TagTexts(o[1..])
  }

  /** The fields a point contributes: a field object without its truthy
      `time`; a bare scalar as the one field `value`, except a Date, which
      has no own keys. */
  function FieldsOf(view: FieldsView): KeyValues
  {
    match view
    case ObjectFields(kvs) => DropTime(kvs)
    case ScalarField(v) => if v.Date? then [] else [("value", v)]
  }

  function TimestampOf(view: FieldsView): Option<string>
  {
    match view
    case ObjectFields(kvs) => if Truthy(Get(kvs, "time")) then Some(TimeText(Get(kvs, "time"))) else None
    case ScalarField(_) => None
  }

  /** What a line of the encoder says about its point. */
  function Expected(measurement: string, view: FieldsView, tags: KeyValues): ParsedLine
  {
    ParsedLine(measurement, TagTexts(tags), FieldTexts(FieldsOf(view)), TimestampOf(view))
  }

  // ---------------------------------------------------------------------
  // Texts the encoder writes unambiguously
  // ---------------------------------------------------------------------

  predicate NoTrailingBackslash(s: string) {
    s == [] || s[|s| - 1] != '\\'
  }

  /** Keys are written unescaped, so they must not hold a separator. */
  predicate KeyReadable(k: string) {
    forall c :: c in k ==> c !in KeyStops
  }

  predicate TagsReadable(o: KeyValues) {
    o == [] || (KeyReadable(o[0].0) && NoTrailingBackslash(Text(o[0].1)) && TagsReadable(o[1..]))
  }

  /** String field values are written between quotes without escaping, so
      they must not hold a quote. */
  predicate FieldsReadable(o: KeyValues) {
    o == [] || (KeyReadable(o[0].0) && (o[0].1.Str? ==> '"' !in o[0].1.s) && FieldsReadable(o[1..]))
  }

  predicate ViewReadable(view: FieldsView) {
    match view
    case ObjectFields(kvs) => FieldsReadable(kvs)
    case ScalarField(v) => v.Str? ==> '"' !in v.s
  }

  // ---------------------------------------------------------------------
  // Lemmas about the pieces
  // ---------------------------------------------------------------------

  /** The text of a value other than a string holds no separator. */
  lemma TextPlain(v: Value)
    requires !v.Str?
    ensures Text(v) != []
    ensures forall c :: c in Text(v) ==> c != ' ' && c != ',' && c != '"' && c != '\\'
  {
    if v.Num? {
      IntTextPlain(v.n);
    } else if v.Date? {
      IntTextPlain(v.epoch);
    }
  }

  lemma {:induction false} EscapePlain(s: string)
    requires forall c :: c in s ==> c != ' ' && c != ','
    ensures Escape(s) == s
  {
    if s != [] {
      assert s[0] in s;
      assert forall c :: c in s[1..] ==> c in s;
      EscapePlain(s[1..]);
    }
  }

  /** A tag is its key, `=`, and the escaped text of its value. */
  lemma TagPairText(k: string, v: Value)
    ensures TagPair(k, v) == k + "=" + Escape(Text(v))
  {
    if v.Str? {
      EscapeSpacesCommasIsEscape(v.s);
    } else {
      TextPlain(v);
      EscapePlain(Text(v));
    }
  }

  lemma {:induction false} ScanUntilPrefix(k: string, rest: string, stops: set<char>)
    requires forall c :: c in k ==> c !in stops
    requires rest == [] || rest[0] in stops
    ensures ScanUntil(k + rest, stops) == (k, rest)
  {
    if k != [] {
      assert k[0] in k;
      assert forall c :: c in k[1..] ==> c in k;
      ScanUntilPrefix(k[1..], rest, stops);
      assert (k + rest)[0] == k[0] && (k + rest)[1..] == k[1..] + rest;
      assert [k[0]] + k[1..] == k;
    } else {
      assert k + rest == rest;
    }
  }

  /** One escaped character in front of a text the scanner reads whole. */
  lemma ScanEscapedCons(c: char, e: string, rest: string)
    requires ScanEscaped(e + rest) == (e, rest)
    requires c == '\\' ==> e != [] && e[0] != ' ' && e[0] != ','
    ensures ScanEscaped(EscapeChar(c) + e + rest) == (EscapeChar(c) + e, rest)
  {
    if c == ' ' || c == ',' {
      ScanEscapedConsSeparator(c, e, rest);
    } else {
      ScanEscapedConsPlain(c, e, rest);
    }
  }

  /** An escaped separator is read as two characters of the token. */
  lemma ScanEscapedConsSeparator(c: char, e: string, rest: string)
    requires ScanEscaped(e + rest) == (e, rest)
    requires c == ' ' || c == ','
    ensures ScanEscaped(EscapeChar(c) + e + rest) == (EscapeChar(c) + e, rest)
  {
    var s := ['\\', c] + (e + rest);
    assert EscapeChar(c) == ['\\', c];
    assert EscapeChar(c) + e + rest == s;
    assert s[..2] == ['\\', c] && s[2..] == e + rest;
    assert ScanEscaped(s) == (s[..2] + e, rest);
  }

  /** Any other character is read as one character of the token. */
  lemma ScanEscapedConsPlain(c: char, e: string, rest: string)
    requires ScanEscaped(e + rest) == (e, rest)
    requires c != ' ' && c != ','
    requires c == '\\' ==> e != [] && e[0] != ' ' && e[0] != ','
    ensures ScanEscaped(EscapeChar(c) + e + rest) == (EscapeChar(c) + e, rest)
  {
    var s := [c] + (e + rest);
    assert EscapeChar(c) + e + rest == s by {
      assert EscapeChar(c) == [c];
    }
    assert s[1..] == e + rest;
    assert !(|s| >= 2 && s[0] == '\\' && (s[1] == ' ' || s[1] == ',')) by {
      if c == '\\' {
        assert s[1] == e[0];
      }
    }
    ScanEscapedOne(s);
  }

  /** A character that is neither a separator nor an escape of one. */
  lemma ScanEscapedOne(s: string)
    requires s != [] && s[0] != ' ' && s[0] != ','
    requires !(|s| >= 2 && s[0] == '\\' && (s[1] == ' ' || s[1] == ','))
    ensures ScanEscaped(s) == ([s[0]] + ScanEscaped(s[1..]).0, ScanEscaped(s[1..]).1)
  {
  }

  /** The scanner finds the end of an escaped text, provided the text does
      not end in a backslash. */
  lemma {:induction false} ScanEscapedEscape(v: string, rest: string)
    requires NoTrailingBackslash(v)
    requires rest == [] || rest[0] == ' ' || rest[0] == ','
    ensures ScanEscaped(Escape(v) + rest) == (Escape(v), rest)
  {
    if v == [] {
      assert Escape(v) + rest == rest;
    } else {
      if v[1..] != [] {
        assert v[1..][|v[1..]| - 1] == v[|v| - 1];
        EscapeHead(v[1..]);
      }
      ScanEscapedEscape(v[1..], rest);
      ScanEscapedCons(v[0], Escape(v[1..]), rest);
    }
  }

  lemma KeyTagStringCons(o: KeyValues)
    requires o != []
    ensures KeyTagString(o) == TagPair(o[0].0, o[0].1) + (if |o| > 1 then "," + KeyTagString(o[1..]) else "")
  {
  }

  lemma KeyValueStringCons(o: KeyValues)
    requires o != []
    ensures KeyValueString(o) == FieldPair(o[0].0, o[0].1) + (if |o| > 1 then "," + KeyValueString(o[1..]) else "")
  {
  }

  /** How the tag reader takes one tag off the front of a text. */
  lemma ParseTagsStep(s: string, k: string, after: string, text: string, tail: string)
    requires |s| > 0 && s[0] == ','
    requires ScanUntil(s[1..], KeyStops) == (k, after)
    requires after != [] && after[0] == '='
    requires ScanEscaped(after[1..]) == (Escape(text), tail)
    requires Unescape(Escape(text)) == text
    ensures ParseTags(s)
         == if ParseTags(tail).Some?
            then Some(([(k, text)] + ParseTags(tail).value.0, ParseTags(tail).value.1))
            else None
  {
  }

  lemma TagKeyScan(k: string, after: string)
    requires KeyReadable(k) && after != [] && after[0] == '='
    ensures ScanUntil(("," + k + after)[1..], KeyStops) == (k, after)
  {
    assert ("," + k + after)[1..] == k + after;
    ScanUntilPrefix(k, after, KeyStops);
  }

  lemma TagValueScan(text: string, tail: string)
    requires NoTrailingBackslash(text)
    requires tail == [] || tail[0] == ' ' || tail[0] == ','
    ensures ScanEscaped(("=" + Escape(text) + tail)[1..]) == (Escape(text), tail)
  {
    assert ("=" + Escape(text) + tail)[1..] == Escape(text) + tail;
    ScanEscapedEscape(text, tail);
  }

  /** One tag in front of a text that starts with a separator. */
  lemma ParseTagsCons(k: string, text: string, tail: string)
    requires KeyReadable(k) && NoTrailingBackslash(text)
    requires tail == [] || tail[0] == ' ' || tail[0] == ','
    ensures ParseTags("," + k + "=" + Escape(text) + tail)
         == if ParseTags(tail).Some?
            then Some(([(k, text)] + ParseTags(tail).value.0, ParseTags(tail).value.1))
            else None
  {
    var after := "=" + Escape(text) + tail;
    var s := "," + k + after;
    assert s == "," + k + "=" + Escape(text) + tail;
    TagKeyScan(k, after);
    TagValueScan(text, tail);
    UnescapeEscape(text);
    ParseTagsStep(s, k, after, text, tail);
  }

  lemma TagSectionCons(tags: KeyValues, rest: string)
    requires tags != []
    ensures "," + KeyTagString(tags) + rest
         == "," + tags[0].0 + "=" + Escape(Text(tags[0].1))
          + ((if |tags| > 1 then "," + KeyTagString(tags[1..]) else "") + rest)
  {
    var more := if |tags| > 1 then "," + KeyTagString(tags[1..]) else "";
    KeyTagStringCons(tags);
    TagPairText(tags[0].0, tags[0].1);
    TagRegroup(tags[0].0, Escape(Text(tags[0].1)), more, rest);
  }

  lemma TagRegroup(k: string, e: string, more: string, rest: string)
    ensures "," + (k + "=" + e + more) + rest == "," + k + "=" + e + (more + rest)
  {
  }

  /** The tag section of a line reads back as the tags' texts. */
  lemma {:induction false} ParseTagsSection(tags: KeyValues, rest: string)
    requires TagsReadable(tags)
    requires rest == [] || rest[0] == ' '
    ensures ParseTags((if |tags| > 0 then "," + KeyTagString(tags) else "") + rest) == Some((TagTexts(tags), rest))
  {
    if tags == [] {
      assert "" + rest == rest;
    } else {
      var tail := (if |tags| > 1 then "," + KeyTagString(tags[1..]) else "") + rest;
      ParseTagsSection(tags[1..], rest);
      TagSectionCons(tags, rest);
      ParseTagsCons(tags[0].0, Text(tags[0].1), tail);
    }
  }

  /** The text of a field value: a string between double quotes, anything
      else as its text. */
  function ValueText(v: Value): string
  {
    if v.Str? then "\"" + v.s + "\"" else Text(v)
  }

  lemma FieldPairText(k: string, v: Value)
    ensures FieldPair(k, v) == k + "=" + ValueText(v)
  {
  }

  /** How the field reader takes one field off the front of a text. */
  lemma ParseFieldListStep(s: string, k: string, after: string, value: FieldText, tail: string)
    requires ScanUntil(s, KeyStops) == (k, after)
    requires after != [] && after[0] == '='
    requires ParseFieldValue(after[1..]) == Some((value, tail))
    ensures ParseFieldList(s)
         == if tail != [] && tail[0] == ',' then
              (if ParseFieldList(tail[1..]).Some?
               then Some(([(k, value)] + ParseFieldList(tail[1..]).value.0, ParseFieldList(tail[1..]).value.1))
               else None)
            else Some(([(k, value)], tail))
  {
  }

  lemma FieldValueScan(v: Value, tail: string)
    requires v.Str? ==> '"' !in v.s
    requires tail == [] || tail[0] == ' ' || tail[0] == ','
    ensures ParseFieldValue(("=" + ValueText(v) + tail)[1..]) == Some((FieldTextOf(v), tail))
  {
    var t := ("=" + ValueText(v) + tail)[1..];
    assert t == ValueText(v) + tail;
    if v.Str? {
      QuotedValueScan(v.s, tail);
    } else {
      BareValueScan(v, tail);
    }
  }

  /** A string field value is read up to its closing quote. */
  lemma QuotedValueScan(text: string, tail: string)
    requires '"' !in text
    ensures ParseFieldValue("\"" + text + "\"" + tail) == Some((Quoted(text), tail))
  {
    var t := "\"" + text + "\"" + tail;
    assert t == "\"" + (text + ("\"" + tail));
    assert t[1..] == text + ("\"" + tail);
    ScanUntilPrefix(text, "\"" + tail, {'"'});
  }

  /** Any other field value is read up to the next separator. */
  lemma BareValueScan(v: Value, tail: string)
    requires !v.Str?
    requires tail == [] || tail[0] == ' ' || tail[0] == ','
    ensures ParseFieldValue(Text(v) + tail) == Some((Bare(Text(v)), tail))
  {
    TextPlain(v);
    var t := Text(v) + tail;
    assert t[0] == Text(v)[0] && Text(v)[0] in Text(v);
    ScanUntilPrefix(Text(v), tail, {',', ' '});
  }

  lemma Regroup(k: string, eq: string, value: string, more: string, rest: string)
    ensures k + eq + value + more + rest == k + (eq + value + (more + rest))
  {
  }

  /** What follows the first field of a field list. */
  function FieldsAfterFirst(o: KeyValues, rest: string): string
    requires o != []
  {
    (if |o| > 1 then "," + KeyValueString(o[1..]) else "") + rest
  }

  lemma FieldListCons(o: KeyValues, rest: string)
    requires o != []
    ensures KeyValueString(o) + rest == o[0].0 + ("=" + ValueText(o[0].1) + FieldsAfterFirst(o, rest))
  {
    var more := if |o| > 1 then "," + KeyValueString(o[1..]) else "";
    KeyValueStringCons(o);
    FieldPairText(o[0].0, o[0].1);
    Regroup(o[0].0, "=", ValueText(o[0].1), more, rest);
  }

  /** The reader takes the first field of a field list whole. */
  lemma FieldListHead(o: KeyValues, rest: string)
    requires o != [] && FieldsReadable(o)
    requires rest == [] || rest[0] == ' '
    ensures ScanUntil(KeyValueString(o) + rest, KeyStops) == (o[0].0, "=" + ValueText(o[0].1) + FieldsAfterFirst(o, rest))
    ensures ParseFieldValue(("=" + ValueText(o[0].1) + FieldsAfterFirst(o, rest))[1..])
         == Some((FieldTextOf(o[0].1), FieldsAfterFirst(o, rest)))
  {
    FieldListCons(o, rest);
    ScanUntilPrefix(o[0].0, "=" + ValueText(o[0].1) + FieldsAfterFirst(o, rest), KeyStops);
    FieldValueScan(o[0].1, FieldsAfterFirst(o, rest));
  }

  /** The field list of a line reads back as the fields' texts. */
  lemma {:induction false} ParseFieldListPairs(o: KeyValues, rest: string)
    requires o != [] && FieldsReadable(o)
    requires rest == [] || rest[0] == ' '
    ensures ParseFieldList(KeyValueString(o) + rest) == Some((FieldTexts(o), rest))
    decreases |o|
  {
    if |o| > 1 {
      ParseFieldListPairs(o[1..], rest);
      ParseFieldListMore(o, rest);
    } else {
      ParseFieldListLast(o, rest);
    }
  }

  /** A field list of one field. */
  lemma ParseFieldListLast(o: KeyValues, rest: string)
    requires |o| == 1 && FieldsReadable(o)
    requires rest == [] || rest[0] == ' '
    ensures ParseFieldList(KeyValueString(o) + rest) == Some((FieldTexts(o), rest))
  {
    var tail := FieldsAfterFirst(o, rest);
    FieldListHead(o, rest);
    ParseFieldListStep(KeyValueString(o) + rest, o[0].0, "=" + ValueText(o[0].1) + tail, FieldTextOf(o[0].1), tail);
    assert tail == rest;
    assert FieldTexts(o) == [(o[0].0, FieldTextOf(o[0].1))] by {
      assert o[1..] == [];
    }
  }

  /** A field list of several fields, when the fields after the first read
      back. */
  lemma ParseFieldListMore(o: KeyValues, rest: string)
    requires |o| > 1 && FieldsReadable(o)
    requires rest == [] || rest[0] == ' '
    requires ParseFieldList(KeyValueString(o[1..]) + rest) == Some((FieldTexts(o[1..]), rest))
    ensures ParseFieldList(KeyValueString(o) + rest) == Some((FieldTexts(o), rest))
  {
    var tail := FieldsAfterFirst(o, rest);
    var others := KeyValueString(o[1..]) + rest;
    assert tail == "," + others by {
      Associative(",", KeyValueString(o[1..]), rest);
    }
    assert tail[0] == ',' && tail[1..] == others;
    FieldListHead(o, rest);
    ParseFieldListStep(KeyValueString(o) + rest, o[0].0, "=" + ValueText(o[0].1) + tail, FieldTextOf(o[0].1), tail);
  }

  lemma FieldsReadableDelete(o: KeyValues, k: string)
    requires FieldsReadable(o)
    ensures FieldsReadable(Delete(o, k))
  {
    if o != [] && o[0].0 != k {
      assert ([o[0]] + Delete(o[1..], k))[1..] == Delete(o[1..], k);
    }
  }

  /** The text after a line's head: the fields, then the timestamp if any. */
  lemma FieldsPartShape(view: FieldsView)
    ensures FieldsPart(view)
         == " " + KeyValueString(FieldsOf(view))
          + (if TimestampOf(view).Some? then " " + TimestampOf(view).value else "")
  {
  }

  // ---------------------------------------------------------------------
  // Round trips
  // ---------------------------------------------------------------------

  /** The field section of a line reads back as the fields' texts. */
  lemma ParseFieldsSection(o: KeyValues, rest: string)
    requires FieldsReadable(o)
    requires rest == [] || rest[0] == ' '
    ensures ParseFields(KeyValueString(o) + rest) == Some((FieldTexts(o), rest))
  {
    if o == [] {
      assert KeyValueString(o) + rest == rest;
    } else {
      ParseFieldListPairs(o, rest);
      FieldListCons(o, rest);
      if o[0].0 != [] {
        assert o[0].0[0] in o[0].0;
      }
    }
  }

  /** How the reader takes a line apart after its measurement. */
  lemma ParseAfterMeasurementStep(measurement: string, r1: string, tags: seq<(string, string)>, r2: string,
                                  fields: seq<(string, FieldText)>, t: string)
    requires ParseTags(r1) == Some((tags, r2))
    requires r2 != [] && r2[0] == ' '
    requires ParseFields(r2[1..]) == Some((fields, t))
    requires t == [] || t[0] == ' '
    ensures ParseAfterMeasurement(measurement, r1)
         == Some(ParsedLine(measurement, tags, fields, if t == [] then None else Some(t[1..])))
  {
  }

  /** The reader finds the end of an escaped measurement. */
  lemma ParseLineMeasurement(measurement: string, rest: string)
    requires NoTrailingBackslash(measurement)
    requires rest == [] || rest[0] == ',' || rest[0] == ' '
    ensures ParseLine(Escape(measurement) + rest) == ParseAfterMeasurement(measurement, rest)
  {
    ScanEscapedEscape(measurement, rest);
    UnescapeEscape(measurement);
  }

  lemma LineShape(measurement: string, view: FieldsView, tags: KeyValues)
    ensures Line(measurement, view, tags)
         == Escape(measurement) + ((if |tags| > 0 then "," + KeyTagString(tags) else "") + FieldsPart(view))
  {
    EscapeSpacesCommasIsEscape(measurement);
  }

  lemma SectionsShape(tagSection: string, fieldSection: string, t: string)
    requires tagSection == [] || tagSection[0] == ','
    ensures (tagSection + (" " + fieldSection + t))[0] in {',', ' '}
    ensures (" " + fieldSection + t)[1..] == fieldSection + t
  {
  }

  /** A line made of an escaped measurement, a tag section, and a field
      section with an optional timestamp, each of which reads back. */
  lemma ParseSections(measurement: string, tagSection: string, fieldSection: string, t: string,
                      tags: seq<(string, string)>, fields: seq<(string, FieldText)>)
    requires NoTrailingBackslash(measurement)
    requires tagSection == [] || tagSection[0] == ','
    requires ParseTags(tagSection + (" " + fieldSection + t)) == Some((tags, " " + fieldSection + t))
    requires ParseFields(fieldSection + t) == Some((fields, t))
    requires t == [] || t[0] == ' '
    ensures ParseLine(Escape(measurement) + (tagSection + (" " + fieldSection + t)))
         == Some(ParsedLine(measurement, tags, fields, if t == [] then None else Some(t[1..])))
  {
    var part := " " + fieldSection + t;
    SectionsShape(tagSection, fieldSection, t);
    ParseLineMeasurement(measurement, tagSection + part);
    ParseAfterMeasurementStep(measurement, tagSection + part, tags, part, fields, t);
  }

  lemma ParseEncoded(measurement: string, tags: KeyValues, fields: KeyValues, t: string)
    requires NoTrailingBackslash(measurement) && TagsReadable(tags) && FieldsReadable(fields)
    requires t == [] || t[0] == ' '
    ensures ParseLine(Escape(measurement) + ((if |tags| > 0 then "," + KeyTagString(tags) else "") + (" " + KeyValueString(fields) + t)))
         == Some(ParsedLine(measurement, TagTexts(tags), FieldTexts(fields), if t == [] then None else Some(t[1..])))
  {
    ParseTagsSection(tags, " " + KeyValueString(fields) + t);
    ParseFieldsSection(fields, t);
    ParseSections(measurement, if |tags| > 0 then "," + KeyTagString(tags) else "", KeyValueString(fields), t,
                  TagTexts(tags), FieldTexts(fields));
  }

  /** Reading a line the encoder wrote gives back its measurement, the text
      of each tag value, the fields (strings quoted, anything else as its
      text) and the timestamp, whenever the measurement and the tag values do
      not end in a backslash, no key holds `=`, `,` or a space, and no string
      field holds a double quote. */
  lemma LineRoundTrip(measurement: string, view: FieldsView, tags: KeyValues)
    requires NoTrailingBackslash(measurement) && TagsReadable(tags) && ViewReadable(view)
    ensures ParseLine(Line(measurement, view, tags)) == Some(Expected(measurement, view, tags))
  {
    var fields := FieldsOf(view);
    var ts := TimestampOf(view);
    var t := if ts.Some? then " " + ts.value else "";
    assert FieldsPart(view) == " " + KeyValueString(fields) + t by {
      FieldsPartShape(view);
    }
    assert FieldsReadable(fields) by {
      if view.ObjectFields? && Truthy(Get(view.kvs, "time")) {
        FieldsReadableDelete(view.kvs, "time");
      }
    }
    LineShape(measurement, view, tags);
    ParseEncoded(measurement, tags, fields, t);
    assert t != [] ==> t[1..] == ts.value;
  }

  /** `text.split(c)`: the pieces between the occurrences of `c`. */
  function Split(s: string, c: char): (parts: seq<string>)
    ensures parts != []
  {
    if s == [] then [""]
    else
      var rest := Split(s[1..], c);
      if s[0] == c then [""] + rest else [[s[0]] + rest[0]] + rest[1..]
  }

  lemma {:induction false} SplitPrefix(p: string, c: char, tail: string)
    requires c !in p
    ensures Split(p + tail, c) == [p + Split(tail, c)[0]] + Split(tail, c)[1..]
  {
    var rest := Split(tail, c);
    if p == [] {
      assert p + tail == tail;
      assert p + rest[0] == rest[0];
      assert [rest[0]] + rest[1..] == rest;
    } else {
      assert p[0] in p;
      assert c !in p[1..] by {
        assert forall x :: x in p[1..] ==> x in p;
      }
      SplitPrefix(p[1..], c, tail);
      SplitConsPrefix(p, c, tail, Split(p[1..] + tail, c), rest);
    }
  }

  lemma SplitConsPrefix(p: string, c: char, tail: string, inner: seq<string>, rest: seq<string>)
    requires p != [] && p[0] != c && rest != []
    requires inner == Split(p[1..] + tail, c) && rest == Split(tail, c)
    requires inner == [p[1..] + rest[0]] + rest[1..]
    ensures Split(p + tail, c) == [p + rest[0]] + rest[1..]
  {
    assert (p + tail)[0] == p[0] && (p + tail)[1..] == p[1..] + tail;
    SplitCons(p + tail, c);
    assert inner[0] == p[1..] + rest[0] && inner[1..] == rest[1..];
    assert [p[0]] + (p[1..] + rest[0]) == p + rest[0];
  }

  /** A text that does not start with the separator extends the first piece
      of the rest. */
  lemma SplitCons(s: string, c: char)
    requires s != [] && s[0] != c
    ensures Split(s, c) == [[s[0]] + Split(s[1..], c)[0]] + Split(s[1..], c)[1..]
  {
  }

  /** Splitting joined lines at the separator gives the lines back, when no
      line holds the separator. */
  lemma {:induction false} SplitJoin(lines: seq<string>, c: char)
    requires lines != []
    requires forall i :: 0 <= i < |lines| ==> c !in lines[i]
    ensures Split(Join(lines, [c]), c) == lines
  {
    if |lines| == 1 {
      SplitPrefix(lines[0], c, "");
      assert lines[0] + "" == lines[0];
      assert Split("", c) == [""];
    } else {
      SplitJoin(lines[1..], c);
      var rest := Join(lines[1..], [c]);
      assert Join(lines, [c]) == lines[0] + ([c] + rest);
      SplitPrefix(lines[0], c, [c] + rest);
      assert ([c] + rest)[0] == c && ([c] + rest)[1..] == rest;
      assert Split([c] + rest, c) == [""] + lines[1..];
      assert lines[0] + "" == lines[0];
      assert lines == [lines[0]] + lines[1..];
    }
  }

  /** The body of a batch splits back into one line per point, in order. */
  lemma EncodeSplits(batch: Batch, snap: map<JsObject, KeyValues>)
    requires ObjectsOf(Flatten(batch)) <= snap.Keys
    requires Flatten(batch) != []
    requires forall i :: 0 <= i < |Lines(Flatten(batch), snap)| ==> '\n' !in Lines(Flatten(batch), snap)[i]
    ensures Split(Encode(batch, snap), '\n') == Lines(Flatten(batch), snap)
  {
    SplitJoin(Lines(Flatten(batch), snap), '\n');
  }

  /** A batch without points is the empty body. */
  lemma EncodeNoPoints(batch: Batch, snap: map<JsObject, KeyValues>)
    requires ObjectsOf(Flatten(batch)) <= snap.Keys
    requires Flatten(batch) == []
    ensures Encode(batch, snap) == ""
  {
  }

  // ---------------------------------------------------------------------
  // Texts the encoder makes ambiguous
  // ---------------------------------------------------------------------

  /** String field values are not escaped: one field whose text holds quotes
      is written exactly like two fields. */
  lemma QuoteInFieldIsAmbiguous()
    ensures KeyValueString([("a", Str("x\",b=\"y"))]) == KeyValueString([("a", Str("x")), ("b", Str("y"))])
  {
  }

  /** Backslashes are not escaped: a tag value ending in a backslash turns
      the comma that starts the next tag into an escaped comma, so two tags
      are written exactly like one. */
  lemma TrailingBackslashIsAmbiguous(v: string, w: string)
    ensures KeyTagString([("a", Str(v + "\\")), ("b", Str(w))]) == KeyTagString([("a", Str(v + ",b=" + w))])
  {
    var two := [("a", Str(v + "\\")), ("b", Str(w))];
    var one := [("a", Str(v + ",b=" + w))];
    KeyTagStringTwo("a", Str(v + "\\"), "b", Str(w));
    KeyTagStringOne("a", Str(v + ",b=" + w));
    assert TagPair("a", Str(v + "\\")) == "a=" + (Escape(v) + "\\") by {
      TagPairText("a", Str(v + "\\"));
      EscapeBackslashEnd(v);
    }
    assert TagPair("b", Str(w)) == "b=" + Escape(w) by {
      TagPairText("b", Str(w));
    }
    assert TagPair("a", Str(v + ",b=" + w)) == "a=" + (Escape(v) + "\\,b=" + Escape(w)) by {
      TagPairText("a", Str(v + ",b=" + w));
      EscapeCommaJoin(v, w);
    }
    TwoTagsJoin(Escape(v), Escape(w));
  }

  lemma KeyTagStringOne(k: string, x: Value)
    ensures KeyTagString([(k, x)]) == TagPair(k, x)
  {
    KeyTagStringCons([(k, x)]);
  }

  lemma KeyTagStringTwo(k: string, x: Value, l: string, y: Value)
    ensures KeyTagString([(k, x), (l, y)]) == TagPair(k, x) + "," + TagPair(l, y)
  {
    var o := [(k, x), (l, y)];
    KeyTagStringCons(o);
    assert o[1..] == [(l, y)];
    KeyTagStringOne(l, y);
  }

  lemma TwoTagsJoin(e: string, f: string)
    ensures ("a=" + (e + "\\")) + "," + ("b=" + f) == "a=" + (e + "\\,b=" + f)
  {
    var lhs := ("a=" + (e + "\\")) + "," + ("b=" + f);
    var rhs := "a=" + (e + "\\,b=" + f);
    assert |lhs| == |rhs|;
    forall i | 0 <= i < |lhs| ensures lhs[i] == rhs[i] {
    }
  }

  lemma EscapeBackslashEnd(v: string)
    ensures Escape(v + "\\") == Escape(v) + "\\"
  {
    EscapeAppend(v, "\\");
    assert Escape("\\") == "\\";
  }

  lemma EscapeCommaJoin(v: string, w: string)
    ensures Escape(v + ",b=" + w) == Escape(v) + "\\,b=" + Escape(w)
  {
    EscapeAppend(v + ",b=", w);
    EscapeAppend(v, ",b=");
    assert Escape(",b=") == "\\,b=";
  }

  /** Keys, and the `=` in tag values, are not escaped: a key holding `=`
      gives the same tags as a shorter key whose value holds the rest. */
  lemma EqualsInKeyIsAmbiguous()
    ensures KeyTagString([("a=b", Num(1))]) == KeyTagString([("a", Str("b=1"))])
  {
    TagPairText("a=b", Num(1));
    TagPairText("a", Str("b=1"));
    assert Escape("b=1") == "b=1";
  }

  // ---------------------------------------------------------------------
  // The helpers' examples of the library's own tests
  // ---------------------------------------------------------------------

  /** Spaces and commas in tag values are escaped; the pairs are joined by
      commas. The library's test uses the text `value` for `w`. */
  lemma KeyTagStringExample(w: string)
    requires forall c :: c in w ==> c != ' ' && c != ','
    ensures KeyTagString([("tag_1", Str(w)), ("tag2", Str(w + " " + w)), ("tag3", Str(w + "," + w))])
         == "tag_1=" + w + ",tag2=" + w + "\\ " + w + ",tag3=" + w + "\\," + w
  {
    var p1 := "tag_1=" + w;
    var p2 := "tag2=" + w + "\\ " + w;
    var p3 := "tag3=" + w + "\\," + w;
    KeyTagStringThree("tag_1", Str(w), "tag2", Str(w + " " + w), "tag3", Str(w + "," + w));
    assert TagPair("tag_1", Str(w)) == p1 by {
      TagPairPlain("tag_1", w);
    }
    assert TagPair("tag2", Str(w + " " + w)) == p2 by {
      TagPairSeparated("tag2", w, " ", w);
    }
    assert TagPair("tag3", Str(w + "," + w)) == p3 by {
      TagPairSeparated("tag3", w, ",", w);
    }
    ExampleJoin(w, p1, p2, p3);
  }

  lemma KeyTagStringThree(k1: string, x1: Value, k2: string, x2: Value, k3: string, x3: Value)
    ensures KeyTagString([(k1, x1), (k2, x2), (k3, x3)]) == TagPair(k1, x1) + ("," + (TagPair(k2, x2) + "," + TagPair(k3, x3)))
  {
    var o := [(k1, x1), (k2, x2), (k3, x3)];
    KeyTagStringCons(o);
    assert o[1..] == [(k2, x2), (k3, x3)];
    KeyTagStringTwo(k2, x2, k3, x3);
  }

  lemma ExampleJoin(w: string, p1: string, p2: string, p3: string)
    requires p1 == "tag_1=" + w && p2 == "tag2=" + w + "\\ " + w && p3 == "tag3=" + w + "\\," + w
    ensures p1 + ("," + (p2 + "," + p3)) == "tag_1=" + w + ",tag2=" + w + "\\ " + w + ",tag3=" + w + "\\," + w
  {
  }

  lemma TagPairPlain(k: string, a: string)
    requires forall c :: c in a ==> c != ' ' && c != ','
    ensures TagPair(k, Str(a)) == k + "=" + a
  {
    TagPairText(k, Str(a));
    EscapePlain(a);
  }

  /** A string tag value with one separator between plain texts. */
  lemma TagPairSeparated(k: string, a: string, sep: string, b: string)
    requires sep == " " || sep == ","
    requires forall c :: c in a ==> c != ' ' && c != ','
    requires forall c :: c in b ==> c != ' ' && c != ','
    ensures TagPair(k, Str(a + sep + b)) == k + "=" + a + ("\\" + sep) + b
  {
    var e := "\\" + sep;
    assert Escape(a + sep + b) == a + e + b by {
      assert Escape(sep) == e;
      EscapeAppend(a + sep, b);
      EscapeAppend(a, sep);
      EscapePlain(a);
      EscapePlain(b);
    }
    TagPairText(k, Str(a + sep + b));
    Concat4(k + "=", a, e, b);
  }

  lemma Concat4(w: string, x: string, y: string, z: string)
    ensures w + (x + y + z) == w + x + y + z
  {
    Associative(w, x + y, z);
    Associative(w, x, y);
  }

  /** Numbers are written as their text; the pairs are joined by commas. */
  lemma KeyValueStringExample()
    ensures KeyValueString([("a", Num(1)), ("b", Num(2))]) == "a=1,b=2"
  {
    var o := [("a", Num(1)), ("b", Num(2))];
    KeyValueStringCons(o);
    assert o[1..] == [("b", Num(2))];
    KeyValueStringCons(o[1..]);
  }
}
