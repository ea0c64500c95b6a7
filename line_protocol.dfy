/**
 * The line-protocol encoder of the client: `_prepareValues` with its helpers
 * `_createKeyTagString` and `_createKeyValueString` (index.js).
 *
 * A batch maps each measurement name to its points; a point is a pair of a
 * field element (an object of fields, or a bare scalar) and a tag object.
 * Every point becomes one line
 *
 *     measurement[,tag=value...] field=value[,field=value...][ timestamp]
 *
 * and the lines are joined by newlines. The field object is the caller's own
 * object: a truthy `time` property is deleted from it while the line is built.
 */
module LineProtocol {
  import opened JsValues

  // ---------------------------------------------------------------------
  // Escaping of measurement names and tag values
  // ---------------------------------------------------------------------

  /** `s.replace(/c/g, rep)` for a one-character pattern `c`. */
  function ReplaceAll(s: string, c: char, rep: string): string
  {
    if s == [] then [] else (if s[0] == c then rep else [s[0]]) + ReplaceAll(s[1..], c, rep)
  }

  /** The escaping the encoder applies to measurement names and string tag
      values: spaces first, then commas. */
  function EscapeSpacesCommas(s: string): string
  {
    ReplaceAll(ReplaceAll(s, ' ', "\\ "), ',', "\\,")
  }

  /** Reference definition: each space and each comma gets a backslash before
      it, every other character stands for itself. */
  function EscapeChar(c: char): string
  {
    if c == ' ' then "\\ " else if c == ',' then "\\," else [c]
  }

  function Escape(s: string): string
  {
    if s == [] then [] else EscapeChar(s[0]) + Escape(s[1..])
  }

  /** Reads escapes back: a backslash before a space or a comma stands for that
      character; any other character stands for itself. */
  function Unescape(s: string): string
  {
    if s == [] then []
    else if |s| >= 2 && s[0] == '\\' && (s[1] == ' ' || s[1] == ',') then [s[1]] + Unescape(s[2..])
    else [s[0]] + Unescape(s[1..])
  }

  lemma {:induction false} ReplaceAllAppend(a: string, b: string, c: char, rep: string)
    ensures ReplaceAll(a + b, c, rep) == ReplaceAll(a, c, rep) + ReplaceAll(b, c, rep)
  {
    if a != [] {
      ReplaceAllAppend(a[1..], b, c, rep);
      assert (a + b)[1..] == a[1..] + b;
    } else {
      assert a + b == b;
    }
  }

  /** Escaping a concatenation escapes each part. */
  lemma {:induction false} EscapeAppend(a: string, b: string)
    ensures Escape(a + b) == Escape(a) + Escape(b)
  {
    if a == [] {
      assert a + b == b;
    } else {
      EscapeAppend(a[1..], b);
      EscapeUnfold(a + b, a[0], a[1..] + b);
      EscapeUnfold(a, a[0], a[1..]);
      Associative(EscapeChar(a[0]), Escape(a[1..]), Escape(b));
    }
  }

  lemma Associative(x: string, y: string, z: string)
    ensures x + (y + z) == (x + y) + z
  {
  }

  lemma EscapeUnfold(s: string, c: char, rest: string)
    requires s == [c] + rest
    ensures Escape(s) == EscapeChar(c) + Escape(rest)
  {
    assert s[0] == c && s[1..] == rest;
  }

  /** The two chained replacements of the source escape each character on its
      own: the first pass introduces no comma for the second to see. */
  lemma {:induction false} EscapeSpacesCommasIsEscape(s: string)
    ensures EscapeSpacesCommas(s) == Escape(s)
  {
    if s != [] {
      var first := if s[0] == ' ' then "\\ " else [s[0]];
      assert ReplaceAll(s, ' ', "\\ ") == first + ReplaceAll(s[1..], ' ', "\\ ");
      ReplaceAllAppend(first, ReplaceAll(s[1..], ' ', "\\ "), ',', "\\,");
      EscapeSpacesCommasIsEscape(s[1..]);
      if s[0] == ' ' {
        assert ReplaceAll(first, ',', "\\,") == "\\ ";
      } else {
        assert ReplaceAll(first, ',', "\\,") == EscapeChar(s[0]);
      }
    }
  }

  /** An escaped text never starts with a bare space or comma. */
  lemma EscapeHead(s: string)
    requires s != []
    ensures Escape(s) != [] && Escape(s)[0] != ' ' && Escape(s)[0] != ','
  {
  }

  /** Unescaping an escaped text gives the text back. */
  lemma {:induction false} UnescapeEscape(s: string)
    ensures Unescape(Escape(s)) == s
  {
    if s != [] {
      var e := Escape(s[1..]);
      UnescapeEscape(s[1..]);
      if s[0] == ' ' || s[0] == ',' {
        assert Escape(s) == ['\\', s[0]] + e;
        assert (['\\', s[0]] + e)[2..] == e;
      } else {
        assert Escape(s) == [s[0]] + e;
        assert ([s[0]] + e)[1..] == e;
        if s[0] == '\\' && e != [] {
          EscapeHead(s[1..]);
        }
      }
    }
  }

  // ---------------------------------------------------------------------
  // Key/value strings
  // ---------------------------------------------------------------------

  /** `parts.join(sep)`. */
  function Join(parts: seq<string>, sep: string): string
  {
    if parts == [] then "" else if |parts| == 1 then parts[0] else parts[0] + sep + Join(parts[1..], sep)
  }

  /** One field as `_createKeyValueString` renders it: a string between
      double quotes, with nothing inside escaped; anything else as its text. */
  function FieldPair(k: string, v: Value): string
  {
    if v.Str? then k + "=\"" + v.s + "\"" else k + "=" + Text(v)
  }

  /** One tag as `_createKeyTagString` renders it: a string with its spaces
      and commas escaped; anything else as its text. Keys are not escaped. */
  function TagPair(k: string, v: Value): string
  {
    if v.Str? then k + "=" + EscapeSpacesCommas(v.s) else k + "=" + Text(v)
  }

  function FieldPairs(o: KeyValues): (r: seq<string>)
    ensures |r| == |o|
  {
    if o == [] then [] else [FieldPair(o[0].0, o[0].1)] + FieldPairs(o[1..])
  }

  function TagPairs(o: KeyValues): (r: seq<string>)
    ensures |r| == |o|
  {
    if o == [] then [] else [TagPair(o[0].0, o[0].1)] + TagPairs(o[1..])
  }

  /** `_createKeyValueString`. */
  function KeyValueString(o: KeyValues): string
  {
    Join(FieldPairs(o), ",")
  }

  /** `_createKeyTagString`. */
  function KeyTagString(o: KeyValues): string
  {
    Join(TagPairs(o), ",")
  }

  // ---------------------------------------------------------------------
  // One line
  // ---------------------------------------------------------------------

  /** The field element of a point as the encoder sees it when it reaches the
      point: the current properties of a field object, or a bare scalar. */
  datatype FieldsView = ObjectFields(kvs: KeyValues) | ScalarField(v: Value)

  /** The text of a timestamp: `getTime()` of a Date, the value itself otherwise. */
  function TimeText(t: Value): string
  {
    if t.Date? then IntText(t.epoch) else Text(t)
  }

  /** The escaped measurement name, then `,` and the tags when the tag object
      has at least one key. */
  function Head(measurement: string, tags: KeyValues): string
  {
    EscapeSpacesCommas(measurement) + (if |tags| > 0 then "," + KeyTagString(tags) else "")
  }

  /** The field object once a truthy `time` has been taken out of it. */
  function DropTime(kvs: KeyValues): (r: KeyValues)
    ensures !Truthy(Get(r, "time"))
  {
    if Truthy(Get(kvs, "time")) then Delete(kvs, "time") else kvs
  }

  /** What follows the head of a line. A truthy `time` is not a field: it
      follows the fields as the timestamp. A bare string becomes the field
      `value="..."`, another bare scalar `value=...`; a Date is an object
      without own keys, so it gives no field at all. */
  function FieldsPart(fields: FieldsView): string
  {
    match fields
    case ObjectFields(kvs) =>
      if Truthy(Get(kvs, "time")) then " " + KeyValueString(Delete(kvs, "time")) + " " + TimeText(Get(kvs, "time"))
      else " " + KeyValueString(kvs)
    case ScalarField(v) =>
      if v.Date? then " " + KeyValueString([])
      else if v.Str? then " value=\"" + v.s + "\""
      else " value=" + Text(v)
  }

  /** The line of one point. */
  function Line(measurement: string, fields: FieldsView, tags: KeyValues): string
  {
    Head(measurement, tags) + FieldsPart(fields)
  }

  /** Taking `time` out once is enough: a second time changes nothing. */
  lemma DropTimeIdempotent(kvs: KeyValues)
    ensures DropTime(DropTime(kvs)) == DropTime(kvs)
  {
  }

  /** A field object whose truthy `time` was already taken out gives the same
      line without its timestamp. */
  lemma LineWithoutTime(measurement: string, kvs: KeyValues, tags: KeyValues)
    requires Truthy(Get(kvs, "time"))
    ensures Line(measurement, ObjectFields(DropTime(kvs)), tags) + " " + TimeText(Get(kvs, "time"))
         == Line(measurement, ObjectFields(kvs), tags)
  {
  }

  // ---------------------------------------------------------------------
  // A batch
  // ---------------------------------------------------------------------

  /** The first element of a point: a field object, or a bare scalar. */
  datatype FieldsArg = Obj(obj: JsObject) | Scalar(v: Value)

  /** A point `[fields, tags]`. A missing or non-object second element, or
      one without keys, is an empty tag list. */
  datatype PointArg = PointArg(fields: FieldsArg, tags: KeyValues)

  /** `{measurement: [point, ...], ...}` in enumeration order. */
  type Batch = seq<(string, seq<PointArg>)>

  /** The points of one measurement, each paired with the measurement. */
  function Tagged(measurement: string, points: seq<PointArg>): (r: seq<(string, PointArg)>)
    ensures |r| == |points|
    ensures forall i :: 0 <= i < |points| ==> r[i] == (measurement, points[i])
  {
    seq(|points|, i requires 0 <= i < |points| => (measurement, points[i]))
  }

  /** The points of a batch in the order the encoder visits them:
      measurement by measurement, then point by point. */
  function Flatten(batch: Batch): seq<(string, PointArg)>
  {
    if batch == [] then []
    else Flatten(batch[..|batch| - 1]) + Tagged(batch[|batch| - 1].0, batch[|batch| - 1].1)
  }

  function ObjectOf(p: PointArg): set<JsObject>
  {
    if p.fields.Obj? then {p.fields.obj} else {}
  }

  /** The field objects of a sequence of points. */
  function ObjectsOf(flat: seq<(string, PointArg)>): set<JsObject>
  {
    if flat == [] then {} else ObjectsOf(flat[..|flat| - 1]) + ObjectOf(flat[|flat| - 1].1)
  }

  /** The properties of each object at one moment. */
  ghost function Snapshot(objs: set<JsObject>): (snap: map<JsObject, KeyValues>)
    reads objs
    ensures snap.Keys == objs
  {
    map o | o in objs :: o.entries
  }

  /** What the encoder finds in a field element: an object visited before
      (the same object may stand in several points) has lost its truthy
      `time` on that earlier visit. */
  function View(f: FieldsArg, snap: map<JsObject, KeyValues>, seen: set<JsObject>): FieldsView
    requires f.Obj? ==> f.obj in snap
  {
    match f
    case Scalar(v) => ScalarField(v)
    case Obj(o) => ObjectFields(if o in seen then DropTime(snap[o]) else snap[o])
  }

  /** The lines of a sequence of points, given the field objects' properties
      before encoding started. */
  function Lines(flat: seq<(string, PointArg)>, snap: map<JsObject, KeyValues>): (lines: seq<string>)
    requires ObjectsOf(flat) <= snap.Keys
    ensures |lines| == |flat|
  {
    if flat == [] then []
    else
      var pre := flat[..|flat| - 1];
      var (m, p) := flat[|flat| - 1];
      Lines(pre, snap) + [Line(m, View(p.fields, snap, ObjectsOf(pre)), p.tags)]
  }

  lemma {:induction false} ObjectsOfPrefix(a: seq<(string, PointArg)>, b: seq<(string, PointArg)>)
    requires a <= b
    ensures ObjectsOf(a) <= ObjectsOf(b)
    decreases |b|
  {
    if |a| < |b| {
      assert a <= b[..|b| - 1];
      ObjectsOfPrefix(a, b[..|b| - 1]);
    } else {
      assert a == b;
    }
  }

  lemma {:induction false} FlattenPrefix(batch: Batch, i: nat)
    requires i <= |batch|
    ensures Flatten(batch[..i]) <= Flatten(batch)
    decreases |batch|
  {
    if i < |batch| {
      var pre := batch[..|batch| - 1];
      FlattenPrefix(pre, i);
      assert pre[..i] == batch[..i];
    } else {
      assert batch[..i] == batch;
    }
  }

  /** Every point of a batch is one of its flattened points. */
  lemma FlattenStep(batch: Batch, i: nat, j: nat)
    requires i < |batch| && j <= |batch[i].1|
    ensures Flatten(batch[..i]) + Tagged(batch[i].0, batch[i].1[..j]) <= Flatten(batch)
  {
    FlattenPrefix(batch, i + 1);
    assert batch[..i + 1][..i] == batch[..i];
  }

  /** Encoding one more point appends its line. */
  lemma LinesSnoc(flat: seq<(string, PointArg)>, m: string, p: PointArg, snap: map<JsObject, KeyValues>)
    requires ObjectsOf(flat + [(m, p)]) <= snap.Keys
    ensures ObjectsOf(flat + [(m, p)]) == ObjectsOf(flat) + ObjectOf(p)
    ensures Lines(flat + [(m, p)], snap) == Lines(flat, snap) + [Line(m, View(p.fields, snap, ObjectsOf(flat)), p.tags)]
  {
    assert (flat + [(m, p)])[..|flat|] == flat;
  }

  /** Line `k` of a sequence of points is the line of point `k`, as the
      encoder finds its field object after the points before it. */
  lemma {:induction false} LinesAt(flat: seq<(string, PointArg)>, snap: map<JsObject, KeyValues>, k: nat)
    requires ObjectsOf(flat) <= snap.Keys
    requires k < |flat|
    ensures ObjectsOf(flat[..k]) <= ObjectsOf(flat)
    ensures flat[k].1.fields.Obj? ==> flat[k].1.fields.obj in snap
    ensures Lines(flat, snap)[k]
         == Line(flat[k].0, View(flat[k].1.fields, snap, ObjectsOf(flat[..k])), flat[k].1.tags)
    decreases |flat|
  {
    var pre := flat[..|flat| - 1];
    ObjectsOfPrefix(pre, flat);
    if k < |flat| - 1 {
      LinesAt(pre, snap, k);
      assert pre[..k] == flat[..k];
    }
  }

  /** When no field object stands in two points, each line encodes the
      caller's own object as it was before the call. */
  lemma UnsharedObjectsEncodeOwnValues(flat: seq<(string, PointArg)>, snap: map<JsObject, KeyValues>, k: nat)
    requires ObjectsOf(flat) <= snap.Keys
    requires k < |flat| && flat[k].1.fields.Obj?
    requires flat[k].1.fields.obj in snap && flat[k].1.fields.obj !in ObjectsOf(flat[..k])
    ensures Lines(flat, snap)[k] == Line(flat[k].0, ObjectFields(snap[flat[k].1.fields.obj]), flat[k].1.tags)
  {
    LinesAt(flat, snap, k);
  }

  /** The body the encoder returns for a batch, given the field objects'
      properties before the call. */
  function Encode(batch: Batch, snap: map<JsObject, KeyValues>): string
    requires ObjectsOf(Flatten(batch)) <= snap.Keys
  {
    Join(Lines(Flatten(batch), snap), "\n")
  }

  /** What the encoder finds in a field element right now. */
  function CurrentView(f: FieldsArg): FieldsView
    reads if f.Obj? then {f.obj} else {}
  {
    match f
    case Scalar(v) => ScalarField(v)
    case Obj(o) => ObjectFields(o.entries)
  }

  /** The field objects once those in `visited` have been encoded: each of
      those has lost its truthy `time`, every other one is as it was. */
  ghost predicate EntriesAfter(snap: map<JsObject, KeyValues>, visited: set<JsObject>)
    reads snap.Keys
  {
    forall o :: o in snap ==> o.entries == if o in visited then DropTime(snap[o]) else snap[o]
  }

  /** The start of a line: the escaped measurement name, then the tags. */
  method LineHead(name: string, tags: KeyValues) returns (line: string)
    ensures line == Head(name, tags)
  {
    line := EscapeSpacesCommas(name);
    if |tags| > 0 {
      line := line + "," + KeyTagString(tags);
    }
  }

  /** The body of the encoder's inner loop: the line of one point, taking a
      truthy `time` out of its field object. */
  method EncodePoint(name: string, p: PointArg) returns (line: string)
    modifies ObjectOf(p)
    ensures line == Line(name, old(CurrentView(p.fields)), p.tags)
    ensures p.fields.Obj? ==> p.fields.obj.entries == DropTime(old(p.fields.obj.entries))
  {
    line := LineHead(name, p.tags);
    var rest: string;
    match p.fields {
      case Obj(o) =>
        var timestamp := Null;
        var entries := o.entries;
        if Truthy(Get(entries, "time")) {
          timestamp := Get(entries, "time");
          entries := Delete(entries, "time");
          o.entries := entries;
        }
        rest := " " + KeyValueString(entries);
        if Truthy(timestamp) {
          rest := rest + " " + TimeText(timestamp);
        }
      case Scalar(v) =>
        if v.Date? {
          rest := " " + KeyValueString([]);
        } else if v.Str? {
          rest := " value=\"" + v.s + "\"";
        } else {
          rest := " value=" + Text(v);
        }
    }
    line := line + rest;
  }

  /** One step of the encoder's inner loop: the points encoded so far grow by
      one, and so do their lines and their field objects. */
  lemma EncodePointsStep(done: seq<(string, PointArg)>, name: string, points: seq<PointArg>, j: nat,
                         snap: map<JsObject, KeyValues>)
    requires j < |points|
    requires ObjectsOf(done + Tagged(name, points)) <= snap.Keys
    ensures ObjectsOf(done + Tagged(name, points[..j + 1])) <= snap.Keys
    ensures ObjectsOf(done + Tagged(name, points[..j + 1]))
         == ObjectsOf(done + Tagged(name, points[..j])) + ObjectOf(points[j])
    ensures points[j].fields.Obj? ==> points[j].fields.obj in snap
    ensures Lines(done + Tagged(name, points[..j + 1]), snap)
         == Lines(done + Tagged(name, points[..j]), snap)
          + [Line(name, View(points[j].fields, snap, ObjectsOf(done + Tagged(name, points[..j]))), points[j].tags)]
  {
    var before := done + Tagged(name, points[..j]);
    var after := before + [(name, points[j])];
    assert done + Tagged(name, points[..j + 1]) == after by {
      assert Tagged(name, points[..j + 1]) == Tagged(name, points[..j]) + [(name, points[j])];
    }
    assert Tagged(name, points[..j + 1]) <= Tagged(name, points);
    ObjectsOfPrefix(after, done + Tagged(name, points));
    LinesSnoc(before, name, points[j], snap);
  }

  /** The encoder's visit to one point, in terms of the field objects'
      properties before encoding started and the objects visited before it. */
  method EncodeVisit(name: string, p: PointArg, ghost snap: map<JsObject, KeyValues>, ghost seen: set<JsObject>)
    returns (line: string)
    requires seen <= snap.Keys && ObjectOf(p) <= snap.Keys
    requires EntriesAfter(snap, seen)
    modifies ObjectOf(p)
    ensures p.fields.Obj? ==> p.fields.obj in snap
    ensures line == Line(name, View(p.fields, snap, seen), p.tags)
    ensures EntriesAfter(snap, seen + ObjectOf(p))
  {
    assert p.fields.Obj? ==> p.fields.obj in ObjectOf(p);
    ghost var view := View(p.fields, snap, seen);
    assert CurrentView(p.fields) == view;
    line := EncodePoint(name, p);
    forall o | o in snap
      ensures o.entries == if o in seen + ObjectOf(p) then DropTime(snap[o]) else snap[o]
    {
      if o in ObjectOf(p) {
        DropTimeIdempotent(snap[o]);
      }
    }
  }

  /** The encoder's inner loop: the lines of the points of one measurement,
      appended to the lines of the points `done` before them. */
  method EncodePoints(name: string, points: seq<PointArg>, output0: seq<string>,
                      ghost done: seq<(string, PointArg)>, ghost snap: map<JsObject, KeyValues>)
    returns (output: seq<string>)
    requires ObjectsOf(done) <= snap.Keys && ObjectsOf(done + Tagged(name, points)) <= snap.Keys
    requires output0 == Lines(done, snap)
    requires EntriesAfter(snap, ObjectsOf(done))
    modifies snap.Keys
    ensures output == Lines(done + Tagged(name, points), snap)
    ensures EntriesAfter(snap, ObjectsOf(done + Tagged(name, points)))
  {
    output := output0;
    ghost var seen := ObjectsOf(done);
    var j := 0;
    assert done + Tagged(name, points[..j]) == done;
    while j < |points|
      invariant 0 <= j <= |points|
      invariant seen == ObjectsOf(done + Tagged(name, points[..j])) && seen <= snap.Keys
      invariant output == Lines(done + Tagged(name, points[..j]), snap)
      invariant EntriesAfter(snap, seen)
    {
      EncodePointsStep(done, name, points, j, snap);
      var line := EncodeVisit(name, points[j], snap, seen);
      output := output + [line];
      seen := seen + ObjectOf(points[j]);
      j := j + 1;
    }
    assert points[..j] == points;
  }

  /** `_prepareValues`: one line per point, joined by newlines, in
      measurement-then-point order. A truthy `time` is deleted from each field
      object that carries one. */
  method PrepareValues(batch: Batch) returns (body: string)
    modifies ObjectsOf(Flatten(batch))
    ensures body == Encode(batch, old(Snapshot(ObjectsOf(Flatten(batch)))))
    ensures forall o :: o in ObjectsOf(Flatten(batch)) ==> o.entries == DropTime(old(o.entries))
  {
    ghost var snap := Snapshot(ObjectsOf(Flatten(batch)));
    var output: seq<string> := [];
    var i := 0;
    while i < |batch|
      invariant 0 <= i <= |batch|
      invariant ObjectsOf(Flatten(batch[..i])) <= snap.Keys
      invariant output == Lines(Flatten(batch[..i]), snap)
      invariant EntriesAfter(snap, ObjectsOf(Flatten(batch[..i])))
    {
      FlattenStep(batch, i, |batch[i].1|);
      assert batch[i].1[..|batch[i].1|] == batch[i].1;
      assert batch[..i + 1][..i] == batch[..i];
      ObjectsOfPrefix(Flatten(batch[..i + 1]), Flatten(batch));
      output := EncodePoints(batch[i].0, batch[i].1, output, Flatten(batch[..i]), snap);
      i := i + 1;
    }
    assert batch[..i] == batch;
    body := Join(output, "\n");
  }
}
