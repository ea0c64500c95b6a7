/**
 * What the client object (index.js) adds around the encoder, the query
 * builder and the transport: the defaults `writeMeasurements` fills into the
 * caller's options before a write, and `_parseAttributes`, which renders an
 * options object as `key<delimiter>value ` pairs for the statements that
 * take a `WITH` or `WHERE` clause.
 *
 * `writeMeasurements` stores a missing per-call database under the key
 * `database`, but the query object's database key is `db`, so as written a
 * per-call database never selects the database written to. The function
 * `WriteDefaultsAsWritten` keeps that behaviour and the lemmas beside it show
 * the effect, and the imperative `WriteMeasurements` follows it;
 * `WriteDefaults` is the correction, which also copies the database to `db`.
 */
module Client {
  import opened JsValues
  import opened Wrappers
  import opened QueryUrl
  import LineProtocol

  // ---------------------------------------------------------------------
  // The defaults of a write
  // ---------------------------------------------------------------------

  /** `if (!o[k]) o[k] = v`. */
  function Default(o: KeyValues, k: string, v: Value): KeyValues {
    if !Truthy(Get(o, k)) then Set(o, k, v) else o
  }

  /** The defaulting of `writeMeasurements` as written: a falsy `database` takes
      the configured database and a falsy `precision` the configured
      precision. */
  function WriteDefaultsAsWritten(config: Config, options: KeyValues): KeyValues {
    Default(Default(options, "database", config.database), "precision", config.timePrecision)
  }

  /** The query object of a write as written. */
  function WriteQueryAsWritten(config: Config, options: KeyValues): KeyValues {
    QueryObject(config, Some(WriteDefaultsAsWritten(config, options)), None)
  }

  /** The defaulting with the per-call database also under `db`: a falsy `db`
      takes the (defaulted) `database`. */
  function WriteDefaults(config: Config, options: KeyValues): KeyValues {
    var withDatabase := Default(options, "database", config.database);
    Default(Default(withDatabase, "db", Get(withDatabase, "database")), "precision", config.timePrecision)
  }

  /** The query object of a write. */
  function WriteQuery(config: Config, options: KeyValues): KeyValues {
    QueryObject(config, Some(WriteDefaults(config, options)), None)
  }

  /** The database a write is meant for: the caller's `db`, else the caller's
      `database`, else the configured one. */
  function TargetDatabase(config: Config, options: KeyValues): Value {
    if Truthy(Get(options, "db")) then Get(options, "db")
    else if Truthy(Get(options, "database")) then Get(options, "database")
    else config.database
  }

  /** The precision a write is meant for: the caller's when truthy, else the
      configured one. */
  function TargetPrecision(config: Config, options: KeyValues): Value {
    if Truthy(Get(options, "precision")) then Get(options, "precision") else config.timePrecision
  }

  lemma DefaultGet(o: KeyValues, k: string, v: Value, k': string)
    ensures Get(Default(o, k, v), k') == if k' == k && !Truthy(Get(o, k)) then v else Get(o, k')
    ensures DistinctKeys(o) ==> DistinctKeys(Default(o, k, v))
    ensures Has(Default(o, k, v), k') <==> Has(o, k') || (k' == k && !Truthy(Get(o, k)))
  {
  }

  /** What the corrected defaulting leaves under each key: `database`, `db`
      and `precision` hold their targets, and every other key is untouched. */
  lemma WriteDefaultsGet(config: Config, options: KeyValues, k: string)
    requires DistinctKeys(options)
    ensures DistinctKeys(WriteDefaults(config, options))
    ensures Get(WriteDefaults(config, options), k) ==
              if k == "db" then TargetDatabase(config, options)
              else if k == "database" then (if Truthy(Get(options, "database")) then Get(options, "database") else config.database)
              else if k == "precision" then TargetPrecision(config, options)
              else Get(options, k)
  {
    var a := Default(options, "database", config.database);
    var b := Default(a, "db", Get(a, "database"));
    DefaultGet(options, "database", config.database, k);
    DefaultGet(options, "database", config.database, "database");
    DefaultGet(options, "database", config.database, "db");
    DefaultGet(options, "database", config.database, "precision");
    DefaultGet(a, "db", Get(a, "database"), k);
    DefaultGet(a, "db", Get(a, "database"), "precision");
    DefaultGet(b, "precision", config.timePrecision, k);
  }

  /** What the defaulting as written leaves under each key: `database` and
      `precision` hold the caller's value when truthy, else the configured
      one; `db` and every other key are untouched. */
  lemma WriteDefaultsAsWrittenGet(config: Config, options: KeyValues, k: string)
    requires DistinctKeys(options)
    ensures DistinctKeys(WriteDefaultsAsWritten(config, options))
    ensures Get(WriteDefaultsAsWritten(config, options), k) ==
              if k == "database" then (if Truthy(Get(options, "database")) then Get(options, "database") else config.database)
              else if k == "precision" then TargetPrecision(config, options)
              else Get(options, k)
  {
    var a := Default(options, "database", config.database);
    DefaultGet(options, "database", config.database, k);
    DefaultGet(options, "database", config.database, "precision");
    DefaultGet(a, "precision", config.timePrecision, k);
  }

  /** The query of a corrected write targets the intended database and
      precision, and keeps the configured retention policy unless the caller
      gives a truthy `rp`. */
  lemma WriteQueryTargets(config: Config, options: KeyValues)
    requires DistinctKeys(options)
    ensures var q := WriteQuery(config, options);
            Get(q, "db") == TargetDatabase(config, options)
            && Get(q, "precision") == TargetPrecision(config, options)
            && Get(q, "rp") == (if !Truthy(Get(options, "rp")) && Truthy(config.retentionPolicy) then config.retentionPolicy
                                else Get(options, "rp"))
  {
    var d := WriteDefaults(config, options);
    WriteDefaultsGet(config, options, "db");
    WriteDefaultsGet(config, options, "precision");
    WriteDefaultsGet(config, options, "rp");
    assert DistinctKeys(OrEmpty(None));
    QueryGet(config, Some(d), None, "db");
    QueryGet(config, Some(d), None, "precision");
    QueryGet(config, Some(d), None, "rp");
  }

  /** As written, the database of a write is the configured one whenever the
      caller gives no truthy `db`, whatever the caller's `database` says. */
  lemma WriteIgnoresDatabaseAsWritten(config: Config, options: KeyValues)
    requires DistinctKeys(options)
    requires !Truthy(Get(options, "db")) && Truthy(config.database)
    ensures Get(WriteQueryAsWritten(config, options), "db") == config.database
  {
    var d := WriteDefaultsAsWritten(config, options);
    var a := Default(options, "database", config.database);
    DefaultGet(options, "database", config.database, "db");
    DefaultGet(a, "precision", config.timePrecision, "db");
    assert DistinctKeys(OrEmpty(None));
    QueryGet(config, Some(d), None, "db");
  }

  /** As written, the caller's `database`, or the configured one when it is
      falsy, travels as a query key of its own, `database`. */
  lemma WriteSendsDatabaseKeyAsWritten(config: Config, options: KeyValues)
    requires DistinctKeys(options)
    ensures Get(WriteQueryAsWritten(config, options), "database") ==
              if Truthy(Get(options, "database")) then Get(options, "database") else config.database
  {
    var d := WriteDefaultsAsWritten(config, options);
    var a := Default(options, "database", config.database);
    DefaultGet(options, "database", config.database, "database");
    DefaultGet(a, "precision", config.timePrecision, "database");
    assert DistinctKeys(OrEmpty(None));
    QueryGet(config, Some(d), None, "database");
  }

  /** A write with `{database: "other"}` on a client configured for `"main"`:
      as written, the query carries `database=other` but `db=main`. */
  lemma PerCallDatabaseAsWritten()
    ensures var config := Config(Str("root"), Str("root"), Str("ms"), Str("main"), Undefined);
            var options := [("database", Str("other"))];
            Get(WriteQueryAsWritten(config, options), "db") == Str("main")
            && Get(WriteQueryAsWritten(config, options), "database") == Str("other")
  {
    var config := Config(Str("root"), Str("root"), Str("ms"), Str("main"), Undefined);
    var options := [("database", Str("other"))];
    assert Get(options, "db") == Undefined && Get(options, "database") == Str("other");
    WriteIgnoresDatabaseAsWritten(config, options);
    WriteSendsDatabaseKeyAsWritten(config, options);
  }

  /** The same write, corrected, goes to `"other"`. */
  lemma PerCallDatabaseCorrected()
    ensures var config := Config(Str("root"), Str("root"), Str("ms"), Str("main"), Undefined);
            Get(WriteQuery(config, [("database", Str("other"))]), "db") == Str("other")
  {
    var config := Config(Str("root"), Str("root"), Str("ms"), Str("main"), Undefined);
    var options := [("database", Str("other"))];
    assert Get(options, "db") == Undefined && Get(options, "database") == Str("other");
    WriteQueryTargets(config, options);
  }

  /** The defaulting of `writeMeasurements` as written, in place on the
      caller's options: `database` and `precision` only, never `db`. */
  method FillWriteDefaults(config: Config, options: JsObject)
    modifies options
    ensures options.entries == WriteDefaultsAsWritten(config, old(options.entries))
  {
    if !Truthy(Get(options.entries, "database")) {
      options.entries := Set(options.entries, "database", config.database);
    }
    if !Truthy(Get(options.entries, "precision")) {
      options.entries := Set(options.entries, "precision", config.timePrecision);
    }
  }

  /** `writeMeasurements`: fills the defaults into the caller's options, then
      builds the query of the `write` endpoint and the line protocol body. */
  method WriteMeasurements(config: Config, batch: LineProtocol.Batch, options: JsObject)
    returns (pathname: string, query: KeyValues, body: string)
    requires options !in LineProtocol.ObjectsOf(LineProtocol.Flatten(batch))
    modifies options, LineProtocol.ObjectsOf(LineProtocol.Flatten(batch))
    ensures options.entries == WriteDefaultsAsWritten(config, old(options.entries))
    ensures pathname == "write" && query == WriteQueryAsWritten(config, old(options.entries))
    ensures body == LineProtocol.Encode(batch, old(LineProtocol.Snapshot(LineProtocol.ObjectsOf(LineProtocol.Flatten(batch)))))
    ensures forall o :: o in LineProtocol.ObjectsOf(LineProtocol.Flatten(batch)) ==>
              o.entries == LineProtocol.DropTime(old(o.entries))
  {
    ghost var objects := LineProtocol.ObjectsOf(LineProtocol.Flatten(batch));
    ghost var snap := LineProtocol.Snapshot(objects);
    FillWriteDefaults(config, options);
    assert LineProtocol.Snapshot(objects) == snap;
    pathname, query := Url(config, "write", Some(options.entries), None);
    body := LineProtocol.PrepareValues(batch);
  }

  // ---------------------------------------------------------------------
  // Statement attributes
  // ---------------------------------------------------------------------

  /** One attribute: the key, the delimiter, the value's text and a space. */
  function Attribute(kv: (string, Value), delimiter: string): string {
    kv.0 + delimiter + Text(kv.1) + " "
  }

  /** The attributes of an object, in its key order. */
  function Attributes(o: KeyValues, delimiter: string): string
  {
    if o == [] then "" else Attributes(o[..|o| - 1], delimiter) + Attribute(o[|o| - 1], delimiter)
  }

  /** `delimiter || ' '`. */
  function Delimiter(delimiter: Value): string {
    if Truthy(delimiter) then Text(delimiter) else " "
  }

  /** `_parseAttributes(options, delimiter)`. */
  method ParseAttributes(options: KeyValues, delimiter: Value) returns (attributes: string)
    ensures attributes == Attributes(options, Delimiter(delimiter))
  {
    attributes := "";
    var d := if Truthy(delimiter) then Text(delimiter) else " ";
    var i := 0;
    while i < |options|
      invariant 0 <= i <= |options|
      invariant attributes == Attributes(options[..i], d)
    {
      var piece := options[i].0 + d + Text(options[i].1) + " ";
      AttributesSnoc(options, i, d);
      attributes := attributes + piece;
      i := i + 1;
    }
    assert options[..i] == options;
  }

  lemma AttributesSnoc(o: KeyValues, i: nat, delimiter: string)
    requires i < |o|
    ensures Attributes(o[..i + 1], delimiter) == Attributes(o[..i], delimiter) + Attribute(o[i], delimiter)
  {
    assert o[..i + 1][..i] == o[..i];
  }

  /** The attributes of two objects in a row are those of the first followed
      by those of the second. */
  lemma {:induction false} AttributesAppend(a: KeyValues, b: KeyValues, delimiter: string)
    ensures Attributes(a + b, delimiter) == Attributes(a, delimiter) + Attributes(b, delimiter)
    decreases |b|
  {
    if b == [] {
      assert a + b == a;
    } else {
      var last := b[|b| - 1];
      var init := b[..|b| - 1];
      assert (a + b)[..|a + b| - 1] == a + init;
      assert (a + b)[|a + b| - 1] == last;
      assert Attributes(a + b, delimiter) == Attributes(a + init, delimiter) + Attribute(last, delimiter);
      AttributesAppend(a, init, delimiter);
      LineProtocol.Associative(Attributes(a, delimiter), Attributes(init, delimiter), Attribute(last, delimiter));
    }
  }

  /** Read from the front: the first attribute, then the rest. */
  lemma AttributesCons(kv: (string, Value), rest: KeyValues, delimiter: string)
    ensures Attributes([kv] + rest, delimiter) == Attribute(kv, delimiter) + Attributes(rest, delimiter)
  {
    var one := [kv];
    assert Attributes(one, delimiter) == Attribute(kv, delimiter) by {
      assert one[..0] == [];
    }
    AttributesAppend(one, rest, delimiter);
  }

  /** Every attribute is followed by a space, so a non-empty object renders
      to text that ends in one; an empty object renders to nothing. */
  lemma AttributesEnd(o: KeyValues, delimiter: string)
    ensures o == [] <==> Attributes(o, delimiter) == ""
    ensures o != [] ==> Attributes(o, delimiter)[|Attributes(o, delimiter)| - 1] == ' '
  {
  }

  /** The retention-policy options `{duration: '1d', replication: 1}` render
      as `duration 1d replication 1 `. */
  lemma AttributesExample()
    ensures Attributes([("duration", Str("1d")), ("replication", Num(1))], Delimiter(Undefined))
            == "duration 1d replication 1 "
  {
    var o := [("duration", Str("1d")), ("replication", Num(1))];
    assert o[..1] == [("duration", Str("1d"))];
    assert o[..1][..0] == [];
    assert Text(Num(1)) == "1";
  }
}
