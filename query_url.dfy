/**
 * The query object that `url` (index.js) builds for an endpoint before
 * `url.format` serialises it.
 *
 * The object starts with the credentials `u` and `p` from the client
 * configuration. The per-call options are merged over it, then the extra query
 * keys (such as `q`), so a later source wins on a shared key. Afterwards
 * `precision`, `db` and `rp` are taken from the client configuration, each
 * only when it is configured (truthy) and the merged object's value is falsy.
 */
module QueryUrl {
  import opened Wrappers
  import opened JsValues

  /** The client configuration fields `url` reads. */
  datatype Config = Config(username: Value, password: Value, timePrecision: Value,
                           database: Value, retentionPolicy: Value)

  /** `o || {}`: an absent argument merges as an empty object. */
  function OrEmpty(o: Option<KeyValues>): KeyValues {
    if o.Some? then o.value else []
  }

  function Credentials(config: Config): KeyValues {
    [("u", config.username), ("p", config.password)]
  }

  /** `_.extend({u, p}, options || {}, query || {})`. */
  function Merged(config: Config, options: Option<KeyValues>, query: Option<KeyValues>): KeyValues {
    Assign(Assign(Credentials(config), OrEmpty(options)), OrEmpty(query))
  }

  /** One of the three conditional assignments of `url`. */
  function Fill(o: KeyValues, k: string, configured: Value): KeyValues {
    if Truthy(configured) && !Truthy(Get(o, k)) then Set(o, k, configured) else o
  }

  /** The query object of `url`, before it is formatted. */
  function QueryObject(config: Config, options: Option<KeyValues>, query: Option<KeyValues>): KeyValues {
    var merged := Merged(config, options, query);
    Fill(Fill(Fill(merged, "precision", config.timePrecision), "db", config.database),
         "rp", config.retentionPolicy)
  }

  /** The keys `url` may take from the client configuration. */
  predicate Configurable(k: string) {
    k == "precision" || k == "db" || k == "rp"
  }

  /** The configured value for a configurable key. */
  function Configured(config: Config, k: string): Value {
    if k == "precision" then config.timePrecision
    else if k == "db" then config.database
    else if k == "rp" then config.retentionPolicy
    else Undefined
  }

  /** The value a caller gives for `k`, by precedence: the query keys, then the
      options, then the configured credentials. */
  function Given(config: Config, options: Option<KeyValues>, query: Option<KeyValues>, k: string): Value {
    if Has(OrEmpty(query), k) then Get(OrEmpty(query), k)
    else if Has(OrEmpty(options), k) then Get(OrEmpty(options), k)
    else if k == "u" then config.username
    else if k == "p" then config.password
    else Undefined
  }

  /** The configurable keys the configuration adds as new keys, in the order
      `url` assigns them: a key the caller holds, even with a falsy value,
      keeps its place. */
  function FilledKeys(config: Config, options: Option<KeyValues>, query: Option<KeyValues>): seq<string> {
    (if Truthy(config.timePrecision) && !Held(options, query, "precision") then ["precision"] else [])
    + (if Truthy(config.database) && !Held(options, query, "db") then ["db"] else [])
    + (if Truthy(config.retentionPolicy) && !Held(options, query, "rp") then ["rp"] else [])
  }

  /** Whether the options or the query hold `k` at all. */
  predicate Held(options: Option<KeyValues>, query: Option<KeyValues>, k: string) {
    Has(OrEmpty(query), k) || Has(OrEmpty(options), k)
  }

  // ---------------------------------------------------------------------
  // The imperative builder
  // ---------------------------------------------------------------------

  /** `url(endpoint, options, query)`: the path and the query object handed to
      `url.format`. */
  method Url(config: Config, endpoint: string, options: Option<KeyValues>, query: Option<KeyValues>)
    returns (pathname: string, queryObj: KeyValues)
    ensures pathname == endpoint
    ensures queryObj == QueryObject(config, options, query)
  {
    queryObj := Assign(Assign(Credentials(config), OrEmpty(options)), OrEmpty(query));
    if Truthy(config.timePrecision) && !Truthy(Get(queryObj, "precision")) {
      queryObj := Set(queryObj, "precision", config.timePrecision);
    }
    if Truthy(config.database) && !Truthy(Get(queryObj, "db")) {
      queryObj := Set(queryObj, "db", config.database);
    }
    if Truthy(config.retentionPolicy) && !Truthy(Get(queryObj, "rp")) {
      queryObj := Set(queryObj, "rp", config.retentionPolicy);
    }
    pathname := endpoint;
  }

  // ---------------------------------------------------------------------
  // What the query object holds
  // ---------------------------------------------------------------------

  /** The merge gives each key the value of the latest source that holds it. */
  lemma MergedGet(config: Config, options: Option<KeyValues>, query: Option<KeyValues>, k: string)
    requires DistinctKeys(OrEmpty(options)) && DistinctKeys(OrEmpty(query))
    ensures Get(Merged(config, options, query), k) == Given(config, options, query, k)
    ensures Has(Merged(config, options, query), k) <==> k == "u" || k == "p" || Held(options, query, k)
  {
    CredentialsGet(config, k);
    AssignGet(Credentials(config), OrEmpty(options), k);
    AssignGet(Assign(Credentials(config), OrEmpty(options)), OrEmpty(query), k);
  }

  lemma CredentialsGet(config: Config, k: string)
    ensures Get(Credentials(config), k) ==
            if k == "u" then config.username else if k == "p" then config.password else Undefined
    ensures Has(Credentials(config), k) <==> k == "u" || k == "p"
  {
    assert Keys(Credentials(config)) == ["u", "p"];
  }

  lemma FillGet(o: KeyValues, k: string, configured: Value, k': string)
    ensures Get(Fill(o, k, configured), k') ==
            if k' == k && Truthy(configured) && !Truthy(Get(o, k)) then configured else Get(o, k')
  {
  }

  /** Every key of the query object. A key the configuration cannot supply
      holds the caller's value by precedence, so the options may even replace
      the credentials. A configurable key holds the caller's value when that is
      truthy, and otherwise the configured value when that is truthy. */
  lemma QueryGet(config: Config, options: Option<KeyValues>, query: Option<KeyValues>, k: string)
    requires DistinctKeys(OrEmpty(options)) && DistinctKeys(OrEmpty(query))
    ensures var given := Given(config, options, query, k);
            Get(QueryObject(config, options, query), k) ==
              if Configurable(k) && !Truthy(given) && Truthy(Configured(config, k)) then Configured(config, k)
              else given
  {
    var merged := Merged(config, options, query);
    MergedGet(config, options, query, k);
    MergedGet(config, options, query, "precision");
    MergedGet(config, options, query, "db");
    MergedGet(config, options, query, "rp");
    var a := Fill(merged, "precision", config.timePrecision);
    var b := Fill(a, "db", config.database);
    FillGet(merged, "precision", config.timePrecision, k);
    FillGet(merged, "precision", config.timePrecision, "db");
    FillGet(merged, "precision", config.timePrecision, "rp");
    FillGet(a, "db", config.database, k);
    FillGet(a, "db", config.database, "rp");
    FillGet(b, "rp", config.retentionPolicy, k);
  }

  /** A configurable key is truthy in the query object exactly when the caller
      or the configuration gives it a truthy value. */
  lemma QueryTruthy(config: Config, options: Option<KeyValues>, query: Option<KeyValues>, k: string)
    requires DistinctKeys(OrEmpty(options)) && DistinctKeys(OrEmpty(query))
    requires Configurable(k)
    ensures Truthy(Get(QueryObject(config, options, query), k)) <==>
            Truthy(Given(config, options, query, k)) || Truthy(Configured(config, k))
  {
    QueryGet(config, options, query, k);
  }

  lemma FillKeys(o: KeyValues, k: string, configured: Value)
    ensures Keys(Fill(o, k, configured)) ==
            Keys(o) + if Truthy(configured) && !Truthy(Get(o, k)) && !Has(o, k) then [k] else []
    ensures forall k' :: k' != k ==> (Has(Fill(o, k, configured), k') <==> Has(o, k'))
  {
  }

  /** The keys of three successive fills: the object's own, then each filled
      key the object did not hold, in order. */
  lemma FillThreeKeys(o: KeyValues, vp: Value, vd: Value, vr: Value)
    ensures Keys(Fill(Fill(Fill(o, "precision", vp), "db", vd), "rp", vr)) ==
            Keys(o) + ((if Truthy(vp) && !Truthy(Get(o, "precision")) && !Has(o, "precision") then ["precision"] else [])
                       + (if Truthy(vd) && !Truthy(Get(o, "db")) && !Has(o, "db") then ["db"] else [])
                       + (if Truthy(vr) && !Truthy(Get(o, "rp")) && !Has(o, "rp") then ["rp"] else []))
  {
    var a := Fill(o, "precision", vp);
    var b := Fill(a, "db", vd);
    FillKeysAs(o, o, "precision", vp);
    FillStable(o, "precision", vp, "db");
    FillKeysAs(a, o, "db", vd);
    FillStable(o, "precision", vp, "rp");
    FillStable(a, "db", vd, "rp");
    FillKeysAs(b, o, "rp", vr);
    Regroup(Keys(o),
      if Truthy(vp) && !Truthy(Get(o, "precision")) && !Has(o, "precision") then ["precision"] else [],
      if Truthy(vd) && !Truthy(Get(o, "db")) && !Has(o, "db") then ["db"] else [],
      if Truthy(vr) && !Truthy(Get(o, "rp")) && !Has(o, "rp") then ["rp"] else []);
  }

  /** A fill of `k` into an object that agrees on `k` with `o` adds `k` when
      it would add it to `o`. */
  lemma FillKeysAs(a: KeyValues, o: KeyValues, k: string, configured: Value)
    requires Get(a, k) == Get(o, k) && (Has(a, k) <==> Has(o, k))
    ensures Keys(Fill(a, k, configured)) ==
            Keys(a) + if Truthy(configured) && !Truthy(Get(o, k)) && !Has(o, k) then [k] else []
  {
    FillKeys(a, k, configured);
  }

  /** A fill leaves every other key as it was. */
  lemma FillStable(o: KeyValues, k: string, configured: Value, k': string)
    requires k' != k
    ensures Get(Fill(o, k, configured), k') == Get(o, k')
    ensures Has(Fill(o, k, configured), k') <==> Has(o, k')
  {
    FillGet(o, k, configured, k');
    FillKeys(o, k, configured);
  }

  lemma Regroup(w: seq<string>, a: seq<string>, b: seq<string>, c: seq<string>)
    ensures ((w + a) + b) + c == w + ((a + b) + c)
  {
  }

  /** The keys of the merged object: the credentials, the options' new keys,
      then the query's new keys. */
  lemma MergedKeys(config: Config, options: Option<KeyValues>, query: Option<KeyValues>)
    requires DistinctKeys(OrEmpty(options)) && DistinctKeys(OrEmpty(query))
    ensures Keys(Merged(config, options, query)) ==
              ["u", "p"] + NewKeys(Keys(OrEmpty(options)), ["u", "p"])
              + NewKeys(Keys(OrEmpty(query)), Keys(Assign(Credentials(config), OrEmpty(options))))
  {
    var creds := Credentials(config);
    assert Keys(creds) == ["u", "p"];
    AssignKeys(creds, OrEmpty(options));
    AssignKeys(Assign(creds, OrEmpty(options)), OrEmpty(query));
  }

  /** The key order of the query object: the merged object's keys, then the
      configurable keys the configuration fills in and the caller did not
      hold at all, in the order precision, db, rp. */
  lemma QueryKeys(config: Config, options: Option<KeyValues>, query: Option<KeyValues>)
    requires DistinctKeys(OrEmpty(options)) && DistinctKeys(OrEmpty(query))
    ensures Keys(QueryObject(config, options, query)) ==
              Keys(Merged(config, options, query)) + FilledKeys(config, options, query)
  {
    var merged := Merged(config, options, query);
    FillThreeKeys(merged, config.timePrecision, config.database, config.retentionPolicy);
    NewIff(config, options, query, "precision", config.timePrecision);
    NewIff(config, options, query, "db", config.database);
    NewIff(config, options, query, "rp", config.retentionPolicy);
  }

  lemma NewIff(config: Config, options: Option<KeyValues>, query: Option<KeyValues>, k: string, v: Value)
    requires DistinctKeys(OrEmpty(options)) && DistinctKeys(OrEmpty(query))
    requires Configurable(k)
    ensures var merged := Merged(config, options, query);
            (if Truthy(v) && !Held(options, query, k) then [k] else []) ==
            (if Truthy(v) && !Truthy(Get(merged, k)) && !Has(merged, k) then [k] else [])
  {
    MergedGet(config, options, query, k);
  }

  /** With per-call `db`, `rp` and `precision`, those keys follow the
      credentials in the caller's order and keep the caller's values. */
  lemma OptionsKeyOrder(config: Config, db: Value, rp: Value, precision: Value)
    ensures var q := QueryObject(config, Some([("db", db), ("rp", rp), ("precision", precision)]), None);
            Keys(q) == ["u", "p", "db", "rp", "precision"]
            && (Truthy(db) ==> Get(q, "db") == db) && (Truthy(rp) ==> Get(q, "rp") == rp)
            && (Truthy(precision) ==> Get(q, "precision") == precision)
  {
    var options := Some([("db", db), ("rp", rp), ("precision", precision)]);
    DistinctKeysThree("db", "rp", "precision", db, rp, precision);
    OptionsKeys(config, db, rp, precision);
    QueryKeys(config, options, None);
    OptionsGiven(config, db, rp, precision);
    QueryGet(config, options, None, "db");
    QueryGet(config, options, None, "rp");
    QueryGet(config, options, None, "precision");
  }

  lemma OptionsGiven(config: Config, db: Value, rp: Value, precision: Value)
    ensures var options := Some([("db", db), ("rp", rp), ("precision", precision)]);
            Given(config, options, None, "db") == db && Given(config, options, None, "rp") == rp
            && Given(config, options, None, "precision") == precision
  {
    var o := [("db", db), ("rp", rp), ("precision", precision)];
    DistinctKeysThree("db", "rp", "precision", db, rp, precision);
    assert o[1..] == [("rp", rp), ("precision", precision)];
    assert o[1..][1..] == [("precision", precision)];
    assert Get(o[1..][1..], "precision") == precision;
    assert Get(o[1..], "precision") == precision;
    assert Get(o, "db") == db && Get(o, "rp") == rp && Get(o, "precision") == precision;
    assert Has(o, "db") && Has(o, "rp") && Has(o, "precision");
    assert !Has(OrEmpty(None), "db") && !Has(OrEmpty(None), "rp") && !Has(OrEmpty(None), "precision");
  }

  lemma OptionsHeld(db: Value, rp: Value, precision: Value)
    ensures var options := Some([("db", db), ("rp", rp), ("precision", precision)]);
            Held(options, None, "db") && Held(options, None, "rp") && Held(options, None, "precision")
  {
    DistinctKeysThree("db", "rp", "precision", db, rp, precision);
  }

  lemma OptionsKeys(config: Config, db: Value, rp: Value, precision: Value)
    ensures var options := Some([("db", db), ("rp", rp), ("precision", precision)]);
            Keys(Merged(config, options, None)) == ["u", "p", "db", "rp", "precision"]
            && FilledKeys(config, options, None) == []
  {
    OptionsMergedKeys(config, db, rp, precision);
    OptionsHeld(db, rp, precision);
  }

  lemma OptionsMergedKeys(config: Config, db: Value, rp: Value, precision: Value)
    ensures var options := Some([("db", db), ("rp", rp), ("precision", precision)]);
            Keys(Merged(config, options, None)) == ["u", "p", "db", "rp", "precision"]
  {
    var o := [("db", db), ("rp", rp), ("precision", precision)];
    DistinctKeysThree("db", "rp", "precision", db, rp, precision);
    MergedOptionsOnly(config, o);
    Concat2And3("u", "p", "db", "rp", "precision");
  }

  /** Options without credentials of their own follow the credentials in
      their own order. */
  lemma MergedOptionsOnly(config: Config, o: KeyValues)
    requires DistinctKeys(o) && !Has(o, "u") && !Has(o, "p")
    ensures Keys(Merged(config, Some(o), None)) == ["u", "p"] + Keys(o)
  {
    MergedKeys(config, Some(o), None);
    NewKeysDisjoint(Keys(o), ["u", "p"]);
    NoNewKeys(Keys(Assign(Credentials(config), o)));
    assert (["u", "p"] + Keys(o)) + [] == ["u", "p"] + Keys(o);
  }

  lemma {:induction false} NewKeysDisjoint(ks: seq<string>, existing: seq<string>)
    requires forall k :: k in ks ==> k !in existing
    ensures NewKeys(ks, existing) == ks
  {
    if ks != [] {
      assert ks[0] in ks;
      assert forall k :: k in ks[1..] ==> k in ks;
      NewKeysDisjoint(ks[1..], existing);
      assert ks == [ks[0]] + ks[1..];
    }
  }

  lemma NoNewKeys(existing: seq<string>)
    ensures NewKeys(Keys(OrEmpty(None)), existing) == []
  {
    assert Keys(OrEmpty(None)) == [];
  }

  /** Without options, the configured precision, database and retention
      policy follow the credentials in that order. */
  lemma ConfigKeyOrder(config: Config)
    requires Truthy(config.timePrecision) && Truthy(config.database) && Truthy(config.retentionPolicy)
    ensures var q := QueryObject(config, None, None);
            Keys(q) == ["u", "p", "precision", "db", "rp"]
            && Get(q, "precision") == config.timePrecision && Get(q, "db") == config.database
            && Get(q, "rp") == config.retentionPolicy
  {
    ConfigKeys(config);
    QueryKeys(config, None, None);
    Concat2And3("u", "p", "precision", "db", "rp");
    QueryGet(config, None, None, "precision");
    QueryGet(config, None, None, "db");
    QueryGet(config, None, None, "rp");
  }

  lemma ConfigKeys(config: Config)
    requires Truthy(config.timePrecision) && Truthy(config.database) && Truthy(config.retentionPolicy)
    ensures Keys(Merged(config, None, None)) == ["u", "p"]
    ensures FilledKeys(config, None, None) == ["precision", "db", "rp"]
  {
    assert Keys(OrEmpty(None)) == [];
    MergedKeys(config, None, None);
  }

  lemma Concat2And3(a: string, b: string, c: string, d: string, e: string)
    ensures [a, b] + [c, d, e] == [a, b, c, d, e]
  {
  }

  lemma DistinctKeysThree(a: string, b: string, c: string, x: Value, y: Value, z: Value)
    requires a != b && a != c && b != c
    ensures DistinctKeys([(a, x), (b, y), (c, z)])
    ensures Keys([(a, x), (b, y), (c, z)]) == [a, b, c]
  {
    var o := [(a, x), (b, y), (c, z)];
    assert o[1..][1..][1..] == [];
    assert DistinctKeys(o[1..][1..]);
    assert Keys(o[1..][1..]) == [c];
    assert Keys(o[1..]) == [b, c];
    assert DistinctKeys(o[1..]);
  }
}
