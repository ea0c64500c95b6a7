/** An optional value, for results that may be absent. */
module Wrappers {
  datatype Option<+T> = None | Some(value: T)
}

/**
 * The JavaScript values the client library handles, and plain objects as
 * ordered lists of own properties.
 *
 * A plain object is modelled by the sequence of its own enumerable properties
 * in enumeration order. Reading a property that is absent yields `Undefined`,
 * as it does in JavaScript. Assignment keeps an existing key in its place and
 * appends a new one. That is the order in which lodash's `_.map`, `_.keys`
 * and `_.extend` visit keys that are not array indices; JavaScript lists
 * integer-like keys such as "0" first, in ascending order, and the model
 * orders those by insertion as well.
 */
module JsValues {
  import opened Wrappers

  /** The kinds of value that reach the library. Numbers are integers here; a
      Date is held as its millisecond epoch (what `getTime()` returns). */
  datatype Value = Undefined | Null | Bool(b: bool) | Num(n: int) | Str(s: string) | Date(epoch: int)

  /** A plain object: its own enumerable properties in enumeration order. */
  type KeyValues = seq<(string, Value)>

  /** JavaScript truthiness. */
  predicate Truthy(v: Value) {
    match v
    case Undefined => false
    case Null => false
    case Bool(b) => b
    case Num(n) => n != 0
    case Str(s) => s != ""
    case Date(_) => true
  }

  // ---------------------------------------------------------------------
  // Decimal text of integers, and its inverse
  // ---------------------------------------------------------------------

  function DigitChar(d: nat): (c: char)
    requires d < 10
    ensures '0' <= c <= '9' && c as int - '0' as int == d
  {
    (d + '0' as int) as char
  }

  predicate IsDigit(c: char) {
    '0' <= c <= '9'
  }

  predicate AllDigits(s: string) {
    forall i :: 0 <= i < |s| ==> IsDigit(s[i])
  }

  /** The decimal text of a natural number, without leading zeros. */
  function NatText(n: nat): string
  {
    if n < 10 then [DigitChar(n)] else NatText(n / 10) + [DigitChar(n % 10)]
  }

  /** What `'' + n` produces for a JavaScript number holding the integer `n`
      exactly, with |n| at most 2^53; beyond that JavaScript writes the
      shortest digits that read back to the same double, or exponent
      notation from 1e21 on, which is not modelled. */
  function IntText(i: int): string
  {
    if i < 0 then "-" + NatText(-i) else NatText(i)
  }

  /** The number a string of decimal digits denotes. */
  function DigitsValue(s: string): nat
    requires AllDigits(s)
  {
    if s == [] then 0 else DigitsValue(s[..|s| - 1]) * 10 + (s[|s| - 1] as int - '0' as int)
  }

  /** Reads an optionally signed decimal integer; `None` for anything else. */
  function ParseInt(s: string): (r: Option<int>)
    ensures r.Some? ==> |s| > 0
  {
    if |s| > 1 && s[0] == '-' && AllDigits(s[1..]) then Some(0 - DigitsValue(s[1..]))
    else if |s| > 0 && AllDigits(s) then Some(DigitsValue(s))
    else None
  }

  lemma {:induction false} NatTextDigits(n: nat)
    ensures |NatText(n)| > 0 && AllDigits(NatText(n)) && DigitsValue(NatText(n)) == n
    decreases n
  {
    if n >= 10 {
      NatTextDigits(n / 10);
      var s := NatText(n / 10) + [DigitChar(n % 10)];
      assert s[..|s| - 1] == NatText(n / 10);
    }
  }

  /** Reading back the text of an integer gives the integer. */
  lemma IntTextRoundTrip(i: int)
    ensures ParseInt(IntText(i)) == Some(i)
  {
    if i < 0 {
      NatTextDigits(-i);
      assert IntText(i)[1..] == NatText(-i);
    } else {
      NatTextDigits(i);
    }
  }

  /** The text of an integer never contains a separator of the line protocol. */
  lemma IntTextPlain(i: int)
    ensures |IntText(i)| > 0
    ensures forall c :: c in IntText(i) ==> c == '-' || IsDigit(c)
  {
    NatTextDigits(if i < 0 then -i else i);
  }

  /** What `String(v)`, or `'' + v`, gives. A Date is rendered as its epoch. */
  function Text(v: Value): string
  {
    match v
    case Undefined => "undefined"
    case Null => "null"
    case Bool(b) => if b then "true" else "false"
    case Num(n) => IntText(n)
    case Str(s) => s
    case Date(e) => IntText(e)
  }

  // ---------------------------------------------------------------------
  // Plain objects
  // ---------------------------------------------------------------------

  /** `_.keys(o)`. */
  function Keys(o: KeyValues): (ks: seq<string>)
    ensures |ks| == |o|
  {
    if o == [] then [] else [o[0].0] + Keys(o[1..])
  }

  predicate Has(o: KeyValues, k: string) {
    k in Keys(o)
  }

  /** An object never holds a key twice. */
  predicate DistinctKeys(o: KeyValues) {
    o == [] || (o[0].0 !in Keys(o[1..]) && DistinctKeys(o[1..]))
  }

  /** `o[k]`: the value under `k`, `Undefined` when there is none. */
  function Get(o: KeyValues, k: string): (v: Value)
    ensures !Has(o, k) ==> v == Undefined
  {
    if o == [] then Undefined else if o[0].0 == k then o[0].1 else Get(o[1..], k)
  }

  /** `o[k] = v`: an existing key keeps its place, a new key goes last. */
  function Set(o: KeyValues, k: string, v: Value): (r: KeyValues)
    ensures Get(r, k) == v && Has(r, k)
    ensures forall k' :: k' != k ==> Get(r, k') == Get(o, k') && (Has(r, k') <==> Has(o, k'))
    ensures Keys(r) == if Has(o, k) then Keys(o) else Keys(o) + [k]
    ensures DistinctKeys(o) ==> DistinctKeys(r)
  {
    if o == [] then [(k, v)]
    else if o[0].0 == k then [(k, v)] + o[1..]
    else [o[0]] + Set(o[1..], k, v)
  }

  /** `delete o[k]`: the other properties keep their order. */
  function Delete(o: KeyValues, k: string): (r: KeyValues)
    ensures !Has(r, k) && Get(r, k) == Undefined
    ensures forall k' :: k' in Keys(r) <==> k' in Keys(o) && k' != k
    ensures DistinctKeys(o) ==> DistinctKeys(r)
    ensures !Has(o, k) ==> r == o
    ensures |r| <= |o|
  {
    if o == [] then []
    else if o[0].0 == k then
      assert Keys(o) == [k] + Keys(o[1..]);
      Delete(o[1..], k)
    else
      var d := Delete(o[1..], k);
      assert ([o[0]] + d)[1..] == d;
      assert Keys([o[0]] + d) == [o[0].0] + Keys(d);
      assert Keys(o) == [o[0].0] + Keys(o[1..]);
      [o[0]] + d
  }

  /** Deleting one key leaves the value of every other key as it was. */
  lemma {:induction false} DeleteGet(o: KeyValues, k: string, k': string)
    requires k' != k
    ensures Get(Delete(o, k), k') == Get(o, k')
  {
    if o != [] && o[0].0 != k {
      DeleteGet(o[1..], k, k');
      assert ([o[0]] + Delete(o[1..], k))[1..] == Delete(o[1..], k);
    } else if o != [] {
      DeleteGet(o[1..], k, k');
    }
  }

  /** `_.extend(target, source)`: each property of `source`, in order, is
      assigned onto `target`. */
  function Assign(target: KeyValues, source: KeyValues): (r: KeyValues)
    ensures DistinctKeys(target) ==> DistinctKeys(r)
    decreases source
  {
    if source == [] then target else Assign(Set(target, source[0].0, source[0].1), source[1..])
  }

  /** The keys of `ks` that `existing` does not hold, in order. */
  function NewKeys(ks: seq<string>, existing: seq<string>): seq<string>
  {
    if ks == [] then [] else (if ks[0] in existing then [] else [ks[0]]) + NewKeys(ks[1..], existing)
  }

  /** After `_.extend`, a key the source holds has the source's value and
      every other key keeps the target's. */
  lemma {:induction false} AssignGet(target: KeyValues, source: KeyValues, k: string)
    requires DistinctKeys(source)
    ensures Get(Assign(target, source), k) == if Has(source, k) then Get(source, k) else Get(target, k)
    ensures Has(Assign(target, source), k) <==> Has(target, k) || Has(source, k)
    decreases source
  {
    if source != [] {
      AssignGet(Set(target, source[0].0, source[0].1), source[1..], k);
      assert Keys(source) == [source[0].0] + Keys(source[1..]);
    }
  }

  lemma {:induction false} NewKeysSkip(ks: seq<string>, existing: seq<string>, k: string)
    requires k !in ks
    ensures NewKeys(ks, existing + [k]) == NewKeys(ks, existing)
  {
    if ks != [] {
      NewKeysSkip(ks[1..], existing, k);
    }
  }

  /** `_.extend` keeps the target's keys in place and appends the source's new
      keys in the source's order. */
  lemma {:induction false} AssignKeys(target: KeyValues, source: KeyValues)
    requires DistinctKeys(source)
    ensures Keys(Assign(target, source)) == Keys(target) + NewKeys(Keys(source), Keys(target))
    decreases source
  {
    if source != [] {
      var k := source[0].0;
      var t := Set(target, k, source[0].1);
      AssignKeys(t, source[1..]);
      assert Keys(source) == [k] + Keys(source[1..]);
      if !Has(target, k) {
        assert k !in Keys(source[1..]);
        NewKeysSkip(Keys(source[1..]), Keys(target), k);
      }
    }
  }

  /** Assigning a key the object does not hold appends it. */
  lemma {:induction false} SetNew(o: KeyValues, k: string, v: Value)
    requires !Has(o, k)
    ensures Set(o, k, v) == o + [(k, v)]
  {
    if o != [] {
      assert Keys(o) == [o[0].0] + Keys(o[1..]);
      SetNew(o[1..], k, v);
      assert o == [o[0]] + o[1..];
    }
  }

  /** A JavaScript object held by reference: a callee may change the caller's
      object in place. */
  class JsObject {
    var entries: KeyValues

    constructor (kvs: KeyValues)
      ensures entries == kvs
    {
      entries := kvs;
    }
  }
}
