/**
 * The resubmission loop of the transport (lib/InfluxRequest.js, `_request`
 * and `_parseCallback`), apart from what an attempt's options hold.
 *
 * An attempt prepares its options from the previous ones, which counts it;
 * its reply is resubmitted while it is retryable and the count is within
 * `maxRetries`. Options are of any type `T`, replies of any type `R`: `ok`
 * says which options are well formed, `count` reads their count, and
 * `retryable` says which replies are resubmitted. The HTTP call is `net`:
 * `net(k)` is the reply of the `k`-th attempt (from 0).
 */
module Retry {

  /** A preparation counts each attempt: well-formed options stay well formed
      and their count goes up by one. */
  ghost predicate Counting<T(!new)>(prepare: T -> T, ok: T -> bool, count: T -> int) {
    forall o {:trigger prepare(o)} :: ok(o) ==> ok(prepare(o)) && count(prepare(o)) == count(o) + 1
  }

  /** Whether the attempt from `options` that received `net(k)` is resubmitted:
      the reply is retryable and `maxRetries >= retries` after the count. */
  predicate Resubmits<T, R>(maxRetries: int, count: T -> int, retryable: R -> bool, options: T, net: nat -> R, k: nat) {
    retryable(net(k)) && maxRetries >= count(options) + 1
  }

  /** The attempts from the `k`-th on, from options `options`: the reply the
      callback finally receives, and the options of each attempt in order. */
  function Attempts<T(!new), R>(maxRetries: int, prepare: T -> T, ok: T -> bool, count: T -> int, retryable: R -> bool,
                                options: T, net: nat -> R, k: nat): (r: (R, seq<T>))
    requires Counting(prepare, ok, count) && ok(options)
    ensures |r.1| >= 1
    decreases maxRetries + 1 - count(options)
  {
    var ro := prepare(options);
    if retryable(net(k)) && maxRetries >= count(ro) then
      var rest := Attempts(maxRetries, prepare, ok, count, retryable, ro, net, k + 1);
      (rest.0, [ro] + rest.1)
    else
      (net(k), [ro])
  }

  /** The most attempts from options whose count is `r`: one more than the
      retries left, and at least one. */
  function MaxAttempts(maxRetries: int, r: int): int {
    if maxRetries >= r then maxRetries + 1 - r else 1
  }

  /** A resubmitted attempt: its options come first, and the rest follow. */
  lemma Resubmitted<T(!new), R>(maxRetries: int, prepare: T -> T, ok: T -> bool, count: T -> int, retryable: R -> bool,
                                options: T, net: nat -> R, k: nat)
    requires Counting(prepare, ok, count) && ok(options)
    requires Resubmits(maxRetries, count, retryable, options, net, k)
    ensures var ro := prepare(options);
            var a := Attempts(maxRetries, prepare, ok, count, retryable, options, net, k);
            var rest := Attempts(maxRetries, prepare, ok, count, retryable, ro, net, k + 1);
            ok(ro) && count(ro) == count(options) + 1 && a.0 == rest.0 && a.1 == [ro] + rest.1
  {
  }

  /** An attempt that is not resubmitted is the last, and its reply is the
      one the callback receives. */
  lemma NotResubmitted<T(!new), R>(maxRetries: int, prepare: T -> T, ok: T -> bool, count: T -> int, retryable: R -> bool,
                                   options: T, net: nat -> R, k: nat)
    requires Counting(prepare, ok, count) && ok(options)
    requires !Resubmits(maxRetries, count, retryable, options, net, k)
    ensures Attempts(maxRetries, prepare, ok, count, retryable, options, net, k) == (net(k), [prepare(options)])
  {
  }

  /** A reply that cannot be retried ends the request at once. */
  lemma FinalAtOnce<T(!new), R>(maxRetries: int, prepare: T -> T, ok: T -> bool, count: T -> int, retryable: R -> bool,
                                options: T, net: nat -> R, k: nat)
    requires Counting(prepare, ok, count) && ok(options)
    requires !retryable(net(k))
    ensures Attempts(maxRetries, prepare, ok, count, retryable, options, net, k) == (net(k), [prepare(options)])
  {
    NotResubmitted(maxRetries, prepare, ok, count, retryable, options, net, k);
  }

  /** There are at least one and at most `maxRetries + 1` attempts, counting
      from the options' own count. */
  lemma {:induction false} AttemptsBound<T(!new), R>(maxRetries: int, prepare: T -> T, ok: T -> bool, count: T -> int,
                                                     retryable: R -> bool, options: T, net: nat -> R, k: nat)
    requires Counting(prepare, ok, count) && ok(options)
    ensures 1 <= |Attempts(maxRetries, prepare, ok, count, retryable, options, net, k).1|
                <= MaxAttempts(maxRetries, count(options))
    decreases maxRetries + 1 - count(options)
  {
    if Resubmits(maxRetries, count, retryable, options, net, k) {
      Resubmitted(maxRetries, prepare, ok, count, retryable, options, net, k);
      AttemptsBound(maxRetries, prepare, ok, count, retryable, prepare(options), net, k + 1);
    } else {
      NotResubmitted(maxRetries, prepare, ok, count, retryable, options, net, k);
    }
  }

  /** The callback receives the last attempt's reply. */
  lemma {:induction false} LastReply<T(!new), R>(maxRetries: int, prepare: T -> T, ok: T -> bool, count: T -> int,
                                                 retryable: R -> bool, options: T, net: nat -> R, k: nat)
    requires Counting(prepare, ok, count) && ok(options)
    ensures var a := Attempts(maxRetries, prepare, ok, count, retryable, options, net, k);
            a.0 == net(k + |a.1| - 1)
    decreases maxRetries + 1 - count(options)
  {
    if Resubmits(maxRetries, count, retryable, options, net, k) {
      Resubmitted(maxRetries, prepare, ok, count, retryable, options, net, k);
      LastReply(maxRetries, prepare, ok, count, retryable, prepare(options), net, k + 1);
    } else {
      NotResubmitted(maxRetries, prepare, ok, count, retryable, options, net, k);
    }
  }

  /** The last attempt was not resubmitted: its reply was not retryable, or
      the retries were used up. */
  lemma {:induction false} LastNotResubmitted<T(!new), R>(maxRetries: int, prepare: T -> T, ok: T -> bool, count: T -> int,
                                                          retryable: R -> bool, options: T, net: nat -> R, k: nat)
    requires Counting(prepare, ok, count) && ok(options)
    ensures var a := Attempts(maxRetries, prepare, ok, count, retryable, options, net, k);
            retryable(a.0) ==> maxRetries < count(options) + |a.1|
    decreases maxRetries + 1 - count(options)
  {
    if Resubmits(maxRetries, count, retryable, options, net, k) {
      Resubmitted(maxRetries, prepare, ok, count, retryable, options, net, k);
      LastNotResubmitted(maxRetries, prepare, ok, count, retryable, prepare(options), net, k + 1);
    } else {
      NotResubmitted(maxRetries, prepare, ok, count, retryable, options, net, k);
    }
  }

  /** Every attempt but the last received a retryable reply. */
  lemma {:induction false} RetriedOnlyOnRetryable<T(!new), R>(maxRetries: int, prepare: T -> T, ok: T -> bool,
                                                              count: T -> int, retryable: R -> bool, options: T,
                                                              net: nat -> R, k: nat)
    requires Counting(prepare, ok, count) && ok(options)
    ensures var a := Attempts(maxRetries, prepare, ok, count, retryable, options, net, k);
            forall i :: k <= i < k + |a.1| - 1 ==> retryable(net(i))
    decreases maxRetries + 1 - count(options)
  {
    if Resubmits(maxRetries, count, retryable, options, net, k) {
      Resubmitted(maxRetries, prepare, ok, count, retryable, options, net, k);
      RetriedOnlyOnRetryable(maxRetries, prepare, ok, count, retryable, prepare(options), net, k + 1);
    } else {
      NotResubmitted(maxRetries, prepare, ok, count, retryable, options, net, k);
    }
  }

  /** Each attempt carries its own count: the `i`-th (from 0) has the
      options' count plus `i + 1`. */
  lemma {:induction false} AttemptCounts<T(!new), R>(maxRetries: int, prepare: T -> T, ok: T -> bool, count: T -> int,
                                                     retryable: R -> bool, options: T, net: nat -> R, k: nat)
    requires Counting(prepare, ok, count) && ok(options)
    ensures var sent := Attempts(maxRetries, prepare, ok, count, retryable, options, net, k).1;
            forall i :: 0 <= i < |sent| ==> ok(sent[i]) && count(sent[i]) == count(options) + i + 1
    decreases maxRetries + 1 - count(options)
  {
    if Resubmits(maxRetries, count, retryable, options, net, k) {
      var ro := prepare(options);
      Resubmitted(maxRetries, prepare, ok, count, retryable, options, net, k);
      AttemptCounts(maxRetries, prepare, ok, count, retryable, ro, net, k + 1);
      var sent := Attempts(maxRetries, prepare, ok, count, retryable, options, net, k).1;
      var rest := Attempts(maxRetries, prepare, ok, count, retryable, ro, net, k + 1).1;
      forall i | 0 <= i < |sent| ensures ok(sent[i]) && count(sent[i]) == count(options) + i + 1 {
        if i > 0 {
          assert sent[i] == rest[i - 1];
        }
      }
    } else {
      NotResubmitted(maxRetries, prepare, ok, count, retryable, options, net, k);
    }
  }

  /** When every reply is retryable, the request is made exactly as many
      times as the bound allows. */
  lemma {:induction false} AllRetryable<T(!new), R>(maxRetries: int, prepare: T -> T, ok: T -> bool, count: T -> int,
                                                    retryable: R -> bool, options: T, net: nat -> R, k: nat)
    requires Counting(prepare, ok, count) && ok(options)
    requires forall i :: k <= i ==> retryable(net(i))
    ensures |Attempts(maxRetries, prepare, ok, count, retryable, options, net, k).1|
            == MaxAttempts(maxRetries, count(options))
    decreases maxRetries + 1 - count(options)
  {
    if Resubmits(maxRetries, count, retryable, options, net, k) {
      Resubmitted(maxRetries, prepare, ok, count, retryable, options, net, k);
      AllRetryable(maxRetries, prepare, ok, count, retryable, prepare(options), net, k + 1);
    } else {
      NotResubmitted(maxRetries, prepare, ok, count, retryable, options, net, k);
      assert retryable(net(k));
    }
  }

  /** A property the first attempt has, and that every preparation from
      well-formed options passes on, holds of every attempt. */
  lemma {:induction false} EveryAttempt<T(!new), R>(maxRetries: int, prepare: T -> T, ok: T -> bool, count: T -> int,
                                                    retryable: R -> bool, options: T, net: nat -> R, k: nat,
                                                    keep: T -> bool)
    requires Counting(prepare, ok, count) && ok(options)
    requires keep(prepare(options))
    requires forall o {:trigger prepare(o)} :: ok(o) && keep(o) ==> keep(prepare(o))
    ensures var sent := Attempts(maxRetries, prepare, ok, count, retryable, options, net, k).1;
            forall i :: 0 <= i < |sent| ==> keep(sent[i])
    decreases maxRetries + 1 - count(options)
  {
    if Resubmits(maxRetries, count, retryable, options, net, k) {
      var ro := prepare(options);
      Resubmitted(maxRetries, prepare, ok, count, retryable, options, net, k);
      EveryAttempt(maxRetries, prepare, ok, count, retryable, ro, net, k + 1, keep);
      var sent := Attempts(maxRetries, prepare, ok, count, retryable, options, net, k).1;
      var rest := Attempts(maxRetries, prepare, ok, count, retryable, ro, net, k + 1).1;
      forall i | 0 <= i < |sent| ensures keep(sent[i]) {
        if i > 0 {
          assert sent[i] == rest[i - 1];
        }
      }
    } else {
      NotResubmitted(maxRetries, prepare, ok, count, retryable, options, net, k);
    }
  }

  /** A resubmitted first attempt is followed by a second, prepared from the
      first's options. */
  lemma SecondAttempt<T(!new), R>(maxRetries: int, prepare: T -> T, ok: T -> bool, count: T -> int, retryable: R -> bool,
                                  options: T, net: nat -> R, k: nat)
    requires Counting(prepare, ok, count) && ok(options)
    requires Resubmits(maxRetries, count, retryable, options, net, k)
    ensures var sent := Attempts(maxRetries, prepare, ok, count, retryable, options, net, k).1;
            |sent| >= 2 && sent[0] == prepare(options) && sent[1] == prepare(prepare(options))
  {
    Resubmitted(maxRetries, prepare, ok, count, retryable, options, net, k);
    var ro := prepare(options);
    if Resubmits(maxRetries, count, retryable, ro, net, k + 1) {
      Resubmitted(maxRetries, prepare, ok, count, retryable, ro, net, k + 1);
    } else {
      NotResubmitted(maxRetries, prepare, ok, count, retryable, ro, net, k + 1);
    }
  }

  /** Unrolls one attempt behind the attempts already sent. */
  lemma AttemptsStep<T(!new), R>(maxRetries: int, prepare: T -> T, ok: T -> bool, count: T -> int, retryable: R -> bool,
                                 options: T, net: nat -> R, k: nat, sent: seq<T>)
    requires Counting(prepare, ok, count) && ok(options)
    ensures var ro := prepare(options);
            var a := Attempts(maxRetries, prepare, ok, count, retryable, options, net, k);
            ok(ro) &&
            if retryable(net(k)) && maxRetries >= count(ro) then
              a.0 == Attempts(maxRetries, prepare, ok, count, retryable, ro, net, k + 1).0 &&
              sent + a.1 == (sent + [ro]) + Attempts(maxRetries, prepare, ok, count, retryable, ro, net, k + 1).1
            else
              a.0 == net(k) && sent + a.1 == sent + [ro]
  {
    var ro := prepare(options);
    if retryable(net(k)) && maxRetries >= count(ro) {
      var rest := Attempts(maxRetries, prepare, ok, count, retryable, ro, net, k + 1).1;
      assert sent + ([ro] + rest) == (sent + [ro]) + rest;
    }
  }
}
