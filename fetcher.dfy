/** The bounded retry loop that fetches candle data from the exchange
    (main.py, `fetch_crypto_data`).

    The exchange is not modelled: what it answers on its k-th call is
    the k-th entry of a script of outcomes. Everything inside the `try`
    block (building the client, the request, building the frame) is one
    attempt, so any exception there is an `Err` outcome. The console
    messages and the pause between attempts are recorded as events. */
module Fetcher {
  import opened Wrappers

  /** What one attempt inside the `try` block produced. */
  datatype Outcome<D> = Ok(rows: D) | Err(message: string)

  /** What the loop writes to the console or waits for. */
  datatype Event =
    | Failed(attempt: int, maxRetries: int, message: string)  // "Error fetching data (Attempt k/max): e"
    | Slept(seconds: nat)                                     // time.sleep(5)
    | GaveUp                                                  // "Failed to fetch data after multiple attempts."

  /** Everything a call to the loop produces: the data (None when it gave up),
      how many outcomes of the script it consumed, and its events in order. */
  datatype Run<D> = Run(data: Option<D>, attempts: nat, events: seq<Event>)

  /** The fixed pause after each failed attempt, in seconds. */
  const RetryDelay: nat := 5

  /** The default retry bound of `fetch_crypto_data`. */
  const DefaultMaxRetries: int := 3

  /** How many attempts a retry bound allows: none when it is not positive. */
  function AttemptBound(maxRetries: int): (n: nat)
  {
    if maxRetries < 0 then 0 else maxRetries
  }

  /** The first k outcomes of the script are all failures. */
  predicate AllFailed<D>(outcomes: seq<Outcome<D>>, k: nat)
    requires k <= |outcomes|
  {
    forall j :: 0 <= j < k ==> outcomes[j].Err?
  }

  /** The index of the first successful outcome among the first n, if any. */
  function FirstOk<D>(outcomes: seq<Outcome<D>>, n: nat): (k: Option<nat>)
    requires n <= |outcomes|
    ensures k.Some? ==> k.value < n && outcomes[k.value].Ok? && AllFailed(outcomes, k.value)
    ensures k.None? ==> AllFailed(outcomes, n)
  {
    if n == 0 then None
    else match FirstOk(outcomes, n - 1)
      case Some(k) => Some(k)
      case None => if outcomes[n - 1].Ok? then Some(n - 1) else None
  }

  /** The events written for the first k attempts when all of them failed:
      for the j-th failure (1-based) its message, then the pause. */
  function FailureLog<D>(outcomes: seq<Outcome<D>>, k: nat, maxRetries: int): seq<Event>
    requires k <= |outcomes| && AllFailed(outcomes, k)
  {
    if k == 0 then []
    else FailureLog(outcomes, k - 1, maxRetries)
         + [Failed(k, maxRetries, outcomes[k - 1].message), Slept(RetryDelay)]
  }

  /** The specification of the retry loop: it returns the data of the first
      successful outcome among the first `maxRetries`, having logged every
      failure before it; if there is none it gives up after all of them. */
  function Fetch<D>(outcomes: seq<Outcome<D>>, maxRetries: int): Run<D>
    requires maxRetries <= |outcomes|
  {
    var n := AttemptBound(maxRetries);
    match FirstOk(outcomes, n)
    case Some(k) => Run(Some(outcomes[k].rows), k + 1, FailureLog(outcomes, k, maxRetries))
    case None => Run(None, n, FailureLog(outcomes, n, maxRetries) + [GaveUp])
  }

  /** `fetch_crypto_data`: a `while` loop over the `retries` counter that
      returns on the first success and otherwise logs, pauses and counts.
      `attempts` is not returned by the source; it records how much of the
      script the loop consumed. */
  method FetchCryptoData<D>(outcomes: seq<Outcome<D>>, maxRetries: int)
    returns (data: Option<D>, ghost attempts: nat, events: seq<Event>)
    requires maxRetries <= |outcomes|
    ensures data == Fetch(outcomes, maxRetries).data
    ensures events == Fetch(outcomes, maxRetries).events
    ensures attempts == Fetch(outcomes, maxRetries).attempts
  {
    var retries: nat := 0;
    events := [];
    while retries < maxRetries
      invariant retries <= AttemptBound(maxRetries)
      invariant AllFailed(outcomes, retries)
      invariant events == FailureLog(outcomes, retries, maxRetries)
    {
      match outcomes[retries]
      case Ok(rows) =>
        data, attempts := Some(rows), retries + 1;
        return;
      case Err(message) =>
        retries := retries + 1;
        events := events + [Failed(retries, maxRetries, message), Slept(RetryDelay)];
    }
    events := events + [GaveUp];
    data, attempts := None, retries;
  }

  // ---------------------------------------------------------------------
  // Properties of the specification

  /** The entries of the failure log: two per failed attempt, the message
      for attempt j + 1 and then a pause of `RetryDelay`. */
  lemma {:induction false} FailureLogAt<D>(outcomes: seq<Outcome<D>>, k: nat, maxRetries: int, j: nat)
    requires k <= |outcomes| && AllFailed(outcomes, k)
    requires j < k
    ensures |FailureLog(outcomes, k, maxRetries)| == 2 * k
    ensures FailureLog(outcomes, k, maxRetries)[2 * j] == Failed(j + 1, maxRetries, outcomes[j].message)
    ensures FailureLog(outcomes, k, maxRetries)[2 * j + 1] == Slept(RetryDelay)
  {
    if j < k - 1 {
      FailureLogAt(outcomes, k - 1, maxRetries, j);
    } else if k > 1 {
      FailureLogAt(outcomes, k - 1, maxRetries, 0);
    }
  }

  /** No attempt is made past the retry bound, and giving up means every
      allowed attempt was made and failed. */
  lemma FetchAttemptsBounded<D>(outcomes: seq<Outcome<D>>, maxRetries: int)
    requires maxRetries <= |outcomes|
    ensures Fetch(outcomes, maxRetries).attempts <= AttemptBound(maxRetries)
    ensures Fetch(outcomes, maxRetries).data.None? ==>
              Fetch(outcomes, maxRetries).attempts == AttemptBound(maxRetries)
              && AllFailed(outcomes, AttemptBound(maxRetries))
  {
  }

  /** The loop succeeds exactly when some allowed attempt succeeds; it then
      returns the data of the first successful attempt, which is the last
      outcome it consumed, and every attempt before it failed. */
  lemma FetchReturnsFirstSuccess<D>(outcomes: seq<Outcome<D>>, maxRetries: int)
    requires maxRetries <= |outcomes|
    ensures Fetch(outcomes, maxRetries).data.Some? <==>
              exists j :: 0 <= j < AttemptBound(maxRetries) && outcomes[j].Ok?
    ensures var r := Fetch(outcomes, maxRetries);
            r.data.Some? ==>
              1 <= r.attempts && outcomes[r.attempts - 1] == Ok(r.data.value)
              && AllFailed(outcomes, r.attempts - 1)
  {
    var r := Fetch(outcomes, maxRetries);
    if r.data.Some? {
      assert outcomes[r.attempts - 1].Ok?;
    }
  }

  /** The log holds one message and one 5-second pause per failed attempt,
      numbered 1, 2, ... in order, every number within the retry bound;
      giving up adds one final message. */
  lemma FetchLogShape<D>(outcomes: seq<Outcome<D>>, maxRetries: int)
    requires maxRetries <= |outcomes|
    ensures var r := Fetch(outcomes, maxRetries);
            var failures := if r.data.Some? then r.attempts - 1 else r.attempts;
            && |r.events| == 2 * failures + (if r.data.Some? then 0 else 1)
            && (r.data.None? ==> r.events[|r.events| - 1] == GaveUp)
            && forall j :: 0 <= j < failures ==>
                 && r.events[2 * j] == Failed(j + 1, maxRetries, outcomes[j].message)
                 && 1 <= j + 1 <= maxRetries
                 && r.events[2 * j + 1] == Slept(RetryDelay)
  {
    var r := Fetch(outcomes, maxRetries);
    var failures := if r.data.Some? then r.attempts - 1 else r.attempts;
    assert AllFailed(outcomes, failures);
    var log := FailureLog(outcomes, failures, maxRetries);
    if failures > 0 {
      FailureLogAt(outcomes, failures, maxRetries, 0);
    }
    forall j | 0 <= j < failures
      ensures r.events[2 * j] == Failed(j + 1, maxRetries, outcomes[j].message)
      ensures r.events[2 * j + 1] == Slept(RetryDelay)
    {
      FailureLogAt(outcomes, failures, maxRetries, j);
      assert r.events[2 * j] == log[2 * j];
      assert r.events[2 * j + 1] == log[2 * j + 1];
    }
  }

  /** With a retry bound that is not positive no attempt is made: the loop
      only reports that it gave up and returns nothing. */
  lemma FetchWithoutRetries<D>(outcomes: seq<Outcome<D>>, maxRetries: int)
    requires maxRetries <= 0 && maxRetries <= |outcomes|
    ensures Fetch(outcomes, maxRetries) == Run(None, 0, [GaveUp])
  {
  }

  /** Outcomes after the last attempt the loop made are never consumed:
      any script that agrees on the consumed prefix gives the same run. */
  lemma FetchIgnoresUnconsumed<D>(outcomes: seq<Outcome<D>>, other: seq<Outcome<D>>, maxRetries: int)
    requires maxRetries <= |outcomes| && maxRetries <= |other|
    requires Fetch(outcomes, maxRetries).attempts <= |other|
    requires other[..Fetch(outcomes, maxRetries).attempts] == outcomes[..Fetch(outcomes, maxRetries).attempts]
    ensures Fetch(other, maxRetries) == Fetch(outcomes, maxRetries)
  {
    var r := Fetch(outcomes, maxRetries);
    var n := AttemptBound(maxRetries);
    forall j | 0 <= j < r.attempts ensures other[j] == outcomes[j] {
      assert other[j] == other[..r.attempts][j];
    }
    FailureLogSamePrefix(outcomes, other, if r.data.Some? then r.attempts - 1 else r.attempts, maxRetries);
    FirstOkSamePrefix(outcomes, other, n, r.attempts);
  }

  /** The search for the first success stops reading at the success it finds. */
  lemma {:induction false} FirstOkSamePrefix<D>(outcomes: seq<Outcome<D>>, other: seq<Outcome<D>>, n: nat, m: nat)
    requires n <= |outcomes| && n <= |other| && m <= n
    requires forall j :: 0 <= j < m ==> other[j] == outcomes[j]
    requires m == n || FirstOk(outcomes, n) == Some(m - 1)
    ensures FirstOk(other, n) == FirstOk(outcomes, n)
  {
    if n > 0 && m == n {
      FirstOkSamePrefix(outcomes, other, n - 1, n - 1);
    } else if n > 0 {
      FirstOkFound(other, n, m - 1);
    }
  }

  /** A success preceded only by failures is the first success. */
  lemma FirstOkFound<D>(outcomes: seq<Outcome<D>>, n: nat, k: nat)
    requires k < n <= |outcomes|
    requires AllFailed(outcomes, k) && outcomes[k].Ok?
    ensures FirstOk(outcomes, n) == Some(k)
  {
  }

  /** The failure log only reads the outcomes it logs. */
  lemma {:induction false} FailureLogSamePrefix<D>(outcomes: seq<Outcome<D>>, other: seq<Outcome<D>>, k: nat, maxRetries: int)
    requires k <= |outcomes| && k <= |other|
    requires forall j :: 0 <= j < k ==> other[j] == outcomes[j]
    requires AllFailed(outcomes, k)
    ensures AllFailed(other, k)
    ensures FailureLog(other, k, maxRetries) == FailureLog(outcomes, k, maxRetries)
  {
    if k > 0 {
      FailureLogSamePrefix(outcomes, other, k - 1, maxRetries);
    }
  }

  // ---------------------------------------------------------------------
  // Scenarios

  /** A source that fails twice and then answers, with the default bound:
      the answer is returned after exactly two logged failures. */
  lemma FailTwiceThenSucceed<D>(first: string, second: string, rows: D)
    ensures Fetch([Err(first), Err(second), Ok(rows)], DefaultMaxRetries)
         == Run(Some(rows), 3, [Failed(1, 3, first), Slept(5), Failed(2, 3, second), Slept(5)])
  {
    var o: seq<Outcome<D>> := [Err(first), Err(second), Ok(rows)];
    FirstOkFound(o, 3, 2);
    assert FailureLog(o, 1, 3) == [Failed(1, 3, first), Slept(5)];
  }

  /** A source that always fails, with the default bound: the loop gives up
      with nothing after exactly three attempts and never raises. */
  lemma AlwaysFail<D>(e1: string, e2: string, e3: string)
    ensures Fetch<D>([Err(e1), Err(e2), Err(e3)], DefaultMaxRetries)
         == Run(None, 3, [Failed(1, 3, e1), Slept(5), Failed(2, 3, e2), Slept(5),
                          Failed(3, 3, e3), Slept(5), GaveUp])
  {
    var o: seq<Outcome<D>> := [Err(e1), Err(e2), Err(e3)];
    assert FirstOk(o, 3) == None;
    assert FailureLog(o, 1, 3) == [Failed(1, 3, e1), Slept(5)];
    assert FailureLog(o, 2, 3) == [Failed(1, 3, e1), Slept(5), Failed(2, 3, e2), Slept(5)];
  }
}
