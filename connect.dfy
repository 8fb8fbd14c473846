/**
 * The backend connection policy (`src/backend/connect.rs`): up to
 * `max_retries` attempts, each parsing the URL and opening the websocket,
 * with a pause of `delay_secs` after every failed attempt.
 *
 * URL parsing is deterministic, so the URL is valid for every attempt or
 * for none; whether the k-th attempt's handshake succeeds is `connects(k)`.
 * A connection is identified by the attempt that opened it.
 */
module Connect {
  import opened Wrappers
  import opened Ints
  import opened Strings

  /** The error of a call whose every attempt failed. */
  function GiveUpMessage(maxRetries: u8): string
  {
    "Could not connect after " + NatToString(maxRetries as nat) + " retries"
  }

  /** An attempt that connects: the URL parses and the handshake on that attempt succeeds. */
  predicate Succeeds(urlValid: bool, connects: nat -> bool, attempt: nat)
  {
    urlValid && connects(attempt)
  }

  /** The first attempt from `from` to `maxRetries` that connects. */
  function FirstConnect(urlValid: bool, connects: nat -> bool, maxRetries: nat, from: nat): Option<nat>
    decreases maxRetries + 1 - from
  {
    if from > maxRetries || from == 0 then None
    else if Succeeds(urlValid, connects, from) then Some(from)
    else FirstConnect(urlValid, connects, maxRetries, from + 1)
  }

  /**
   * `FirstConnect` finds the earliest connecting attempt within the
   * budget, or reports that none of them connects.
   */
  lemma {:induction false} FirstConnectIsFirst(urlValid: bool, connects: nat -> bool, maxRetries: nat, from: nat)
    requires from >= 1
    ensures var k := FirstConnect(urlValid, connects, maxRetries, from);
      && (k.Some? ==> from <= k.value <= maxRetries && Succeeds(urlValid, connects, k.value)
                      && forall i :: from <= i < k.value ==> !Succeeds(urlValid, connects, i))
      && (k.None? <==> forall i :: from <= i <= maxRetries ==> !Succeeds(urlValid, connects, i))
    decreases maxRetries + 1 - from
  {
    if from <= maxRetries && !Succeeds(urlValid, connects, from) {
      FirstConnectIsFirst(urlValid, connects, maxRetries, from + 1);
    }
  }

  /** An unparsable URL fails every attempt, so the call always ends in the error. */
  lemma {:induction false} InvalidUrlNeverConnects(connects: nat -> bool, maxRetries: nat, from: nat)
    ensures FirstConnect(false, connects, maxRetries, from) == None
    decreases maxRetries + 1 - from
  {
    if 1 <= from <= maxRetries {
      InvalidUrlNeverConnects(connects, maxRetries, from + 1);
    }
  }

  /**
   * `connect_to_backend_with_retry`: returns the attempt that connected
   * and the seconds spent sleeping. Success comes on the first connecting
   * attempt, after one pause per earlier attempt; otherwise every attempt
   * fails, each followed by a pause, and the error names the budget. A
   * budget of 0 makes no attempt and does not sleep.
   */
  method ConnectToBackendWithRetry(urlValid: bool, maxRetries: u8, delaySecs: nat, connects: nat -> bool)
    returns (r: Result<nat, string>, slept: nat)
    ensures var k := FirstConnect(urlValid, connects, maxRetries as nat, 1);
      && (r.Ok? <==> k.Some?)
      && (r.Ok? ==> r.value == k.value && slept == delaySecs * (r.value - 1))
      && (r.Err? ==> r.error == GiveUpMessage(maxRetries) && slept == delaySecs * maxRetries as nat)
  {
    slept := 0;
    var attempt: nat := 1;
    while attempt <= maxRetries as nat
      invariant 1 <= attempt <= maxRetries as nat + 1
      invariant FirstConnect(urlValid, connects, maxRetries as nat, attempt) == FirstConnect(urlValid, connects, maxRetries as nat, 1)
      invariant slept == delaySecs * (attempt - 1)
      decreases maxRetries as nat + 1 - attempt
    {
      if urlValid {
        if connects(attempt) {
          return Ok(attempt), slept;
        }
      }
      slept := slept + delaySecs;
      attempt := attempt + 1;
    }
    r := Err(GiveUpMessage(maxRetries));
  }

  /** At most `max_retries` attempts are made; with `max_retries` of 0 the call fails at once. */
  lemma AttemptBudget(urlValid: bool, connects: nat -> bool, maxRetries: u8)
    ensures var k := FirstConnect(urlValid, connects, maxRetries as nat, 1);
      && (k.Some? ==> 1 <= k.value <= maxRetries as nat)
      && (maxRetries == 0 ==> k == None)
  {
    FirstConnectIsFirst(urlValid, connects, maxRetries as nat, 1);
  }

  /** The start-up call's budget of five attempts: the error text it gives up with, reached whenever the URL does not parse. */
  lemma GiveUpExample()
    ensures GiveUpMessage(5) == "Could not connect after 5 retries"
    ensures forall connects: nat -> bool :: FirstConnect(false, connects, 5, 1) == None
  {
    assert NatToString(5) == "5";
    forall connects: nat -> bool
      ensures FirstConnect(false, connects, 5, 1) == None
    {
      InvalidUrlNeverConnects(connects, 5, 1);
    }
  }
}
