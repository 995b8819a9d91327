/** The server's delivery budget: a paced retry loop in milliseconds
    (src/server.rs:1131-1206), against the client's stall timeout
    (src/tunnel.rs:34-52). */
module Delivery {
  import opened Prelude
  import D = Dispatch

  const SEND_ATTEMPTS: nat := 50
  const SEND_ATTEMPT_INTERVAL: nat := 600
  const SEND_TIMEOUT: nat := 500

  /** One attempt: how long the session lock took, and what the bounded send did
      and when. A closed channel refuses at once, a full one times out. */
  datatype Outcome = Accepted(after: nat) | Refused(after: nat) | TimedOut

  datatype Attempt = Attempt(lockDelay: nat, outcome: Outcome)

  predicate Bounded(a: Attempt) {
    match a.outcome
    case Accepted(after) => after <= SEND_TIMEOUT
    case Refused(after) => after <= SEND_TIMEOUT
    case TimedOut => true
  }

  function Elapsed(a: Attempt): nat {
    a.lockDelay + match a.outcome
      case Accepted(after) => after
      case Refused(after) => after
      case TimedOut => SEND_TIMEOUT
  }

  /** When attempt `i` starts, counted from the first. */
  function StartOf(env: seq<Attempt>, i: nat): nat
    requires i <= |env|
  {
    if i == 0 then 0 else StartOf(env, i - 1) + Max(SEND_ATTEMPT_INTERVAL, Elapsed(env[i - 1]))
  }

  /** When attempt `i` offers the message to the channel. */
  function OfferAt(env: seq<Attempt>, i: nat): nat
    requires i < |env|
  {
    StartOf(env, i) + env[i].lockDelay
  }

  /** `send_to_client_with_attempts`: `env` is what each attempt would meet.
      Succeeds exactly when some attempt would, by the first that does; then the
      message was enqueued once, and otherwise never. */
  method SendWithAttempts(encodable: bool, env: seq<Attempt>) returns (ok: bool, enqueued: nat, tries: nat, clock: nat)
    ensures ok <==> encodable && exists i :: 0 <= i < |env| && env[i].outcome.Accepted?
    ensures enqueued == if ok then 1 else 0
    ensures ok ==>
      && 0 < tries <= |env| && env[tries - 1].outcome.Accepted?
      && (forall i :: 0 <= i < tries - 1 ==> !env[i].outcome.Accepted?)
      && clock == StartOf(env, tries - 1) + Elapsed(env[tries - 1])
    ensures !ok && encodable ==>
      && tries == |env|
      && clock == (if |env| == 0 then 0 else StartOf(env, |env| - 1) + Elapsed(env[|env| - 1]))
  {
    ok, enqueued, tries, clock := false, 0, 0, 0;
    if !encodable {
      return;
    }
    while tries < |env|
      invariant 0 <= tries <= |env|
      invariant !ok && enqueued == 0
      invariant forall i :: 0 <= i < tries ==> !env[i].outcome.Accepted?
      invariant tries < |env| ==> clock == StartOf(env, tries)
      invariant tries == |env| && tries > 0 ==> clock == StartOf(env, tries - 1) + Elapsed(env[tries - 1])
      invariant tries == 0 ==> clock == 0
    {
      var started := clock;
      var a := env[tries];
      clock := clock + Elapsed(a);
      tries := tries + 1;
      if a.outcome.Accepted? {
        ok, enqueued := true, enqueued + 1;
        return;
      }
      if tries < |env| {
        clock := clock + Max(0, SEND_ATTEMPT_INTERVAL - (clock - started));
      }
    }
  }

  lemma {:induction false} StartsArePaced(env: seq<Attempt>, i: nat)
    requires i <= |env|
    ensures StartOf(env, i) >= i * SEND_ATTEMPT_INTERVAL
    ensures (forall j :: 0 <= j < i ==> Bounded(env[j]) && env[j].lockDelay == 0) ==>
      StartOf(env, i) == i * SEND_ATTEMPT_INTERVAL
  {
    if i > 0 {
      StartsArePaced(env, i - 1);
    }
  }

  /** A full budget spends at least 29.4 s before its last attempt, and a call
      that fails throughout lasts that long; with no lock delay, at most 29.9 s. */
  lemma FullBudget(env: seq<Attempt>)
    requires |env| == SEND_ATTEMPTS && forall i :: 0 <= i < |env| ==> Bounded(env[i])
    ensures StartOf(env, 49) >= 29_400
    ensures var total := StartOf(env, 49) + Elapsed(env[49]);
      && total >= 29_400
      && ((forall i :: 0 <= i < |env| ==> env[i].lockDelay == 0) ==> total <= 29_900)
  {
    StartsArePaced(env, 49);
  }

  /** The channel takes anything offered from instant `t` on. */
  ghost predicate AcceptsFrom(env: seq<Attempt>, t: nat) {
    forall i :: 0 <= i < |env| && OfferAt(env, i) >= t ==> env[i].outcome.Accepted?
  }

  ghost predicate Delivers(env: seq<Attempt>) {
    exists i :: 0 <= i < |env| && env[i].outcome.Accepted?
  }

  /** A client that accepts again within 29.4 s is never given up on, however the
      lock and the other attempts behaved; one full dispatch stall is within it. */
  lemma RecoveringClientIsReached(env: seq<Attempt>, t: nat)
    requires |env| == SEND_ATTEMPTS && AcceptsFrom(env, t) && t <= 29_400
    ensures Delivers(env)
  {
    StartsArePaced(env, 49);
    assert env[49].outcome.Accepted?;
  }

  lemma OneStallIsSurvived(env: seq<Attempt>, began: nat)
    requires |env| == SEND_ATTEMPTS && AcceptsFrom(env, began + D.DISPATCH_STALL_TIMEOUT) && began <= 14_400
    ensures Delivers(env)
  {
    RecoveringClientIsReached(env, began + D.DISPATCH_STALL_TIMEOUT);
  }

  /** A queue that is full until instant `t`: an offer waits for it up to the
      send timeout. */
  ghost predicate FullUntil(env: seq<Attempt>, t: nat) {
    forall i :: 0 <= i < |env| ==>
      && env[i].lockDelay == 0 && Bounded(env[i])
      && (env[i].outcome.Accepted? <==> t < OfferAt(env, i) + SEND_TIMEOUT)
  }

  /** The budget, to the millisecond: with the lock free, a full queue is
      outlasted exactly when it opens before 29.9 s. */
  lemma BudgetIsExact(env: seq<Attempt>, t: nat)
    requires |env| == SEND_ATTEMPTS && FullUntil(env, t)
    ensures Delivers(env) <==> t < 29_900
  {
    StartsArePaced(env, 49);
    if t < 29_900 {
      assert env[49].outcome.Accepted?;
    }
    if Delivers(env) {
      var i :| 0 <= i < |env| && env[i].outcome.Accepted?;
      StartsArePaced(env, i);
    }
  }
}
