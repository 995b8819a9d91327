/** Two counters of an unbroken run: the SSE watchdog (src/server.rs:1092-1129)
    and the client's reconnect budget (src/tunnel.rs:146-194). */
module Streaks {

  /** One observation: it extends the run, breaks it, or is not counted. */
  datatype Obs = Hit | Miss | Skip

  function Counted(obs: seq<Obs>): seq<Obs> {
    if obs == [] then []
    else Counted(obs[..|obs| - 1]) + (if obs[|obs| - 1].Skip? then [] else [obs[|obs| - 1]])
  }

  /** The last `n` counted observations were all hits. */
  ghost predicate Unbroken(obs: seq<Obs>, n: nat) {
    var c := Counted(obs);
    n <= |c| && forall i :: |c| - n <= i < |c| ==> c[i].Hit?
  }

  /** The length of the trailing run of hits, uncounted observations erased. */
  function Streak(obs: seq<Obs>): nat {
    if obs == [] then 0
    else match obs[|obs| - 1]
      case Hit => Streak(obs[..|obs| - 1]) + 1
      case Miss => 0
      case Skip => Streak(obs[..|obs| - 1])
  }

  lemma {:induction false} StreakIsTheRun(obs: seq<Obs>, n: nat)
    ensures Unbroken(obs, n) <==> n <= Streak(obs)
    decreases |obs|
  {
    if obs != [] {
      var init, last := obs[..|obs| - 1], obs[|obs| - 1];
      var c, d := Counted(obs), Counted(init);
      StreakIsTheRun(init, n);
      if last.Hit? {
        assert c == d + [Hit];
        if n > 0 {
          StreakIsTheRun(init, n - 1);
          assert Unbroken(init, n - 1) <==> Unbroken(obs, n) by {
            assert |c| - n == |d| - (n - 1);
            if Unbroken(obs, n) {
              assert forall i :: |d| - (n - 1) <= i < |d| ==> c[i].Hit? && d[i] == c[i];
            }
            if Unbroken(init, n - 1) {
              assert forall i :: |c| - n <= i < |c| - 1 ==> c[i] == d[i];
            }
          }
        }
      } else if last.Miss? {
        assert c[|c| - 1] == Miss;
      } else {
        assert c == d + [] == d;
      }
    }
  }

  /** A run stops at a miss: what came before it never adds to what comes after. */
  lemma {:induction false} StretchesNeverAddUp(before: seq<Obs>, after: seq<Obs>)
    ensures Streak(before + [Miss] + after) == Streak(after)
    decreases |after|
  {
    if after == [] {
      assert before + [Miss] + after == before + [Miss];
    } else {
      var all := before + [Miss] + after;
      StretchesNeverAddUp(before, after[..|after| - 1]);
      assert all[..|all| - 1] == before + [Miss] + after[..|after| - 1];
    }
  }

  lemma StreakSnoc(obs: seq<Obs>, k: nat)
    requires k < |obs|
    ensures Streak(obs[..k + 1]) == if obs[k].Hit? then Streak(obs[..k]) + 1 else if obs[k].Miss? then 0
      else Streak(obs[..k])
  {
    assert obs[..k + 1][..k] == obs[..k];
  }

  // ------------------------------------------------------------------- watchdog

  const SSE_DEAD_GRACE: nat := 10

  /** One second's look at the session: `try_lock` can fail. */
  datatype Tick = Open | Closed | Contended

  function OfTicks(ticks: seq<Tick>): (obs: seq<Obs>)
    ensures |obs| == |ticks|
    ensures forall i :: 0 <= i < |obs| ==>
      obs[i] == match ticks[i] case Open => Miss case Closed => Hit case Contended => Skip
  {
    seq(|ticks|, i requires 0 <= i < |ticks| =>
      match ticks[i] case Open => Miss case Closed => Hit case Contended => Skip)
  }

  /** What one more look does to the count: an open stream clears it, a closed one adds
      a second, a contended session leaves it alone. */
  lemma TicksCount(ticks: seq<Tick>, last: Tick)
    ensures var n, n' := Streak(OfTicks(ticks)), Streak(OfTicks(ticks + [last]));
      (last.Open? ==> n' == 0) && (last.Closed? ==> n' == n + 1) && (last.Contended? ==> n' == n)
  {
    var obs := OfTicks(ticks + [last]);
    assert obs[..|ticks|] == OfTicks(ticks) && obs[..|ticks| + 1] == obs;
    StreakSnoc(obs, |ticks|);
  }

  /** Fires at the first tick at which the stream has been seen closed for the
      whole grace, contended ticks left out of account, and at no other. */
  method AwaitSseDead(ticks: seq<Tick>) returns (fired: bool, at: nat)
    ensures fired ==> at < |ticks| && Unbroken(OfTicks(ticks)[..at + 1], SSE_DEAD_GRACE)
    ensures forall k :: 0 <= k <= (if fired then at else |ticks|) ==> !Unbroken(OfTicks(ticks)[..k], SSE_DEAD_GRACE)
  {
    ghost var obs := OfTicks(ticks);
    var closedSecs := 0;
    at := 0;
    while at < |ticks|
      invariant 0 <= at <= |ticks|
      invariant closedSecs == Streak(obs[..at]) < SSE_DEAD_GRACE
      invariant forall k :: 0 <= k <= at ==> !Unbroken(obs[..k], SSE_DEAD_GRACE)
    {
      StreakSnoc(obs, at);
      StreakIsTheRun(obs[..at + 1], SSE_DEAD_GRACE);
      if ticks[at].Contended? {
        at := at + 1;
        continue;
      }
      if ticks[at].Closed? {
        closedSecs := closedSecs + 1;
        if closedSecs >= SSE_DEAD_GRACE {
          return true, at;
        }
      } else {
        closedSecs := 0;
      }
      at := at + 1;
    }
    fired := false;
  }

  // ----------------------------------------------------------- reconnect budget

  /** How one stream ended, and whether it had delivered anything. */
  datatype StreamEnd = Forced(progress: bool) | Ended(clean: bool, progress: bool)

  function OfStreams(ends: seq<StreamEnd>): (obs: seq<Obs>)
    ensures |obs| == |ends|
    ensures forall i :: 0 <= i < |obs| ==>
      obs[i] == match ends[i] case Forced(_) => Skip case Ended(_, p) => if p then Miss else Hit
  {
    seq(|ends|, i requires 0 <= i < |ends| =>
      match ends[i] case Forced(_) => Skip case Ended(_, p) => if p then Miss else Hit)
  }

  datatype Pause = CleanEndRetry | RetryInterval

  /** The sleeps behind these streams: none behind a forced reconnect. */
  function PausesAfter(ends: seq<StreamEnd>): seq<Pause> {
    if ends == [] then []
    else
      var last := ends[|ends| - 1];
      PausesAfter(ends[..|ends| - 1]) +
      (if last.Forced? then [] else if last.clean then [CleanEndRetry] else [RetryInterval])
  }

  lemma {:induction false} PausesAreCounted(ends: seq<StreamEnd>)
    ensures |PausesAfter(ends)| == |Counted(OfStreams(ends))|
  {
    if ends != [] {
      var init := ends[..|ends| - 1];
      PausesAreCounted(init);
      assert OfStreams(ends)[..|ends| - 1] == OfStreams(init);
    }
  }

  /** Gives up at the first stream that completes `max` attempts in a row without
      a byte, forced reconnects left out of account; never when `max` is 0.
      `pauses` records the sleeps in between: after each counted attempt but the
      last, the short one exactly if the stream had ended cleanly. */
  method ReconnectLoop(ends: seq<StreamEnd>, max: nat) returns (gaveUp: bool, at: nat, pauses: seq<Pause>)
    ensures gaveUp ==> max > 0 && at < |ends| && Unbroken(OfStreams(ends)[..at + 1], max)
    ensures max > 0 ==> forall k :: 0 <= k <= (if gaveUp then at else |ends|) ==> !Unbroken(OfStreams(ends)[..k], max)
    ensures pauses == PausesAfter(if gaveUp then ends[..at] else ends)
    ensures !gaveUp ==> |pauses| == |Counted(OfStreams(ends))|
  {
    ghost var obs := OfStreams(ends);
    var failures := 0;
    at, pauses := 0, [];
    StreakIsTheRun(obs[..0], max);
    while at < |ends|
      invariant 0 <= at <= |ends|
      invariant failures == Streak(obs[..at]) && (max > 0 ==> failures < max)
      invariant max > 0 ==> forall k :: 0 <= k <= at ==> !Unbroken(obs[..k], max)
      invariant pauses == PausesAfter(ends[..at])
    {
      StreakSnoc(obs, at);
      StreakIsTheRun(obs[..at + 1], max);
      assert ends[..at + 1][..at] == ends[..at];
      var end := ends[at];
      if end.Forced? {
        at := at + 1;
        continue;
      }
      if end.progress {
        failures := 0;
      } else {
        failures := failures + 1;
      }
      if max != 0 && failures >= max {
        return true, at, pauses;
      }
      pauses := pauses + [if end.clean then CleanEndRetry else RetryInterval];
      at := at + 1;
    }
    assert ends[..|ends|] == ends;
    PausesAreCounted(ends);
    gaveUp := false;
  }

  /** What one more stream does to the count: nothing when forced down, otherwise it
      clears it or adds one, according to whether it delivered anything, however it
      ended. */
  lemma StreamsCount(ends: seq<StreamEnd>, last: StreamEnd)
    ensures var n, n' := Streak(OfStreams(ends)), Streak(OfStreams(ends + [last]));
      && (last.Forced? ==> n' == n)
      && (last.Ended? ==> n' == if last.progress then 0 else n + 1)
  {
    var obs := OfStreams(ends + [last]);
    assert obs[..|ends|] == OfStreams(ends) && obs[..|ends| + 1] == obs;
    StreakSnoc(obs, |ends|);
  }

  /** A stream that delivered data clears the count exactly when it was not
      itself a forced reconnect. */
  lemma DataClearsUnlessForced(ends: seq<StreamEnd>, last: StreamEnd)
    requires last.progress && Streak(OfStreams(ends)) > 0
    ensures Streak(OfStreams(ends + [last])) == 0 <==> !last.Forced?
  {
    var obs := OfStreams(ends + [last]);
    assert obs[..|ends|] == OfStreams(ends);
    assert obs[..|ends| + 1] == obs;
    StreakSnoc(obs, |ends|);
  }
}
