// The consecutive-blame counter as a function of the history, with a backoff
// configured and without one, where nothing bounds it.
module Counting {
  import opened Config
  import opened Transactions
  import opened World
  import opened Rounds
  import opened Blame
  import opened Assembly
  import opened SigningRound
  import opened Protocol
  import opened Changes
  import opened Steps
  import opened Progress
  import opened Restarting
  import opened HonestRounds
  import opened Permissive

  // -- the counter of a history -------------------------------------------------------

  // The broadcast failed and nobody is to blame.
  predicate Unattributed(e: Event) {
    e.Ended? && e.cause.BroadcastFailed? && e.banned == {}
  }

  // What one event makes of the counter.
  function CountedBy(env: Env, e: Event, before: nat): nat {
    if Unattributed(e) then
      if env.cfg.fullAbortBackoffSecs > 0 && before + 1 >= 2 then 0 else before + 1
    else if e.Ended? && e.cause.SigningTimedOut? then
      if before >= 2 || e.banned == {} then 0 else before + 1
    else if e.Ended? && (e.cause.BroadcastSucceeded? || e.cause.BroadcastFailed?) then 0
    else before
  }

  function Counter(env: Env, log: seq<Event>): nat {
    if log == [] then 0 else CountedBy(env, log[|log| - 1], Counter(env, log[..|log| - 1]))
  }

  lemma CounterOfAppended(env: Env, log: seq<Event>, e: Event)
    ensures Counter(env, log + [e]) == CountedBy(env, e, Counter(env, log))
  {
    hide CountedBy;
    assert (log + [e])[..|log|] == log;
  }

  lemma JudgedCounts(env: Env, s: System, e: Event, after: Accounts)
    requires Judged(env, s, e, after)
    ensures after.blameCount == CountedBy(env, e, s.accounts.blameCount)
  {
    hide BanAll, Revalidate;
  }

  lemma SilentKeepsAccounts(env: Env, s: System, t: System)
    requires Change(env, s, t) && t.log == s.log
    ensures t.accounts == s.accounts
  {
    hide InSigning, Judged, Joined, SoundSigned, FullySigned, SignedTx, SoundRequest, SoundReply;
  }

  lemma ChangeKeepsCounter(env: Env, s: System, t: System)
    requires s.accounts.blameCount == Counter(env, s.log) && Change(env, s, t)
    ensures t.accounts.blameCount == Counter(env, t.log)
  {
    hide Counter, InSigning, Judged, Joined, SignedBy, FullySigned, SignedTx, Quiet, Installs, Progresses, Shows;
    if Signs(env, s, t) {
      var psbt: Psbt, key: string, e: Event :| SignsWith(env, s, t, psbt, key, e);
      CounterOfAppended(env, s.log, e);
      if t.round.phase == Broadcast {
        CounterOfAppended(env, s.log + [e], t.log[|s.log| + 1]);
      }
    } else if t.log == s.log {
      SilentKeepsAccounts(env, s, t);
    } else {
      OneEventAtMost(env, s, t);
      CounterOfAppended(env, s.log, t.log[|s.log|]);
      if Ends(env, s, t) {
        JudgedCounts(env, s, t.log[|s.log|], t.accounts);
      }
    }
  }

  // In every run the counter is this function of the history.
  lemma {:induction false} RunKeepsCounter(env: Env, boot: Boot, acts: seq<Label>)
    requires Sane(env.cfg)
    ensures Run(env, boot, acts).accounts.blameCount == Counter(env, Run(env, boot, acts).log)
    decreases |acts|
  {
    hide Core, Step, Change, Counter;
    if acts == [] {
      NothingCounted(env);
    } else {
      var s := Run(env, boot, acts[..|acts| - 1]);
      RunKeepsCounter(env, boot, acts[..|acts| - 1]);
      RunIsSound(env, boot, acts[..|acts| - 1]);
      StepIsChange(env, s, acts[|acts| - 1]);
      ChangeKeepsCounter(env, s, Step(env, s, acts[|acts| - 1]));
    }
  }

  lemma NothingCounted(env: Env)
    ensures Counter(env, []) == 0
  {
  }

  // -- exactly when the cap is passed ---------------------------------------------------

  // Endings that end every count above the cap.
  predicate Wipes(e: Event) {
    && e.Ended?
    && (e.cause.BroadcastSucceeded? || e.cause.SigningTimedOut? || (e.cause.BroadcastFailed? && e.banned != {}))
  }

  // An unattributed failure met the counter at the cap, and nothing wiped it since.
  ghost predicate PassesAt(env: Env, log: seq<Event>, i: nat) {
    && i < |log| && Unattributed(log[i]) && Counter(env, log[..i]) == 2
    && forall j :: i < j < |log| ==> !Wipes(log[j])
  }

  ghost predicate CapPassed(env: Env, log: seq<Event>) {
    exists i: nat :: PassesAt(env, log, i)
  }

  lemma PassingStays(env: Env, log: seq<Event>, e: Event, i: nat)
    requires i < |log|
    ensures PassesAt(env, log + [e], i) <==> PassesAt(env, log, i) && !Wipes(e)
  {
    hide Counter, Wipes, Unattributed;
    assert (log + [e])[..i] == log[..i];
    if PassesAt(env, log, i) && !Wipes(e) {
      assert forall j :: i < j < |log| ==> (log + [e])[j] == log[j];
    }
    if PassesAt(env, log + [e], i) {
      assert forall j :: i < j < |log| ==> (log + [e])[j] == log[j];
      assert (log + [e])[|log|] == e;
    }
  }

  lemma PassingNow(env: Env, log: seq<Event>, e: Event)
    ensures PassesAt(env, log + [e], |log|) <==> Unattributed(e) && Counter(env, log) == 2
  {
    hide Counter, Wipes, Unattributed;
    assert (log + [e])[..|log|] == log;
  }

  lemma CapPassedStep(env: Env, log: seq<Event>, e: Event)
    ensures CapPassed(env, log + [e]) <==>
            (CapPassed(env, log) && !Wipes(e)) || (Unattributed(e) && Counter(env, log) == 2)
  {
    hide PassesAt, Counter, Wipes, Unattributed;
    PassingNow(env, log, e);
    if CapPassed(env, log + [e]) {
      var i: nat :| PassesAt(env, log + [e], i);
      PassingBounds(env, log + [e], i);
      if i < |log| {
        PassingStays(env, log, e, i);
      }
    }
    if CapPassed(env, log) {
      var i: nat :| PassesAt(env, log, i);
      PassingBounds(env, log, i);
      PassingStays(env, log, e, i);
    }
  }

  lemma PassingBounds(env: Env, log: seq<Event>, i: nat)
    ensures PassesAt(env, log, i) ==> i < |log|
  {
  }

  lemma {:induction false} CapIsPassedInHistory(env: Env, log: seq<Event>)
    ensures Counter(env, log) > 2 <==>
            env.cfg.fullAbortBackoffSecs == 0 && CapPassed(env, log)
    decreases |log|
  {
    if log != [] {
      hide CapPassed, Counter;
      var init, e := log[..|log| - 1], log[|log| - 1];
      assert log == init + [e];
      CapIsPassedInHistory(env, init);
      CounterOfAppended(env, init, e);
      CapPassedStep(env, init, e);
    }
  }

  // The counter of a run is above the cap exactly if no backoff is configured
  // and an unattributed broadcast failure met it at the cap with nothing since
  // to wipe it.
  lemma CapIsPassedExactly(env: Env, boot: Boot, acts: seq<Label>)
    requires Sane(env.cfg)
    ensures Run(env, boot, acts).accounts.blameCount > 2 <==>
            env.cfg.fullAbortBackoffSecs == 0 && CapPassed(env, Run(env, boot, acts).log)
  {
    hide Run, Counter, CapPassed;
    RunKeepsCounter(env, boot, acts);
    CapIsPassedInHistory(env, Run(env, boot, acts).log);
  }

  // -- and it is: runs to any count ---------------------------------------------------------

  const FRESH_BOOT := Boot(0, 0, map[])

  lemma Unspoiled(c: CoordinatorConfig, s: System, cast: seq<Player>)
    requires Sane(c) && s.accounts.bans == map[]
    ensures NobodyIsBanned(EnvFor(c, true), s, cast)
  {
    hide EnvFor;
  }

  // Without a backoff, one more refused broadcast is one more on the counter.
  lemma RefusalCounts(env: Env, a: Accounts, now: nat)
    requires env.cfg.fullAbortBackoffSecs == 0 && a.bans == map[]
    ensures BroadcastFailureVerdict(env, a, {}, now).accounts == a.(blameCount := a.blameCount + 1)
  {
    NobodyBanned(env, a.bans, now);
  }

  lemma OneMoreRefusal(c: CoordinatorConfig, s: System) returns (more: seq<Label>)
    requires Sane(c) && c.fullAbortBackoffSecs == 0
    requires Ready(EnvFor(c, true), s) && s.round.phase == Idle && s.accounts.bans == map[]
    ensures var t := Exec(EnvFor(c, true), s, more);
            && Ready(EnvFor(c, true), t) && t.round.phase == Idle
            && t.accounts == s.accounts.(blameCount := s.accounts.blameCount + 1)
  {
    hide EnvFor, CastFor, Ready, Exec, GoodCast, NobodyIsBanned, CeilingOf, SignedBefore, BroadcastFailureVerdict;
    var n := c.minParticipants;
    var cast := CastFor(c, n);
    CastIsGood(c, true, n, 0, [], s.round.id);
    Unspoiled(c, s, cast);
    var flight: System;
    more, flight := RoundFrom(EnvFor(c, true), s, 0, [], cast, NotSent(seq(n, _ => Unspent)));
    RefusalCounts(EnvFor(c, true), flight.accounts, flight.now);
  }

  // Without a backoff no bound holds: every number is the counter of some run.
  lemma {:induction false} EveryCountIsReached(c: CoordinatorConfig, count: nat) returns (acts: seq<Label>)
    requires Sane(c) && c.fullAbortBackoffSecs == 0
    ensures Ready(EnvFor(c, true), Run(EnvFor(c, true), FRESH_BOOT, acts))
    ensures Run(EnvFor(c, true), FRESH_BOOT, acts).round.phase == Idle
    ensures Run(EnvFor(c, true), FRESH_BOOT, acts).accounts == Accounts(map[], count, 0)
  {
    hide EnvFor, Ready, Exec;
    if count == 0 {
      acts := [];
      StartIsReady(EnvFor(c, true), FRESH_BOOT);
    } else {
      var before := EveryCountIsReached(c, count - 1);
      var more := OneMoreRefusal(c, Run(EnvFor(c, true), FRESH_BOOT, before));
      RunThenExec(EnvFor(c, true), FRESH_BOOT, before, more);
      acts := before + more;
    }
  }

  lemma StartIsReady(env: Env, boot: Boot)
    requires env.cfg.bip.AllowsSomething()
    ensures Ready(env, Run(env, boot, []))
    ensures Run(env, boot, []) == Start(boot)
  {
    hide Core, Covered, Remembered;
    StartIsSound(env, boot);
    StartIsCovered(boot);
    StartIsRemembered(boot);
  }

  // -- a completed round under every valid configuration ---------------------------------------

  lemma SomeRoundCompletes(c: CoordinatorConfig, n: nat) returns (acts: seq<Label>, flight: System)
    requires Sane(c) && c.minParticipants <= n <= c.maxParticipants
    ensures flight.round == SignedBefore(0, 0, [], CastFor(c, n), n, true)
    ensures EndedWith(EnvFor(c, true), flight, Run(EnvFor(c, true), FRESH_BOOT, acts), Sent)
  {
    hide EnvFor, CastFor, GoodCast, NobodyIsBanned, CeilingOf, SignedBefore, EndedWith, Ready;
    StartIsReady(EnvFor(c, true), FRESH_BOOT);
    CastIsGood(c, true, n, 0, [], 0);
    Unspoiled(c, Start(FRESH_BOOT), CastFor(c, n));
    acts, flight := HonestRoundCompletes(EnvFor(c, true), FRESH_BOOT, [], 0, [], CastFor(c, n));
    assert [] + acts == acts;
  }
}
