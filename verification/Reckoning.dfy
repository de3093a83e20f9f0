// The accounts over whole runs: every ban comes from an ending and stays, the
// counter is the streak of unattributed or timed-out rounds, and no round
// starts while a pause lasts.
module Reckoning {
  import opened Base
  import opened Transactions
  import opened World
  import opened Rounds
  import opened BanStore
  import opened Blame
  import opened Assembly
  import opened SigningRound
  import opened Protocol
  import opened Changes
  import opened Lifecycle

  // -- bans ------------------------------------------------------------------------

  // This ending wrote this entry.
  ghost predicate BannedBy(env: Env, e: Event, h: Hash, entry: BanEntry) {
    && e.Ended? && entry == BanEntry(e.time, e.time + env.cfg.banDurationSecs)
    && exists u :: u in e.banned && env.sha(u) == h
  }

  ghost predicate Earned(env: Env, log: seq<Event>, h: Hash, entry: BanEntry) {
    exists i :: 0 <= i < |log| && BannedBy(env, log[i], h, entry)
  }

  // Every ban was loaded at the start or earned in an ending.
  ghost predicate Traced(env: Env, loaded: BanMap, log: seq<Event>, bans: BanMap) {
    forall h :: h in bans ==> (h in loaded && bans[h] == loaded[h]) || Earned(env, log, h, bans[h])
  }

  // Whoever an ending bans stays banned for at least the full duration.
  ghost predicate Kept(env: Env, log: seq<Event>, bans: BanMap) {
    forall i, u :: 0 <= i < |log| && log[i].Ended? && u in log[i].banned ==>
      BannedSince(env, bans, u, log[i].time)
  }

  predicate BannedSince(env: Env, bans: BanMap, u: string, time: nat) {
    env.sha(u) in bans && bans[env.sha(u)].expiresAt >= time + env.cfg.banDurationSecs
  }

  // -- the pause ------------------------------------------------------------------------

  predicate Arms(e: Event) {
    e.Ended? && e.armed.Some?
  }

  ghost predicate Timely(log: seq<Event>, now: nat) {
    forall i :: 0 <= i < |log| && (log[i].Installed? || log[i].Ended?) ==> log[i].time <= now
  }

  // The pause in force is the latest armed.
  ghost predicate LatestPause(log: seq<Event>, until: nat) {
    && (forall i :: 0 <= i < |log| && Arms(log[i]) ==> log[i].armed.value <= until)
    && (until == 0 || exists i :: 0 <= i < |log| && Arms(log[i]) && log[i].armed.value == until)
  }

  // No round is installed before every pause armed so far is over.
  ghost predicate PausesRespected(log: seq<Event>) {
    forall i, j :: 0 <= i < j < |log| && Arms(log[i]) && log[j].Installed? ==> log[i].armed.value <= log[j].time
  }

  // -- the counter ------------------------------------------------------------------------

  // A failure that counts towards a full abort.
  predicate Counts(e: Event) {
    e.Ended? && (e.cause.SigningTimedOut? || (e.cause.BroadcastFailed? && e.banned == {}))
  }

  // An ending that wipes the slate: success, an attributed failure, a pause.
  predicate Clears(e: Event) {
    e.Ended? && (e.armed.Some? || e.cause.BroadcastSucceeded? || (e.cause.BroadcastFailed? && e.banned != {}))
  }

  // Counted failures since the slate was last wiped.
  function Streak(log: seq<Event>): nat {
    if log == [] then 0
    else
      var e, before := log[|log| - 1], Streak(log[..|log| - 1]);
      if Clears(e) then 0 else if Counts(e) then before + 1 else before
  }

  // When a failure arms the pause.
  predicate CallsForPause(e: Event, streak: nat) {
    && e.Ended?
    && ((e.cause.SigningTimedOut? && (streak >= 2 || e.banned == {}))
        || (e.cause.BroadcastFailed? && e.banned == {} && streak + 1 >= 2))
  }

  // Pauses are armed exactly when called for, and only with a backoff configured.
  ghost predicate PausedAt(env: Env, log: seq<Event>, i: nat)
    requires i < |log|
  {
    var backoff := env.cfg.fullAbortBackoffSecs;
    log[i].Ended? ==>
      && (Arms(log[i]) ==> backoff > 0 && log[i].armed == Some(log[i].time + backoff))
      && (backoff > 0 ==> (Arms(log[i]) <==> CallsForPause(log[i], Streak(log[..i]))))
  }

  ghost predicate PausesCalledFor(env: Env, log: seq<Event>) {
    forall i :: 0 <= i < |log| ==> PausedAt(env, log, i)
  }

  ghost predicate CounterIsStreak(env: Env, log: seq<Event>, count: nat) {
    env.cfg.fullAbortBackoffSecs > 0 ==> count == Streak(log) <= 2
  }

  ghost predicate Reckoned(env: Env, boot: Boot, s: System) {
    && Traced(env, boot.bans, s.log, s.accounts.bans)
    && Kept(env, s.log, s.accounts.bans)
    && Timely(s.log, s.now)
    && s.accounts.pausedUntil <= s.now + env.cfg.fullAbortBackoffSecs
    && LatestPause(s.log, s.accounts.pausedUntil)
    && PausesRespected(s.log)
    && PausesCalledFor(env, s.log)
    && CounterIsStreak(env, s.log, s.accounts.blameCount)
  }

  // -- events that are no endings ------------------------------------------------------------

  lemma EarnedStays(env: Env, log: seq<Event>, e: Event, h: Hash, entry: BanEntry)
    requires Earned(env, log, h, entry)
    ensures Earned(env, log + [e], h, entry)
  {
    hide BannedBy;
    var i :| 0 <= i < |log| && BannedBy(env, log[i], h, entry);
    assert (log + [e])[i] == log[i];
  }

  lemma TracedStays(env: Env, loaded: BanMap, log: seq<Event>, e: Event, bans: BanMap)
    requires Traced(env, loaded, log, bans)
    ensures Traced(env, loaded, log + [e], bans)
  {
    hide Earned;
    forall h | h in bans && Earned(env, log, h, bans[h]) ensures Earned(env, log + [e], h, bans[h]) {
      EarnedStays(env, log, e, h, bans[h]);
    }
  }

  lemma LatestPauseStays(log: seq<Event>, e: Event, until: nat)
    requires LatestPause(log, until) && !Arms(e)
    ensures LatestPause(log + [e], until)
  {
    if until != 0 {
      var i :| 0 <= i < |log| && Arms(log[i]) && log[i].armed.value == until;
      assert (log + [e])[i] == log[i];
    }
  }

  lemma StreakOfAppended(log: seq<Event>, e: Event)
    ensures Streak(log + [e]) == if Clears(e) then 0 else if Counts(e) then Streak(log) + 1 else Streak(log)
  {
    assert (log + [e])[..|log|] == log;
  }

  lemma PausesCalledForStays(env: Env, log: seq<Event>, e: Event)
    requires PausesCalledFor(env, log)
    requires PausedAt(env, log + [e], |log|)
    ensures PausesCalledFor(env, log + [e])
  {
    hide Streak, CallsForPause;
    forall i | 0 <= i < |log + [e]| ensures PausedAt(env, log + [e], i) {
      if i < |log| {
        assert PausedAt(env, log, i);
        assert (log + [e])[..i] == log[..i];
      }
    }
  }

  // An installation waits for the pause; any other event leaves the accounts alone.
  lemma EventKeepsReckoned(env: Env, boot: Boot, s: System, t: System, e: Event)
    requires Reckoned(env, boot, s)
    requires t.log == s.log + [e] && !e.Ended? && t.accounts == s.accounts && t.now == s.now
    requires e.Installed? ==> e.time == s.now && s.accounts.pausedUntil <= s.now
    ensures Reckoned(env, boot, t)
  {
    hide Earned, Streak, CallsForPause, Traced, LatestPause, PausesCalledFor, PausesRespected;
    TracedStays(env, boot.bans, s.log, e, s.accounts.bans);
    LatestPauseStays(s.log, e, s.accounts.pausedUntil);
    PausesCalledForStays(env, s.log, e);
    StreakOfAppended(s.log, e);
    InstallRespectsPauses(s.log, e, s.accounts.pausedUntil);
  }

  lemma InstallRespectsPauses(log: seq<Event>, e: Event, until: nat)
    requires PausesRespected(log) && LatestPause(log, until)
    requires e.Installed? ==> until <= e.time
    ensures PausesRespected(log + [e])
  {
  }

  // -- endings ----------------------------------------------------------------------------------

  // What an ending does to the accounts, in terms of its event.
  lemma JudgedAccounts(env: Env, s: System, e: Event, after: Accounts)
    requires Judged(env, s, e, after)
    ensures e.Ended? && e.time == s.now
    ensures after.bans == BanAll(env, s.accounts.bans, e.banned, s.now)
    ensures after.pausedUntil == if Arms(e) then e.armed.value else s.accounts.pausedUntil
    ensures Arms(e) ==> env.cfg.fullAbortBackoffSecs > 0 && e.armed.value == s.now + env.cfg.fullAbortBackoffSecs
  {
    hide BanAll, Revalidate;
    NobodyBanned(env, s.accounts.bans, s.now);
  }

  lemma JudgedCounter(env: Env, s: System, e: Event, after: Accounts)
    requires Judged(env, s, e, after) && env.cfg.fullAbortBackoffSecs > 0
    requires s.accounts.blameCount <= 2
    ensures Arms(e) <==> CallsForPause(e, s.accounts.blameCount)
    ensures after.blameCount ==
            if Clears(e) then 0 else if Counts(e) then s.accounts.blameCount + 1 else s.accounts.blameCount
    ensures after.blameCount <= 2
  {
    hide BanAll, Revalidate;
  }

  lemma EndKeepsTraced(env: Env, loaded: BanMap, log: seq<Event>, e: Event, bans: BanMap)
    requires Traced(env, loaded, log, bans) && e.Ended?
    ensures Traced(env, loaded, log + [e], BanAll(env, bans, e.banned, e.time))
  {
    hide Earned, Traced;
    var after := BanAll(env, bans, e.banned, e.time);
    BanAllBans(env, bans, e.banned, e.time);
    TracedStays(env, loaded, log, e, bans);
    assert Traced(env, loaded, log + [e], bans);
    EarnedOrOld(env, loaded, log, e, bans, after);
  }

  lemma EarnedOrOld(env: Env, loaded: BanMap, log: seq<Event>, e: Event, bans: BanMap, after: BanMap)
    requires Traced(env, loaded, log + [e], bans) && e.Ended?
    requires after == BanAll(env, bans, e.banned, e.time)
    ensures Traced(env, loaded, log + [e], after)
  {
    hide Earned, BannedBy;
    forall h | h in after
      ensures (h in loaded && after[h] == loaded[h]) || Earned(env, log + [e], h, after[h])
    {
      if u: string :| u in e.banned && env.sha(u) == h {
        NewlyEarned(env, log, e, u);
        assert after[h] == BanEntry(e.time, e.time + env.cfg.banDurationSecs);
      } else {
        assert h in bans && after[h] == bans[h];
      }
    }
  }

  lemma NewlyEarned(env: Env, log: seq<Event>, e: Event, u: string)
    requires e.Ended? && u in e.banned
    ensures Earned(env, log + [e], env.sha(u), BanEntry(e.time, e.time + env.cfg.banDurationSecs))
  {
    assert BannedBy(env, (log + [e])[|log|], env.sha(u), BanEntry(e.time, e.time + env.cfg.banDurationSecs));
  }

  lemma EndKeepsKept(env: Env, log: seq<Event>, e: Event, bans: BanMap, now: nat)
    requires Kept(env, log, bans) && Timely(log, now) && e.Ended? && e.time == now
    ensures Kept(env, log + [e], BanAll(env, bans, e.banned, now))
  {
    hide BannedSince, BanAll;
    var after := BanAll(env, bans, e.banned, now);
    forall i, u | 0 <= i < |log + [e]| && (log + [e])[i].Ended? && u in (log + [e])[i].banned
      ensures BannedSince(env, after, u, (log + [e])[i].time)
    {
      if i < |log| {
        assert BannedSince(env, bans, u, log[i].time);
        StillBanned(env, bans, e.banned, u, log[i].time, now);
      } else {
        NowBanned(env, bans, e.banned, u, now);
      }
    }
  }

  lemma StillBanned(env: Env, bans: BanMap, banned: set<string>, u: string, time: nat, now: nat)
    requires BannedSince(env, bans, u, time) && time <= now
    ensures BannedSince(env, BanAll(env, bans, banned, now), u, time)
  {
  }

  lemma NowBanned(env: Env, bans: BanMap, banned: set<string>, u: string, now: nat)
    requires u in banned
    ensures BannedSince(env, BanAll(env, bans, banned, now), u, now)
  {
  }

  lemma EndKeepsPause(log: seq<Event>, e: Event, until: nat)
    requires LatestPause(log, until) && PausesRespected(log) && e.Ended?
    requires Arms(e) ==> until <= e.armed.value
    ensures LatestPause(log + [e], if Arms(e) then e.armed.value else until)
    ensures PausesRespected(log + [e])
  {
    if Arms(e) {
      assert Arms((log + [e])[|log|]);
    } else {
      LatestPauseStays(log, e, until);
    }
  }

  lemma EndKeepsReckoned(env: Env, boot: Boot, s: System, t: System)
    requires Reckoned(env, boot, s) && Ends(env, s, t)
    ensures Reckoned(env, boot, t)
  {
    hide Judged, Traced, Kept, LatestPause, PausesRespected, PausesCalledFor, Streak, CallsForPause, BanAll, Clears,
      Counts;
    var e := t.log[|s.log|];
    assert t.log == s.log + [e];
    assert t.log[..|s.log|] == s.log;
    JudgedAccounts(env, s, e, t.accounts);
    EndKeepsTraced(env, boot.bans, s.log, e, s.accounts.bans);
    EndKeepsKept(env, s.log, e, s.accounts.bans, s.now);
    EndKeepsPause(s.log, e, s.accounts.pausedUntil);
    StreakOfAppended(s.log, e);
    if env.cfg.fullAbortBackoffSecs > 0 {
      JudgedCounter(env, s, e, t.accounts);
    }
    PausesCalledForStays(env, s.log, e);
  }

  // -- the changes ---------------------------------------------------------------------------------

  lemma SignKeepsReckoned(env: Env, boot: Boot, s: System, t: System)
    requires Reckoned(env, boot, s) && Signs(env, s, t)
    ensures Reckoned(env, boot, t)
  {
    hide Reckoned, InSigning, SoundSigned, SignedTx, FullySigned, WithSig;
    var psbt: Psbt, key: string, e: Event :| SignsWith(env, s, t, psbt, key, e);
    SigningIsLive(env, s, t, psbt, key, e);
    var mid := t.(log := s.log + [e]);
    EventKeepsReckoned(env, boot, s, mid, e);
    if t.round.phase == Broadcast {
      EventKeepsReckoned(env, boot, mid, t, t.log[|s.log| + 1]);
    }
  }

  lemma TimePasses(env: Env, boot: Boot, s: System, t: System)
    requires Reckoned(env, boot, s)
    requires t.log == s.log && t.accounts == s.accounts && s.now <= t.now
    ensures Reckoned(env, boot, t)
  {
    hide Traced, Kept, LatestPause, PausesRespected, PausesCalledFor, Streak;
  }

  lemma ChangeKeepsReckoned(env: Env, boot: Boot, s: System, t: System)
    requires Reckoned(env, boot, s) && Change(env, s, t)
    ensures Reckoned(env, boot, t)
  {
    hide Reckoned, Signs, Ends, InSigning, Joined;
    if Quiet(s, t) {
      TimePasses(env, boot, s, t);
    } else if Installs(s, t) {
      EventKeepsReckoned(env, boot, s, t, t.log[|s.log|]);
    } else if Progresses(env, s, t) {
      if t.log == s.log {
        TimePasses(env, boot, s, t);
      } else {
        EventKeepsReckoned(env, boot, s, t, t.log[|s.log|]);
      }
    } else if Shows(env, s, t) {
      EventKeepsReckoned(env, boot, s, t, t.log[|s.log|]);
    } else if Signs(env, s, t) {
      SignKeepsReckoned(env, boot, s, t);
    } else {
      EndKeepsReckoned(env, boot, s, t);
    }
  }

  lemma StartIsReckoned(env: Env, boot: Boot)
    ensures Reckoned(env, boot, Start(boot))
  {
  }

  // -- what the streak means ---------------------------------------------------------------------

  ghost predicate NoneClears(log: seq<Event>, lo: nat, hi: nat) {
    forall m :: lo <= m < hi && m < |log| ==> !Clears(log[m])
  }

  // Uncleared failures add up.
  lemma {:induction false} StreakGrows(log: seq<Event>, lo: nat, hi: nat)
    requires lo <= hi <= |log| && NoneClears(log, lo, hi)
    ensures Streak(log[..hi]) >= Streak(log[..lo])
    ensures lo < hi && Counts(log[lo]) ==> Streak(log[..hi]) >= Streak(log[..lo]) + 1
    decreases hi
  {
    hide Clears, Counts;
    if lo < hi {
      StreakGrows(log, lo, hi - 1);
      assert log[..hi] == log[..hi - 1] + [log[hi - 1]];
      StreakOfAppended(log[..hi - 1], log[hi - 1]);
    }
  }

  // The third counted failure in a row arms the pause, if none did before it.
  lemma ThirdBlamePauses(env: Env, log: seq<Event>, i: nat, j: nat, k: nat)
    requires PausesCalledFor(env, log) && env.cfg.fullAbortBackoffSecs > 0
    requires i < j < k < |log| && Counts(log[i]) && Counts(log[j]) && Counts(log[k])
    requires NoneClears(log, i, k)
    ensures Arms(log[k])
  {
    hide Streak, Clears;
    StreakGrows(log, i, j);
    StreakGrows(log, j, k);
    assert PausedAt(env, log, k);
  }
}
