// A banned coin can be registered: a request that outlives the round it began
// in is not checked against the ban list again.
module StaleRequests {
  import opened Base
  import opened Config
  import opened World
  import opened Rounds
  import opened Blame
  import opened RoundInvariant
  import opened Protocol
  import opened Steps
  import opened Results
  import opened Progress
  import opened Timing
  import opened Restarting
  import opened HonestRounds
  import opened Permissive
  import opened Counting
  import Outpoints

  // -- a signing deadline ------------------------------------------------------------

  // The round ends at its signing deadline, and everybody who did not sign is banned.
  ghost predicate TimedOut(env: Env, s: System, t: System) {
    && t.round == NewIdle(t.round.id) && t.round.id !in s.used && t.now == s.now
    && t.accounts == SigningTimeoutVerdict(env, s.accounts, NonSigners(s.round), s.now).accounts
    && KeepsRequests(s, t)
  }

  lemma DeadlineFires(env: Env, s: System) returns (act: Label)
    requires Sane(env.cfg) && Core(env, s) && s.round.phase == Signing
    requires HasTimer(s.tasks, s.round.phase, s.round.id)
    ensures TimedOut(env, s, Step(env, s, act))
  {
    hide Core, Step, SigningTimeoutVerdict, KeepsRequests, NonSigners;
    var tid :| tid in s.tasks && s.tasks[tid] == Timer(s.round.phase, s.round.id);
    var newId := Unused(s.used);
    act := TimerFires(tid, newId);
    TimerStep(env, s, act);
    RestKeepsRequests(env, s, act);
    EndingsReachIdle(s.round, newId);
  }

  lemma {:induction false} DeadlinePasses(env: Env, s: System) returns (more: seq<Label>)
    requires Sane(env.cfg) && Ready(env, s) && s.round.phase == Signing
    ensures TimedOut(env, s, Exec(env, s, more))
    decreases Distance(s)
  {
    hide Core, Covered, Remembered, Exec, Step, HasTimer, KeepsRequests, Distance, RoundOk, TimedOut;
    if HasTimer(s.tasks, s.round.phase, s.round.id) {
      var act := DeadlineFires(env, s);
      ExecOne(env, s, act);
      more := [act];
    } else {
      var act := MonitorNears(env, s);
      SameRoundIsSteady(env, s, act);
      OnlyTicksTakeTime(env, s, act);
      ExecOne(env, s, act);
      ExecIsReady(env, s, [act]);
      var rest := DeadlinePasses(env, Step(env, s, act));
      ExecFirst(env, s, act, rest);
      TimedOutLater(env, s, Step(env, s, act), Exec(env, Step(env, s, act), rest));
      more := [act] + rest;
    }
  }

  lemma TimedOutLater(env: Env, s: System, mid: System, t: System)
    requires mid.round == s.round && mid.now == s.now && Steady(s, mid) && TimedOut(env, mid, t)
    ensures TimedOut(env, s, t)
  {
    hide SigningTimeoutVerdict, NonSigners;
  }

  // -- a request that waits -------------------------------------------------------------

  lemma RequestWaits(s: System, tid: nat, p: Player, start: RoundId)
    requires tid in s.tasks && s.tasks[tid] == InputRequest(p.form, p.op, start, Unbanned)
    ensures s == WithRequest(Drop(s, tid), tid, p, start, Unbanned)
  {
    assert s.tasks == (s.tasks - {tid})[tid := InputRequest(p.form, p.op, start, Unbanned)];
  }

  lemma WaitingIsThere(s: System, tid: nat, p: Player, start: RoundId, t: System)
    requires Steady(WithRequest(s, tid, p, start, Unbanned), t)
    ensures tid in t.tasks && t.tasks[tid] == InputRequest(p.form, p.op, start, Unbanned)
    ensures t.accounts == s.accounts
  {
    assert tid in WithRequest(s, tid, p, start, Unbanned).tasks;
  }

  // A request in flight is still there when its round has been lost.
  ghost predicate Waiting(s: System, tid: nat, p: Player, start: RoundId) {
    tid in s.tasks && s.tasks[tid] == InputRequest(p.form, p.op, start, Unbanned)
  }

  // The full cast registers and collects outputs while one more request waits.
  lemma SigningWhileWaiting(c: CoordinatorConfig, s: System, cast: seq<Player>) returns (more: seq<Label>, tid: nat)
    requires Sane(c) && Ready(EnvFor(c, true), s) && cast == CastFor(c, c.minParticipants)
    requires s.round == JoinedBy(EnvFor(c, true), s.round.id, 0, [], cast, 0) && s.accounts.bans == map[]
    ensures var t := Exec(EnvFor(c, true), s, more);
            && t.round == Collected(s.round.id, 0, [], cast, |cast|) && Waiting(t, tid, cast[0], s.round.id)
            && t.accounts == s.accounts && s.used <= t.used
  {
    hide EnvFor, CastFor, Core, Covered, Remembered, Ready, Exec, JoinedBy, Collected, GoodInput, Redeemable,
      GoodSigning, Distinct, NobodyIsBanned, CanJoin, WithRequest, BannedNow;
    var env, id := EnvFor(c, true), s.round.id;
    CastIsGood(c, true, c.minParticipants, 0, [], id);
    Unspoiled(c, s, cast);
    NextJoins(env, id, 0, [], cast, 0);
    tid := Unused(s.tasks.Keys);
    NotBanned(env, s, cast, 0);
    var starts := RequestStarts(env, s, tid, cast[0]);
    var t := Exec(env, s, starts);
    ExecIsReady(env, s, starts);
    RequestIsBeside(s, tid, cast[0], id);
    Unspoiled(c, t, cast);
    var joins := RegisterFrom(env, t, 0, [], cast, 0);
    var u := Exec(env, t, joins);
    ExecIsReady(env, t, joins);
    var closes := CloseRegistration(env, u, id, 0, [], cast);
    var v := Exec(env, u, closes);
    ExecIsReady(env, u, closes);
    CollectedKeepsId(id, 0, [], cast, 0);
    var outputs := CollectFrom(env, v, 0, [], cast, 0);
    ExecConcat(env, s, starts, joins);
    ExecConcat(env, s, starts + joins, closes);
    ExecConcat(env, s, starts + joins + closes, outputs);
    SteadyChain(t, u, v);
    SteadyChain(t, v, Exec(env, v, outputs));
    WaitingIsThere(s, tid, cast[0], id, Exec(env, v, outputs));
    SteadyUsed(t, Exec(env, v, outputs));
    more := starts + joins + closes + outputs;
  }

  lemma NotBanned(env: Env, s: System, cast: seq<Player>, i: nat)
    requires NobodyIsBanned(env, s, cast) && i < |cast|
    ensures !BannedNow(env, s, cast[i].op)
  {
    hide BannedNow;
  }

  lemma RequestIsBeside(s: System, tid: nat, p: Player, start: RoundId)
    ensures var t := WithRequest(s, tid, p, start, Unbanned);
            t.round == s.round && t.accounts == s.accounts && t.used == s.used
  {
  }

  lemma SteadyUsed(s: System, t: System)
    requires Steady(s, t)
    ensures s.used <= t.used
  {
  }

  // -- the slip -------------------------------------------------------------------------

  // Nobody signed, so everybody is banned, and no pause was armed.
  lemma DeadlineBansAll(
    env: Env, s: System, t: System, id: RoundId, key: Key, secret: Secret, cast: seq<Player>, i: nat)
    requires TimedOut(env, s, t) && s.accounts == Accounts(map[], 0, 0) && i < |cast| && Distinct(cast)
    requires s.round == Collected(id, key, secret, cast, |cast|) && env.cfg.banDurationSecs > 0
    ensures BannedNow(env, t, cast[i].op) && t.accounts.pausedUntil == 0
  {
    hide Outpoints.Render, BanAll, Distinct, CastInputs, CastTokens, CastOutputs, KeepsRequests;
    CastReg(cast, i);
    var banned := NonSigners(s.round);
    assert KeyOf(cast[i]) in banned;
    BanAllBans(env, map[], banned, s.now);
  }

  lemma BanOutlivesTheStart(env: Env, s: System, t: System, op: OutPoint)
    requires BannedNow(env, s, op) && Steady(s, t) && t.now == s.now
    ensures BannedNow(env, t, op)
  {
    hide Outpoints.Render;
  }

  // A stale request joins the next round though its coin is banned by then.
  lemma BannedCoinJoins(c: CoordinatorConfig, s: System, tid: nat, start: RoundId) returns (more: seq<Label>)
    requires Sane(c) && Ready(EnvFor(c, true), s) && s.round.phase == Idle && s.round.id != start
    requires Waiting(s, tid, PlayerFor(c, 0), start) && s.accounts.pausedUntil <= s.now
    requires BannedNow(EnvFor(c, true), s, PlayerFor(c, 0).op)
    ensures var log := Exec(EnvFor(c, true), s, more).log;
            && log != [] && log[|log| - 1].Registered? && log[|log| - 1].wasBanned
            && log[|log| - 1].startRound == start && log[|log| - 1].id != start
  {
    hide EnvFor, PlayerFor, Core, Covered, Remembered, Exec, RoundOk, BannedNow, WithRequest, Joining,
      GoodInput, Install, KeepsRequests;
    var env, p := EnvFor(c, true), PlayerFor(c, 0);
    CoreRoundOk(env, s);
    IdleIsNew(env, s.round);
    var starts := StartFrom(env, s, 0, []);
    var t := Exec(env, s, starts);
    ExecIsReady(env, s, starts);
    StillWaiting(s, t, tid, p, start);
    BanOutlivesTheStart(env, s, t, p.op);
    RequestWaits(t, tid, p, start);
    PlayersAreGood(c, true, 0, s.round.id, 0);
    CanJoinFirst(env, s.round, 0, [], p);
    DropKeepsBan(env, t, tid, p.op);
    CoreRoundOk(env, t);
    var joins := RequestJoins(env, Drop(t, tid), tid, p, start);
    ExecConcat(env, s, starts, joins);
    more := starts + joins;
  }

  lemma StillWaiting(s: System, t: System, tid: nat, p: Player, start: RoundId)
    requires Waiting(s, tid, p, start) && Steady(s, t)
    ensures Waiting(t, tid, p, start)
  {
  }

  lemma DropKeepsBan(env: Env, s: System, tid: nat, op: OutPoint)
    ensures BannedNow(env, Drop(s, tid), op) == BannedNow(env, s, op)
    ensures Drop(s, tid).round == s.round && tid !in Drop(s, tid).tasks
  {
    hide Outpoints.Render;
  }

  lemma CanJoinFirst(env: Env, r: Round, key: Key, secret: Secret, p: Player)
    requires env.cfg.bip.AllowsSomething() && env.cfg.maxParticipants > 0
    requires r == NewIdle(r.id) && GoodInput(env, key, r.id, p)
    ensures CanJoin(env, Install(r, key, secret), p) && Install(r, key, secret).id == r.id
  {
    hide GoodInput, Outpoints.Render;
  }

  // Under every valid configuration with a ban duration some run registers a
  // coin that is banned at that moment - by a request that began in an earlier
  // round, as it must.
  lemma SomeRunRegistersABannedCoin(c: CoordinatorConfig) returns (acts: seq<Label>)
    requires Sane(c) && c.banDurationSecs > 0
    ensures var log := Run(EnvFor(c, true), FRESH_BOOT, acts).log;
            && log != [] && log[|log| - 1].Registered? && log[|log| - 1].wasBanned
            && log[|log| - 1].startRound != log[|log| - 1].id
  {
    hide EnvFor, CastFor, Core, Covered, Remembered, Exec, JoinedBy, Collected, TimedOut, Waiting, BannedNow, Distinct,
      Install, Run;
    var env, cast := EnvFor(c, true), CastFor(c, c.minParticipants);
    StartIsReady(env, FRESH_BOOT);
    var s := Start(FRESH_BOOT);
    InstalledIsJoined(env, s.round, 0, [], cast);
    JoinedKeepsId(env, s.round.id, 0, [], cast, 0);
    var starts := StartFrom(env, s, 0, []);
    var t := Exec(env, s, starts);
    ExecIsReady(env, s, starts);
    var signs, tid := SigningWhileWaiting(c, t, cast);
    var u := Exec(env, t, signs);
    ExecIsReady(env, t, signs);
    CollectedIsSigning(s.round.id, 0, [], cast);
    var ends := DeadlinePasses(env, u);
    var v := Exec(env, u, ends);
    ExecIsReady(env, u, ends);
    CastIsDistinct(c, c.minParticipants);
    FirstOfCast(c, c.minParticipants);
    DeadlineBansAll(env, u, v, s.round.id, 0, [], cast, 0);
    WaitsThroughDeadline(env, u, v, tid, cast[0], s.round.id);
    var slips := BannedCoinJoins(c, v, tid, s.round.id);
    ExecConcat(env, s, starts, signs);
    ExecConcat(env, s, starts + signs, ends);
    ExecConcat(env, s, starts + signs + ends, slips);
    RunThenExec(env, FRESH_BOOT, [], starts + signs + ends + slips);
    acts := starts + signs + ends + slips;
    assert [] + acts == acts;
  }

  lemma CollectedIsSigning(id: RoundId, key: Key, secret: Secret, cast: seq<Player>)
    requires |cast| > 0
    ensures var r := Collected(id, key, secret, cast, |cast|); r.phase == Signing && r.id == id
  {
  }

  lemma FirstOfCast(c: CoordinatorConfig, n: nat)
    requires Sane(c) && 0 < n <= 100
    ensures CastFor(c, n)[0] == PlayerFor(c, 0)
  {
    hide PlayerFor;
  }

  lemma WaitsThroughDeadline(env: Env, s: System, t: System, tid: nat, p: Player, start: RoundId)
    requires TimedOut(env, s, t) && Waiting(s, tid, p, start) && s.round.id == start
    requires s.round.id in s.used
    ensures Waiting(t, tid, p, start) && t.round.phase == Idle && t.round.id != start
  {
  }
}
