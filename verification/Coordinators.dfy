// The coordinator's objects together: each critical section, as it is run on
// them, is one step of the protocol.
module Coordinators {
  import opened Base
  import opened Transactions
  import opened World
  import opened Ownership
  import opened Rounds
  import opened RoundStates
  import opened BanStore
  import opened Blame
  import opened BanJournal
  import opened BlameEngine
  import opened Protocol
  import SigningEngine
  import Fees
  import Outpoints

  // The variables of the monitor loop.
  class PhaseMonitor {
    var pc: MonitorPc
    var lastIdle: Option<RoundId>
    var lastArmed: map<Phase, RoundId>

    function View(): Monitor
      reads this
    {
      Monitor(pc, lastIdle, lastArmed)
    }

    constructor ()
      ensures View() == Monitor(Waiting, None, map[])
    {
      pc := Waiting;
      lastIdle := None;
      lastArmed := map[];
    }
  }

  class Coordinator {
    const state: RoundState
    const bans: BanList
    const file: BanFile
    const counters: Counters
    const monitor: PhaseMonitor

    // The objects hold what the protocol state says.
    ghost predicate Holds(env: Env, s: System)
      reads state, bans, counters, monitor
    {
      && bans.sha == env.sha
      && state.View() == s.round
      && AccountsOf(bans, counters) == s.accounts
      && monitor.View() == s.monitor
    }

    // A process start: an idle round, the bans loaded from the file.
    constructor (env: Env, ghost boot: Boot, id: RoundId, ledger: BanFile, loaded: seq<(Hash, BanEntry)>)
      requires boot.id == id && boot.bans == LoadInto(map[], loaded)
      ensures fresh(state) && fresh(bans) && fresh(counters) && fresh(monitor) && file == ledger
      ensures Holds(env, Start(boot))
    {
      state := new RoundState(id);
      var list := new BanList(env.sha);
      file := ledger;
      counters := new Counters();
      monitor := new PhaseMonitor();
      bans := list;
      new;
      list.LoadEntries(loaded);
    }

    // -- the monitor -------------------------------------------------------------

    method Poll(env: Env, ghost s: System)
      requires Holds(env, s) && monitor.pc == Waiting
      modifies monitor
      ensures Holds(env, PollPhase(s))
    {
      monitor.pc := Saw(state.phase, state.id);
    }

    // Names the timer to spawn, if any, under the number `tid`.
    method Act(env: Env, ghost s: System, ghost tid: nat) returns (timer: Option<(Phase, RoundId)>)
      requires Holds(env, s) && monitor.pc.Saw? && tid !in s.tasks
      modifies monitor
      ensures Holds(env, ArmOrPause(s, tid))
      ensures ArmOrPause(s, tid).tasks ==
              match timer
              case None => s.tasks
              case Some((phase, id)) => s.tasks[tid := Timer(phase, id)]
    {
      timer := None;
      var Saw(phase, id) := monitor.pc;
      if phase == Idle {
        if monitor.lastIdle == Some(id) {
          monitor.pc := Waiting;
        } else {
          monitor.pc := PauseLoaded(id, counters.pausedUntil);
        }
      } else {
        if phase != Phase.Blame && !(phase in monitor.lastArmed && monitor.lastArmed[phase] == id) {
          monitor.lastArmed := monitor.lastArmed[phase := id];
          timer := Some((phase, id));
        }
        monitor.pc := Waiting;
      }
    }

    method CheckPause(env: Env, ghost s: System, now: nat)
      requires Holds(env, s) && monitor.pc.PauseLoaded? && now == s.now
      modifies monitor
      ensures Holds(env, ReadClock(s))
    {
      var PauseLoaded(id, until) := monitor.pc;
      if now < until {
        monitor.pc := Waiting;
      } else {
        monitor.lastIdle := Some(id);
        monitor.pc := Generating(id);
      }
    }

    // The re-check under the write lock, after the keys were generated off it.
    method StartRound(env: Env, ghost s: System, material: Option<(Key, Secret)>)
      requires Holds(env, s) && monitor.pc.Generating?
      modifies monitor, state
      ensures Holds(env, FinishKeygen(s, material))
    {
      var Generating(id) := monitor.pc;
      monitor.pc := Waiting;
      match material
      case None => monitor.lastIdle := None;
      case Some((key, secret)) =>
        if state.phase == Idle && state.id == id {
          var _ := state.InstallRound(key, secret);
        }
    }

    // -- timers --------------------------------------------------------------------

    method RunTimer(
      env: Env, ghost s: System, ghost tid: nat, phase: Phase, expected: RoundId, now: nat, order: seq<string>,
      fate: string -> Fate, newId: RoundId)
      requires Holds(env, s) && now == s.now && newId !in s.used
      requires tid in s.tasks && s.tasks[tid] == Timer(phase, expected)
      requires state.inner.Some? ==> Enumerates(order, state.inner.value.inputs.Keys)
      modifies state, bans, file, counters
      ensures Holds(env, FireTimer(env, s, tid, newId))
      ensures AgreementKept(env, old(bans.entries), old(file.View()), bans.entries, file.View(), fate, now)
    {
      hide SigningTimeoutVerdict, Agrees, Persisted, NothingTorn, AllLanded;
      match phase
      case InputReg =>
        if state.id == expected && state.phase == InputReg {
          state.OnInputRegTimeout(env, newId);
        }
      case OutputReg =>
        if state.id == expected && state.phase == OutputReg {
          var _ := state.OnOutputRegTimeout(newId);
        }
      case Signing =>
        FileFollows(env, s.accounts.bans, file.View(), NonSigners(s.round), fate, now);
        VerdictsBan(env, s.accounts, NonSigners(s.round), now);
        SigningTimer(env, state, bans, file, counters, expected, now, order, fate, newId);
      case Broadcast => state.ForceIdle(expected, newId);
      case _ =>
    }

    // -- requests --------------------------------------------------------------------

    // The ban check hashes the canonical form, whatever spelling was sent.
    method IsBanned(env: Env, ghost s: System, utxo: string, now: nat) returns (r: Option<bool>)
      requires Holds(env, s) && now == s.now
      ensures r == match Outpoints.Parse(utxo)
                   case None => None
                   case Some(op) => Some(BannedNow(env, s, op))
    {
      hide Outpoints.Parse, Outpoints.Render;
      var op := Outpoints.Parse(utxo);
      if op == None {
        return None;
      }
      var banned := bans.IsBanned(Outpoints.Render(op.value), now);
      return Some(banned);
    }

    // The registered outpoints, collected key by key.
    method SnapshotRegistered(order: seq<string>) returns (registered: set<OutPoint>)
      requires state.inner.Some? ==> Enumerates(order, state.inner.value.inputs.Keys)
      ensures registered == RegisteredOutpoints(state.View())
    {
      hide Outpoints.Parse;
      registered := {};
      if state.inner == None {
        return;
      }
      for i := 0 to |order|
        invariant registered == set k | k in order[..i] && Outpoints.Parse(k).Some? :: Outpoints.Parse(k).value
      {
        assert order[..i + 1] == order[..i] + [order[i]];
        var op := Outpoints.Parse(order[i]);
        if op.Some? {
          registered := registered + {op.value};
        }
      }
      assert order[..|order|] == order;
      assert forall k :: k in order <==> k in state.inner.value.inputs;
    }

    method GetTx(env: Env, order: seq<string>) returns (r: Option<TxDisplay>)
      requires env.cfg.bip.AllowsSomething()
      requires state.inner.Some? ==> Enumerates(order, state.inner.value.inputs.Keys)
      ensures r == Display(env, state.View(), order)
    {
      hide BuildCanonical, Fees.EstimateFeeShare;
      if state.phase != Signing || state.inner == None {
        return None;
      }
      var psbt := SigningEngine.BuildCanonicalPsbt(env, state.inner.value, order);
      if psbt == None {
        return None;
      }
      var count: U32 := |order| % 0x1_0000_0000;
      var share := Fees.EstimateFeeShare(env.cfg.bip, count, env.cfg.feeRate);
      r := Some(TxDisplay(state.id, psbt.value, share * count, share));
    }

    method CommitInput(env: Env, ghost s: System, ghost tid: nat, op: OutPoint, form: InputForm, details: UtxoDetails)
      returns (r: Result<Registration, ErrorCode>)
      requires Holds(env, s) && form.blinded.Some?
      requires AtStage(s, tid) && s.tasks[tid].form == form && s.tasks[tid].op == op
      requires s.tasks[tid].stage.Validated? && s.tasks[tid].stage.details == details
      modifies state
      ensures Holds(env, CommitRequest(env, s, tid))
      ensures r.Ok? <==> CommitRequest(env, s, tid).round != s.round
    {
      hide Rounds.CommitInput, Outpoints.Render, BannedNow;
      CommitChanges(env, s.round, op, form.blinded.value, form.changeAddress, details);
      r := state.CommitInput(env, op, form.blinded.value, form.changeAddress, details);
    }

    method PostOutput(env: Env, ghost s: System, req: OutputRequest) returns (refusal: Option<ErrorCode>)
      requires Holds(env, s)
      modifies state
      ensures Holds(env, TakeOutput(env, s, req))
      ensures refusal == None <==> Rounds.PostOutput(env, s.round, req).Ok?
    {
      hide Rounds.PostOutput;
      refusal := state.PostOutput(env, req);
    }

    // A transaction that is ready is finalized by a task of its own, `tid`.
    method PostSign(env: Env, ghost s: System, req: SignRequest, orders: SignOrders, ghost tid: nat)
      returns (outcome: SignOutcome)
      requires Holds(env, s) && tid !in s.tasks && OrdersFit(s.round, orders)
      modifies state
      ensures Holds(env, TakeSignature(env, s, req, orders, tid))
      ensures TakeSignature(env, s, req, orders, tid).tasks ==
              if outcome.ReadyToBroadcast? then s.tasks[tid := Finalize(s.round.id, outcome.tx, outcome.outpoints)]
              else s.tasks
    {
      hide Rounds.PostSign, SignedEvent, AssembledEvent, Outpoints.Parse, OrdersFit;
      outcome := SigningEngine.PostSign(env, state, req, orders);
      UnparsedIsRejected(env, s.round, req, orders);
      ReadyIsInFlight(env, s.round, req, orders);
    }

    method FinishBroadcast(
      env: Env, ghost s: System, ghost tid: nat, expected: RoundId, outpoints: seq<string>, result: BroadcastResult,
      fate: string -> Fate, now: nat, newId: RoundId)
      requires Holds(env, s) && now == s.now && newId !in s.used
      requires tid in s.tasks && s.tasks[tid].Finalize?
      requires s.tasks[tid].round == expected && s.tasks[tid].outpoints == outpoints
      requires result.NotSent? ==> |result.answers| == |outpoints|
      modifies state, bans, file, counters
      ensures Holds(env, FinishFinalize(env, s, tid, result, newId))
      ensures AgreementKept(env, old(bans.entries), old(file.View()), bans.entries, file.View(), fate, now)
    {
      hide BroadcastFailureVerdict, Revalidate, Agrees, Persisted, NothingTorn, AllLanded, BanAll;
      ghost var banned := BlameEngine.BannedBy(outpoints, result);
      FileFollows(env, s.accounts.bans, file.View(), banned, fate, now);
      VerdictsBan(env, s.accounts, banned, now);
      NobodyBanned(env, s.accounts.bans, now);
      BlameEngine.FinishBroadcast(env, state, bans, file, counters, expected, outpoints, result, fate, now, newId);
    }
  }

  // Where file and list agreed they still do, for every key of which no line
  // was lost, provided that nothing was torn.
  ghost predicate AgreementKept(
    env: Env, was: BanMap, before: Journal, bans: BanMap, after: Journal, fate: string -> Fate, now: nat)
  {
    !before.open && NothingTorn(fate) ==>
      && !after.open
      && forall h: Hash :: AllLanded(env, fate, h) && Agrees(was, before, h, now) ==> Agrees(bans, after, h, now)
  }

  lemma FileFollows(
    env: Env, entries: BanMap, before: Journal, banned: set<string>, fate: string -> Fate, now: nat)
    ensures forall after: Journal :: Persisted(env, before, after, banned, fate, now) ==>
              AgreementKept(env, entries, before, BanAll(env, entries, banned, now), after, fate, now)
  {
    hide Agrees, Persisted, BanAll, NothingTorn, AllLanded;
    forall after: Journal | Persisted(env, before, after, banned, fate, now)
      ensures AgreementKept(env, entries, before, BanAll(env, entries, banned, now), after, fate, now)
    {
      if !before.open && NothingTorn(fate) {
        StaysClosed(env, before, after, banned, fate, now);
        forall h: Hash | AllLanded(env, fate, h) && Agrees(entries, before, h, now)
          ensures Agrees(BanAll(env, entries, banned, now), after, h, now)
        {
          PersistedAgrees(env, entries, before, after, banned, fate, h, now);
        }
      }
    }
  }

  lemma StaysClosed(
    env: Env, before: Journal, after: Journal, banned: set<string>, fate: string -> Fate, now: nat)
    requires Persisted(env, before, after, banned, fate, now) && !before.open && NothingTorn(fate)
    ensures !after.open
  {
    hide WriteAll;
    var utxos: seq<string> :| Elements(utxos) == banned && after == WriteAll(env, before, utxos, fate, now);
    WritesStayClosed(env, before, utxos, fate, now);
  }

  lemma VerdictsBan(env: Env, a: Accounts, banned: set<string>, now: nat)
    ensures SigningTimeoutVerdict(env, a, banned, now).accounts.bans == BanAll(env, a.bans, banned, now)
    ensures BroadcastFailureVerdict(env, a, banned, now).accounts.bans == BanAll(env, a.bans, banned, now)
  {
    hide BanAll;
  }

  // A commit that succeeds always changes the round.
  lemma CommitChanges(
    env: Env, r: Round, op: OutPoint, blinded: Bytes, changeAddress: string, details: UtxoDetails)
    ensures Rounds.CommitInput(env, r, op, blinded, changeAddress, details).Ok? ==>
              Rounds.CommitInput(env, r, op, blinded, changeAddress, details).value.0 != r
  {
    hide Outpoints.Render;
  }

  // Only a round that has just left Signing is ready to broadcast.
  lemma ReadyIsInFlight(env: Env, r: Round, req: SignRequest, orders: SignOrders)
    requires OrdersFit(r, orders)
    ensures Rounds.PostSign(env, r, req, orders).1.ReadyToBroadcast? ==>
              && Outpoints.Parse(req.utxo).Some? && r.phase == Signing
              && Rounds.PostSign(env, r, req, orders).0.phase == Broadcast
  {
    hide BuildCanonical, AssembleFinal, Outpoints.Parse, Outpoints.Render, VerifyInputSignature, Position, Enumerates;
  }

  lemma UnparsedIsRejected(env: Env, r: Round, req: SignRequest, orders: SignOrders)
    requires OrdersFit(r, orders)
    ensures Outpoints.Parse(req.utxo) == None ==> Rounds.PostSign(env, r, req, orders).0 == r
  {
    hide Rounds.ProcessSign, Outpoints.Parse;
  }
}
