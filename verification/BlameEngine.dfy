// The failure paths as the coordinator runs them: each outpoint banned in
// memory and appended to the file, the counter and the pause kept in two
// shared cells, the round driven through Blame to Idle.
module BlameEngine {
  import opened Base
  import opened World
  import opened Rounds
  import opened RoundStates
  import opened BanStore
  import opened Blame
  import opened BanJournal
  import opened Protocol
  import Outpoints

  // The two atomics next to the round.
  class Counters {
    var blameCount: nat
    var pausedUntil: nat

    constructor ()
      ensures blameCount == 0 && pausedUntil == 0
    {
      blameCount := 0;
      pausedUntil := 0;
    }
  }

  // What the ban list and the counters amount to.
  function AccountsOf(bans: BanList, counters: Counters): Accounts
    reads bans, counters
  {
    Accounts(bans.entries, counters.blameCount, counters.pausedUntil)
  }

  // -- banning -----------------------------------------------------------------

  // `fate` says what of each appended line reaches the disk; the code only logs
  // an append that fails.
  method BanEach(env: Env, bans: BanList, file: BanFile, utxos: seq<string>, fate: string -> Fate, now: nat)
    requires bans.sha == env.sha
    modifies bans, file
    ensures bans.entries == BanAll(env, old(bans.entries), Elements(utxos), now)
    ensures file.View() == WriteAll(env, old(file.View()), utxos, fate, now) && file.tmp == old(file.tmp)
  {
    hide BanAll, Write, WriteAll, Elements;
    NobodyBanned(env, bans.entries, now);
    NothingWritten(env, file.View(), fate, now);
    for i := 0 to |utxos|
      invariant bans.entries == BanAll(env, old(bans.entries), Elements(utxos[..i]), now)
      invariant file.View() == WriteAll(env, old(file.View()), utxos[..i], fate, now) && file.tmp == old(file.tmp)
    {
      OneMore(env, old(bans.entries), Elements(utxos[..i]), utxos[i], now);
      assert utxos[..i + 1] == utxos[..i] + [utxos[i]];
      OneWritten(env, old(file.View()), utxos[..i], utxos[i], fate, now);
      bans.Ban(utxos[i], now, env.cfg.banDurationSecs);
      file.Append(env.sha(utxos[i]), BanEntry(now, now + env.cfg.banDurationSecs), fate(utxos[i]));
    }
    assert utxos[..|utxos|] == utxos;
  }

  // -- the signing deadline --------------------------------------------------------

  method DetectNonSigners(inner: Inner, order: seq<string>) returns (missing: seq<string>)
    requires Enumerates(order, inner.inputs.Keys)
    ensures Elements(missing) == inner.inputs.Keys - inner.sigs.Keys
    ensures missing == [] <==> inner.inputs.Keys <= inner.sigs.Keys
  {
    missing := [];
    for i := 0 to |order|
      invariant forall u :: u in missing <==> u in order[..i] && u !in inner.sigs
    {
      if order[i] !in inner.sigs {
        missing := missing + [order[i]];
      }
    }
    assert order[..|order|] == order;
    if missing != [] {
      assert missing[0] in order && missing[0] !in inner.sigs;
    }
  }

  datatype BlameOutcome = FullAbort | RestartWithout(bannedUtxos: seq<string>)

  method OnSigningTimeout(
    env: Env, state: RoundState, bans: BanList, file: BanFile, blameCount: nat, now: nat, order: seq<string>,
    fate: string -> Fate, newId: RoundId) returns (outcome: BlameOutcome)
    requires bans.sha == env.sha
    requires state.inner.Some? ==> Enumerates(order, state.inner.value.inputs.Keys)
    modifies state, bans, file
    ensures state.View() == ViaBlame(old(state.View()), newId)
    ensures bans.entries == BanAll(env, old(bans.entries), NonSigners(old(state.View())), now)
    ensures Persisted(env, old(file.View()), file.View(), NonSigners(old(state.View())), fate, now)
    ensures outcome.RestartWithout? ==> Elements(outcome.bannedUtxos) == NonSigners(old(state.View()))
    ensures outcome.FullAbort? <==> blameCount >= CONSECUTIVE_BLAME_CAP || NonSigners(old(state.View())) == {}
  {
    hide BanAll, WriteAll;
    var missing := [];
    if state.inner.Some? {
      missing := DetectNonSigners(state.inner.value, order);
    }
    assert Elements(missing) == NonSigners(state.View());
    assert missing != [] ==> missing[0] in Elements(missing);
    BanEach(env, bans, file, missing, fate, now);
    var _ := state.TransitionTo(Phase.Blame, newId);
    var _ := state.TransitionTo(Idle, newId);
    if blameCount >= CONSECUTIVE_BLAME_CAP {
      return FullAbort;
    }
    outcome := if missing == [] then FullAbort else RestartWithout(missing);
  }

  // The timer's critical section: the guard, the deadline, the counter and the pause.
  method SigningTimer(
    env: Env, state: RoundState, bans: BanList, file: BanFile, counters: Counters, expected: RoundId, now: nat,
    order: seq<string>, fate: string -> Fate, newId: RoundId)
    requires bans.sha == env.sha
    requires state.inner.Some? ==> Enumerates(order, state.inner.value.inputs.Keys)
    modifies state, bans, file, counters
    ensures if old(state.id) != expected || old(state.phase) != Signing then
              && state.View() == old(state.View()) && file.View() == old(file.View())
              && AccountsOf(bans, counters) == old(AccountsOf(bans, counters))
            else
              && state.View() == ViaBlame(old(state.View()), newId)
              && Persisted(env, old(file.View()), file.View(), NonSigners(old(state.View())), fate, now)
              && AccountsOf(bans, counters) ==
                 SigningTimeoutVerdict(env, old(AccountsOf(bans, counters)), NonSigners(old(state.View())), now).accounts
  {
    hide BanAll;
    if state.id != expected || state.phase != Signing {
      return;
    }
    var outcome := OnSigningTimeout(env, state, bans, file, counters.blameCount, now, order, fate, newId);
    if outcome.FullAbort? {
      counters.blameCount := 0;
      if env.cfg.fullAbortBackoffSecs > 0 {
        counters.pausedUntil := now + env.cfg.fullAbortBackoffSecs;
      }
    } else {
      counters.blameCount := counters.blameCount + 1;
    }
  }

  // -- a failed broadcast -----------------------------------------------------------

  // One answer per outpoint, asked in turn; two errors in a row end it.
  method RevalidateSpentInputs(outpoints: seq<string>, answers: seq<RpcAnswer>) returns (spent: seq<string>)
    requires |answers| == |outpoints|
    ensures spent == Revalidate(outpoints, answers, 0)
  {
    hide Outpoints.Parse;
    spent := [];
    var errors := 0;
    var i := 0;
    while i < |outpoints|
      invariant 0 <= i <= |outpoints|
      invariant spent + Revalidate(outpoints[i..], answers[i..], errors) == Revalidate(outpoints, answers, 0)
    {
      assert outpoints[i..][1..] == outpoints[i + 1..] && answers[i..][1..] == answers[i + 1..];
      if Outpoints.Parse(outpoints[i]).Some? {
        match answers[i]
        case Unspent => errors := 0;
        case Spent =>
          errors := 0;
          spent := spent + [outpoints[i]];
        case Failed =>
          errors := errors + 1;
          if errors >= MAX_CONSECUTIVE_RPC_ERRORS {
            break;
          }
      }
      i := i + 1;
    }
  }

  method ApplyBroadcastFailureBlame(
    env: Env, state: RoundState, bans: BanList, file: BanFile, counters: Counters, banned: seq<string>,
    fate: string -> Fate, now: nat, newId: RoundId)
    requires bans.sha == env.sha
    modifies state, bans, file, counters
    ensures state.View() == ViaBlame(old(state.View()), newId)
    ensures AccountsOf(bans, counters) ==
            BroadcastFailureVerdict(env, old(AccountsOf(bans, counters)), Elements(banned), now).accounts
    ensures file.View() == WriteAll(env, old(file.View()), banned, fate, now) && file.tmp == old(file.tmp)
  {
    hide BanAll, WriteAll;
    BanEach(env, bans, file, banned, fate, now);
    if |banned| > 0 {
      assert banned[0] in Elements(banned);
      counters.blameCount := 0;
    } else {
      counters.blameCount := counters.blameCount + 1;
      if counters.blameCount >= CONSECUTIVE_BLAME_CAP && env.cfg.fullAbortBackoffSecs > 0 {
        counters.pausedUntil := now + env.cfg.fullAbortBackoffSecs;
        counters.blameCount := 0;
      }
    }
    var _ := state.TransitionTo(Phase.Blame, newId);
    var _ := state.TransitionTo(Idle, newId);
  }

  // The locked half of a finalize task, after the node has answered.
  method FinishBroadcast(
    env: Env, state: RoundState, bans: BanList, file: BanFile, counters: Counters, expected: RoundId,
    outpoints: seq<string>, result: BroadcastResult, fate: string -> Fate, now: nat, newId: RoundId)
    requires bans.sha == env.sha
    requires result.NotSent? ==> |result.answers| == |outpoints|
    modifies state, bans, file, counters
    ensures if old(state.id) != expected || old(state.phase) != Broadcast then
              && state.View() == old(state.View()) && file.View() == old(file.View())
              && AccountsOf(bans, counters) == old(AccountsOf(bans, counters))
            else
              && state.View() == NewIdle(newId)
              && Persisted(env, old(file.View()), file.View(), BannedBy(outpoints, result), fate, now)
              && AccountsOf(bans, counters) == Finished(env, old(AccountsOf(bans, counters)), outpoints, result, now)
  {
    hide BanAll, WriteAll, Revalidate, BroadcastFailureVerdict;
    match result
    case Sent =>
      if state.id == expected && state.phase == Broadcast {
        counters.blameCount := 0;
        NothingPersisted(env, file.View(), fate, now);
        var _ := state.TransitionTo(Idle, newId);
      }
    case NotSent(answers) =>
      var spent := RevalidateSpentInputs(outpoints, answers);
      if state.id == expected && state.phase == Broadcast {
        ApplyBroadcastFailureBlame(env, state, bans, file, counters, spent, fate, now, newId);
      }
  }

  // Whom a live finalize bans.
  function BannedBy(outpoints: seq<string>, result: BroadcastResult): set<string>
    requires result.NotSent? ==> |result.answers| == |outpoints|
  {
    if result.Sent? then {} else Elements(Revalidate(outpoints, result.answers, 0))
  }

  // The accounts after a live finalize.
  function Finished(env: Env, a: Accounts, outpoints: seq<string>, result: BroadcastResult, now: nat): Accounts
    requires result.NotSent? ==> |result.answers| == |outpoints|
  {
    match result
    case Sent => BroadcastSuccessVerdict(a).accounts
    case NotSent(answers) =>
      BroadcastFailureVerdict(env, a, Elements(Revalidate(outpoints, answers, 0)), now).accounts
  }
}
