// Attribution: who is banned when a round fails, the consecutive-blame
// counter and the pause it arms.
module Blame {
  import opened Base
  import opened World
  import opened BanStore
  import Outpoints

  const CONSECUTIVE_BLAME_CAP := 2

  // The state shared next to the round: the ban list and two atomics.
  datatype Accounts = Accounts(bans: BanMap, blameCount: nat, pausedUntil: nat)

  // The accounts after an ending, and the pause it armed, if any.
  datatype Verdict = Verdict(accounts: Accounts, armed: Option<nat>)

  // Bans every outpoint of a set at once.
  function BanAll(env: Env, bans: BanMap, utxos: set<string>, now: nat): BanMap {
    var hashes := set u | u in utxos :: env.sha(u);
    map h | h in bans.Keys + hashes ::
      if h in hashes then BanEntry(now, now + env.cfg.banDurationSecs) else bans[h]
  }

  function Pause(env: Env, a: Accounts, now: nat): Verdict {
    var backoff := env.cfg.fullAbortBackoffSecs;
    if backoff > 0 then Verdict(a.(blameCount := 0, pausedUntil := now + backoff), Some(now + backoff))
    else Verdict(a.(blameCount := 0), None)
  }

  // Non-signers are banned; at the cap, or with nobody to blame, a full abort.
  function SigningTimeoutVerdict(env: Env, a: Accounts, nonSigners: set<string>, now: nat): Verdict {
    var banned := a.(bans := BanAll(env, a.bans, nonSigners, now));
    if a.blameCount >= CONSECUTIVE_BLAME_CAP || nonSigners == {} then Pause(env, banned, now)
    else Verdict(banned.(blameCount := a.blameCount + 1), None)
  }

  // Spent inputs are banned and clear the counter; otherwise the failure counts,
  // and pauses at the cap if a backoff is configured.
  function BroadcastFailureVerdict(env: Env, a: Accounts, spent: set<string>, now: nat): Verdict {
    var banned := a.(bans := BanAll(env, a.bans, spent, now));
    if spent != {} then Verdict(banned.(blameCount := 0), None)
    else
      var n := a.blameCount + 1;
      if n >= CONSECUTIVE_BLAME_CAP && env.cfg.fullAbortBackoffSecs > 0 then Pause(env, banned, now)
      else Verdict(banned.(blameCount := n), None)
  }

  function BroadcastSuccessVerdict(a: Accounts): Verdict {
    Verdict(a.(blameCount := 0), None)
  }

  // -- re-validation ----------------------------------------------------------

  datatype RpcAnswer = Unspent | Spent | Failed

  const MAX_CONSECUTIVE_RPC_ERRORS := 2

  // The outpoints found spent; two errors in a row end the search.
  function Revalidate(outpoints: seq<string>, answers: seq<RpcAnswer>, errors: nat): seq<string>
    requires |answers| == |outpoints|
  {
    if outpoints == [] then []
    else if Outpoints.Parse(outpoints[0]) == None then Revalidate(outpoints[1..], answers[1..], errors)
    else
      match answers[0]
      case Unspent => Revalidate(outpoints[1..], answers[1..], 0)
      case Spent => [outpoints[0]] + Revalidate(outpoints[1..], answers[1..], 0)
      case Failed =>
        if errors + 1 >= MAX_CONSECUTIVE_RPC_ERRORS then []
        else Revalidate(outpoints[1..], answers[1..], errors + 1)
  }

  // Positions k and k + 1 both failed.
  predicate TwoErrorsAt(answers: seq<RpcAnswer>, k: int) {
    0 <= k && k + 1 < |answers| && answers[k] == Failed && answers[k + 1] == Failed
  }

  // The search, entered with so many errors in a row, gets as far as asking
  // about position i: no two errors in a row lie before it.
  ghost predicate Asked(answers: seq<RpcAnswer>, errors: nat, i: nat)
    requires i < |answers|
  {
    && !(exists k :: TwoErrorsAt(answers, k) && k + 1 < i)
    && (errors > 0 && i > 0 ==> answers[0] != Failed)
  }

  // The node was asked about this outpoint and reported it spent.
  ghost predicate ReportedSpent(outpoints: seq<string>, answers: seq<RpcAnswer>, errors: nat, u: string)
    requires |answers| == |outpoints|
  {
    exists i :: 0 <= i < |outpoints| && outpoints[i] == u && answers[i] == Spent && Asked(answers, errors, i)
  }

  function ErrorsAfter(answer: RpcAnswer, errors: nat): nat {
    if answer == Failed then errors + 1 else 0
  }

  lemma TwoErrorsShift(answers: seq<RpcAnswer>, k: int)
    requires answers != [] && 0 <= k
    ensures TwoErrorsAt(answers, k + 1) <==> TwoErrorsAt(answers[1..], k)
  {
  }

  // To ask about a later position the search must survive the first answer.
  lemma AskedStep(answers: seq<RpcAnswer>, errors: nat, i: nat)
    requires i + 1 < |answers| && errors < MAX_CONSECUTIVE_RPC_ERRORS
    ensures Asked(answers, errors, i + 1) <==>
            ErrorsAfter(answers[0], errors) < MAX_CONSECUTIVE_RPC_ERRORS
            && Asked(answers[1..], ErrorsAfter(answers[0], errors), i)
  {
    hide TwoErrorsAt;
    var next := ErrorsAfter(answers[0], errors);
    if exists k :: TwoErrorsAt(answers, k) && k + 1 < i + 1 {
      var k :| TwoErrorsAt(answers, k) && k + 1 < i + 1;
      TwoErrorsBounds(answers, k);
      if k > 0 {
        TwoErrorsShift(answers, k - 1);
        assert TwoErrorsAt(answers[1..], k - 1);
      }
    } else if exists k :: TwoErrorsAt(answers[1..], k) && k + 1 < i {
      var k :| TwoErrorsAt(answers[1..], k) && k + 1 < i;
      TwoErrorsBounds(answers[1..], k);
      TwoErrorsShift(answers, k);
    } else {
      TwoErrorsBounds(answers, 0);
      assert i > 0 ==> !TwoErrorsAt(answers, 0);
    }
  }

  lemma TwoErrorsBounds(answers: seq<RpcAnswer>, k: int)
    ensures TwoErrorsAt(answers, k) ==> 0 <= k && k + 1 < |answers| && answers[k] == answers[k + 1] == Failed
    ensures |answers| > 1 && answers[0] == answers[1] == Failed ==> TwoErrorsAt(answers, 0)
  {
  }

  lemma ReportedStep(outpoints: seq<string>, answers: seq<RpcAnswer>, errors: nat, u: string)
    requires |answers| == |outpoints| > 0 && errors < MAX_CONSECUTIVE_RPC_ERRORS
    ensures ReportedSpent(outpoints, answers, errors, u) <==>
            (outpoints[0] == u && answers[0] == Spent)
            || (ErrorsAfter(answers[0], errors) < MAX_CONSECUTIVE_RPC_ERRORS
                && ReportedSpent(outpoints[1..], answers[1..], ErrorsAfter(answers[0], errors), u))
  {
    hide Asked, ErrorsAfter;
    var rest, more, next := outpoints[1..], answers[1..], ErrorsAfter(answers[0], errors);
    FirstIsAsked(answers, errors);
    if ReportedSpent(outpoints, answers, errors, u) {
      var i :| 0 <= i < |outpoints| && outpoints[i] == u && answers[i] == Spent && Asked(answers, errors, i);
      if i > 0 {
        AskedStep(answers, errors, i - 1);
        assert rest[i - 1] == u && more[i - 1] == Spent;
      }
    }
    if next < MAX_CONSECUTIVE_RPC_ERRORS && ReportedSpent(rest, more, next, u) {
      var i :| 0 <= i < |rest| && rest[i] == u && more[i] == Spent && Asked(more, next, i);
      AskedStep(answers, errors, i);
      assert outpoints[i + 1] == u && answers[i + 1] == Spent;
    }
  }

  lemma FirstIsAsked(answers: seq<RpcAnswer>, errors: nat)
    requires answers != []
    ensures Asked(answers, errors, 0)
  {
  }

  // Attributed are exactly the outpoints reported spent before the search
  // stopped: errors attribute nothing, and only two of them in a row before
  // its turn save a spent one.
  lemma {:induction false} RevalidationIsExact(
    outpoints: seq<string>, answers: seq<RpcAnswer>, errors: nat, u: string)
    requires |answers| == |outpoints| && errors < MAX_CONSECUTIVE_RPC_ERRORS
    requires forall k :: 0 <= k < |outpoints| ==> Outpoints.Parse(outpoints[k]).Some?
    ensures u in Revalidate(outpoints, answers, errors) <==> ReportedSpent(outpoints, answers, errors, u)
  {
    if outpoints != [] {
      hide Outpoints.Parse, ReportedSpent;
      ReportedStep(outpoints, answers, errors, u);
      var next := ErrorsAfter(answers[0], errors);
      if next < MAX_CONSECUTIVE_RPC_ERRORS {
        RevalidationIsExact(outpoints[1..], answers[1..], next, u);
      }
    }
  }

  // Two errors before its turn let a spender go; after it they do not.
  lemma TwoErrorsSaveTheNext(a: string, b: string, c: string)
    requires Outpoints.Parse(a).Some? && Outpoints.Parse(b).Some? && Outpoints.Parse(c).Some?
    requires a != c && b != c
    ensures c !in Revalidate([a, b, c], [Failed, Failed, Spent], 0)
    ensures a in Revalidate([a, b, c], [Spent, Failed, Failed], 0)
  {
    hide Outpoints.Parse;
    assert [a, b, c][1..] == [b, c] && [Failed, Failed, Spent][1..] == [Failed, Spent];
  }

  // -- who is banned ------------------------------------------------------------

  lemma NobodyBanned(env: Env, bans: BanMap, now: nat)
    ensures BanAll(env, bans, {}, now) == bans
  {
    var hashes := set u | u in {} :: env.sha(u);
    assert bans.Keys + hashes == bans.Keys;
  }

  lemma BanAllBans(env: Env, bans: BanMap, utxos: set<string>, now: nat)
    ensures forall u :: u in utxos ==>
              env.sha(u) in BanAll(env, bans, utxos, now)
              && BanAll(env, bans, utxos, now)[env.sha(u)] == BanEntry(now, now + env.cfg.banDurationSecs)
    ensures forall h :: h in bans ==> h in BanAll(env, bans, utxos, now)
    ensures forall h :: h in BanAll(env, bans, utxos, now) ==>
              (h in bans && BanAll(env, bans, utxos, now)[h] == bans[h]) || exists u :: u in utxos && env.sha(u) == h
  {
  }
}
