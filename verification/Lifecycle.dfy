// The life of a round as the history shows it: installed once, at work in
// between, ended at most once, never seen again.
module Lifecycle {
  import opened Transactions
  import opened World
  import opened Rounds
  import opened Assembly
  import opened SigningRound
  import opened Protocol
  import opened Changes

  // The first event of a round is its installation, the last its ending.
  ghost predicate Ordered(log: seq<Event>) {
    && (forall i, j :: 0 <= i < j < |log| && log[i].id == log[j].id ==> !log[i].Ended? && !log[j].Installed?)
    && (forall j :: 0 <= j < |log| ==> InstalledBy(log, log[j].id, j))
  }

  // The round was installed no later than at position `last`.
  ghost predicate InstalledBy(log: seq<Event>, id: RoundId, last: nat) {
    exists i :: 0 <= i <= last && i < |log| && log[i].Installed? && log[i].id == id
  }

  // How the current round stands in the history.
  ghost predicate Current(log: seq<Event>, id: RoundId, live: bool) {
    && (forall i :: 0 <= i < |log| && log[i].id == id ==> live && !log[i].Ended?)
    && (live ==> InstalledBy(log, id, |log|))
  }

  ghost predicate Recorded(log: seq<Event>, used: set<RoundId>) {
    forall i :: 0 <= i < |log| ==> log[i].id in used
  }

  ghost predicate History(log: seq<Event>, id: RoundId, live: bool, used: set<RoundId>) {
    Ordered(log) && Current(log, id, live) && Recorded(log, used) && id in used
  }

  ghost predicate Lived(s: System) {
    History(s.log, s.round.id, s.round.phase != Idle, s.used)
  }

  lemma InstalledLater(log: seq<Event>, e: Event, id: RoundId, last: nat)
    requires InstalledBy(log, id, last)
    ensures forall k :: k >= last ==> InstalledBy(log + [e], id, k)
  {
    var i :| 0 <= i <= last && i < |log| && log[i].Installed? && log[i].id == id;
    assert (log + [e])[i] == log[i];
  }

  lemma AllInstalledLater(log: seq<Event>, e: Event)
    requires forall j :: 0 <= j < |log| ==> InstalledBy(log, log[j].id, j)
    ensures forall j :: 0 <= j < |log| ==> InstalledBy(log + [e], log[j].id, j)
  {
    forall j | 0 <= j < |log| ensures InstalledBy(log + [e], log[j].id, j) {
      InstalledLater(log, e, log[j].id, j);
    }
  }

  lemma WorkKeepsHistory(log: seq<Event>, id: RoundId, used: set<RoundId>, e: Event)
    requires History(log, id, true, used)
    requires e.id == id && !e.Installed? && !e.Ended?
    ensures History(log + [e], id, true, used)
  {
    hide InstalledBy;
    AllInstalledLater(log, e);
    InstalledLater(log, e, id, |log|);
  }

  lemma InstallKeepsHistory(log: seq<Event>, id: RoundId, used: set<RoundId>, e: Event)
    requires History(log, id, false, used)
    requires e.id == id && e.Installed?
    ensures History(log + [e], id, true, used)
  {
    AllInstalledLater(log, e);
    assert (log + [e])[|log|] == e;
    assert InstalledBy(log + [e], id, |log|);
    hide InstalledBy;
    assert InstalledBy(log + [e], id, |log + [e]|) by {
      InstalledAtLast(log + [e], id, |log|);
    }
  }

  lemma InstalledAtLast(log: seq<Event>, id: RoundId, last: nat)
    requires InstalledBy(log, id, last)
    ensures forall k :: k >= last ==> InstalledBy(log, id, k)
  {
  }

  lemma EndKeepsHistory(log: seq<Event>, id: RoundId, used: set<RoundId>, e: Event, newId: RoundId)
    requires History(log, id, true, used)
    requires e.id == id && e.Ended? && newId !in used
    ensures History(log + [e], newId, false, used + {newId})
  {
    hide InstalledBy;
    AllInstalledLater(log, e);
    InstalledLater(log, e, id, |log|);
  }

  lemma ChangeKeepsLived(env: Env, s: System, t: System)
    requires Lived(s) && Change(env, s, t)
    ensures Lived(t)
  {
    hide History, Judged, InSigning, SoundSigned, WithSig;
    if Installs(s, t) {
      InstallKeepsHistory(s.log, s.round.id, s.used, t.log[|s.log|]);
    } else if Progresses(env, s, t) {
      if t.log != s.log {
        WorkKeepsHistory(s.log, s.round.id, s.used, t.log[|s.log|]);
      }
    } else if Shows(env, s, t) {
      WorkKeepsHistory(s.log, s.round.id, s.used, t.log[|s.log|]);
    } else if Signs(env, s, t) {
      SigningKeepsLived(env, s, t);
    } else if Ends(env, s, t) {
      EndingKeepsLived(env, s, t);
    }
  }

  lemma SigningKeepsLived(env: Env, s: System, t: System)
    requires Lived(s) && Signs(env, s, t)
    ensures Lived(t)
  {
    hide History, InSigning, SignedTx, FullySigned, WithSig;
    var psbt: Psbt, key: string, e: Event :| SignsWith(env, s, t, psbt, key, e);
    SigningIsLive(env, s, t, psbt, key, e);
    WorkKeepsHistory(s.log, s.round.id, s.used, e);
    if t.round.phase == Broadcast {
      WorkKeepsHistory(s.log + [e], s.round.id, s.used, t.log[|s.log| + 1]);
    }
  }

  lemma SigningIsLive(env: Env, s: System, t: System, psbt: Psbt, key: string, e: Event)
    requires SignsWith(env, s, t, psbt, key, e)
    ensures s.round.inner.Some? && s.round.phase == Signing && t.round.phase in {Signing, Broadcast}
    ensures e.Signed? && e.id == s.round.id && t.round.id == s.round.id
  {
    hide Collecting, SignedTx, FullySigned;
  }

  lemma EndingKeepsLived(env: Env, s: System, t: System)
    requires Lived(s) && Ends(env, s, t)
    ensures Lived(t)
  {
    hide History;
    var e := t.log[|s.log|];
    assert t.log == s.log + [e];
    EndKeepsHistory(s.log, s.round.id, s.used, e, t.round.id);
  }

  lemma StartIsLived(boot: Boot)
    ensures Lived(Start(boot))
  {
  }
}
