// The ban file as a journal of the ban list: what an ending appends, what of
// it reaches the disk, and for which keys file and list keep agreeing.
module BanJournal {
  import opened Base
  import opened World
  import opened BanStore
  import opened Blame

  function Elements(utxos: seq<string>): set<string> {
    set u | u in utxos
  }

  function EntryAt(env: Env, now: nat): BanEntry {
    BanEntry(now, now + env.cfg.banDurationSecs)
  }

  // The file after one append per outpoint.
  function WriteAll(env: Env, j: Journal, utxos: seq<string>, fate: string -> Fate, now: nat): Journal {
    if utxos == [] then j
    else
      var u := utxos[|utxos| - 1];
      Write(WriteAll(env, j, utxos[..|utxos| - 1], fate, now), env.sha(u), EntryAt(env, now), fate(u))
  }

  // The file after an ending that banned these outpoints, in some order.
  ghost predicate Persisted(
    env: Env, before: Journal, after: Journal, banned: set<string>, fate: string -> Fate, now: nat)
  {
    exists utxos: seq<string> :: Elements(utxos) == banned && after == WriteAll(env, before, utxos, fate, now)
  }

  ghost predicate NothingTorn(fate: string -> Fate) {
    forall u :: !fate(u).Torn?
  }

  // No line for this key was lost.
  ghost predicate AllLanded(env: Env, fate: string -> Fate, hash: Hash) {
    forall u :: env.sha(u) == hash ==> fate(u) == Landed
  }

  // What the file would give a process that applied every line answers for
  // this key as the list does, now and later.
  ghost predicate Agrees(bans: BanMap, j: Journal, hash: Hash, now: nat) {
    AgreeFrom(bans, Replay(LinesOf(j.lines)), hash, now)
  }

  lemma NothingPersisted(env: Env, j: Journal, fate: string -> Fate, now: nat)
    ensures Persisted(env, j, j, {}, fate, now)
  {
    NothingWritten(env, j, fate, now);
  }

  lemma NothingWritten(env: Env, j: Journal, fate: string -> Fate, now: nat)
    ensures WriteAll(env, j, [], fate, now) == j && Elements([]) == {}
  {
  }

  lemma OneWritten(env: Env, j: Journal, utxos: seq<string>, u: string, fate: string -> Fate, now: nat)
    ensures WriteAll(env, j, utxos + [u], fate, now)
            == Write(WriteAll(env, j, utxos, fate, now), env.sha(u), EntryAt(env, now), fate(u))
    ensures Elements(utxos + [u]) == Elements(utxos) + {u}
  {
    hide Write;
    assert (utxos + [u])[..|utxos|] == utxos;
  }

  // -- one append ------------------------------------------------------------------

  lemma OneMore(env: Env, bans: BanMap, utxos: set<string>, u: string, now: nat)
    ensures BanAll(env, bans, utxos + {u}, now) == BanAll(env, bans, utxos, now)[env.sha(u) := EntryAt(env, now)]
  {
    var before, after := (set v | v in utxos :: env.sha(v)), set v | v in utxos + {u} :: env.sha(v);
    assert after == before + {env.sha(u)} by {
      forall h | h in after ensures h in before + {env.sha(u)} {
        var v :| v in utxos + {u} && env.sha(v) == h;
      }
    }
  }

  lemma BanLeavesOthers(bans: BanMap, hash: Hash, entry: BanEntry, other: Hash, replayed: BanMap, now: nat)
    requires AgreeFrom(bans, replayed, other, now) && other != hash
    ensures AgreeFrom(bans[hash := entry], replayed, other, now)
    ensures AgreeFrom(bans[hash := entry], replayed[hash := entry], other, now)
  {
    forall later: nat | now <= later
      ensures Banned(bans[hash := entry], other, later) <==> Banned(replayed, other, later)
      ensures Banned(bans[hash := entry], other, later) <==> Banned(replayed[hash := entry], other, later)
    {
      assert Banned(bans, other, later) <==> Banned(replayed, other, later);
    }
  }

  // One ban in memory and one append keep the two in agreement for every key
  // but one whose line was lost.
  lemma WriteAgrees(bans: BanMap, j: Journal, hash: Hash, entry: BanEntry, fate: Fate, key: Hash, now: nat)
    requires !j.open && !fate.Torn? && Agrees(bans, j, key, now)
    requires key == hash ==> fate == Landed
    ensures !Write(j, hash, entry, fate).open
    ensures Agrees(bans[hash := entry], Write(j, hash, entry, fate), key, now)
  {
    hide Replay;
    var replayed := Replay(LinesOf(j.lines));
    ReplayAppend(LinesOf(j.lines), hash, entry);
    if key != hash {
      BanLeavesOthers(bans, hash, entry, key, replayed, now);
    }
  }

  lemma {:induction false} WritesStayClosed(
    env: Env, j: Journal, utxos: seq<string>, fate: string -> Fate, now: nat)
    requires !j.open && NothingTorn(fate)
    ensures !WriteAll(env, j, utxos, fate, now).open
  {
    if utxos != [] {
      WritesStayClosed(env, j, utxos[..|utxos| - 1], fate, now);
    }
  }

  lemma {:induction false} AppendsAgree(
    env: Env, bans: BanMap, j: Journal, utxos: seq<string>, fate: string -> Fate, key: Hash, now: nat)
    requires !j.open && NothingTorn(fate) && AllLanded(env, fate, key) && Agrees(bans, j, key, now)
    ensures !WriteAll(env, j, utxos, fate, now).open
    ensures Agrees(BanAll(env, bans, Elements(utxos), now), WriteAll(env, j, utxos, fate, now), key, now)
  {
    hide BanAll, Write, WriteAll, Elements, Agrees;
    WritesStayClosed(env, j, utxos, fate, now);
    if utxos == [] {
      NobodyBanned(env, bans, now);
      NothingWritten(env, j, fate, now);
    } else {
      var init, u := utxos[..|utxos| - 1], utxos[|utxos| - 1];
      AppendsAgree(env, bans, j, init, fate, key, now);
      assert utxos == init + [u];
      OneWritten(env, j, init, u, fate, now);
      OneMore(env, bans, Elements(init), u, now);
      WriteAgrees(BanAll(env, bans, Elements(init), now), WriteAll(env, j, init, fate, now), env.sha(u),
        EntryAt(env, now), fate(u), key, now);
    }
  }

  // Whatever an ending bans, the file keeps up with the list, for every key of
  // which no line was lost.
  lemma PersistedAgrees(
    env: Env, bans: BanMap, before: Journal, after: Journal, banned: set<string>, fate: string -> Fate, key: Hash,
    now: nat)
    requires !before.open && NothingTorn(fate) && AllLanded(env, fate, key)
    requires Agrees(bans, before, key, now) && Persisted(env, before, after, banned, fate, now)
    ensures !after.open && Agrees(BanAll(env, bans, banned, now), after, key, now)
  {
    hide Agrees, BanAll, WriteAll;
    var utxos: seq<string> :| Elements(utxos) == banned && after == WriteAll(env, before, utxos, fate, now);
    AppendsAgree(env, bans, before, utxos, fate, key, now);
  }

  // A lost line is forgotten: file and list agree on its key exactly if the
  // file happens to say the same already.
  lemma LostLineIsForgotten(bans: BanMap, j: Journal, hash: Hash, entry: BanEntry, now: nat)
    ensures var replayed := Replay(LinesOf(j.lines));
            Agrees(bans[hash := entry], Write(j, hash, entry, Lost), hash, now) <==>
            if now < entry.expiresAt then hash in replayed && replayed[hash].expiresAt == entry.expiresAt
            else !Banned(replayed, hash, now)
  {
    hide Replay;
    var live, replayed := bans[hash := entry], Replay(LinesOf(j.lines));
    if AgreeFrom(live, replayed, hash, now) {
      assert Banned(live, hash, now) <==> Banned(replayed, hash, now);
      if now < entry.expiresAt {
        assert Banned(live, hash, entry.expiresAt) <==> Banned(replayed, hash, entry.expiresAt);
        assert Banned(live, hash, entry.expiresAt - 1) <==> Banned(replayed, hash, entry.expiresAt - 1);
      }
    }
  }

  // Whether the next line begins a line of its own, or one so far blank.
  predicate HasRoom(j: Journal) {
    var lines := LinesOf(j.lines);
    j.open && lines != [] ==> lines[|lines| - 1] == Blank
  }

  // All of the line's text reaches the disk.
  predicate Reaches(fate: Fate) {
    fate == Landed || (fate.Torn? && fate.complete)
  }

  lemma {:induction false} LoadIsNoLonger(lines: seq<Line>, now: nat)
    requires lines != [] && Load(lines, now).Some?
    ensures Load(lines[..|lines| - 1], now).Some?
    ensures |Load(lines[..|lines| - 1], now).value| <= |Load(lines, now).value|
  {
  }

  // Exactly when an appended line is loaded like a line of its own: when all
  // of it reaches the disk and nothing unended but blanks stands before it.
  lemma LineIsLoadedExactly(j: Journal, hash: Hash, entry: BanEntry, fate: Fate, now: nat)
    requires Readable(LinesOf(j.lines)) && now < entry.expiresAt
    ensures Load(LinesOf(Write(j, hash, entry, fate).lines), now) == Load(LinesOf(j.lines) + [Record(hash, entry)], now)
            <==> HasRoom(j) && Reaches(fate)
  {
    hide Load;
    var lines := LinesOf(j.lines);
    ReadableLoads(lines, now);
    LoadAppends(lines, Record(hash, entry), now);
    if fate != Lost {
      var line := if Reaches(fate) then Record(hash, entry) else Garbled;
      if j.open && lines != [] {
        var init, last := lines[..|lines| - 1], lines[|lines| - 1];
        assert lines == init + [last];
        LoadIsNoLonger(lines, now);
        LoadAppends(init, last, now);
        LoadAppends(init, Merge(last, line), now);
      } else {
        LoadAppends(lines, line, now);
      }
    }
  }

  // A torn line also costs the next one: neither is ever loaded.
  lemma TornLineSpoilsTheNext(
    lines: seq<Line>, first: Hash, second: Hash, e: BanEntry, f: BanEntry, complete: bool, now: nat)
    ensures var torn := Write(Journal(Some(lines), false), first, e, Torn(complete));
            var after := Write(torn, second, f, Landed);
            !after.open && Load(LinesOf(after.lines), now) == Load(lines, now)
  {
    hide Load;
    var line := if complete then Record(first, e) else Garbled;
    assert (lines + [line])[..|lines|] == lines;
    LoadAppends(lines, Garbled, now);
  }

  // -- starting -----------------------------------------------------------------------

  // At a start the list is what the readable file gives; when each record ends
  // no earlier than the ones before it, list and file agree.
  lemma StartAgrees(j: Journal, now: nat, key: Hash)
    requires Readable(LinesOf(j.lines)) && LastLasts(LinesOf(j.lines))
    ensures Agrees(Startup(j.lines, now), j, key, now)
  {
    hide Replay, LastLasts, Readable;
    LastLastsMeansAgreement(LinesOf(j.lines), now, key);
  }
}
