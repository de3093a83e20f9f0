// Process after process over one ban file: whoever an ending bans stays banned
// through every restart, compacted file or not, until the ban has run out.
module Restarts {
  import opened Base
  import opened Transactions
  import opened World
  import opened Rounds
  import opened BanStore
  import opened Blame
  import opened BanJournal
  import opened Assembly
  import opened SigningRound
  import opened Protocol
  import opened Changes
  import opened Steps
  import opened Lifecycle
  import opened OneTransaction
  import opened Attribution
  import opened Reckoning
  import opened Runs

  // -- a record that lasts -----------------------------------------------------------

  // Of the records of this key the last to end before `end` lies before one
  // that does not.
  predicate Lasting(lines: seq<Line>, hash: Hash, end: nat) {
    lines != []
    && var last := lines[|lines| - 1];
       if last.Record? && last.hash == hash then last.entry.expiresAt >= end
       else Lasting(lines[..|lines| - 1], hash, end)
  }

  predicate Harmless(line: Line, hash: Hash, end: nat) {
    line.Record? && line.hash == hash ==> line.entry.expiresAt >= end
  }

  lemma LastingGrows(lines: seq<Line>, line: Line, hash: Hash, end: nat)
    requires Lasting(lines, hash, end) && Harmless(line, hash, end)
    ensures Lasting(lines + [line], hash, end)
  {
    assert (lines + [line])[..|lines|] == lines;
  }

  // What one more readable line adds to the list of a start.
  lemma StartupGrows(lines: seq<Line>, line: Line, now: nat)
    requires Readable(lines) && !line.Unreadable?
    ensures Startup(Some(lines + [line]), now) ==
            if line.Record? && now < line.entry.expiresAt then Startup(Some(lines), now)[line.hash := line.entry]
            else Startup(Some(lines), now)
  {
    hide Load, Readable;
    ReadableLoads(lines, now);
    LoadAppends(lines, line, now);
    var kept := Load(lines, now).value;
    if line.Record? {
      assert (kept + [(line.hash, line.entry)])[..|kept|] == kept;
    }
  }

  lemma {:induction false} LastingLoads(lines: seq<Line>, hash: Hash, end: nat, now: nat)
    requires Lasting(lines, hash, end) && Readable(lines) && now < end
    ensures var bans := Startup(Some(lines), now); hash in bans && bans[hash].expiresAt >= end
  {
    hide Startup;
    var init, last := lines[..|lines| - 1], lines[|lines| - 1];
    assert lines == init + [last];
    StartupGrows(init, last, now);
    if !(last.Record? && last.hash == hash) {
      LastingLoads(init, hash, end, now);
    }
  }

  lemma {:induction false} LastingSurvivesCompaction(lines: seq<Line>, hash: Hash, end: nat, now: nat)
    requires Lasting(lines, hash, end) && Readable(lines) && now < end
    ensures Load(lines, now).Some? && Lasting(ToLines(Load(lines, now).value), hash, end)
  {
    hide Load, ToLines;
    ReadableLoads(lines, now);
    var init, last := lines[..|lines| - 1], lines[|lines| - 1];
    assert lines == init + [last];
    ReadableLoads(init, now);
    LoadAppends(init, last, now);
    var kept := Load(init, now).value;
    if last.Record? {
      LinesAppend(kept, last.hash, last.entry);
      assert (ToLines(kept) + [last])[..|ToLines(kept)|] == ToLines(kept);
    }
    if !(last.Record? && last.hash == hash) {
      LastingSurvivesCompaction(init, hash, end, now);
    }
  }

  // The part of the file that later text cannot touch.
  function Solid(j: Journal): seq<Line> {
    var lines := LinesOf(j.lines);
    if j.open && lines != [] then lines[..|lines| - 1] else lines
  }

  ghost predicate Safe(j: Journal, hash: Hash, end: nat) {
    && Readable(LinesOf(j.lines))
    && Lasting(LinesOf(j.lines), hash, end) && Lasting(Solid(j), hash, end)
  }

  lemma MergeIsHarmless(last: Line, line: Line, hash: Hash, end: nat)
    requires Harmless(line, hash, end)
    ensures Harmless(Merge(last, line), hash, end)
  {
  }

  // One more line, ended or not, or a longer last one.
  lemma LinesKeepSafe(before: seq<Line>, line: Line, open: bool, hash: Hash, end: nat)
    requires Lasting(before, hash, end) && Harmless(line, hash, end)
    ensures var j := Journal(Some(before + [line]), open);
            Lasting(LinesOf(j.lines), hash, end) && Lasting(Solid(j), hash, end)
  {
    hide Lasting, Harmless;
    LastingGrows(before, line, hash, end);
    assert (before + [line])[..|before|] == before;
  }

  lemma WriteKeepsSafe(j: Journal, h: Hash, entry: BanEntry, fate: Fate, hash: Hash, end: nat)
    requires Safe(j, hash, end) && entry.expiresAt >= end
    ensures Safe(Write(j, h, entry, fate), hash, end)
  {
    hide Lasting, Readable, Merge;
    WriteKeepsReadable(j, h, entry, fate);
    if fate != Lost {
      var lines := LinesOf(j.lines);
      var line := if fate == Landed || fate.complete then Record(h, entry) else Garbled;
      if j.open && lines != [] {
        MergeIsHarmless(lines[|lines| - 1], line, hash, end);
        LinesKeepSafe(lines[..|lines| - 1], Merge(lines[|lines| - 1], line), fate != Landed, hash, end);
      } else {
        LinesKeepSafe(lines, line, fate != Landed, hash, end);
      }
    }
  }

  // Whole on a line of its own, a record is safe from then on.
  lemma LandedIsSafe(j: Journal, hash: Hash, entry: BanEntry)
    requires HasRoom(j) && Readable(LinesOf(j.lines))
    ensures Safe(Write(j, hash, entry, Landed), hash, entry.expiresAt)
  {
  }

  lemma WriteKeepsReadable(j: Journal, hash: Hash, entry: BanEntry, fate: Fate)
    requires Readable(LinesOf(j.lines))
    ensures Readable(LinesOf(Write(j, hash, entry, fate).lines))
  {
  }

  lemma {:induction false} WritesKeepSafe(
    env: Env, j: Journal, utxos: seq<string>, fate: string -> Fate, now: nat, hash: Hash, end: nat)
    requires Safe(j, hash, end) && end <= now + env.cfg.banDurationSecs
    ensures Safe(WriteAll(env, j, utxos, fate, now), hash, end)
  {
    hide Safe, Write;
    if utxos != [] {
      var init, u := utxos[..|utxos| - 1], utxos[|utxos| - 1];
      WritesKeepSafe(env, j, init, fate, now, hash, end);
      WriteKeepsSafe(WriteAll(env, j, init, fate, now), env.sha(u), EntryAt(env, now), fate(u), hash, end);
    }
  }

  lemma {:induction false} WritesKeepReadable(
    env: Env, j: Journal, utxos: seq<string>, fate: string -> Fate, now: nat)
    requires Readable(LinesOf(j.lines))
    ensures Readable(LinesOf(WriteAll(env, j, utxos, fate, now).lines))
  {
    hide Write, Readable, LinesOf;
    if utxos != [] {
      var init, u := utxos[..|utxos| - 1], utxos[|utxos| - 1];
      WritesKeepReadable(env, j, init, fate, now);
      WriteKeepsReadable(WriteAll(env, j, init, fate, now), env.sha(u), EntryAt(env, now), fate(u));
    }
  }

  // Only what stands before its own line matters to a record.
  lemma {:induction false} LandedIsSafeAmong(
    env: Env, j: Journal, utxos: seq<string>, fate: string -> Fate, now: nat, p: nat)
    requires Readable(LinesOf(j.lines)) && p < |utxos|
    requires HasRoom(WriteAll(env, j, utxos[..p], fate, now)) && fate(utxos[p]) == Landed
    ensures Safe(WriteAll(env, j, utxos, fate, now), env.sha(utxos[p]), now + env.cfg.banDurationSecs)
  {
    hide Safe, Write, Readable, LinesOf, HasRoom;
    var last := |utxos| - 1;
    var init := utxos[..last];
    WritesKeepReadable(env, j, init, fate, now);
    if p == last {
      LandedIsSafe(WriteAll(env, j, init, fate, now), env.sha(utxos[p]), EntryAt(env, now));
    } else {
      assert init[..p] == utxos[..p];
      LandedIsSafeAmong(env, j, init, fate, now, p);
      WriteKeepsSafe(WriteAll(env, j, init, fate, now), env.sha(utxos[last]), EntryAt(env, now), fate(utxos[last]),
        env.sha(utxos[p]), now + env.cfg.banDurationSecs);
    }
  }

  // -- the file of one process -----------------------------------------------------------

  // The file after the endings of a history: for each, the order in which its
  // outpoints were appended and what became of each line.
  function FileAfter(
    env: Env, j: Journal, log: seq<Event>, orders: seq<seq<string>>, fates: seq<string -> Fate>): Journal
    requires |orders| == |fates| == |log|
  {
    if log == [] then j
    else
      var last := |log| - 1;
      var before := FileAfter(env, j, log[..last], orders[..last], fates[..last]);
      if log[last].Ended? then WriteAll(env, before, orders[last], fates[last], log[last].time) else before
  }

  predicate Dated(e: Event) {
    e.Installed? || e.Ended?
  }

  // Times never run backwards and none is before the start.
  ghost predicate Chronicle(log: seq<Event>, start: nat, now: nat) {
    && start <= now
    && (forall i :: 0 <= i < |log| && Dated(log[i]) ==> start <= log[i].time <= now)
    && (forall i, j :: 0 <= i < j < |log| && Dated(log[i]) && Dated(log[j]) ==> log[i].time <= log[j].time)
  }

  lemma ChronicleGrows(log: seq<Event>, e: Event, start: nat, now: nat)
    requires Chronicle(log, start, now) && (Dated(e) ==> e.time == now)
    ensures Chronicle(log + [e], start, now)
  {
  }

  lemma ChangeKeepsChronicle(env: Env, s: System, t: System, start: nat)
    requires Chronicle(s.log, start, s.now) && Change(env, s, t)
    ensures Chronicle(t.log, start, t.now)
  {
    hide InSigning, Joined, SignedBy, SigningTimeoutVerdict, BroadcastFailureVerdict, Revalidate;
    if Signs(env, s, t) {
      SignKeepsChronicle(env, s, t, start);
    } else if Quiet(s, t) {
    } else if t.log != s.log {
      assert t.log == s.log + [t.log[|s.log|]];
      ChronicleGrows(s.log, t.log[|s.log|], start, s.now);
    }
  }

  lemma SignKeepsChronicle(env: Env, s: System, t: System, start: nat)
    requires Chronicle(s.log, start, s.now) && Signs(env, s, t)
    ensures Chronicle(t.log, start, t.now)
  {
    hide Chronicle, InSigning, WithSig, SignedTx, FullySigned;
    var psbt: Psbt, key: string, e: Event :| SignsWith(env, s, t, psbt, key, e);
    SigningIsLive(env, s, t, psbt, key, e);
    ChronicleGrows(s.log, e, start, s.now);
    if t.round.phase == Broadcast {
      ChronicleGrows(s.log + [e], t.log[|s.log| + 1], start, s.now);
    }
  }

  lemma {:induction false} RunIsChronicle(env: Env, boot: Boot, acts: seq<Label>)
    requires Sane(env.cfg)
    ensures Chronicle(Run(env, boot, acts).log, boot.now, Run(env, boot, acts).now)
    decreases |acts|
  {
    hide Core, Step, Change, Chronicle;
    if acts == [] {
      EmptyChronicle(boot.now);
    } else {
      var s := Run(env, boot, acts[..|acts| - 1]);
      RunIsChronicle(env, boot, acts[..|acts| - 1]);
      RunIsSound(env, boot, acts[..|acts| - 1]);
      StepIsChange(env, s, acts[|acts| - 1]);
      ChangeKeepsChronicle(env, s, Step(env, s, acts[|acts| - 1]), boot.now);
    }
  }

  lemma EmptyChronicle(start: nat)
    ensures Chronicle([], start, start)
  {
  }

  // -- the list of one process --------------------------------------------------------------

  lemma ChangeKeepsKeys(env: Env, s: System, t: System)
    requires Change(env, s, t)
    ensures s.accounts.bans.Keys <= t.accounts.bans.Keys
  {
    hide InSigning, SoundSigned, Judged, FullySigned, SignedTx;
    if Ends(env, s, t) {
      JudgedAccounts(env, s, t.log[|s.log|], t.accounts);
      BanAllBans(env, s.accounts.bans, t.log[|s.log|].banned, s.now);
    }
  }

  lemma {:induction false} RunKeepsKeys(env: Env, boot: Boot, acts: seq<Label>)
    requires Sane(env.cfg)
    ensures boot.bans.Keys <= Run(env, boot, acts).accounts.bans.Keys
    decreases |acts|
  {
    hide Core, Step, Change;
    if acts != [] {
      var s := Run(env, boot, acts[..|acts| - 1]);
      RunKeepsKeys(env, boot, acts[..|acts| - 1]);
      RunIsSound(env, boot, acts[..|acts| - 1]);
      StepIsChange(env, s, acts[|acts| - 1]);
      ChangeKeepsKeys(env, s, Step(env, s, acts[|acts| - 1]));
    }
  }

  // A ban loaded at the start is never shortened below what it promised, as
  // long as it ends within one duration of the start.
  lemma LoadedBansLast(env: Env, boot: Boot, acts: seq<Label>, hash: Hash, end: nat)
    requires Sane(env.cfg) && hash in boot.bans && boot.bans[hash].expiresAt >= end
    requires end <= boot.now + env.cfg.banDurationSecs
    ensures var bans := Run(env, boot, acts).accounts.bans; hash in bans && bans[hash].expiresAt >= end
  {
    hide Run, Core, Lived, OneTx, Accounted, AdmittedUnbanned, Kept, PausesRespected, PausesCalledFor, LatestPause,
      CounterIsStreak;
    RunKeepsInvariant(env, boot, acts);
    RunKeepsKeys(env, boot, acts);
    RunIsChronicle(env, boot, acts);
    var s := Run(env, boot, acts);
    if Earned(env, s.log, hash, s.accounts.bans[hash]) {
      var i :| 0 <= i < |s.log| && BannedBy(env, s.log[i], hash, s.accounts.bans[hash]);
      assert Dated(s.log[i]);
    }
  }

  // -- one history, one file ------------------------------------------------------------------

  lemma {:induction false} HistoryKeepsReadable(
    env: Env, j: Journal, log: seq<Event>, orders: seq<seq<string>>, fates: seq<string -> Fate>)
    requires |orders| == |fates| == |log| && Readable(LinesOf(j.lines))
    ensures Readable(LinesOf(FileAfter(env, j, log, orders, fates).lines))
    decreases |log|
  {
    hide Readable, LinesOf, WriteAll;
    if log != [] {
      var last := |log| - 1;
      HistoryKeepsReadable(env, j, log[..last], orders[..last], fates[..last]);
      if log[last].Ended? {
        WritesKeepReadable(env, FileAfter(env, j, log[..last], orders[..last], fates[..last]), orders[last],
          fates[last], log[last].time);
      }
    }
  }

  lemma {:induction false} HistoryKeepsSafe(
    env: Env, j: Journal, log: seq<Event>, orders: seq<seq<string>>, fates: seq<string -> Fate>, start: nat,
    now: nat, hash: Hash, end: nat)
    requires |orders| == |fates| == |log| && Chronicle(log, start, now)
    requires Safe(j, hash, end) && end <= start + env.cfg.banDurationSecs
    ensures Safe(FileAfter(env, j, log, orders, fates), hash, end)
    decreases |log|
  {
    hide Safe, WriteAll;
    if log != [] {
      var last := |log| - 1;
      HistoryKeepsSafe(env, j, log[..last], orders[..last], fates[..last], start, now, hash, end);
      if log[last].Ended? {
        assert Dated(log[last]);
        WritesKeepSafe(env, FileAfter(env, j, log[..last], orders[..last], fates[..last]), orders[last], fates[last],
          log[last].time, hash, end);
      }
    }
  }

  // The file as the line of the p-th outpoint of event i finds it.
  function FileBefore(
    env: Env, j: Journal, log: seq<Event>, orders: seq<seq<string>>, fates: seq<string -> Fate>, i: nat, p: nat)
    : Journal
    requires |orders| == |fates| == |log| && i < |log| && log[i].Ended? && p <= |orders[i]|
  {
    WriteAll(env, FileAfter(env, j, log[..i], orders[..i], fates[..i]), orders[i][..p], fates[i], log[i].time)
  }

  // The record an ending landed with room before it is safe in every later
  // file of the process.
  lemma {:induction false} HistoryMakesSafe(
    env: Env, j: Journal, log: seq<Event>, orders: seq<seq<string>>, fates: seq<string -> Fate>, start: nat,
    now: nat, i: nat, p: nat)
    requires |orders| == |fates| == |log| && Chronicle(log, start, now) && Readable(LinesOf(j.lines))
    requires i < |log| && log[i].Ended? && p < |orders[i]| && fates[i](orders[i][p]) == Landed
    requires HasRoom(FileBefore(env, j, log, orders, fates, i, p))
    ensures Safe(FileAfter(env, j, log, orders, fates), env.sha(orders[i][p]),
              log[i].time + env.cfg.banDurationSecs)
    decreases |log|
  {
    hide Safe, WriteAll, Readable, LinesOf, HasRoom;
    var last := |log| - 1;
    var before := FileAfter(env, j, log[..last], orders[..last], fates[..last]);
    if i == last {
      HistoryKeepsReadable(env, j, log[..last], orders[..last], fates[..last]);
      LandedIsSafeAmong(env, before, orders[last], fates[last], log[last].time, p);
    } else {
      assert log[..last][..i] == log[..i] && orders[..last][..i] == orders[..i] && fates[..last][..i] == fates[..i];
      HistoryMakesSafe(env, j, log[..last], orders[..last], fates[..last], start, now, i, p);
      if log[last].Ended? {
        assert Dated(log[i]) && Dated(log[last]);
        WritesKeepSafe(env, before, orders[last], fates[last], log[last].time, env.sha(orders[i][p]),
          log[i].time + env.cfg.banDurationSecs);
      }
    }
  }

  // -- process after process ----------------------------------------------------------------------

  // One process: what it loaded, what it did, the file after its startup
  // compaction, and what became of its appends.
  datatype Life = Life(
    boot: Boot, acts: seq<Label>, ledger: Journal, orders: seq<seq<string>>, fates: seq<string -> Fate>)

  ghost function EndOf(env: Env, life: Life): System
    requires env.cfg.bip.AllowsSomething()
  {
    Run(env, life.boot, life.acts)
  }

  ghost predicate Tracked(env: Env, life: Life)
    requires env.cfg.bip.AllowsSomething()
  {
    var log := EndOf(env, life).log;
    && |life.orders| == |life.fates| == |log|
    && forall i :: 0 <= i < |log| && log[i].Ended? ==> Elements(life.orders[i]) == log[i].banned
  }

  ghost function ClosedFile(env: Env, life: Life): Journal
    requires env.cfg.bip.AllowsSomething() && Tracked(env, life)
  {
    FileAfter(env, life.ledger, EndOf(env, life).log, life.orders, life.fates)
  }

  // The compaction at a start is complete or did not happen.
  predicate StartsFrom(before: Journal, life: Life) {
    && life.boot.bans == Startup(before.lines, life.boot.now)
    && (life.ledger == before
        || (LoadFile(before.lines, life.boot.now).Some?
            && life.ledger == Journal(Compacted(before.lines, life.boot.now), false)))
  }

  ghost predicate Follows(env: Env, life: Life, next: Life)
    requires env.cfg.bip.AllowsSomething()
  {
    && Tracked(env, life) && Tracked(env, next)
    && EndOf(env, life).now <= next.boot.now
    && StartsFrom(ClosedFile(env, life), next)
  }

  ghost predicate Successive(env: Env, lives: seq<Life>)
    requires env.cfg.bip.AllowsSomething()
  {
    && (forall k :: 0 <= k < |lives| ==> Tracked(env, lives[k]))
    && (forall j, k :: 0 <= j < k < |lives| && k == j + 1 ==> Follows(env, lives[j], lives[k]))
  }

  lemma StartKeepsSafe(before: Journal, life: Life, hash: Hash, end: nat)
    requires StartsFrom(before, life) && Safe(before, hash, end) && life.boot.now < end
    ensures Safe(life.ledger, hash, end)
    ensures hash in life.boot.bans && life.boot.bans[hash].expiresAt >= end
  {
    hide Lasting, Startup, Load, ToLines;
    var lines := LinesOf(before.lines);
    LastingLoads(lines, hash, end, life.boot.now);
    SafeIsThere(before, hash, end);
    LastingSurvivesCompaction(lines, hash, end, life.boot.now);
    CompactedIsReadable(lines, life.boot.now);
  }

  lemma SafeIsThere(j: Journal, hash: Hash, end: nat)
    requires Safe(j, hash, end)
    ensures j.lines.Some?
  {
  }

  lemma CompactedIsReadable(lines: seq<Line>, now: nat)
    requires Load(lines, now).Some?
    ensures Readable(ToLines(Load(lines, now).value))
  {
    hide Load;
  }

  // The file of one process keeps the record, and so does its list.
  lemma LifeKeepsSafe(env: Env, before: Journal, life: Life, hash: Hash, end: nat)
    requires Sane(env.cfg) && Tracked(env, life) && StartsFrom(before, life)
    requires Safe(before, hash, end) && life.boot.now < end <= life.boot.now + env.cfg.banDurationSecs
    ensures Safe(ClosedFile(env, life), hash, end)
    ensures var bans := EndOf(env, life).accounts.bans; hash in bans && bans[hash].expiresAt >= end
  {
    hide Safe, StartsFrom, Run, FileAfter, Chronicle;
    StartKeepsSafe(before, life, hash, end);
    RunIsChronicle(env, life.boot, life.acts);
    HistoryKeepsSafe(env, life.ledger, EndOf(env, life).log, life.orders, life.fates, life.boot.now,
      EndOf(env, life).now, hash, end);
    LoadedBansLast(env, life.boot, life.acts, hash, end);
  }

  lemma RunTakesTime(env: Env, boot: Boot, acts: seq<Label>)
    requires Sane(env.cfg)
    ensures boot.now <= Run(env, boot, acts).now
  {
    hide Run;
    RunIsChronicle(env, boot, acts);
  }

  // While the ban lasts, every later process has the record in its file and
  // the ban in its list.
  lemma {:induction false} RecordOutlivesProcesses(
    env: Env, lives: seq<Life>, j: nat, k: nat, hash: Hash, end: nat)
    requires Sane(env.cfg) && Successive(env, lives) && j < k < |lives|
    requires Safe(ClosedFile(env, lives[j]), hash, end)
    requires end <= EndOf(env, lives[j]).now + env.cfg.banDurationSecs
    requires EndOf(env, lives[k]).now < end
    ensures Safe(ClosedFile(env, lives[k]), hash, end)
    ensures EndOf(env, lives[j]).now <= lives[k].boot.now
    ensures var bans := EndOf(env, lives[k]).accounts.bans; hash in bans && bans[hash].expiresAt >= end
    decreases k
  {
    hide Safe, StartsFrom, EndOf, ClosedFile, Tracked;
    assert Follows(env, lives[k - 1], lives[k]);
    LifeTakesTime(env, lives[k]);
    LifeTakesTime(env, lives[k - 1]);
    if k - 1 > j {
      RecordOutlivesProcesses(env, lives, j, k - 1, hash, end);
    }
    LifeKeepsSafe(env, ClosedFile(env, lives[k - 1]), lives[k], hash, end);
  }

  lemma LifeTakesTime(env: Env, life: Life)
    requires Sane(env.cfg)
    ensures life.boot.now <= EndOf(env, life).now
  {
    hide Run;
    RunTakesTime(env, life.boot, life.acts);
  }

  // An ending of one process bans an outpoint, and its line lands with room
  // before it. Then every later process over the file, at every moment within
  // the duration of the ban, answers that it is banned - however many restarts
  // lie between, compacted or not, and whatever became of every other line.
  lemma BansOutliveProcesses(env: Env, lives: seq<Life>, j: nat, k: nat, i: nat, p: nat)
    requires Sane(env.cfg) && Successive(env, lives) && j < k < |lives|
    requires Tracked(env, lives[j]) && Readable(LinesOf(lives[j].ledger.lines))
    requires i < |EndOf(env, lives[j]).log| && EndOf(env, lives[j]).log[i].Ended? && p < |lives[j].orders[i]|
    requires lives[j].fates[i](lives[j].orders[i][p]) == Landed
    requires HasRoom(FileBefore(env, lives[j].ledger, EndOf(env, lives[j]).log, lives[j].orders, lives[j].fates, i, p))
    ensures var u, s := lives[j].orders[i][p], EndOf(env, lives[k]);
            && u in EndOf(env, lives[j]).log[i].banned
            && (s.now < EndOf(env, lives[j]).log[i].time + env.cfg.banDurationSecs ==>
                  Banned(s.accounts.bans, env.sha(u), s.now))
  {
    hide Safe, Run, FileAfter, FileBefore, HasRoom, Readable, LinesOf, Follows, StartsFrom;
    var life := lives[j];
    var log := EndOf(env, life).log;
    var u := life.orders[i][p];
    RunIsChronicle(env, life.boot, life.acts);
    assert Dated(log[i]);
    assert u in Elements(life.orders[i]);
    HistoryMakesSafe(env, life.ledger, log, life.orders, life.fates, life.boot.now, EndOf(env, life).now, i, p);
    if EndOf(env, lives[k]).now < log[i].time + env.cfg.banDurationSecs {
      RecordOutlivesProcesses(env, lives, j, k, env.sha(u), log[i].time + env.cfg.banDurationSecs);
    }
  }
}
