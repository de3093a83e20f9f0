// The ban list in memory and its append-only file: reload, compaction and
// crashes in the middle of a compaction.
module BanStore {
  import opened Base

  type Hash = string

  datatype BanEntry = BanEntry(bannedAt: nat, expiresAt: nat)

  type BanMap = map<Hash, BanEntry>

  predicate Banned(bans: BanMap, hash: Hash, now: nat) {
    hash in bans && now < bans[hash].expiresAt
  }

  // -- the list in memory ------------------------------------------------------

  class BanList {
    const sha: string -> Hash
    var entries: BanMap

    constructor (sha: string -> Hash)
      ensures entries == map[] && this.sha == sha
    {
      this.sha := sha;
      entries := map[];
    }

    method Ban(utxo: string, now: nat, duration: nat)
      modifies this
      ensures entries == old(entries)[sha(utxo) := BanEntry(now, now + duration)]
    {
      entries := entries[sha(utxo) := BanEntry(now, now + duration)];
    }

    method IsBanned(utxo: string, now: nat) returns (banned: bool)
      ensures banned <==> Banned(entries, sha(utxo), now)
    {
      var key := sha(utxo);
      banned := key in entries && now < entries[key].expiresAt;
    }

    method LoadEntries(loaded: seq<(Hash, BanEntry)>)
      modifies this
      ensures entries == LoadInto(old(entries), loaded)
    {
      for i := 0 to |loaded|
        invariant entries == LoadInto(old(entries), loaded[..i])
      {
        assert loaded[..i + 1][..i] == loaded[..i];
        entries := entries[loaded[i].0 := loaded[i].1];
      }
      assert loaded[..|loaded|] == loaded;
    }
  }

  // A later entry for the same key replaces an earlier one.
  function LoadInto(bans: BanMap, loaded: seq<(Hash, BanEntry)>): BanMap {
    if loaded == [] then bans
    else
      var last := loaded[|loaded| - 1];
      LoadInto(bans, loaded[..|loaded| - 1])[last.0 := last.1]
  }

  // -- the file ----------------------------------------------------------------

  datatype Line =
    | Record(hash: Hash, entry: BanEntry)
    | Blank
    | Garbled
    | Unreadable

  type Contents = Option<seq<Line>>

  // One read error loses the whole load; blank and garbled lines are skipped.
  function Load(lines: seq<Line>, now: nat): Option<seq<(Hash, BanEntry)>> {
    if lines == [] then Some([])
    else
      match Load(lines[..|lines| - 1], now)
      case None => None
      case Some(loaded) =>
        match lines[|lines| - 1]
        case Unreadable => None
        case Record(hash, entry) => if now < entry.expiresAt then Some(loaded + [(hash, entry)]) else Some(loaded)
        case _ => Some(loaded)
  }

  function LoadFile(file: Contents, now: nat): Option<seq<(Hash, BanEntry)>> {
    match file
    case None => Some([])
    case Some(lines) => Load(lines, now)
  }

  // The list a restart begins with; a failed load begins with an empty one.
  function Startup(file: Contents, now: nat): BanMap {
    match LoadFile(file, now)
    case None => map[]
    case Some(loaded) => LoadInto(map[], loaded)
  }

  function ToLines(loaded: seq<(Hash, BanEntry)>): seq<Line> {
    seq(|loaded|, i requires 0 <= i < |loaded| => Record(loaded[i].0, loaded[i].1))
  }

  function LinesOf(file: Contents): seq<Line> {
    match file
    case None => []
    case Some(lines) => lines
  }

  // What of an appended line reaches the disk: all of it, nothing, or a
  // fragment without its end of line, otherwise complete or not.
  datatype Fate = Landed | Lost | Torn(complete: bool)

  // The file, and whether its last line still lacks its end.
  datatype Journal = Journal(lines: Contents, open: bool)

  // Text behind an unended line: only a blank beginning leaves it readable as itself.
  function Merge(last: Line, next: Line): Line {
    match last
    case Blank => next
    case Unreadable => Unreadable
    case _ => Garbled
  }

  // The file after one append, whatever the append reports to its caller.
  function Write(j: Journal, hash: Hash, entry: BanEntry, fate: Fate): Journal {
    if fate == Lost then j
    else
      var lines := LinesOf(j.lines);
      var line := if fate == Landed || fate.complete then Record(hash, entry) else Garbled;
      var after := if j.open && lines != [] then lines[..|lines| - 1] + [Merge(lines[|lines| - 1], line)]
                   else lines + [line];
      Journal(Some(after), fate != Landed)
  }

  class BanFile {
    var main: Contents
    var open: bool
    var tmp: Contents

    function View(): Journal
      reads this
    {
      Journal(main, open)
    }

    constructor (main: Contents, open: bool)
      ensures View() == Journal(main, open) && tmp == None
    {
      this.main := main;
      this.open := open;
      tmp := None;
    }

    method Append(hash: Hash, entry: BanEntry, fate: Fate)
      modifies this
      ensures View() == Write(old(View()), hash, entry, fate) && tmp == old(tmp)
    {
      if fate == Lost {
        return;
      }
      var lines := if main == None then [] else main.value;
      var line := if fate == Landed || fate.complete then Record(hash, entry) else Garbled;
      if open && lines != [] {
        lines := lines[..|lines| - 1] + [Merge(lines[|lines| - 1], line)];
      } else {
        lines := lines + [line];
      }
      main := Some(lines);
      open := fate != Landed;
    }

    method LoadUnexpired(now: nat) returns (r: Option<seq<(Hash, BanEntry)>>)
      ensures r == LoadFile(main, now)
    {
      if main == None {
        return Some([]);
      }
      var lines := main.value;
      var loaded := [];
      for i := 0 to |lines|
        invariant Load(lines[..i], now) == Some(loaded)
      {
        assert lines[..i + 1][..i] == lines[..i];
        match lines[i]
        case Unreadable =>
          UnreadableLosesAll(lines, i, now);
          return None;
        case Record(hash, entry) =>
          if now < entry.expiresAt {
            loaded := loaded + [(hash, entry)];
          }
        case Blank =>
        case Garbled =>
      }
      assert lines[..|lines|] == lines;
      r := Some(loaded);
    }

    // Rewrites the file with the unexpired records only. `budget` counts the
    // file operations that still happen before a crash. Whatever the budget,
    // the file under the real name is the old one or the complete new one.
    method Compact(now: nat, budget: nat) returns (kept: Option<nat>)
      modifies this
      ensures View() == old(View()) || (main.Some? && Compacted(old(main), now) == Some(main.value) && !open)
      ensures kept.Some? ==>
                && LoadFile(old(main), now).Some?
                && kept.value == |LoadFile(old(main), now).value|
                && (old(main).Some? ==> View() == Journal(Compacted(old(main), now), false))
    {
      if main == None {
        return Some(0);
      }
      var loaded := LoadUnexpired(now);
      if loaded == None || budget == 0 {
        return None;
      }
      var lines := ToLines(loaded.value);
      tmp := Some([]);
      for i := 0 to |lines|
        invariant View() == old(View())
        invariant tmp == Some(lines[..i])
      {
        if budget <= i + 1 {
          return None;
        }
        tmp := Some(tmp.value + [lines[i]]);
        assert lines[..i + 1] == lines[..i] + [lines[i]];
      }
      if budget <= |lines| + 1 {
        return None;
      }
      assert lines[..|lines|] == lines;
      main, open, tmp := tmp, false, None;
      kept := Some(|loaded.value|);
    }
  }

  // What a completed compaction leaves, or None when the file cannot be read.
  function Compacted(file: Contents, now: nat): Contents {
    match LoadFile(file, now)
    case None => None
    case Some(loaded) => Some(ToLines(loaded))
  }

  lemma {:induction false} UnreadableLosesAll(lines: seq<Line>, i: nat, now: nat)
    requires i < |lines| && lines[i].Unreadable?
    ensures Load(lines, now) == None
  {
    if i < |lines| - 1 {
      UnreadableLosesAll(lines[..|lines| - 1], i, now);
    }
  }

  // -- compaction changes no later load ------------------------------------------

  lemma {:induction false} CompactionKeepsLoads(lines: seq<Line>, earlier: nat, now: nat)
    requires earlier <= now
    requires Load(lines, earlier).Some?
    ensures Load(ToLines(Load(lines, earlier).value), now) == Load(lines, now)
  {
    if lines != [] {
      hide Load, ToLines;
      var init, last := lines[..|lines| - 1], lines[|lines| - 1];
      assert lines == init + [last];
      LoadAppends(init, last, earlier);
      LoadAppends(init, last, now);
      CompactionKeepsLoads(init, earlier, now);
      var kept := Load(init, earlier).value;
      LoadAppends(ToLines(kept), last, now);
      if last.Record? {
        LinesAppend(kept, last.hash, last.entry);
      }
    }
  }

  lemma LoadAppends(lines: seq<Line>, line: Line, now: nat)
    ensures Load(lines + [line], now) ==
            match Load(lines, now)
            case None => None
            case Some(loaded) =>
              match line
              case Unreadable => None
              case Record(hash, entry) => if now < entry.expiresAt then Some(loaded + [(hash, entry)]) else Some(loaded)
              case _ => Some(loaded)
  {
    assert (lines + [line])[..|lines|] == lines;
  }

  lemma LinesAppend(loaded: seq<(Hash, BanEntry)>, hash: Hash, entry: BanEntry)
    ensures ToLines(loaded + [(hash, entry)]) == ToLines(loaded) + [Record(hash, entry)]
  {
  }

  // Restarting from a compacted file, at the time of the compaction or later,
  // gives the list the original file would have given.
  lemma CompactedFileStartsAlike(file: Contents, earlier: nat, now: nat)
    requires earlier <= now
    requires Compacted(file, earlier).Some?
    ensures Startup(Compacted(file, earlier), now) == Startup(file, now)
  {
    match file
    case None => assert ToLines([]) == [];
    case Some(lines) => CompactionKeepsLoads(lines, earlier, now);
  }

  // -- reloading against never restarting ------------------------------------------

  // Every record applied, expired or not: the list of a process that never stopped.
  function Replay(lines: seq<Line>): BanMap {
    if lines == [] then map[]
    else
      var rest := Replay(lines[..|lines| - 1]);
      match lines[|lines| - 1]
      case Record(hash, entry) => rest[hash := entry]
      case _ => rest
  }

  predicate Readable(lines: seq<Line>) {
    forall i :: 0 <= i < |lines| ==> !lines[i].Unreadable?
  }

  // No record of `hash` is unexpired.
  predicate AllExpired(lines: seq<Line>, hash: Hash, now: nat) {
    forall i :: 0 <= i < |lines| && lines[i].Record? && lines[i].hash == hash ==> lines[i].entry.expiresAt <= now
  }

  lemma {:induction false} ReadableLoads(lines: seq<Line>, now: nat)
    ensures Load(lines, now).Some? <==> Readable(lines)
  {
    if lines != [] {
      var init := lines[..|lines| - 1];
      ReadableLoads(init, now);
      assert Readable(lines) <==> Readable(init) && !lines[|lines| - 1].Unreadable?;
    }
  }

  // The reloaded entry is the last unexpired record; it is the replayed one
  // whenever that has not expired.
  lemma {:induction false} ReloadedEntry(lines: seq<Line>, now: nat, hash: Hash)
    requires Readable(lines)
    ensures var loaded := Startup(Some(lines), now);
            && (hash in loaded <==> !AllExpired(lines, hash, now))
            && (hash in loaded ==> now < loaded[hash].expiresAt)
            && (Banned(Replay(lines), hash, now) ==> hash in loaded && loaded[hash] == Replay(lines)[hash])
  {
    ReadableLoads(lines, now);
    if lines != [] {
      var init, last := lines[..|lines| - 1], lines[|lines| - 1];
      ReloadedEntry(init, now, hash);
      ReadableLoads(init, now);
      AllExpiredStep(lines, hash, now);
      var kept := Load(init, now).value;
      if last.Record? && now < last.entry.expiresAt {
        assert (kept + [(last.hash, last.entry)])[..|kept|] == kept;
      }
    }
  }

  lemma AllExpiredStep(lines: seq<Line>, hash: Hash, now: nat)
    requires lines != []
    ensures var init, last := lines[..|lines| - 1], lines[|lines| - 1];
            AllExpired(lines, hash, now) <==>
            AllExpired(init, hash, now) && (last.Record? && last.hash == hash ==> last.entry.expiresAt <= now)
  {
    assert lines == lines[..|lines| - 1] + [lines[|lines| - 1]];
  }

  // The two lists answer alike for one key from `now` on.
  ghost predicate AgreeFrom(a: BanMap, b: BanMap, hash: Hash, now: nat) {
    forall later: nat :: now <= later ==> (Banned(a, hash, later) <==> Banned(b, hash, later))
  }

  // Exactly when a restart forgets nothing and resurrects nothing: no key
  // whose last record has expired still has an earlier record that has not.
  // A file that cannot be read is forgotten whole, which only a key without a
  // ban survives.
  lemma ReloadAgreesExactly(lines: seq<Line>, now: nat, hash: Hash)
    ensures AgreeFrom(Startup(Some(lines), now), Replay(lines), hash, now)
            <==> if Readable(lines) then Banned(Replay(lines), hash, now) || AllExpired(lines, hash, now)
                 else !Banned(Replay(lines), hash, now)
  {
    if Readable(lines) {
      ReadableAgreesExactly(lines, now, hash);
    } else {
      ReadableLoads(lines, now);
      var replayed := Replay(lines);
      hide Replay, Load, Readable;
      if AgreeFrom(map[], replayed, hash, now) {
        assert Banned(map[], hash, now) <==> Banned(replayed, hash, now);
      }
    }
  }

  lemma ReadableAgreesExactly(lines: seq<Line>, now: nat, hash: Hash)
    requires Readable(lines)
    ensures AgreeFrom(Startup(Some(lines), now), Replay(lines), hash, now)
            <==> (Banned(Replay(lines), hash, now) || AllExpired(lines, hash, now))
  {
    var loaded, replayed := Startup(Some(lines), now), Replay(lines);
    ReloadedEntry(lines, now, hash);
    hide Startup, Replay, AllExpired;
    if AgreeFrom(loaded, replayed, hash, now) {
      assert Banned(loaded, hash, now) <==> Banned(replayed, hash, now);
    }
    if !Banned(replayed, hash, now) && hash !in loaded {
      assert AgreeFrom(loaded, replayed, hash, now);
    }
  }

  // The disagreement is real: a shorter ban recorded after a longer one.
  lemma ShorterRebanResurrects(hash: Hash)
    ensures var lines := [Record(hash, BanEntry(0, 100)), Record(hash, BanEntry(10, 50))];
            !Banned(Replay(lines), hash, 60) && Banned(Startup(Some(lines), 60), hash, 60)
  {
    var first, second := Record(hash, BanEntry(0, 100)), Record(hash, BanEntry(10, 50));
    assert [first, second][..1] == [first] && [first][..0] == [];
    assert Load([], 60) == Some([]) && Load([first], 60) == Some([] + [(hash, BanEntry(0, 100))]);
    assert [(hash, BanEntry(0, 100))][..0] == [];
  }

  // -- whole lives of a store --------------------------------------------------------

  datatype Op =
    | BanOp(hash: Hash, now: nat, duration: nat)
    | RestartOp(now: nat, compacted: bool)

  // `history` is every record ever appended; `file` is what compactions left of it.
  datatype Store = Store(clock: nat, file: Contents, live: BanMap, history: seq<Line>)

  const EMPTY_STORE := Store(0, None, map[], [])

  function Apply(st: Store, op: Op): Store {
    match op
    case BanOp(hash, now, duration) =>
      var entry := BanEntry(now, now + duration);
      Store(now, Some(LinesOf(st.file) + [Record(hash, entry)]), st.live[hash := entry],
        st.history + [Record(hash, entry)])
    case RestartOp(now, compacted) =>
      var file := if compacted && st.file.Some? && Compacted(st.file, now).Some? then Compacted(st.file, now)
                  else st.file;
      Store(now, file, Startup(st.file, now), st.history)
  }

  // Time does not run backwards, and no ban of a key ends before the one it replaces.
  predicate Orderly(st: Store, op: Op) {
    match op
    case BanOp(hash, now, duration) =>
      st.clock <= now && (var bans := Replay(st.history); hash in bans ==> bans[hash].expiresAt <= now + duration)
    case RestartOp(now, _) => st.clock <= now
  }

  function Live(ops: seq<Op>): Store {
    if ops == [] then EMPTY_STORE else Apply(Live(ops[..|ops| - 1]), ops[|ops| - 1])
  }

  predicate OrderlyLife(ops: seq<Op>) {
    forall i :: 0 <= i < |ops| ==> Orderly(Live(ops[..i]), ops[i])
  }

  // Earlier records of a key end no later than its last one.
  ghost predicate LastLasts(lines: seq<Line>) {
    forall i :: 0 <= i < |lines| && lines[i].Record? ==>
      lines[i].hash in Replay(lines) && lines[i].entry.expiresAt <= Replay(lines)[lines[i].hash].expiresAt
  }

  ghost predicate SameLoads(a: seq<Line>, b: seq<Line>, now: nat) {
    forall later: nat :: now <= later ==> Load(a, later) == Load(b, later)
  }

  ghost predicate StoreInv(st: Store) {
    && Readable(st.history)
    && LastLasts(st.history)
    && SameLoads(LinesOf(st.file), st.history, st.clock)
    && (forall hash :: AgreeFrom(st.live, Replay(st.history), hash, st.clock))
  }

  lemma LastLastsMeansAgreement(lines: seq<Line>, now: nat, hash: Hash)
    requires Readable(lines) && LastLasts(lines)
    ensures AgreeFrom(Startup(Some(lines), now), Replay(lines), hash, now)
  {
    ReloadAgreesExactly(lines, now, hash);
  }

  lemma AppendKeepsLoads(a: seq<Line>, b: seq<Line>, line: Line, now: nat, then': nat)
    requires SameLoads(a, b, now) && now <= then'
    ensures SameLoads(a + [line], b + [line], then')
  {
    forall later: nat | then' <= later ensures Load(a + [line], later) == Load(b + [line], later) {
      assert (a + [line])[..|a|] == a && (b + [line])[..|b|] == b;
      assert Load(a, later) == Load(b, later);
    }
  }

  lemma ReplayAppend(lines: seq<Line>, hash: Hash, entry: BanEntry)
    ensures Replay(lines + [Record(hash, entry)]) == Replay(lines)[hash := entry]
  {
    assert (lines + [Record(hash, entry)])[..|lines|] == lines;
  }

  lemma LastLastsGrows(lines: seq<Line>, hash: Hash, entry: BanEntry)
    requires LastLasts(lines)
    requires hash in Replay(lines) ==> Replay(lines)[hash].expiresAt <= entry.expiresAt
    ensures LastLasts(lines + [Record(hash, entry)])
  {
    hide Replay;
    ReplayAppend(lines, hash, entry);
    var after := lines + [Record(hash, entry)];
    forall i | 0 <= i < |after| && after[i].Record?
      ensures after[i].hash in Replay(after)
      ensures after[i].entry.expiresAt <= Replay(after)[after[i].hash].expiresAt
    {
      if i < |lines| {
        assert after[i] == lines[i];
      }
    }
  }

  // The same entry on both sides.
  lemma SameEntryAgrees(a: BanMap, b: BanMap, hash: Hash, entry: BanEntry, key: Hash, now: nat, later: nat)
    requires AgreeFrom(a, b, key, now) && now <= later
    ensures AgreeFrom(a[hash := entry], b[hash := entry], key, later)
  {
    var c, d := a[hash := entry], b[hash := entry];
    forall t: nat | later <= t ensures Banned(c, key, t) <==> Banned(d, key, t) {
      assert Banned(a, key, t) <==> Banned(b, key, t);
    }
  }

  lemma BanKeepsInv(st: Store, op: Op)
    requires StoreInv(st) && op.BanOp? && Orderly(st, op)
    ensures StoreInv(Apply(st, op))
  {
    hide Replay, Load, Startup, Compacted, LastLasts, SameLoads, AgreeFrom;
    var entry := BanEntry(op.now, op.now + op.duration);
    ReplayAppend(st.history, op.hash, entry);
    AppendKeepsLoads(LinesOf(st.file), st.history, Record(op.hash, entry), st.clock, op.now);
    LastLastsGrows(st.history, op.hash, entry);
    forall hash: Hash ensures AgreeFrom(Apply(st, op).live, Replay(Apply(st, op).history), hash, op.now) {
      SameEntryAgrees(st.live, Replay(st.history), op.hash, entry, hash, st.clock, op.now);
    }
  }

  lemma RestartAgrees(st: Store, op: Op, hash: Hash)
    requires StoreInv(st) && op.RestartOp? && Orderly(st, op)
    ensures AgreeFrom(Apply(st, op).live, Replay(st.history), hash, op.now)
  {
    ReadableLoads(st.history, op.now);
    assert Load(LinesOf(st.file), op.now) == Load(st.history, op.now);
    assert Apply(st, op).live == Startup(Some(st.history), op.now);
    LastLastsMeansAgreement(st.history, op.now, hash);
  }

  lemma RestartKeepsLoads(st: Store, op: Op)
    requires StoreInv(st) && op.RestartOp? && Orderly(st, op)
    ensures SameLoads(LinesOf(Apply(st, op).file), st.history, op.now)
  {
    var after, lines := Apply(st, op), LinesOf(st.file);
    ReadableLoads(st.history, op.now);
    assert Load(lines, op.now) == Load(st.history, op.now);
    forall later: nat | op.now <= later ensures Load(LinesOf(after.file), later) == Load(st.history, later) {
      CompactionKeepsLoads(lines, op.now, later);
      assert Load(lines, later) == Load(st.history, later);
    }
  }

  lemma RestartKeepsInv(st: Store, op: Op)
    requires StoreInv(st) && op.RestartOp? && Orderly(st, op)
    ensures StoreInv(Apply(st, op))
  {
    RestartKeepsLoads(st, op);
    forall hash: Hash ensures AgreeFrom(Apply(st, op).live, Replay(st.history), hash, op.now) {
      RestartAgrees(st, op, hash);
    }
  }

  lemma {:induction false} LifeKeepsInv(ops: seq<Op>)
    requires OrderlyLife(ops)
    ensures StoreInv(Live(ops))
  {
    if ops == [] {
    } else {
      var init, last := ops[..|ops| - 1], ops[|ops| - 1];
      assert forall i :: 0 <= i < |init| ==> init[..i] == ops[..i];
      LifeKeepsInv(init);
      if last.BanOp? {
        BanKeepsInv(Live(init), last);
      } else {
        RestartKeepsInv(Live(init), last);
      }
    }
  }

  // After any orderly life - bans, restarts, compactions that complete or not -
  // the list in memory answers every later query as the list of a process
  // that had seen the same bans and never stopped.
  lemma RestartsAreInvisible(ops: seq<Op>, hash: Hash, now: nat)
    requires OrderlyLife(ops)
    requires Live(ops).clock <= now
    ensures Banned(Live(ops).live, hash, now) <==> Banned(Replay(Live(ops).history), hash, now)
  {
    LifeKeepsInv(ops);
    hide Replay, Live;
    assert AgreeFrom(Live(ops).live, Replay(Live(ops).history), hash, Live(ops).clock);
  }

  // The coordinator bans for one configured duration by a clock that does not
  // run backwards.
  predicate SteadyLife(ops: seq<Op>, duration: nat) {
    && (forall i :: 0 <= i < |ops| && ops[i].BanOp? ==> ops[i].duration == duration)
    && (forall i, j :: 0 <= i < j < |ops| ==> ops[i].now <= ops[j].now)
  }

  ghost predicate NoneOutlives(bans: BanMap, end: nat) {
    forall h :: h in bans ==> bans[h].expiresAt <= end
  }

  lemma {:induction false} SteadyClock(ops: seq<Op>, duration: nat)
    requires SteadyLife(ops, duration)
    ensures Live(ops).clock == if ops == [] then 0 else ops[|ops| - 1].now
    ensures NoneOutlives(Replay(Live(ops).history), Live(ops).clock + duration)
  {
    hide NoneOutlives, Apply, Replay;
    NothingBanned(duration);
    if ops != [] {
      var init, last := ops[..|ops| - 1], ops[|ops| - 1];
      SteadyClock(init, duration);
      SteadyStep(Live(init), last, duration);
      assert init != [] ==> init[|init| - 1].now <= last.now;
    }
  }

  lemma NothingBanned(end: nat)
    ensures NoneOutlives(Replay([]), end)
  {
  }

  lemma SteadyStep(st: Store, op: Op, duration: nat)
    requires NoneOutlives(Replay(st.history), st.clock + duration)
    requires op.BanOp? ==> op.duration == duration
    ensures Apply(st, op).clock == op.now
    ensures st.clock <= op.now ==> NoneOutlives(Replay(Apply(st, op).history), op.now + duration)
  {
    hide Replay, Startup, Compacted;
    if op.BanOp? {
      ReplayAppend(st.history, op.hash, BanEntry(op.now, op.now + duration));
    }
  }

  // Such a life is orderly, so its restarts are invisible.
  lemma SteadyLifeIsOrderly(ops: seq<Op>, duration: nat)
    requires SteadyLife(ops, duration)
    ensures OrderlyLife(ops)
  {
    hide Replay, Live;
    forall i | 0 <= i < |ops| ensures Orderly(Live(ops[..i]), ops[i]) {
      SteadyClock(ops[..i], duration);
    }
  }
}
