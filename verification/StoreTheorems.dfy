/** What the session store guarantees: the cache never serves anything but what is on disk
    (with one exact exception), a frame stays loadable until it is deleted or pruned, and
    retention removes exactly what its policy says and settles in one run. */
module StoreTheorems {
  import opened Prelude
  import opened StoreModel

  // ---------------------------------------------------------------- the cache as a dictionary

  ghost predicate DistinctSlots(cache: seq<Entry>) {
    forall i, j | 0 <= i < j < |cache| :: !SameSlot(cache[i], cache[j])
  }

  lemma {:induction false} LookupFinds(cache: seq<Entry>, sid: Sid, key: Key)
    ensures match Lookup(cache, sid, key)
            case Some(frame) => Entry(sid, key, frame) in cache
            case None => forall e | e in cache :: !(e.sid == sid && e.key == key)
  {
    if cache != [] {
      LookupFinds(cache[..|cache| - 1], sid, key);
    }
  }

  lemma LookupExact(cache: seq<Entry>, e: Entry)
    requires DistinctSlots(cache)
    ensures Lookup(cache, e.sid, e.key) == Some(e.frame) <==> e in cache
  {
    LookupFinds(cache, e.sid, e.key);
    if e in cache {
      var found := Lookup(cache, e.sid, e.key).value;
      var i :| 0 <= i < |cache| && cache[i] == e;
      var j :| 0 <= j < |cache| && cache[j] == Entry(e.sid, e.key, found);
      assert SameSlot(cache[i], cache[j]) && SameSlot(cache[j], cache[i]);
    }
  }

  lemma AssignMeans(cache: seq<Entry>, e: Entry)
    requires DistinctSlots(cache)
    ensures var r := Assign(cache, e);
            && DistinctSlots(r) && |r| <= |cache| + 1
            && (|r| == |cache| + 1 ==> r[|cache|] == e)
            && forall x :: x in r <==> x == e || (x in cache && !SameSlot(x, e))
  {
    var r := Assign(cache, e);
    LookupFinds(cache, e.sid, e.key);
    if Lookup(cache, e.sid, e.key).Some? {
      forall x ensures x in r <==> x == e || (x in cache && !SameSlot(x, e)) {
        if x in r {
          var i :| 0 <= i < |r| && r[i] == x;
          assert cache[i] in cache;
        }
        if x in cache && !SameSlot(x, e) {
          var i :| 0 <= i < |cache| && cache[i] == x;
          assert r[i] == x;
        }
        var found := Entry(e.sid, e.key, Lookup(cache, e.sid, e.key).value);
        var i :| 0 <= i < |cache| && cache[i] == found;
        assert r[i] == e;
      }
    }
  }

  lemma PutMeans(cache: seq<Entry>, e: Entry)
    requires DistinctSlots(cache) && |cache| <= CACHE_CAP
    ensures var r := Put(cache, e);
            && DistinctSlots(r) && |r| <= 6 && e in r
            && (forall x | x in r :: x == e || (x in cache && !SameSlot(x, e)))
            && forall i | 0 <= i < |cache| && !SameSlot(cache[i], e) ::
                 cache[i] in r || (i == 0 && |cache| == 6 && forall x | x in cache :: !SameSlot(x, e))
  {
    AssignMeans(cache, e);
    var r := Assign(cache, e);
    if |r| > CACHE_CAP {
      assert Evict(r) == r[1..];
      assert r[1..][|cache| - 1] == e;
      LookupFinds(cache, e.sid, e.key);
      forall i | 0 < i < |cache| ensures cache[i] in r[1..] {
        assert r[1..][i - 1] == cache[i];
      }
    }
  }

  lemma {:induction false} DropMeans(cache: seq<Entry>, sid: Sid)
    requires DistinctSlots(cache)
    ensures DistinctSlots(Drop(cache, sid))
  {
    if cache != [] {
      var n := |cache| - 1;
      DropMeans(cache[..n], sid);
      var rest := Drop(cache[..n], sid);
      forall i | 0 <= i < |rest| ensures !SameSlot(rest[i], cache[n]) {
        assert rest[i] in rest;
        assert rest[i] in cache[..n];
      }
    }
  }

  // ---------------------------------------------------------------- what every operation keeps

  ghost predicate UniqueRows(rows: seq<SessionRow>) {
    forall i, j | 0 <= i < j < |rows| :: rows[i].sid != rows[j].sid
  }

  ghost predicate Sound(t: Store) {
    && DistinctSlots(t.cache) && |t.cache| <= CACHE_CAP
    && (forall e | e in t.cache :: IsCached(e.key))
    && UniqueRows(t.sessions)
  }

  /** The entry is what the disk holds. */
  predicate Fresh(t: Store, e: Entry) {
    Uncached(t.files, e.sid, e.key) == Some(e.frame)
  }

  ghost predicate Coherent(t: Store, keys: set<Key>) {
    forall e | e in t.cache && e.key in keys :: Fresh(t, e)
  }

  lemma {:induction false} DeleteRows(rows: seq<SessionRow>, sid: Sid)
    requires UniqueRows(rows)
    ensures UniqueRows(Filter(rows, RowOfOthers(sid)))
  {
    if rows != [] {
      var n := |rows| - 1;
      DeleteRows(rows[..n], sid);
      var rest := Filter(rows[..n], RowOfOthers(sid));
      forall i | 0 <= i < |rest| ensures rest[i].sid != rows[n].sid {
        assert rest[i] in rest;
        assert rest[i] in rows[..n];
      }
    }
  }

  lemma DeleteKeeps(t: Store, sid: Sid, keys: set<Key>)
    requires Sound(t)
    ensures Sound(Delete(t, sid)) && (Coherent(t, keys) ==> Coherent(Delete(t, sid), keys))
  {
    DropMeans(t.cache, sid);
    DeleteRows(t.sessions, sid);
  }

  lemma PruneRawKeeps(t: Store, row: SessionRow, p: Policy, now: real, protected: set<Sid>, keys: set<Key>)
    requires Sound(t)
    ensures var r := PruneRaw(t, row, p, now, protected); Sound(r) && (Coherent(t, keys) ==> Coherent(r, keys))
  {
    DropMeans(t.cache, row.sid);
  }

  lemma ArchiveKeeps(t: Store, row: SessionRow, p: Policy, now: real, protected: set<Sid>, keys: set<Key>)
    requires Sound(t)
    ensures var r := Archive(t, row, p, now, protected); Sound(r) && (Coherent(t, keys) ==> Coherent(r, keys))
  {
    DropMeans(t.cache, row.sid);
  }

  lemma {:induction false} RetainRowsKeeps(t: Store, rows: seq<SessionRow>, p: Policy, now: real,
                                           protected: set<Sid>, keys: set<Key>)
    requires Sound(t)
    ensures var r := RetainRows(t, rows, p, now, protected).0; Sound(r) && (Coherent(t, keys) ==> Coherent(r, keys))
  {
    if rows != [] {
      var n := |rows| - 1;
      RetainRowsKeeps(t, rows[..n], p, now, protected, keys);
      var before := RetainRows(t, rows[..n], p, now, protected).0;
      DeleteKeeps(before, rows[n].sid, keys);
      PruneRawKeeps(before, rows[n], p, now, protected, keys);
      ArchiveKeeps(PruneRaw(before, rows[n], p, now, protected), rows[n], p, now, protected, keys);
    }
  }

  /** The operation is not a save under `key` that falls back beside a different parquet. */
  predicate NoStaleFallback(t: Store, op: Op, key: Key) {
    && op.SaveOp? && op.key == key && Fallback(key).Some?
    && op.sid in t.dirs && !op.parquetWorks && (op.sid, Primary(key)) in t.files
    ==> t.files[(op.sid, Primary(key))] == op.frame
  }

  lemma SaveKeepsSound(t: Store, sid: Sid, key: Key, frame: Frame, works: bool)
    requires Sound(t)
    ensures Sound(Save(t, sid, key, frame, works))
  {
    PutMeans(t.cache, Entry(sid, key, frame));
  }

  lemma SaveKeeps(t: Store, op: Op, keys: set<Key>)
    requires Sound(t) && Coherent(t, keys) && op.SaveOp?
    ensures Coherent(Apply(t, op), keys) <==> (Clean in keys ==> NoStaleFallback(t, op, Clean))
  {
    var r, e := Apply(t, op), Entry(op.sid, op.key, op.frame);
    PutMeans(t.cache, e);
    if op.sid in t.dirs {
      if IsCached(op.key) {
        assert e in r.cache;
        assert Fresh(r, e) <==> NoStaleFallback(t, op, Clean);
        assert NoStaleFallback(t, op, Clean) || e.key == Clean;
        forall x | x in r.cache && x != e && x.key in keys ensures Fresh(r, x) {
          assert x in t.cache && !SameSlot(x, e) && Fresh(t, x);
          OtherSlot(t, op, x);
        }
      } else {
        forall x | x in r.cache && x.key in keys ensures Fresh(r, x) {
          assert Fresh(t, x) && !SameSlot(x, e);
          OtherSlot(t, op, x);
        }
      }
    }
  }

  lemma OtherSlot(t: Store, op: Op, x: Entry)
    requires op.SaveOp? && !(x.sid == op.sid && x.key == op.key)
    ensures Uncached(Apply(t, op).files, x.sid, x.key) == Uncached(t.files, x.sid, x.key)
  {
  }

  lemma LoadKeeps(t: Store, sid: Sid, key: Key, keys: set<Key>)
    requires Sound(t)
    ensures Sound(Load(t, sid, key)) && (Coherent(t, keys) ==> Coherent(Load(t, sid, key), keys))
  {
    var u := Uncached(t.files, sid, key);
    if u.Some? {
      PutMeans(t.cache, Entry(sid, key, u.value));
    }
  }

  lemma ApplySound(t: Store, op: Op)
    requires Sound(t)
    ensures Sound(Apply(t, op))
  {
    match op
    case DeleteOp(sid) => DeleteKeeps(t, sid, {});
    case SaveOp(sid, key, frame, works) => SaveKeepsSound(t, sid, key, frame, works);
    case LoadOp(sid, key) => LoadKeeps(t, sid, key, {});
    case RetainOp(policy, now) => RetainRowsKeeps(t, t.sessions, policy, now, Protected(t), {});
    case _ =>
  }

  /** From a store coherent on some keys, an operation leads to one that is again, exactly when
      it is not a save of the clean frame, one of these keys, beside a different parquet. */
  lemma CoherenceKeptIff(t: Store, op: Op, keys: set<Key>)
    requires Sound(t) && Coherent(t, keys)
    ensures Coherent(Apply(t, op), keys) <==> (Clean in keys ==> NoStaleFallback(t, op, Clean))
  {
    match op
    case DeleteOp(sid) => DeleteKeeps(t, sid, keys);
    case SaveOp(_, _, _, _) => SaveKeeps(t, op, keys);
    case LoadOp(sid, key) => LoadKeeps(t, sid, key, keys);
    case RetainOp(policy, now) => RetainRowsKeeps(t, t.sessions, policy, now, Protected(t), keys);
    case _ =>
  }

  /** Coherence is what it takes for every load to return what a store without a cache would. */
  lemma CoherentIff(t: Store, keys: set<Key>)
    requires Sound(t)
    ensures Coherent(t, keys) <==> forall sid, key | key in keys :: Loaded(t, sid, key) == Uncached(t.files, sid, key)
  {
    if Coherent(t, keys) {
      forall sid, key | key in keys ensures Loaded(t, sid, key) == Uncached(t.files, sid, key) {
        LookupFinds(t.cache, sid, key);
      }
    }
    if forall sid, key | key in keys :: Loaded(t, sid, key) == Uncached(t.files, sid, key) {
      forall e | e in t.cache && e.key in keys ensures Fresh(t, e) {
        LookupExact(t.cache, e);
        assert Loaded(t, e.sid, e.key) == Some(e.frame);
      }
    }
  }

  ghost predicate NeverStale(ops: seq<Op>, key: Key) {
    forall i | 0 <= i < |ops| :: NoStaleFallback(Run(ops[..i]), ops[i], key)
  }

  lemma NeverStalePrefix(ops: seq<Op>, key: Key)
    requires ops != [] && NeverStale(ops, key)
    ensures NeverStale(ops[..|ops| - 1], key)
    ensures NoStaleFallback(Run(ops[..|ops| - 1]), ops[|ops| - 1], key)
  {
    var rest := ops[..|ops| - 1];
    forall i | 0 <= i < |rest| ensures NoStaleFallback(Run(rest[..i]), rest[i], key) {
      assert rest[..i] == ops[..i];
      assert NoStaleFallback(Run(ops[..i]), ops[i], key);
    }
  }

  lemma {:induction false} RunSound(ops: seq<Op>)
    ensures Sound(Run(ops))
  {
    if ops != [] {
      RunSound(ops[..|ops| - 1]);
      ApplySound(Run(ops[..|ops| - 1]), ops[|ops| - 1]);
    }
  }

  lemma {:induction false} RunCoherent(ops: seq<Op>, keys: set<Key>)
    requires Clean in keys ==> NeverStale(ops, Clean)
    ensures Coherent(Run(ops), keys)
  {
    if ops != [] {
      var n := |ops| - 1;
      var rest := ops[..n];
      if Clean in keys {
        NeverStalePrefix(ops, Clean);
      }
      RunCoherent(rest, keys);
      RunSound(rest);
      CoherenceKeptIff(Run(rest), ops[n], keys);
    }
  }

  /** After any run at most six frames are held, and a load returns what a store without a cache
      would: always for the raw frame, the bundle and the audit frames, and for the clean frame
      if no save of it fell back beside a different parquet. */
  lemma LoadsAreTrue(ops: seq<Op>, sid: Sid, key: Key)
    ensures |Run(ops).cache| <= 6
    ensures key != Clean || NeverStale(ops, Clean) ==> Loaded(Run(ops), sid, key) == Uncached(Run(ops).files, sid, key)
  {
    RunSound(ops);
    if key != Clean || NeverStale(ops, Clean) {
      RunCoherent(ops, {key});
      CoherentIff(Run(ops), {key});
    }
  }

  /** The raw frame, the clean frame and the bundle are held once saved or loaded; the audit
      frames never are. */
  lemma CacheHolds(t: Store, sid: Sid, key: Key, frame: Frame, works: bool)
    requires Sound(t)
    ensures var saved, loaded := Save(t, sid, key, frame, works), Load(t, sid, key);
            if key == Raw || key == Clean || key == Bundle then
              && (sid in t.dirs ==> Lookup(saved.cache, sid, key) == Some(frame))
              && Lookup(loaded.cache, sid, key) == Loaded(t, sid, key)
            else saved.cache == loaded.cache == t.cache
  {
    PutMeans(t.cache, Entry(sid, key, frame));
    LookupExact(Put(t.cache, Entry(sid, key, frame)), Entry(sid, key, frame));
    var u := Uncached(t.files, sid, key);
    if u.Some? {
      PutMeans(t.cache, Entry(sid, key, u.value));
      LookupExact(Put(t.cache, Entry(sid, key, u.value)), Entry(sid, key, u.value));
    }
  }

  // ---------------------------------------------------------------- rows and directories

  /** A session has a directory exactly if it has a row, and files only if it has one. */
  ghost predicate Housed(t: Store) {
    && (forall sid :: sid in t.dirs <==> HasRow(t, sid))
    && forall k | k in t.files :: k.0 in t.dirs
  }

  lemma RenamedRows(a: Store, b: Store, f: SessionRow -> SessionRow)
    requires b.sessions == Map(a.sessions, f) && forall r :: f(r).sid == r.sid
    ensures forall sid :: HasRow(a, sid) <==> HasRow(b, sid)
  {
    forall sid ensures HasRow(a, sid) <==> HasRow(b, sid) {
      if HasRow(a, sid) {
        var i :| 0 <= i < |a.sessions| && a.sessions[i].sid == sid;
        assert b.sessions[i] in b.sessions;
      }
      if HasRow(b, sid) {
        var i :| 0 <= i < |b.sessions| && b.sessions[i].sid == sid;
        assert a.sessions[i] in a.sessions;
      }
    }
  }

  lemma DeleteHouses(t: Store, sid: Sid)
    requires Housed(t)
    ensures Housed(Delete(t, sid)) && !HasRow(Delete(t, sid), sid) && sid !in Delete(t, sid).dirs
  {
    var u := Delete(t, sid);
    forall other ensures other in u.dirs <==> HasRow(u, other) {
      if HasRow(t, other) && other != sid {
        var r :| r in t.sessions && r.sid == other;
        assert r in u.sessions;
      }
    }
  }

  lemma {:induction false} RetainHouses(t: Store, rows: seq<SessionRow>, p: Policy, now: real, protected: set<Sid>)
    requires Housed(t)
    ensures Housed(RetainRows(t, rows, p, now, protected).0)
  {
    if rows != [] {
      var n := |rows| - 1;
      RetainHouses(t, rows[..n], p, now, protected);
      var before, row := RetainRows(t, rows[..n], p, now, protected).0, rows[n];
      DeleteHouses(before, row.sid);
      RenamedRows(before, before.(sessions := Map(before.sessions, Stamp(row.sid, now))), Stamp(row.sid, now));
    }
  }

  lemma CreateHouses(t: Store, sid: Sid, now: real)
    requires Housed(t)
    ensures Housed(Create(t, sid, now)) && HasRow(Create(t, sid, now), sid)
  {
    var u := Create(t, sid, now);
    forall other ensures other in u.dirs <==> HasRow(u, other) {
      if HasRow(t, other) {
        var r :| r in t.sessions && r.sid == other;
        assert r in u.sessions;
      }
      if !HasRow(t, sid) && other == sid {
        assert u.sessions[|t.sessions|].sid == sid;
      }
    }
  }

  /** After any run sessions, directories and files go together, so a save fails exactly for a
      session that does not exist. */
  lemma {:induction false} RunHouses(ops: seq<Op>)
    ensures Housed(Run(ops))
  {
    if ops != [] {
      var t, op := Run(ops[..|ops| - 1]), ops[|ops| - 1];
      RunHouses(ops[..|ops| - 1]);
      match op
      case CreateOp(sid, now) => CreateHouses(t, sid, now);
      case DeleteOp(sid) => DeleteHouses(t, sid);
      case RetainOp(p, now) => RetainHouses(t, t.sessions, p, now, Protected(t));
      case AnalyseOp(sid) => RenamedRows(t, Apply(t, op), Analysed(sid));
      case OpenOp(sid, at) => RenamedRows(t, Apply(t, op), Opened(sid, at));
      case _ =>
    }
  }

  /** The excluded case: the frame just saved is served until the cache loses it; from then on
      the older one is. */
  lemma FallbackIsLost(t: Store, sid: Sid, frame: Frame, older: Frame)
    requires Sound(t) && sid in t.dirs && (sid, CleanParquet) in t.files && t.files[(sid, CleanParquet)] == older
    ensures var saved := Save(t, sid, Clean, frame, false);
            && Loaded(saved, sid, Clean) == Some(frame)
            && Loaded(Apply(saved, RestartOp), sid, Clean) == Some(older)
  {
    CacheHolds(t, sid, Clean, frame, false);
    ParquetStays(t, sid, frame);
  }

  lemma ParquetStays(t: Store, sid: Sid, frame: Frame)
    requires (sid, CleanParquet) in t.files
    ensures var saved := Save(t, sid, Clean, frame, false);
            (sid, CleanParquet) in saved.files && saved.files[(sid, CleanParquet)] == t.files[(sid, CleanParquet)]
  {
  }
}
