/** What retention does to a session store: which files and rows it removes, that it leaves
    protected sessions alone and that one run settles; and what a load returns after any run. */
module RetentionTheorems {
  import opened Prelude
  import opened JobTable
  import opened StoreModel
  import opened StoreTheorems

  // ---------------------------------------------------------------- files

  /** Retention takes this file of the session away. */
  predicate Takes(row: SessionRow, f: File, p: Policy, now: real, protected: set<Sid>) {
    && row.sid !in protected
    && (|| Due(p.deleteDays, row, now)
        || (f == RawPkl && Due(p.rawDays, row, now))
        || (f in HeavyFiles() && Due(p.heavyDays, row, now) && row.archivedAt.None?))
  }

  lemma RetainRowFiles(t: Store, row: SessionRow, p: Policy, now: real, protected: set<Sid>)
    ensures RetainRow(t, row, p, now, protected).files
         == map k | k in t.files && !(k.0 == row.sid && Takes(row, k.1, p, now, protected)) :: t.files[k]
  {
    if !Removes(row, p, now, protected) {
      var pruned := PruneRaw(t, row, p, now, protected);
      assert RawPkl !in HeavyFiles();
      assert pruned.files
          == map k | k in t.files
                     && !(k.0 == row.sid && k.1 == RawPkl && row.sid !in protected && Due(p.rawDays, row, now)) ::
               t.files[k];
      ArchiveFiles(pruned, row, p, now, protected);
    }
  }

  lemma ArchiveFiles(t: Store, row: SessionRow, p: Policy, now: real, protected: set<Sid>)
    ensures Archive(t, row, p, now, protected).files
         == map k | k in t.files && !(k.0 == row.sid && k.1 in HeavyFiles() && row.sid !in protected
                                      && Due(p.heavyDays, row, now) && row.archivedAt.None?) :: t.files[k]
  {
  }

  lemma {:induction false} RetainRowsFiles(t: Store, rows: seq<SessionRow>, p: Policy, now: real, protected: set<Sid>)
    ensures var files := RetainRows(t, rows, p, now, protected).0.files;
            forall k :: (k in files <==>
                           k in t.files
                           && forall row | row in rows :: !(k.0 == row.sid && Takes(row, k.1, p, now, protected)))
                        && (k in files ==> files[k] == t.files[k])
  {
    if rows != [] {
      var n := |rows| - 1;
      RetainRowsFiles(t, rows[..n], p, now, protected);
      RetainRowFiles(RetainRows(t, rows[..n], p, now, protected).0, rows[n], p, now, protected);
      assert forall row :: row in rows <==> row in rows[..n] || row == rows[n];
    }
  }

  /** Exactly the files the policy names go, and the others keep their contents. */
  lemma RetentionTakesExactly(t: Store, p: Policy, now: real, sid: Sid, f: File)
    ensures var files := Retain(t, p, now).0.files;
            && ((sid, f) in files <==>
                (sid, f) in t.files
                && forall row | row in t.sessions && row.sid == sid :: !Takes(row, f, p, now, Protected(t)))
            && ((sid, f) in files ==> files[(sid, f)] == t.files[(sid, f)])
  {
    RetainRowsFiles(t, t.sessions, p, now, Protected(t));
  }

  // ---------------------------------------------------------------- rows

  /** `r'` is what is left of `r`: the same row, at most stamped as archived. */
  predicate LeftOf(r: SessionRow, r': SessionRow, now: real) {
    r' == r || r' == r.(archivedAt := Some(now))
  }

  lemma {:induction false} RowsLeft(t: Store, rows: seq<SessionRow>, p: Policy, now: real, protected: set<Sid>,
                                    r': SessionRow)
    requires r' in RetainRows(t, rows, p, now, protected).0.sessions
    ensures exists r | r in t.sessions :: LeftOf(r, r', now) && (r in rows ==> !Removes(r, p, now, protected))
  {
    if rows == [] {
      assert LeftOf(r', r', now);
    } else {
      var n := |rows| - 1;
      var before, row := RetainRows(t, rows[..n], p, now, protected).0, rows[n];
      var mid := RowBefore(before, row, p, now, protected, r');
      RowsLeft(t, rows[..n], p, now, protected, mid);
      var r :| r in t.sessions && LeftOf(r, mid, now) && (r in rows[..n] ==> !Removes(r, p, now, protected));
      assert LeftOf(r, r', now);
      assert r in rows ==> r in rows[..n] || r == row;
    }
  }

  lemma RowBefore(t: Store, row: SessionRow, p: Policy, now: real, protected: set<Sid>, r': SessionRow)
      returns (r: SessionRow)
    requires r' in RetainRow(t, row, p, now, protected).sessions
    ensures r in t.sessions && LeftOf(r, r', now)
    ensures Removes(row, p, now, protected) ==> r'.sid != row.sid
  {
    if Removes(row, p, now, protected) {
      r := r';
    } else {
      var pruned := PruneRaw(t, row, p, now, protected);
      if Archives(pruned, row, p, now, protected) {
        var i :| 0 <= i < |t.sessions| && Map(t.sessions, Stamp(row.sid, now))[i] == r';
        r := t.sessions[i];
      } else {
        r := r';
      }
    }
  }

  lemma {:induction false} RowsStay(t: Store, rows: seq<SessionRow>, p: Policy, now: real, protected: set<Sid>,
                                    sid: Sid)
    requires HasRow(t, sid) && forall row | row in rows && row.sid == sid :: !Removes(row, p, now, protected)
    ensures HasRow(RetainRows(t, rows, p, now, protected).0, sid)
  {
    if rows != [] {
      var n := |rows| - 1;
      assert forall row | row in rows[..n] :: row in rows;
      RowsStay(t, rows[..n], p, now, protected, sid);
      var before, row := RetainRows(t, rows[..n], p, now, protected).0, rows[n];
      assert row in rows;
      var r :| r in before.sessions && r.sid == sid;
      if Removes(row, p, now, protected) {
        assert r in Delete(before, row.sid).sessions;
      } else {
        var i :| 0 <= i < |before.sessions| && before.sessions[i] == r;
        var stamped := Map(before.sessions, Stamp(row.sid, now));
        assert stamped[i] in stamped && stamped[i].sid == sid;
        var after := RetainRow(before, row, p, now, protected);
        assert after.sessions == stamped || after.sessions == before.sessions;
      }
    }
  }

  /** A session survives exactly when the policy does not delete it; with zero delete days
      every session survives. */
  lemma SessionSurvivesIff(t: Store, p: Policy, now: real, row: SessionRow)
    requires Sound(t) && row in t.sessions
    ensures HasRow(Retain(t, p, now).0, row.sid) <==> !Removes(row, p, now, Protected(t))
    ensures p.deleteDays <= 0 ==> HasRow(Retain(t, p, now).0, row.sid)
  {
    var i :| 0 <= i < |t.sessions| && t.sessions[i] == row;
    forall other | other in t.sessions && other.sid == row.sid ensures other == row {
      var j :| 0 <= j < |t.sessions| && t.sessions[j] == other;
    }
    var after := RetainRows(t, t.sessions, p, now, Protected(t)).0;
    if Removes(row, p, now, Protected(t)) {
      if HasRow(after, row.sid) {
        var r' :| r' in after.sessions && r'.sid == row.sid;
        RowsLeft(t, t.sessions, p, now, Protected(t), r');
      }
    } else {
      RowsStay(t, t.sessions, p, now, Protected(t), row.sid);
    }
  }

  // ---------------------------------------------------------------- protected sessions

  ghost predicate SameSession(a: Store, b: Store, sid: Sid) {
    && (sid in a.dirs <==> sid in b.dirs)
    && (forall f :: (sid, f) in a.files <==> (sid, f) in b.files)
    && (forall f | (sid, f) in a.files :: a.files[(sid, f)] == b.files[(sid, f)])
    && (forall r: SessionRow | r.sid == sid :: r in a.sessions <==> r in b.sessions)
    && (forall e: Entry | e.sid == sid :: e in a.cache <==> e in b.cache)
  }

  lemma RetainRowLeaves(t: Store, row: SessionRow, p: Policy, now: real, protected: set<Sid>, sid: Sid)
    requires sid in protected || sid != row.sid
    ensures SameSession(t, RetainRow(t, row, p, now, protected), sid)
  {
    var after := RetainRow(t, row, p, now, protected);
    if row.sid !in protected && !Removes(row, p, now, protected) {
      var stamped := Map(t.sessions, Stamp(row.sid, now));
      forall r: SessionRow | r.sid == sid ensures r in t.sessions <==> r in stamped {
        if r in t.sessions {
          var i :| 0 <= i < |t.sessions| && t.sessions[i] == r;
          assert stamped[i] == r;
        }
        if r in stamped {
          var i :| 0 <= i < |stamped| && stamped[i] == r;
          assert t.sessions[i] == r;
        }
      }
    }
  }

  lemma {:induction false} RetainRowsLeave(t: Store, rows: seq<SessionRow>, p: Policy, now: real,
                                           protected: set<Sid>, sid: Sid)
    requires sid in protected
    ensures SameSession(t, RetainRows(t, rows, p, now, protected).0, sid)
  {
    if rows != [] {
      var n := |rows| - 1;
      RetainRowsLeave(t, rows[..n], p, now, protected, sid);
      RetainRowLeaves(RetainRows(t, rows[..n], p, now, protected).0, rows[n], p, now, protected, sid);
    }
  }

  /** The session analysed and opened last, and every session with a live job, keeps its row,
      its files and its cached frames. */
  lemma ProtectedUntouched(t: Store, p: Policy, now: real, sid: Sid)
    requires (exists j | j in t.jobs :: Live(j) && j.session == Some(sid))
          || (Latest(t.sessions).Some? && Latest(t.sessions).value.0 == sid)
    ensures SameSession(t, Retain(t, p, now).0, sid)
  {
    RetainRowsLeave(t, t.sessions, p, now, Protected(t), sid);
  }

  // ---------------------------------------------------------------- one run settles

  lemma {:induction false} StampKeepsLatest(rows: seq<SessionRow>, sid: Sid, now: real)
    ensures Latest(Map(rows, Stamp(sid, now))) == Latest(rows)
  {
    if rows != [] {
      var n := |rows| - 1;
      StampKeepsLatest(rows[..n], sid, now);
      assert Map(rows, Stamp(sid, now))[..n] == Map(rows[..n], Stamp(sid, now));
    }
  }

  lemma LatestAppend(rows: seq<SessionRow>, r: SessionRow)
    ensures Latest(rows + [r]) == var best := Latest(rows);
              if r.analysed && (best.None? || OpenedOrCreated(r) > best.value.1) then Some((r.sid, OpenedOrCreated(r)))
              else best
    ensures rows + [] == rows
  {
    assert (rows + [r])[..|rows|] == rows;
  }

  lemma {:induction false} FewerRowsNoLater(rows: seq<SessionRow>, sid: Sid)
    ensures var a, b := Latest(Filter(rows, RowOfOthers(sid))), Latest(rows);
            a.Some? ==> b.Some? && a.value.1 <= b.value.1
  {
    if rows != [] {
      var n := |rows| - 1;
      FewerRowsNoLater(rows[..n], sid);
      LatestAppend(Filter(rows[..n], RowOfOthers(sid)), rows[n]);
      LatestAppend(rows[..n], rows[n]);
    }
  }

  lemma {:induction false} DeleteKeepsLatest(rows: seq<SessionRow>, sid: Sid)
    requires Latest(rows).Some? ==> Latest(rows).value.0 != sid
    ensures Latest(Filter(rows, RowOfOthers(sid))) == Latest(rows)
  {
    if rows != [] {
      var n := |rows| - 1;
      var front, r := rows[..n], rows[n];
      FewerRowsNoLater(front, sid);
      LatestAppend(Filter(front, RowOfOthers(sid)), r);
      if Latest(front) == Latest(rows) || r.sid == sid {
        DeleteKeepsLatest(front, sid);
      }
    }
  }

  lemma {:induction false} RetainRowsLatest(t: Store, rows: seq<SessionRow>, p: Policy, now: real, protected: set<Sid>)
    requires Latest(t.sessions).Some? ==> Latest(t.sessions).value.0 in protected
    ensures Latest(RetainRows(t, rows, p, now, protected).0.sessions) == Latest(t.sessions)
    ensures RetainRows(t, rows, p, now, protected).0.jobs == t.jobs
  {
    if rows != [] {
      var n := |rows| - 1;
      RetainRowsLatest(t, rows[..n], p, now, protected);
      var before, row := RetainRows(t, rows[..n], p, now, protected).0, rows[n];
      StampKeepsLatest(before.sessions, row.sid, now);
      if Removes(row, p, now, protected) {
        DeleteKeepsLatest(before.sessions, row.sid);
      }
    }
  }

  lemma ProtectionStays(t: Store, p: Policy, now: real)
    ensures Protected(Retain(t, p, now).0) == Protected(t)
  {
    RetainRowsLatest(t, t.sessions, p, now, Protected(t));
    var jobs := PruneJobs(t.jobs, p.jobsDays, now);
    forall sid ensures sid in BusySessions(jobs) <==> sid in BusySessions(t.jobs) {
      if sid in BusySessions(t.jobs) {
        var j :| j in t.jobs && Live(j) && j.session == Some(sid);
        assert j in jobs;
      }
    }
  }

  predicate Settled(t: Store, row: SessionRow, p: Policy, now: real, protected: set<Sid>) {
    && !Removes(row, p, now, protected)
    && !PrunesRaw(t, row, p, now, protected)
    && !Archives(t, row, p, now, protected)
  }

  lemma {:induction false} SettledRowsStay(t: Store, rows: seq<SessionRow>, p: Policy, now: real, protected: set<Sid>)
    requires forall row | row in rows :: Settled(t, row, p, now, protected)
    ensures RetainRows(t, rows, p, now, protected) == (t, Report(0, 0, 0, 0))
  {
    if rows != [] {
      var n := |rows| - 1;
      assert rows[n] in rows && forall row | row in rows[..n] :: row in rows;
      SettledRowsStay(t, rows[..n], p, now, protected);
    }
  }

  lemma AfterRunSettled(t: Store, p: Policy, now: real, r': SessionRow)
    requires r' in Retain(t, p, now).0.sessions
    ensures Settled(Retain(t, p, now).0, r', p, now, Protected(t))
  {
    var protected := Protected(t);
    RowsLeft(t, t.sessions, p, now, protected, r');
    var r :| r in t.sessions && LeftOf(r, r', now) && !Removes(r, p, now, protected);
    RetainRowsFiles(t, t.sessions, p, now, protected);
    var after := Retain(t, p, now).0;
    assert Removes(r', p, now, protected) == Removes(r, p, now, protected);
  }

  lemma PrunedJobsStay(jobs: seq<JobRow>, p: Policy, now: real)
    ensures PruneJobs(PruneJobs(jobs, p.jobsDays, now), p.jobsDays, now) == PruneJobs(jobs, p.jobsDays, now)
  {
    if p.jobsDays > 0 {
      var kept := Filter(jobs, KeptJob(p.jobsDays, now));
      forall i | 0 <= i < |kept| ensures KeptJob(p.jobsDays, now)(kept[i]) {
        assert kept[i] in kept;
      }
      FilterAll(kept, KeptJob(p.jobsDays, now));
    }
  }

  /** A second run at the same clock changes nothing and reports nothing. */
  lemma RetentionIsIdempotent(t: Store, p: Policy, now: real)
    ensures var after := Retain(t, p, now).0; Retain(after, p, now) == (after, Report(0, 0, 0, 0))
  {
    var after := Retain(t, p, now).0;
    ProtectionStays(t, p, now);
    forall r | r in after.sessions ensures Settled(after, r, p, now, Protected(after)) {
      AfterRunSettled(t, p, now, r);
    }
    SettledRowsStay(after, after.sessions, p, now, Protected(after));
    PrunedJobsStay(t.jobs, p, now);
    assert after.jobs == PruneJobs(t.jobs, p.jobsDays, now);
  }

  // ---------------------------------------------------------------- what a load returns

  /** Retention takes what was saved under `key`. */
  ghost predicate Pruned(t: Store, p: Policy, now: real, sid: Sid, key: Key) {
    exists row | row in t.sessions :: row.sid == sid && Takes(row, Primary(key), p, now, Protected(t))
  }

  /** What an operation makes of the frame last saved for the session under `key`. */
  ghost function NextSaved(t: Store, op: Op, sid: Sid, key: Key, before: Option<Frame>): Option<Frame> {
    if op.SaveOp? && op.sid == sid && op.key == key && sid in t.dirs then Some(op.frame)
    else if op.DeleteOp? && op.sid == sid then None
    else if op.RetainOp? && Pruned(t, op.policy, op.now, sid, key) then None
    else before
  }

  /** The frame last saved for the session under `key` and not deleted or pruned since. */
  ghost function LastSaved(ops: seq<Op>, sid: Sid, key: Key): Option<Frame> {
    if ops == [] then None
    else NextSaved(Run(ops[..|ops| - 1]), ops[|ops| - 1], sid, key, LastSaved(ops[..|ops| - 1], sid, key))
  }

  lemma RetainedFile(t: Store, p: Policy, now: real, sid: Sid, key: Key)
    ensures Uncached(Retain(t, p, now).0.files, sid, key)
         == if Pruned(t, p, now, sid, key) then None else Uncached(t.files, sid, key)
  {
    RetentionTakesExactly(t, p, now, sid, Primary(key));
    if Fallback(key).Some? {
      RetentionTakesExactly(t, p, now, sid, Fallback(key).value);
      assert Primary(key) in HeavyFiles() && Fallback(key).value in HeavyFiles();
      assert forall row ::
          Takes(row, Primary(key), p, now, Protected(t)) <==> Takes(row, Fallback(key).value, p, now, Protected(t));
    }
  }

  lemma SavedFile(t: Store, op: Op, sid: Sid, key: Key)
    requires op.SaveOp? && NoStaleFallback(t, op, key)
    ensures Uncached(Apply(t, op).files, sid, key)
         == if op.sid == sid && op.key == key && sid in t.dirs then Some(op.frame) else Uncached(t.files, sid, key)
  {
  }

  lemma FileStep(t: Store, op: Op, sid: Sid, key: Key)
    requires NoStaleFallback(t, op, key)
    ensures Uncached(Apply(t, op).files, sid, key) == NextSaved(t, op, sid, key, Uncached(t.files, sid, key))
  {
    match op
    case SaveOp(_, _, _, _) => SavedFile(t, op, sid, key);
    case RetainOp(p, now) => RetainedFile(t, p, now, sid, key);
    case _ =>
  }

  lemma {:induction false} FilesHoldLastSaved(ops: seq<Op>, sid: Sid, key: Key)
    requires NeverStale(ops, key)
    ensures Uncached(Run(ops).files, sid, key) == LastSaved(ops, sid, key)
  {
    if ops != [] {
      NeverStalePrefix(ops, key);
      FilesHoldLastSaved(ops[..|ops| - 1], sid, key);
      FileStep(Run(ops[..|ops| - 1]), ops[|ops| - 1], sid, key);
    }
  }

  /** After any run of creations, deletions, saves, loads, retentions and restarts, a load
      returns the frame last saved unless that was deleted or pruned since: always for the raw
      frame and the bundle, for the others if no save of them fell back beside a different
      parquet. */
  lemma LoadsReturnLastSaved(ops: seq<Op>, sid: Sid, key: Key)
    ensures key == Raw || key == Bundle || NeverStale(ops, key) ==>
              Loaded(Run(ops), sid, key) == LastSaved(ops, sid, key)
  {
    if key == Raw || key == Bundle || NeverStale(ops, key) {
      FilesHoldLastSaved(ops, sid, key);
      LoadsAreTrue(ops, sid, key);
    }
  }
}
