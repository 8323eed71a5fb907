/** The store as the server keeps it: fields changed in place by each request. Every method
    takes the state one step of StoreModel further. */
module SessionStore {
  import opened Prelude
  import opened JobTable
  import opened StoreModel

  class PersistentStore {
    var dirs: set<Sid>
    var files: map<(Sid, File), Frame>
    var frameCache: seq<Entry>
    var sessions: seq<SessionRow>
    var jobs: seq<JobRow>

    ghost function State(): Store
      reads this
    {
      Store(dirs, files, frameCache, sessions, jobs)
    }

    constructor ()
      ensures State() == Empty()
    {
      dirs, files, frameCache, sessions, jobs := {}, map[], [], [], [];
    }

    // ---------------------------------------------------------------- the frame cache

    method CachePut(sid: Sid, key: Key, value: Frame)
      modifies this`frameCache
      ensures frameCache == Put(old(frameCache), Entry(sid, key, value))
    {
      var e := Entry(sid, key, value);
      frameCache := Assign(frameCache, e);
      while |frameCache| > CACHE_CAP
        invariant Evict(frameCache) == Put(old(frameCache), e)
      {
        frameCache := frameCache[1..];
      }
    }

    method CacheGet(sid: Sid, key: Key) returns (value: Option<Frame>)
      ensures value == Lookup(frameCache, sid, key)
    {
      value := None;
      assert frameCache[..|frameCache|] == frameCache;
      for i := |frameCache| downto 0
        invariant Lookup(frameCache, sid, key) == Lookup(frameCache[..i], sid, key)
      {
        assert frameCache[..i + 1][..i] == frameCache[..i];
        var e := frameCache[i];
        if e.sid == sid && e.key == key {
          return Some(e.frame);
        }
      }
    }

    method CacheDrop(sid: Sid)
      modifies this`frameCache
      ensures frameCache == Drop(old(frameCache), sid)
    {
      var was := frameCache;
      var kept: seq<Entry> := [];
      for i := 0 to |was|
        invariant kept == Drop(was[..i], sid)
      {
        FilterStep(was, OfOthers(sid), i);
        if was[i].sid != sid {
          kept := kept + [was[i]];
        } else {
          assert kept + [] == kept;
        }
      }
      assert was[..|was|] == was;
      frameCache := kept;
    }

    // ---------------------------------------------------------------- sessions

    method CreateSession(sid: Sid, now: real)
      modifies this
      ensures State() == Create(old(State()), sid, now)
    {
      if exists r | r in sessions :: r.sid == sid {
        return;
      }
      dirs := dirs + {sid};
      sessions := sessions + [SessionRow(sid, now, None, None, false)];
    }

    method DeleteSession(sid: Sid) returns (existed: bool)
      modifies this
      ensures State() == Delete(old(State()), sid)
      ensures existed == HasRow(old(State()), sid)
    {
      existed := exists r | r in sessions :: r.sid == sid;
      sessions := Filter(sessions, RowOfOthers(sid));
      CacheDrop(sid);
      files := WithoutSid(files, sid);
      dirs := dirs - {sid};
    }

    // ---------------------------------------------------------------- frames

    method SaveRaw(sid: Sid, df: Frame) returns (ok: bool)
      modifies this
      ensures State() == Save(old(State()), sid, Raw, df, true) && ok == (sid in old(dirs))
    {
      if sid !in dirs {
        return false;
      }
      files := files[(sid, RawPkl) := df];
      CachePut(sid, Raw, df);
      ok := true;
    }

    method LoadRaw(sid: Sid) returns (df: Option<Frame>)
      modifies this
      ensures State() == Load(old(State()), sid, Raw) && df == Loaded(old(State()), sid, Raw)
    {
      df := CacheGet(sid, Raw);
      if df.Some? || (sid, RawPkl) !in files {
        return;
      }
      df := Some(files[(sid, RawPkl)]);
      CachePut(sid, Raw, df.value);
    }

    method SaveClean(sid: Sid, df: Frame, parquetWorks: bool) returns (ok: bool)
      modifies this
      ensures State() == Save(old(State()), sid, Clean, df, parquetWorks) && ok == (sid in old(dirs))
    {
      if sid !in dirs {
        return false;
      }
      if parquetWorks {
        files := files[(sid, CleanParquet) := df];
      } else {
        files := files[(sid, CleanPkl) := df];
      }
      CachePut(sid, Clean, df);
      ok := true;
    }

    method LoadClean(sid: Sid) returns (df: Option<Frame>)
      modifies this
      ensures State() == Load(old(State()), sid, Clean) && df == Loaded(old(State()), sid, Clean)
    {
      df := CacheGet(sid, Clean);
      if df.Some? {
        return;
      }
      if (sid, CleanParquet) in files {
        df := Some(files[(sid, CleanParquet)]);
      } else if (sid, CleanPkl) in files {
        df := Some(files[(sid, CleanPkl)]);
      } else {
        return;
      }
      CachePut(sid, Clean, df.value);
    }

    method SaveSideFrame(sid: Sid, key: Key, df: Frame, parquetWorks: bool) returns (ok: bool)
      requires key == Returns || key == Exclusions
      modifies this
      ensures State() == Save(old(State()), sid, key, df, parquetWorks) && ok == (sid in old(dirs))
    {
      if sid !in dirs {
        return false;
      }
      files := files[(sid, if parquetWorks then Primary(key) else Fallback(key).value) := df];
      ok := true;
    }

    method LoadSideFrame(sid: Sid, key: Key) returns (df: Option<Frame>)
      requires key == Returns || key == Exclusions
      ensures df == Loaded(State(), sid, key)
    {
      if (sid, Primary(key)) in files {
        return Some(files[(sid, Primary(key))]);
      }
      if (sid, Fallback(key).value) in files {
        return Some(files[(sid, Fallback(key).value)]);
      }
      df := None;
    }

    method SaveBundle(sid: Sid, bundle: Frame) returns (ok: bool)
      modifies this
      ensures State() == Save(old(State()), sid, Bundle, bundle, true) && ok == (sid in old(dirs))
    {
      if sid !in dirs {
        return false;
      }
      files := files[(sid, BundlePkl) := bundle];
      CachePut(sid, Bundle, bundle);
      ok := true;
    }

    method LoadBundle(sid: Sid) returns (bundle: Option<Frame>)
      modifies this
      ensures State() == Load(old(State()), sid, Bundle) && bundle == Loaded(old(State()), sid, Bundle)
    {
      bundle := CacheGet(sid, Bundle);
      if bundle.Some? || (sid, BundlePkl) !in files {
        return;
      }
      bundle := Some(files[(sid, BundlePkl)]);
      CachePut(sid, Bundle, bundle.value);
    }

    // ---------------------------------------------------------------- retention

    method LatestSessionWithAnalysis() returns (latest: Option<(Sid, real)>)
      ensures latest == Latest(sessions)
    {
      latest := None;
      for i := 0 to |sessions|
        invariant latest == Latest(sessions[..i])
      {
        assert sessions[..i + 1][..i] == sessions[..i];
        var r := sessions[i];
        if r.analysed && (latest.None? || OpenedOrCreated(r) > latest.value.1) {
          latest := Some((r.sid, OpenedOrCreated(r)));
        }
      }
      assert sessions[..|sessions|] == sessions;
    }

    /** Unlinks the heavy files one by one and says whether there was any. */
    method UnlinkHeavy(sid: Sid) returns (removed: bool)
      modifies this`files
      ensures files == WithoutHeavy(old(files), sid)
      ensures removed == HasHeavy(old(files), sid)
    {
      removed := false;
      var names := HeavyFiles();
      for i := 0 to |names|
        invariant files == map k | k in old(files) && !(k.0 == sid && k.1 in names[..i]) :: old(files)[k]
        invariant removed == exists f | f in names[..i] :: (sid, f) in old(files)
      {
        var f := names[i];
        assert f !in names[..i];
        assert names[..i + 1] == names[..i] + [f];
        if (sid, f) in files {
          files := files - {(sid, f)};
          removed := true;
        }
      }
      assert names[..|names|] == names;
    }

    method RetainSession(row: SessionRow, p: Policy, now: real, protected: set<Sid>, counts: Report)
        returns (result: Report)
      modifies this
      ensures State() == RetainRow(old(State()), row, p, now, protected)
      ensures result == CountRow(old(State()), counts, row, p, now, protected)
    {
      result := counts;
      var sid := row.sid;
      if Due(p.deleteDays, row, now) && sid !in protected {
        var existed := DeleteSession(sid);
        if existed {
          result := result.(deleted := result.deleted + 1);
        }
        return;
      }
      if sid in protected {
        return;
      }
      if Due(p.rawDays, row, now) && (sid, RawPkl) in files {
        files := files - {(sid, RawPkl)};
        CacheDrop(sid);
        result := result.(rawPruned := result.rawPruned + 1);
      }
      assert State() == PruneRaw(old(State()), row, p, now, protected);
      RawIsNotHeavy(old(files), sid);
      if Due(p.heavyDays, row, now) && row.archivedAt.None? {
        var removed := UnlinkHeavy(sid);
        if removed {
          CacheDrop(sid);
          sessions := Map(sessions, Stamp(sid, now));
          result := result.(archived := result.archived + 1);
        }
      }
    }

    method RetainSessions(p: Policy, now: real, protected: set<Sid>) returns (result: Report)
      modifies this
      ensures (State(), result) == RetainRows(old(State()), old(sessions), p, now, protected)
      ensures jobs == old(jobs)
    {
      var rows := sessions;
      result := Report(0, 0, 0, 0);
      for i := 0 to |rows|
        invariant (State(), result) == RetainRows(old(State()), rows[..i], p, now, protected)
        invariant jobs == old(jobs)
      {
        assert rows[..i + 1][..i] == rows[..i];
        result := RetainSession(rows[i], p, now, protected, result);
      }
      assert rows[..|rows|] == rows;
    }

    method RunRetention(p: Policy, now: real) returns (result: Report)
      modifies this
      ensures (State(), result) == Retain(old(State()), p, now)
    {
      var latest := LatestSessionWithAnalysis();
      var protected := BusySessions(jobs) + match latest { case Some(best) => {best.0} case None => {} };
      result := RetainSessions(p, now, protected);
      var kept := PruneJobs(jobs, p.jobsDays, now);
      result := result.(jobsPruned := |jobs| - |kept|);
      jobs := kept;
    }
  }

  /** Archiving after the raw file went sees the same archive-worthy files. */
  lemma RawIsNotHeavy(files: map<(Sid, File), Frame>, sid: Sid)
    ensures HasHeavy(files - {(sid, RawPkl)}, sid) == HasHeavy(files, sid)
  {
    assert RawPkl !in HeavyFiles();
  }
}
