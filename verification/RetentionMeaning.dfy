/** Retention in plain terms: ages in seconds against limits in days, the protected sessions by
    their jobs and their opening times, and the exact rows, files and counters that one run
    leaves. */
module RetentionMeaning {
  import opened Prelude
  import opened JobTable
  import opened StoreModel
  import opened StoreTheorems
  import opened RetentionTheorems

  // ---------------------------------------------------------------- the plain terms

  /** Older than the limit; zero days and less are no limit. */
  ghost predicate Older(row: SessionRow, days: int, now: real) {
    days > 0 && now - row.createdAt > days as real * 86_400.0
  }

  /** When the session was opened last, or created if it never was. */
  ghost predicate UsedAt(r: SessionRow, at: real) {
    r.openedAt == Some(at) || (r.openedAt == None && r.createdAt == at)
  }

  /** Row `i` is analysed, no analysed row is used later and none before it at the same time. */
  ghost predicate UsedLast(rows: seq<SessionRow>, i: nat) {
    && i < |rows| && rows[i].analysed
    && forall k, a, b | 0 <= k < |rows| && rows[k].analysed && UsedAt(rows[k], a) && UsedAt(rows[i], b) ::
         a <= b && (k < i ==> a < b)
  }

  ghost predicate HasJob(jobs: seq<JobRow>, sid: Sid) {
    exists j | j in jobs :: j.session == Some(sid) && (j.status == Queued || j.status == Running)
  }

  ghost predicate IsUsedLast(rows: seq<SessionRow>, sid: Sid) {
    exists i: nat :: UsedLast(rows, i) && rows[i].sid == sid
  }

  /** A queued or running job works on the session, or it is the analysed one used last. */
  ghost predicate Spared(t: Store, sid: Sid) {
    HasJob(t.jobs, sid) || IsUsedLast(t.sessions, sid)
  }

  ghost predicate Goes(t: Store, p: Policy, now: real, row: SessionRow) {
    !Spared(t, row.sid) && Older(row, p.deleteDays, now)
  }

  ghost predicate LosesRaw(t: Store, p: Policy, now: real, row: SessionRow) {
    !Spared(t, row.sid) && !Older(row, p.deleteDays, now) && Older(row, p.rawDays, now) && (row.sid, RawPkl) in t.files
  }

  /** The session stays but what is saved of its analysis goes. */
  ghost predicate IsArchived(t: Store, p: Policy, now: real, row: SessionRow) {
    && !Spared(t, row.sid) && !Older(row, p.deleteDays, now) && Older(row, p.heavyDays, now)
    && row.archivedAt.None? && exists f: File :: f != RawPkl && (row.sid, f) in t.files
  }

  // ---------------------------------------------------------------- who is protected

  lemma {:induction false} LatestMeans(rows: seq<SessionRow>)
    ensures Latest(rows).None? ==> forall i | 0 <= i < |rows| :: !rows[i].analysed
    ensures Latest(rows).Some? ==>
              exists i: nat ::
                UsedLast(rows, i) && rows[i].sid == Latest(rows).value.0 && UsedAt(rows[i], Latest(rows).value.1)
  {
    if rows != [] {
      var n := |rows| - 1;
      LatestMeans(rows[..n]);
      assert UsedAt(rows[n], OpenedOrCreated(rows[n]));
      if Latest(rows) != Latest(rows[..n]) || Latest(rows[..n]).None? {
        if Latest(rows).Some? {
          assert UsedLast(rows, n);
        }
      } else {
        var i: nat :| UsedLast(rows[..n], i) && rows[i].sid == Latest(rows[..n]).value.0
                 && UsedAt(rows[i], Latest(rows[..n]).value.1);
        assert UsedLast(rows, i);
      }
    }
  }

  lemma OnlyOneUsedLast(rows: seq<SessionRow>, i: nat, j: nat)
    requires UsedLast(rows, i) && UsedLast(rows, j)
    ensures i == j
  {
    var a, b := OpenedOrCreated(rows[i]), OpenedOrCreated(rows[j]);
    assert UsedAt(rows[i], a) && UsedAt(rows[j], b);
  }

  lemma LatestIff(rows: seq<SessionRow>, sid: Sid)
    ensures (Latest(rows).Some? && Latest(rows).value.0 == sid) <==> IsUsedLast(rows, sid)
  {
    LatestMeans(rows);
    if IsUsedLast(rows, sid) {
      var i: nat :| UsedLast(rows, i) && rows[i].sid == sid;
      var k: nat :| UsedLast(rows, k) && rows[k].sid == Latest(rows).value.0;
      OnlyOneUsedLast(rows, i, k);
    }
  }

  lemma BusyIff(jobs: seq<JobRow>, sid: Sid)
    ensures sid in BusySessions(jobs) <==> HasJob(jobs, sid)
  {
    if sid in BusySessions(jobs) {
      var j :| j in jobs && Live(j) && j.session.Some? && j.session.value == sid;
      assert j.session == Some(sid);
    }
  }

  /** Retention protects exactly these sessions. */
  lemma ProtectedIff(t: Store, sid: Sid)
    ensures sid in Protected(t) <==> Spared(t, sid)
  {
    LatestIff(t.sessions, sid);
    BusyIff(t.jobs, sid);
  }

  // ---------------------------------------------------------------- which files go

  lemma OneRow(t: Store, row: SessionRow, sid: Sid)
    requires Sound(t) && row in t.sessions && row.sid == sid
    ensures forall other | other in t.sessions && other.sid == sid :: other == row
  {
    var i :| 0 <= i < |t.sessions| && t.sessions[i] == row;
    forall other | other in t.sessions && other.sid == sid ensures other == row {
      var j :| 0 <= j < |t.sessions| && t.sessions[j] == other;
    }
  }

  /** The raw file of a session goes once the session is too old for it or altogether, every
      other file once the session is too old for it and not archived yet or altogether; no
      other file goes and what stays keeps its contents. */
  lemma FileGoesIff(t: Store, p: Policy, now: real, row: SessionRow, f: File)
    requires Sound(t) && row in t.sessions && (row.sid, f) in t.files
    ensures var files := Retain(t, p, now).0.files;
            && ((row.sid, f) !in files <==>
                  && !Spared(t, row.sid)
                  && (|| Older(row, p.deleteDays, now)
                      || (f == RawPkl && Older(row, p.rawDays, now))
                      || (f != RawPkl && Older(row, p.heavyDays, now) && row.archivedAt == None)))
            && ((row.sid, f) in files ==> files[(row.sid, f)] == t.files[(row.sid, f)])
  {
    RetentionTakesExactly(t, p, now, row.sid, f);
    OneRow(t, row, row.sid);
    ProtectedIff(t, row.sid);
    assert f in HeavyFiles() <==> f != RawPkl;
  }

  /** Retention brings no file and touches none of a session it has no row of. */
  lemma OtherFilesStay(t: Store, p: Policy, now: real, sid: Sid, f: File)
    ensures (sid, f) in Retain(t, p, now).0.files ==> (sid, f) in t.files
    ensures (sid, f) in t.files && !HasRow(t, sid) ==> (sid, f) in Retain(t, p, now).0.files
  {
    RetentionTakesExactly(t, p, now, sid, f);
  }

  // ---------------------------------------------------------------- which rows go

  /** The row after the run. */
  ghost function After(t: Store, p: Policy, now: real): SessionRow -> SessionRow {
    (r: SessionRow) => if IsArchived(t, p, now, r) then r.(archivedAt := Some(now)) else r
  }

  ghost function Stays(t: Store, p: Policy, now: real): SessionRow -> bool {
    (r: SessionRow) => !Goes(t, p, now, r)
  }

  ghost function Going(t: Store, p: Policy, now: real): SessionRow -> bool {
    (r: SessionRow) => Goes(t, p, now, r)
  }

  ghost function LosingRaw(t: Store, p: Policy, now: real): SessionRow -> bool {
    (r: SessionRow) => LosesRaw(t, p, now, r)
  }

  ghost function Archiving(t: Store, p: Policy, now: real): SessionRow -> bool {
    (r: SessionRow) => IsArchived(t, p, now, r)
  }

  /** The rows once the first `n` of them are done. */
  ghost function Rows(t: Store, p: Policy, now: real, n: nat): seq<SessionRow>
    requires n <= |t.sessions|
  {
    Map(Filter(t.sessions[..n], Stays(t, p, now)), After(t, p, now)) + t.sessions[n..]
  }

  ghost function Counters(t: Store, p: Policy, now: real, n: nat): Report
    requires n <= |t.sessions|
  {
    var rows := t.sessions[..n];
    Report(Count(rows, LosingRaw(t, p, now)), Count(rows, Archiving(t, p, now)), Count(rows, Going(t, p, now)), 0)
  }

  lemma AllOthers(rows: seq<SessionRow>, sid: Sid)
    requires forall r | r in rows :: r.sid != sid
    ensures Filter(rows, RowOfOthers(sid)) == rows
  {
    forall i | 0 <= i < |rows| ensures RowOfOthers(sid)(rows[i]) {
      assert rows[i] in rows;
    }
    FilterAll(rows, RowOfOthers(sid));
  }

  lemma RowAmongOthers(done: seq<SessionRow>, row: SessionRow, rest: seq<SessionRow>)
    requires (forall r | r in done :: r.sid != row.sid) && forall r | r in rest :: r.sid != row.sid
    ensures Filter(done + [row] + rest, RowOfOthers(row.sid)) == done + rest
  {
    AllOthers(done, row.sid);
    AllOthers(rest, row.sid);
    FilterAppend(done, row, RowOfOthers(row.sid));
    assert done + [] == done;
    FilterConcat(done + [row], rest, RowOfOthers(row.sid));
  }

  lemma StampAmongOthers(done: seq<SessionRow>, row: SessionRow, rest: seq<SessionRow>, now: real)
    requires (forall r | r in done :: r.sid != row.sid) && forall r | r in rest :: r.sid != row.sid
    ensures Map(done + [row] + rest, Stamp(row.sid, now)) == done + [row.(archivedAt := Some(now))] + rest
  {
    var a, b := Map(done + [row] + rest, Stamp(row.sid, now)), done + [row.(archivedAt := Some(now))] + rest;
    assert |a| == |b|;
    forall i | 0 <= i < |b| ensures a[i] == b[i] {
      if i < |done| {
        assert done[i] in done;
      } else if i > |done| {
        assert rest[i - |done| - 1] in rest;
      }
    }
  }

  /** Row `n` is alone with its number among the rows done and the rows to come. */
  lemma Alone(t: Store, p: Policy, now: real, n: nat)
    requires Sound(t) && n < |t.sessions|
    ensures var done := Map(Filter(t.sessions[..n], Stays(t, p, now)), After(t, p, now));
            && Rows(t, p, now, n) == done + [t.sessions[n]] + t.sessions[n + 1..]
            && (forall r | r in done :: r.sid != t.sessions[n].sid)
            && forall r | r in t.sessions[n + 1..] :: r.sid != t.sessions[n].sid
  {
    var kept := Filter(t.sessions[..n], Stays(t, p, now));
    var done := Map(kept, After(t, p, now));
    assert t.sessions[n..] == [t.sessions[n]] + t.sessions[n + 1..];
    forall r | r in done ensures r.sid != t.sessions[n].sid {
      var i :| 0 <= i < |done| && done[i] == r;
      assert kept[i] in kept;
      var k :| 0 <= k < n && t.sessions[k] == kept[i];
    }
  }

  lemma RowsGrow(t: Store, p: Policy, now: real, n: nat)
    requires n < |t.sessions|
    ensures var done := Map(Filter(t.sessions[..n], Stays(t, p, now)), After(t, p, now)); var r := t.sessions[n];
            Rows(t, p, now, n + 1)
            == done + (if Goes(t, p, now, r) then [] else [After(t, p, now)(r)]) + t.sessions[n + 1..]
  {
    FilterStep(t.sessions, Stays(t, p, now), n);
    assert Map(Filter(t.sessions[..n + 1], Stays(t, p, now)), After(t, p, now))
        == Map(Filter(t.sessions[..n], Stays(t, p, now)), After(t, p, now))
           + if Goes(t, p, now, t.sessions[n]) then [] else [After(t, p, now)(t.sessions[n])];
  }

  /** When the loop comes to row `n`, its files are still those at the start. */
  lemma FilesUntilThen(t: Store, p: Policy, now: real, n: nat, f: File)
    requires Sound(t) && n < |t.sessions|
    ensures var x := RetainRows(t, t.sessions[..n], p, now, Protected(t)).0; var sid := t.sessions[n].sid;
            (sid, f) in x.files <==> (sid, f) in t.files
  {
    RetainRowsFiles(t, t.sessions[..n], p, now, Protected(t));
    assert forall r | r in t.sessions[..n] :: r.sid != t.sessions[n].sid;
  }

  /** What the row at hand decides is what it would have decided at the start. */
  lemma DecidedAtStart(t: Store, p: Policy, now: real, n: nat)
    requires Sound(t) && n < |t.sessions|
    ensures var x := RetainRows(t, t.sessions[..n], p, now, Protected(t)).0; var row := t.sessions[n];
            && (Removes(row, p, now, Protected(t)) <==> Goes(t, p, now, row))
            && (!Goes(t, p, now, row) ==>
                  && (PrunesRaw(x, row, p, now, Protected(t)) <==> LosesRaw(t, p, now, row))
                  && (Archives(PruneRaw(x, row, p, now, Protected(t)), row, p, now, Protected(t))
                      <==> IsArchived(t, p, now, row))
                  && (Archives(x, row, p, now, Protected(t)) <==> IsArchived(t, p, now, row)))
  {
    var x, row := RetainRows(t, t.sessions[..n], p, now, Protected(t)).0, t.sessions[n];
    ProtectedIff(t, row.sid);
    forall f ensures (row.sid, f) in x.files <==> (row.sid, f) in t.files {
      FilesUntilThen(t, p, now, n, f);
    }
    HeavyIff(x.files, t.files, row.sid);
    HeavyIff(PruneRaw(x, row, p, now, Protected(t)).files, t.files, row.sid);
  }

  lemma HeavyIff(a: map<(Sid, File), Frame>, b: map<(Sid, File), Frame>, sid: Sid)
    requires forall f: File | f != RawPkl :: (sid, f) in a <==> (sid, f) in b
    ensures HasHeavy(a, sid) <==> exists f: File :: f != RawPkl && (sid, f) in b
  {
    assert forall f: File :: f in HeavyFiles() <==> f != RawPkl;
    if f: File :| f != RawPkl && (sid, f) in b {
      assert f in HeavyFiles();
    }
  }

  lemma RowDone(t: Store, p: Policy, now: real, n: nat)
    requires Sound(t) && n < |t.sessions|
    requires RetainRows(t, t.sessions[..n], p, now, Protected(t)).0.sessions == Rows(t, p, now, n)
    ensures var x := RetainRows(t, t.sessions[..n], p, now, Protected(t)).0;
            RetainRow(x, t.sessions[n], p, now, Protected(t)).sessions == Rows(t, p, now, n + 1)
  {
    var row := t.sessions[n];
    var done := Map(Filter(t.sessions[..n], Stays(t, p, now)), After(t, p, now));
    var rest := t.sessions[n + 1..];
    Alone(t, p, now, n);
    RowsGrow(t, p, now, n);
    DecidedAtStart(t, p, now, n);
    RowAmongOthers(done, row, rest);
    StampAmongOthers(done, row, rest, now);
    assert done + [] == done;
  }

  lemma CountersGrow(t: Store, p: Policy, now: real, n: nat)
    requires n < |t.sessions|
    ensures var c, row := Counters(t, p, now, n), t.sessions[n];
            Counters(t, p, now, n + 1)
            == Report(c.rawPruned + (if LosesRaw(t, p, now, row) then 1 else 0),
                      c.archived + (if IsArchived(t, p, now, row) then 1 else 0),
                      c.deleted + (if Goes(t, p, now, row) then 1 else 0), 0)
  {
    assert t.sessions[..n + 1][..n] == t.sessions[..n];
  }

  lemma RowCounted(t: Store, p: Policy, now: real, n: nat)
    requires Sound(t) && n < |t.sessions|
    requires RetainRows(t, t.sessions[..n], p, now, Protected(t)).0.sessions == Rows(t, p, now, n)
    ensures CountRow(RetainRows(t, t.sessions[..n], p, now, Protected(t)).0, Counters(t, p, now, n), t.sessions[n],
                     p, now, Protected(t))
         == Counters(t, p, now, n + 1)
  {
    CountersGrow(t, p, now, n);
    DecidedAtStart(t, p, now, n);
    assert t.sessions[n..][0] == t.sessions[n];
    assert t.sessions[n] in Rows(t, p, now, n);
  }

  lemma {:induction false} RowsSoFar(t: Store, p: Policy, now: real, n: nat)
    requires Sound(t) && n <= |t.sessions|
    ensures RetainRows(t, t.sessions[..n], p, now, Protected(t)).0.sessions == Rows(t, p, now, n)
    ensures RetainRows(t, t.sessions[..n], p, now, Protected(t)).1 == Counters(t, p, now, n)
  {
    if n == 0 {
      assert t.sessions[0..] == t.sessions;
    } else {
      RowsSoFar(t, p, now, n - 1);
      assert t.sessions[..n][..n - 1] == t.sessions[..n - 1];
      RowDone(t, p, now, n - 1);
      RowCounted(t, p, now, n - 1);
    }
  }

  /** The rows after a run: those not gone, in their order, stamped if they were archived. */
  lemma RowsAfter(t: Store, p: Policy, now: real)
    requires Sound(t)
    ensures Retain(t, p, now).0.sessions == Map(Filter(t.sessions, Stays(t, p, now)), After(t, p, now))
  {
    RowsSoFar(t, p, now, |t.sessions|);
    assert t.sessions[..|t.sessions|] == t.sessions && t.sessions[|t.sessions|..] == [];
  }

  // ---------------------------------------------------------------- what is reported

  /** The report counts the raw files lost, the sessions archived, the sessions gone and the
      jobs gone. */
  lemma ReportMeans(t: Store, p: Policy, now: real)
    requires Sound(t)
    ensures var after, report := Retain(t, p, now).0, Retain(t, p, now).1;
            && report.rawPruned == Count(t.sessions, LosingRaw(t, p, now))
            && report.archived == Count(t.sessions, Archiving(t, p, now))
            && report.deleted == Count(t.sessions, Going(t, p, now)) == |t.sessions| - |after.sessions|
            && report.jobsPruned == |t.jobs| - |after.jobs|
  {
    RowsSoFar(t, p, now, |t.sessions|);
    RowsAfter(t, p, now);
    StayOrGo(t, t.sessions, p, now);
    assert t.sessions[..|t.sessions|] == t.sessions;
  }

  lemma {:induction false} StayOrGo(t: Store, rows: seq<SessionRow>, p: Policy, now: real)
    ensures |Filter(rows, Stays(t, p, now))| + Count(rows, Going(t, p, now)) == |rows|
  {
    if rows != [] {
      StayOrGo(t, rows[..|rows| - 1], p, now);
    }
  }

  /** A job row stays exactly if it is queued or running, there is no limit, or its last update
      is within the limit. */
  lemma JobStaysIff(t: Store, p: Policy, now: real, j: JobRow)
    ensures j in Retain(t, p, now).0.jobs <==>
              && j in t.jobs
              && (|| j.status == Queued || j.status == Running
                  || p.jobsDays <= 0 || now - j.updatedAt <= p.jobsDays as real * 86_400.0)
  {
  }

  // ---------------------------------------------------------------- what the limits promise

  /** A session younger than every limit in force keeps its row, its files and what is cached. */
  lemma {:induction false} YoungRowsStay(t: Store, rows: seq<SessionRow>, p: Policy, now: real, sid: Sid)
    requires forall r | r in rows && r.sid == sid ::
               !Older(r, p.deleteDays, now) && !Older(r, p.rawDays, now) && !Older(r, p.heavyDays, now)
    ensures SameSession(t, RetainRows(t, rows, p, now, Protected(t)).0, sid)
  {
    if rows != [] {
      var n := |rows| - 1;
      assert rows[n] in rows && forall r | r in rows[..n] :: r in rows;
      YoungRowsStay(t, rows[..n], p, now, sid);
      if rows[n].sid != sid {
        RetainRowLeaves(RetainRows(t, rows[..n], p, now, Protected(t)).0, rows[n], p, now, Protected(t), sid);
      }
    }
  }

  lemma YoungSessionsStay(t: Store, p: Policy, now: real, sid: Sid)
    requires forall r | r in t.sessions && r.sid == sid ::
               && (p.deleteDays <= 0 || now - r.createdAt <= p.deleteDays as real * 86_400.0)
               && (p.rawDays <= 0 || now - r.createdAt <= p.rawDays as real * 86_400.0)
               && (p.heavyDays <= 0 || now - r.createdAt <= p.heavyDays as real * 86_400.0)
    ensures SameSession(t, Retain(t, p, now).0, sid)
  {
    YoungRowsStay(t, t.sessions, p, now, sid);
  }

  /** Limit `b` is no stricter than `a`. */
  predicate Looser(a: int, b: int) {
    b <= 0 || (0 < a <= b)
  }

  /** Raising limits, or dropping them, takes no more away. */
  lemma LooserKeepsMore(t: Store, p: Policy, q: Policy, now: real, sid: Sid, f: File)
    requires Sound(t)
    requires Looser(p.rawDays, q.rawDays) && Looser(p.heavyDays, q.heavyDays) && Looser(p.deleteDays, q.deleteDays)
    ensures (sid, f) in Retain(t, p, now).0.files ==> (sid, f) in Retain(t, q, now).0.files
    ensures HasRow(Retain(t, p, now).0, sid) ==> HasRow(Retain(t, q, now).0, sid)
  {
    RetentionTakesExactly(t, p, now, sid, f);
    RetentionTakesExactly(t, q, now, sid, f);
    forall row ensures Takes(row, f, q, now, Protected(t)) ==> Takes(row, f, p, now, Protected(t)) {
      LooserIsDueLater(row, p.rawDays, q.rawDays, now);
      LooserIsDueLater(row, p.heavyDays, q.heavyDays, now);
      LooserIsDueLater(row, p.deleteDays, q.deleteDays, now);
    }
    if HasRow(Retain(t, p, now).0, sid) {
      var r :| r in Retain(t, p, now).0.sessions && r.sid == sid;
      RowsLeft(t, t.sessions, p, now, Protected(t), r);
      var row :| row in t.sessions && LeftOf(row, r, now) && !Removes(row, p, now, Protected(t));
      LooserIsDueLater(row, p.deleteDays, q.deleteDays, now);
      SessionSurvivesIff(t, q, now, row);
    }
  }

  lemma LooserIsDueLater(row: SessionRow, a: int, b: int, now: real)
    requires Looser(a, b)
    ensures Due(b, row, now) ==> Due(a, row, now)
  {
  }

  // ---------------------------------------------------------------- what analysing and opening do

  /** Opening dates the session and changes no other column or row; analysing marks it and makes
      it archivable again. */
  lemma OpenAndAnalyse(t: Store, sid: Sid, at: real, i: nat)
    requires i < |t.sessions|
    ensures var r, o, a := t.sessions[i], Apply(t, OpenOp(sid, at)), Apply(t, AnalyseOp(sid));
            && o == t.(sessions := o.sessions) && a == t.(sessions := a.sessions)
            && |o.sessions| == |a.sessions| == |t.sessions|
            && o.sessions[i] == (if r.sid == sid then r.(openedAt := Some(at)) else r)
            && a.sessions[i] == (if r.sid == sid then r.(analysed := true, archivedAt := None) else r)
  {
  }

  /** Opening an analysed session protects it, if no other was used at that time or later. */
  lemma OpeningProtects(t: Store, sid: Sid, at: real, i: nat)
    requires Sound(t) && i < |t.sessions| && t.sessions[i].sid == sid && t.sessions[i].analysed
    requires forall k, used | 0 <= k < |t.sessions| && k != i && UsedAt(t.sessions[k], used) :: used < at
    ensures Spared(Apply(t, OpenOp(sid, at)), sid)
  {
    var rows := Apply(t, OpenOp(sid, at)).sessions;
    forall k | 0 <= k < |rows|
      ensures rows[k] == if k == i then t.sessions[k].(openedAt := Some(at)) else t.sessions[k]
    {
      OpenAndAnalyse(t, sid, at, k);
    }
    assert UsedLast(rows, i);
  }
}
