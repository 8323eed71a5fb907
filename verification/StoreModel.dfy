/** The session store: session rows, jobs, one directory of files per session, and a small
    cache of frames in memory. Each operation is a function from one store to the next. */
module StoreModel {
  import opened Prelude
  import opened JobTable

  type Sid = string

  datatype Frame = Frame(content: string)

  /** What is saved for a session. The last two are the audit frames beside the clean frame. */
  datatype Key = Raw | Clean | Bundle | Returns | Exclusions

  datatype File =
    | RawPkl
    | CleanParquet
    | CleanPkl
    | BundlePkl
    | ReturnsParquet
    | ReturnsPkl
    | ExclusionsParquet
    | ExclusionsPkl

  datatype Entry = Entry(sid: Sid, key: Key, frame: Frame)

  datatype SessionRow = SessionRow(
    sid: Sid, createdAt: real, archivedAt: Option<real>, openedAt: Option<real>, analysed: bool)

  datatype Store = Store(
    dirs: set<Sid>,
    files: map<(Sid, File), Frame>,
    cache: seq<Entry>,
    sessions: seq<SessionRow>,
    jobs: seq<JobRow>)

  const CACHE_CAP: nat := 6

  // ---------------------------------------------------------------- files

  function Primary(key: Key): File {
    match key
    case Raw => RawPkl
    case Clean => CleanParquet
    case Bundle => BundlePkl
    case Returns => ReturnsParquet
    case Exclusions => ExclusionsParquet
  }

  /** The pickle a frame goes to when parquet refuses it. */
  function Fallback(key: Key): Option<File> {
    match key
    case Raw => None
    case Clean => Some(CleanPkl)
    case Bundle => None
    case Returns => Some(ReturnsPkl)
    case Exclusions => Some(ExclusionsPkl)
  }

  predicate IsCached(key: Key) {
    key in {Raw, Clean, Bundle}
  }

  /** What a store without a cache would load. */
  function Uncached(files: map<(Sid, File), Frame>, sid: Sid, key: Key): Option<Frame> {
    if (sid, Primary(key)) in files then Some(files[(sid, Primary(key))])
    else if Fallback(key).Some? && (sid, Fallback(key).value) in files then Some(files[(sid, Fallback(key).value)])
    else None
  }

  function Target(key: Key, parquetWorks: bool): File {
    if Fallback(key).Some? && !parquetWorks then Fallback(key).value else Primary(key)
  }

  // ---------------------------------------------------------------- the cache

  function Lookup(cache: seq<Entry>, sid: Sid, key: Key): Option<Frame> {
    if cache == [] then None
    else
      var e := cache[|cache| - 1];
      if e.sid == sid && e.key == key then Some(e.frame) else Lookup(cache[..|cache| - 1], sid, key)
  }

  predicate SameSlot(a: Entry, b: Entry) {
    a.sid == b.sid && a.key == b.key
  }

  /** Assignment to an insertion-ordered dictionary: an existing key keeps its place. */
  function Assign(cache: seq<Entry>, e: Entry): seq<Entry> {
    if Lookup(cache, e.sid, e.key).Some? then Map(cache, (x: Entry) => if SameSlot(x, e) then e else x)
    else cache + [e]
  }

  /** The oldest entries leave until the cap is met. */
  function Evict(cache: seq<Entry>): seq<Entry> {
    if |cache| > CACHE_CAP then Evict(cache[1..]) else cache
  }

  function Put(cache: seq<Entry>, e: Entry): seq<Entry> {
    Evict(Assign(cache, e))
  }

  function OfOthers(sid: Sid): Entry -> bool {
    (e: Entry) => e.sid != sid
  }

  function Drop(cache: seq<Entry>, sid: Sid): seq<Entry> {
    Filter(cache, OfOthers(sid))
  }

  // ---------------------------------------------------------------- saving and loading

  /** Writing into a directory that is gone fails and leaves everything as it was. */
  function Save(t: Store, sid: Sid, key: Key, frame: Frame, parquetWorks: bool): Store {
    if sid !in t.dirs then t
    else
      t.(files := t.files[(sid, Target(key, parquetWorks)) := frame],
         cache := if IsCached(key) then Put(t.cache, Entry(sid, key, frame)) else t.cache)
  }

  function Loaded(t: Store, sid: Sid, key: Key): Option<Frame> {
    var hit := if IsCached(key) then Lookup(t.cache, sid, key) else None;
    if hit.Some? then hit else Uncached(t.files, sid, key)
  }

  function Load(t: Store, sid: Sid, key: Key): Store {
    if !IsCached(key) || Lookup(t.cache, sid, key).Some? || Uncached(t.files, sid, key).None? then t
    else t.(cache := Put(t.cache, Entry(sid, key, Uncached(t.files, sid, key).value)))
  }

  function RowOfOthers(sid: Sid): SessionRow -> bool {
    (r: SessionRow) => r.sid != sid
  }

  function WithoutSid(files: map<(Sid, File), Frame>, sid: Sid): map<(Sid, File), Frame> {
    map k | k in files && k.0 != sid :: files[k]
  }

  predicate HasRow(t: Store, sid: Sid) {
    exists r | r in t.sessions :: r.sid == sid
  }

  function Create(t: Store, sid: Sid, now: real): Store {
    if HasRow(t, sid) then t
    else
      t.(dirs := t.dirs + {sid},
         sessions := t.sessions + [SessionRow(sid, now, None, None, false)])
  }

  function Delete(t: Store, sid: Sid): Store {
    t.(sessions := Filter(t.sessions, RowOfOthers(sid)),
       cache := Drop(t.cache, sid),
       files := WithoutSid(t.files, sid),
       dirs := t.dirs - {sid})
  }

  // ---------------------------------------------------------------- retention

  /** Zero days mean never. */
  datatype Policy = Policy(rawDays: int, heavyDays: int, deleteDays: int, jobsDays: int)

  datatype Report = Report(rawPruned: nat, archived: nat, deleted: nat, jobsPruned: nat)

  function HeavyFiles(): seq<File> {
    [CleanParquet, CleanPkl, BundlePkl, ReturnsParquet, ReturnsPkl, ExclusionsParquet, ExclusionsPkl]
  }

  predicate Due(days: int, row: SessionRow, now: real) {
    days > 0 && (now - row.createdAt) / DAY > days as real
  }

  /** The analysed session opened last, the earliest row among equals. */
  function Latest(rows: seq<SessionRow>): Option<(Sid, real)> {
    if rows == [] then None
    else
      var best, r := Latest(rows[..|rows| - 1]), rows[|rows| - 1];
      if r.analysed && (best.None? || OpenedOrCreated(r) > best.value.1) then Some((r.sid, OpenedOrCreated(r)))
      else best
  }

  function OpenedOrCreated(r: SessionRow): real {
    match r.openedAt case Some(at) => at case None => r.createdAt
  }

  function BusySessions(jobs: seq<JobRow>): set<Sid> {
    set j | j in jobs && Live(j) && j.session.Some? :: j.session.value
  }

  function Protected(t: Store): set<Sid> {
    BusySessions(t.jobs) + match Latest(t.sessions) { case Some(best) => {best.0} case None => {} }
  }

  predicate HasHeavy(files: map<(Sid, File), Frame>, sid: Sid) {
    exists f | f in HeavyFiles() :: (sid, f) in files
  }

  function WithoutHeavy(files: map<(Sid, File), Frame>, sid: Sid): map<(Sid, File), Frame> {
    map k | k in files && !(k.0 == sid && k.1 in HeavyFiles()) :: files[k]
  }

  function Stamp(sid: Sid, now: real): SessionRow -> SessionRow {
    (r: SessionRow) => if r.sid == sid then r.(archivedAt := Some(now)) else r
  }

  predicate Removes(row: SessionRow, p: Policy, now: real, protected: set<Sid>) {
    Due(p.deleteDays, row, now) && row.sid !in protected
  }

  predicate PrunesRaw(t: Store, row: SessionRow, p: Policy, now: real, protected: set<Sid>) {
    row.sid !in protected && Due(p.rawDays, row, now) && (row.sid, RawPkl) in t.files
  }

  predicate Archives(t: Store, row: SessionRow, p: Policy, now: real, protected: set<Sid>) {
    && row.sid !in protected && Due(p.heavyDays, row, now) && row.archivedAt.None?
    && HasHeavy(t.files, row.sid)
  }

  function PruneRaw(t: Store, row: SessionRow, p: Policy, now: real, protected: set<Sid>): Store {
    if PrunesRaw(t, row, p, now, protected) then
      t.(files := t.files - {(row.sid, RawPkl)}, cache := Drop(t.cache, row.sid))
    else t
  }

  function Archive(t: Store, row: SessionRow, p: Policy, now: real, protected: set<Sid>): Store {
    if Archives(t, row, p, now, protected) then
      t.(files := WithoutHeavy(t.files, row.sid), cache := Drop(t.cache, row.sid),
         sessions := Map(t.sessions, Stamp(row.sid, now)))
    else t
  }

  function RetainRow(t: Store, row: SessionRow, p: Policy, now: real, protected: set<Sid>): Store {
    if Removes(row, p, now, protected) then Delete(t, row.sid)
    else Archive(PruneRaw(t, row, p, now, protected), row, p, now, protected)
  }

  function CountRow(t: Store, c: Report, row: SessionRow, p: Policy, now: real, protected: set<Sid>): Report {
    if Removes(row, p, now, protected) then
      if HasRow(t, row.sid) then c.(deleted := c.deleted + 1) else c
    else
      c.(rawPruned := c.rawPruned + if PrunesRaw(t, row, p, now, protected) then 1 else 0,
         archived := c.archived + if Archives(t, row, p, now, protected) then 1 else 0)
  }

  function RetainRows(t: Store, rows: seq<SessionRow>, p: Policy, now: real, protected: set<Sid>): (Store, Report) {
    if rows == [] then (t, Report(0, 0, 0, 0))
    else
      var n := |rows| - 1;
      var before := RetainRows(t, rows[..n], p, now, protected);
      (RetainRow(before.0, rows[n], p, now, protected), CountRow(before.0, before.1, rows[n], p, now, protected))
  }

  function Retain(t: Store, p: Policy, now: real): (Store, Report) {
    var r := RetainRows(t, t.sessions, p, now, Protected(t));
    var jobs := PruneJobs(t.jobs, p.jobsDays, now);
    (r.0.(jobs := jobs), r.1.(jobsPruned := |t.jobs| - |jobs|))
  }

  // ---------------------------------------------------------------- runs

  datatype Op =
    | CreateOp(sid: Sid, now: real)
    | DeleteOp(sid: Sid)
    | SaveOp(sid: Sid, key: Key, frame: Frame, parquetWorks: bool)
    | LoadOp(sid: Sid, key: Key)
    | RetainOp(policy: Policy, now: real)
    /** The process ends; the cache is lost. */
    | RestartOp
    | AnalyseOp(sid: Sid)
    | OpenOp(sid: Sid, at: real)
    /** Jobs start, move on and end. */
    | JobsOp(jobs: seq<JobRow>)

  /** A fresh analysis brings the heavy files back, so the archive stamp goes. */
  function Analysed(sid: Sid): SessionRow -> SessionRow {
    (r: SessionRow) => if r.sid == sid then r.(analysed := true, archivedAt := None) else r
  }

  function Opened(sid: Sid, at: real): SessionRow -> SessionRow {
    (r: SessionRow) => if r.sid == sid then r.(openedAt := Some(at)) else r
  }

  function Apply(t: Store, op: Op): Store {
    match op
    case CreateOp(sid, now) => Create(t, sid, now)
    case DeleteOp(sid) => Delete(t, sid)
    case SaveOp(sid, key, frame, works) => Save(t, sid, key, frame, works)
    case LoadOp(sid, key) => Load(t, sid, key)
    case RetainOp(policy, now) => Retain(t, policy, now).0
    case RestartOp => t.(cache := [])
    case AnalyseOp(sid) => t.(sessions := Map(t.sessions, Analysed(sid)))
    case OpenOp(sid, at) => t.(sessions := Map(t.sessions, Opened(sid, at)))
    case JobsOp(jobs) => t.(jobs := jobs)
  }

  function Empty(): Store {
    Store({}, map[], [], [], [])
  }

  function Run(ops: seq<Op>): Store {
    if ops == [] then Empty() else Apply(Run(ops[..|ops| - 1]), ops[|ops| - 1])
  }
}
