/** The daily reminder scan over the outbox: dedupe, gate, claim, then send. The process may
    die between any two of its steps; what was written to the outbox stays. Scans are
    serialised and the clock does not go back. */
module CycleScan {
  import opened Prelude

  type Customer = string

  const DAY := 86_400
  const DEDUPE_DAYS := 7
  const WINDOW := DEDUPE_DAYS * DAY

  datatype RowStatus = Ready | InFlight | Reported

  /** An outbox row. `batch` is the ordinal of the scan that wrote it; the table does not store it. */
  datatype Row = Row(cycle: bool, customer: Customer, createdAt: int, status: RowStatus, dryRun: bool, batch: nat)

  /** A message handed to the SMS panel for the outbox row `row`. */
  datatype Delivery = Delivery(row: nat, customer: Customer, at: int)

  datatype Phase = Deduping | Screening | Claiming | Sending | Reporting
  datatype Scan = Scan(forReal: bool, audience: seq<Customer>, phase: Phase, next: nat,
                       due: seq<Customer>, claimed: seq<nat>)

  datatype Sys = Sys(outbox: seq<Row>, delivered: seq<Delivery>, clock: int, scans: nat, scan: Option<Scan>)

  const START := Sys([], [], 0, 0, None)

  /** `outbox_exists_recent`: a reminder row, previews included, younger than the window. */
  predicate ExistsRecent(outbox: seq<Row>, c: Customer, now: int) {
    exists r | r in outbox :: r.cycle && r.customer == c && r.createdAt > now - WINDOW
  }

  /** `barred` is what the gate blocks when it is read; `reachable` has a phone number. */
  datatype Action =
    | Tick(seconds: nat)
    | Begin(forReal: bool, audience: seq<Customer>)
    | Work(barred: set<Customer>, reachable: set<Customer>)
    | Crash
    | OtherRow(customer: Customer, dryRun: bool)

  function ClaimRow(s: Sys, w: Scan, c: Customer): Row {
    Row(true, c, s.clock, if w.forReal then InFlight else Ready, !w.forReal, s.scans)
  }

  /** One step of the running scan. */
  function WorkStep(s: Sys, w: Scan, barred: set<Customer>, reachable: set<Customer>): Sys {
    match w.phase
    case Deduping =>
      if w.next < |w.audience| then
        var c := w.audience[w.next];
        s.(scan := Some(w.(next := w.next + 1,
                           due := if ExistsRecent(s.outbox, c, s.clock) then w.due else w.due + [c])))
      else s.(scan := Some(w.(phase := Screening)))
    case Screening =>
      s.(scan := Some(w.(phase := Claiming, next := 0, due := Filter(w.due, c => c !in barred))))
    case Claiming =>
      if w.next < |w.due| then
        s.(outbox := s.outbox + [ClaimRow(s, w, w.due[w.next])],
           scan := Some(w.(next := w.next + 1, claimed := w.claimed + [|s.outbox|])))
      else if w.forReal && w.due != [] then s.(scan := Some(w.(phase := Sending, next := 0)))
      else s.(scan := None)
    case Sending =>
      if w.next < |w.due| && w.next < |w.claimed| then
        var c := w.due[w.next];
        s.(delivered := s.delivered + if c in reachable then [Delivery(w.claimed[w.next], c, s.clock)] else [],
           scan := Some(w.(next := w.next + 1)))
      else s.(scan := Some(w.(phase := Reporting, next := 0)))
    case Reporting =>
      if w.next < |w.claimed| && w.claimed[w.next] < |s.outbox| then
        var i := w.claimed[w.next];
        s.(outbox := s.outbox[i := s.outbox[i].(status := Reported)], scan := Some(w.(next := w.next + 1)))
      else s.(scan := None)
  }

  function Step(s: Sys, a: Action): Sys {
    match a
    case Tick(seconds) => s.(clock := s.clock + seconds)
    case Begin(forReal, audience) =>
      if s.scan.Some? then s
      else s.(scans := s.scans + 1, scan := Some(Scan(forReal, audience, Deduping, 0, [], [])))
    case Work(barred, reachable) => if s.scan.None? then s else WorkStep(s, s.scan.value, barred, reachable)
    case Crash => s.(scan := None)
    case OtherRow(c, dryRun) => s.(outbox := s.outbox + [Row(false, c, s.clock, Reported, dryRun, 0)])
  }

  function Run(actions: seq<Action>): Sys {
    if actions == [] then START else Step(Run(actions[..|actions| - 1]), actions[|actions| - 1])
  }

  // ---------------------------------------------------------------- the invariant

  predicate SameReminder(a: Row, b: Row) {
    a.cycle && b.cycle && a.customer == b.customer
  }

  /** Reminders of different scans to one customer are a window apart. */
  ghost predicate Spaced(outbox: seq<Row>) {
    forall i, j | 0 <= i < j < |outbox| && SameReminder(outbox[i], outbox[j]) && outbox[i].batch != outbox[j].batch ::
      outbox[j].createdAt - outbox[i].createdAt >= WINDOW
  }

  /** No reminder of another scan to `c` within the window that ends at `now`. */
  ghost predicate Quiet(s: Sys, c: Customer) {
    forall r | r in s.outbox && r.cycle && r.customer == c && r.batch != s.scans :: s.clock - r.createdAt >= WINDOW
  }

  /** Row `row` is the claim of this scan for `c`. */
  predicate IsClaim(s: Sys, w: Scan, row: nat, c: Customer) {
    row < |s.outbox| && s.outbox[row].(status := Ready)
      == Row(true, c, s.outbox[row].createdAt, Ready, !w.forReal, s.scans)
  }

  /** How many rows this scan has claimed. */
  function ClaimCount(w: Scan): nat {
    match w.phase
    case Deduping => 0
    case Screening => 0
    case Claiming => w.next
    case Sending => |w.due|
    case Reporting => |w.due|
  }

  ghost predicate ScanOk(s: Sys, w: Scan) {
    && (w.phase.Deduping? ==> w.next <= |w.audience|)
    && (forall c | c in w.due :: c in w.audience)
    && (w.phase.Deduping? ==> forall c | c in w.due :: c in w.audience[..w.next])
    && (Distinct(w.audience) ==> Distinct(w.due))
    && (w.phase.Deduping? || w.phase.Screening? || w.phase.Claiming? ==> forall c | c in w.due :: Quiet(s, c))
    && |w.claimed| == ClaimCount(w) <= |w.due|
    && (forall i | 0 <= i < |w.claimed| :: IsClaim(s, w, w.claimed[i], w.due[i]))
    && (forall i, j | 0 <= i < j < |w.claimed| :: w.claimed[i] < w.claimed[j])
    && (w.phase.Sending? || w.phase.Reporting? ==> w.forReal)
  }

  /** Rows of the current scan are its claims, and none of those still to send is delivered. */
  ghost predicate BatchOk(s: Sys) {
    forall j | 0 <= j < |s.outbox| && s.outbox[j].cycle && s.outbox[j].batch == s.scans ::
      s.scan.Some? ==> j in s.scan.value.claimed
  }

  ghost predicate UnsentOk(s: Sys) {
    forall d | d in s.delivered && s.scan.Some? :: var w := s.scan.value;
      (w.phase.Deduping? || w.phase.Screening? || w.phase.Claiming? ==> d.row !in w.claimed)
      && (w.phase.Sending? ==> forall i | w.next <= i < |w.claimed| :: d.row != w.claimed[i])
  }

  /** Every delivery has its real outbox row, claimed no later. */
  ghost predicate Backed(s: Sys, d: Delivery) {
    && d.row < |s.outbox|
    && var r := s.outbox[d.row];
       r.cycle && !r.dryRun && r.customer == d.customer && r.createdAt <= d.at <= s.clock
  }

  ghost predicate Inv(s: Sys) {
    && Spaced(s.outbox)
    && (forall r | r in s.outbox :: r.createdAt <= s.clock && r.batch <= s.scans)
    && (forall d | d in s.delivered :: Backed(s, d))
    && (forall i, j | 0 <= i < j < |s.delivered| :: s.delivered[i].row != s.delivered[j].row)
    && (s.scan.Some? ==> ScanOk(s, s.scan.value))
    && BatchOk(s) && UnsentOk(s)
  }

  // ---------------------------------------------------------------- every step keeps it

  lemma FilterKeepsDistinct(w: Scan, barred: set<Customer>)
    ensures Distinct(w.due) ==> Distinct(Filter(w.due, c => c !in barred))
  {
    if Distinct(w.due) {
      FilterDistinct(w.due, c => c !in barred);
    }
  }

  /** A customer that passes the dedupe has no reminder of any scan in the window. */
  lemma DedupeScanOk(s: Sys, w: Scan, c: Customer)
    requires ScanOk(s, w) && w.phase.Deduping? && w.next < |w.audience| && c == w.audience[w.next]
    requires !ExistsRecent(s.outbox, c, s.clock)
    ensures var v := w.(next := w.next + 1, due := w.due + [c]); ScanOk(s.(scan := Some(v)), v)
  {
    var v := w.(next := w.next + 1, due := w.due + [c]);
    var t := s.(scan := Some(v));
    assert v.audience[..v.next] == w.audience[..w.next] + [c];
    if Distinct(w.audience) {
      assert forall i | 0 <= i < w.next :: w.audience[i] != c;
      assert forall i | 0 <= i < |w.due| :: w.due[i] in w.audience[..w.next];
    }
    forall c' | c' in v.due ensures Quiet(t, c') && c' in v.audience && c' in v.audience[..v.next] {
      if c' in w.due {
        assert Quiet(s, c');
      }
    }
  }

  lemma DedupeSkips(s: Sys, w: Scan)
    requires ScanOk(s, w) && w.phase.Deduping?
    ensures w.next < |w.audience| ==>
              var v := w.(next := w.next + 1); ScanOk(s.(scan := Some(v)), v)
    ensures var v := w.(phase := Screening); ScanOk(s.(scan := Some(v)), v)
  {
    forall c | c in w.due ensures Quiet(s.(scan := None), c) {
      assert Quiet(s, c);
    }
    if w.next < |w.audience| {
      assert w.audience[..w.next + 1] == w.audience[..w.next] + [w.audience[w.next]];
    }
  }

  lemma DedupeKeeps(s: Sys, w: Scan, barred: set<Customer>, reachable: set<Customer>)
    requires Inv(s) && s.scan == Some(w) && w.phase.Deduping?
    ensures Inv(WorkStep(s, w, barred, reachable))
  {
    DedupeSkips(s, w);
    if w.next < |w.audience| && !ExistsRecent(s.outbox, w.audience[w.next], s.clock) {
      DedupeScanOk(s, w, w.audience[w.next]);
    }
    assert forall d | d in s.delivered :: Backed(s, d);
  }

  lemma ScreenKeeps(s: Sys, w: Scan, barred: set<Customer>, reachable: set<Customer>)
    requires Inv(s) && s.scan == Some(w) && w.phase.Screening?
    ensures Inv(WorkStep(s, w, barred, reachable))
  {
    var t := WorkStep(s, w, barred, reachable);
    FilterKeepsDistinct(w, barred);
    forall c | c in t.scan.value.due ensures Quiet(t, c) {
      assert Quiet(s, c);
    }
  }

  lemma ClaimSpaced(s: Sys, c: Customer, r: Row)
    requires Spaced(s.outbox) && Quiet(s, c) && r.customer == c && r.batch == s.scans && r.createdAt == s.clock
    ensures Spaced(s.outbox + [r])
  {
    var outbox := s.outbox + [r];
    forall i, j | 0 <= i < j < |outbox| && SameReminder(outbox[i], outbox[j]) && outbox[i].batch != outbox[j].batch
      ensures outbox[j].createdAt - outbox[i].createdAt >= WINDOW
    {
      assert outbox[i] in s.outbox;
    }
  }

  lemma ClaimScanOk(s: Sys, w: Scan, c: Customer)
    requires ScanOk(s, w) && w.phase.Claiming? && w.next < |w.due| && c == w.due[w.next]
    ensures var v := w.(next := w.next + 1, claimed := w.claimed + [|s.outbox|]);
            ScanOk(s.(outbox := s.outbox + [ClaimRow(s, w, c)], scan := Some(v)), v)
  {
    var v := w.(next := w.next + 1, claimed := w.claimed + [|s.outbox|]);
    var t := s.(outbox := s.outbox + [ClaimRow(s, w, c)], scan := Some(v));
    forall c' | c' in v.due ensures Quiet(t, c') {
      assert Quiet(s, c');
    }
    assert forall i | 0 <= i < w.next :: IsClaim(s, w, w.claimed[i], w.due[i]);
    assert forall i | 0 <= i < |v.claimed| :: IsClaim(t, v, v.claimed[i], v.due[i]);
  }

  lemma ClaimRest(s: Sys, w: Scan, c: Customer)
    requires Inv(s) && s.scan == Some(w) && w.phase.Claiming? && w.next < |w.due|
    ensures var v := w.(next := w.next + 1, claimed := w.claimed + [|s.outbox|]);
            var t := s.(outbox := s.outbox + [ClaimRow(s, w, c)], scan := Some(v));
            BatchOk(t) && UnsentOk(t) && forall d | d in t.delivered :: Backed(t, d)
  {
    var v := w.(next := w.next + 1, claimed := w.claimed + [|s.outbox|]);
    var t := s.(outbox := s.outbox + [ClaimRow(s, w, c)], scan := Some(v));
    forall d | d in t.delivered ensures Backed(t, d) && d.row !in v.claimed {
      assert Backed(s, d);
    }
    assert forall j :: j in v.claimed <==> j in w.claimed || j == |s.outbox|;
  }

  lemma ClaimNextKeeps(s: Sys, w: Scan)
    requires Inv(s) && s.scan == Some(w) && w.phase.Claiming? && w.next < |w.due|
    ensures var v := w.(next := w.next + 1, claimed := w.claimed + [|s.outbox|]);
            Inv(s.(outbox := s.outbox + [ClaimRow(s, w, w.due[w.next])], scan := Some(v)))
  {
    var c := w.due[w.next];
    assert c in w.due;
    ClaimSpaced(s, c, ClaimRow(s, w, c));
    ClaimScanOk(s, w, c);
    ClaimRest(s, w, c);
  }

  lemma SendStartKeeps(s: Sys, w: Scan)
    requires Inv(s) && s.scan == Some(w) && w.phase.Claiming? && w.next == |w.due| && w.forReal
    ensures Inv(s.(scan := Some(w.(phase := Sending, next := 0))))
  {
    assert forall i | 0 <= i < |w.claimed| :: IsClaim(s, w, w.claimed[i], w.due[i]);
    assert forall d | d in s.delivered :: Backed(s, d);
  }

  lemma EndKeeps(s: Sys)
    requires Inv(s)
    ensures Inv(s.(scan := None))
  {
    assert forall d | d in s.delivered :: Backed(s, d);
  }

  lemma ClaimKeeps(s: Sys, w: Scan, barred: set<Customer>, reachable: set<Customer>)
    requires Inv(s) && s.scan == Some(w) && w.phase.Claiming?
    ensures Inv(WorkStep(s, w, barred, reachable))
  {
    if w.next < |w.due| {
      ClaimNextKeeps(s, w);
    } else if w.forReal && w.due != [] {
      SendStartKeeps(s, w);
    } else {
      EndKeeps(s);
    }
  }

  lemma SendScanOk(s: Sys, w: Scan, delivered: seq<Delivery>)
    requires ScanOk(s, w) && w.phase.Sending?
    ensures var v := w.(next := w.next + 1); ScanOk(s.(delivered := delivered, scan := Some(v)), v)
    ensures var v := w.(phase := Reporting, next := 0); ScanOk(s.(scan := Some(v)), v)
  {
    assert forall i | 0 <= i < |w.claimed| :: IsClaim(s, w, w.claimed[i], w.due[i]);
  }

  lemma SendRest(s: Sys, w: Scan, d: Delivery)
    requires Inv(s) && s.scan == Some(w) && w.phase.Sending? && w.next < |w.due|
    requires d == Delivery(w.claimed[w.next], w.due[w.next], s.clock)
    ensures var t := s.(delivered := s.delivered + [d], scan := Some(w.(next := w.next + 1)));
            && UnsentOk(t) && (forall e | e in t.delivered :: Backed(t, e))
            && forall i, j | 0 <= i < j < |t.delivered| :: t.delivered[i].row != t.delivered[j].row
  {
    var t := s.(delivered := s.delivered + [d], scan := Some(w.(next := w.next + 1)));
    assert IsClaim(s, w, w.claimed[w.next], w.due[w.next]);
    assert s.outbox[w.claimed[w.next]] in s.outbox;
    assert Backed(t, d);
    forall e | e in s.delivered ensures Backed(t, e) && e.row != d.row {
      assert Backed(s, e);
    }
    forall i | 0 <= i < |s.delivered| ensures s.delivered[i].row != d.row {
      assert s.delivered[i] in s.delivered;
    }
  }

  lemma SendKeeps(s: Sys, w: Scan, barred: set<Customer>, reachable: set<Customer>)
    requires Inv(s) && s.scan == Some(w) && w.phase.Sending?
    ensures Inv(WorkStep(s, w, barred, reachable))
  {
    if w.next < |w.due| {
      var d := Delivery(w.claimed[w.next], w.due[w.next], s.clock);
      SendScanOk(s, w, s.delivered + [d]);
      SendScanOk(s, w, s.delivered);
      SendRest(s, w, d);
      assert s.delivered + [] == s.delivered;
      assert forall e | e in s.delivered :: Backed(s, e);
    } else {
      SendScanOk(s, w, s.delivered);
    }
  }

  /** The same rows up to their status. */
  ghost predicate SameButStatus(a: seq<Row>, b: seq<Row>) {
    |a| == |b| && forall i | 0 <= i < |a| :: a[i].(status := Ready) == b[i].(status := Ready)
  }

  lemma SpacedBut(a: seq<Row>, b: seq<Row>)
    requires Spaced(a) && SameButStatus(a, b)
    ensures Spaced(b)
  {
    forall i, j | 0 <= i < j < |b| && SameReminder(b[i], b[j]) && b[i].batch != b[j].batch
      ensures b[j].createdAt - b[i].createdAt >= WINDOW
    {
      assert SameReminder(a[i], a[j]);
    }
  }

  lemma ReportScanOk(s: Sys, t: Sys, w: Scan)
    requires ScanOk(s, w) && w.phase.Reporting? && w.next < |w.claimed| && SameButStatus(s.outbox, t.outbox)
    requires t.clock == s.clock && t.scans == s.scans
    ensures ScanOk(t, w.(next := w.next + 1))
  {
    forall i | 0 <= i < |w.claimed| ensures IsClaim(t, w.(next := w.next + 1), w.claimed[i], w.due[i]) {
      assert IsClaim(s, w, w.claimed[i], w.due[i]);
    }
  }

  lemma ReportRest(s: Sys, t: Sys, w: Scan)
    requires Inv(s) && s.scan == Some(w) && w.phase.Reporting? && SameButStatus(s.outbox, t.outbox)
    requires t == s.(outbox := t.outbox, scan := Some(w.(next := w.next + 1)))
    ensures BatchOk(t) && UnsentOk(t)
    ensures forall d | d in t.delivered :: Backed(t, d)
    ensures forall r | r in t.outbox :: r.createdAt <= t.clock && r.batch <= t.scans
  {
    forall d | d in t.delivered ensures Backed(t, d) {
      assert Backed(s, d);
    }
    forall r | r in t.outbox ensures r.createdAt <= t.clock && r.batch <= t.scans {
      var j :| 0 <= j < |t.outbox| && t.outbox[j] == r;
      assert s.outbox[j] in s.outbox;
    }
  }

  lemma ReportNextKeeps(s: Sys, w: Scan)
    requires Inv(s) && s.scan == Some(w) && w.phase.Reporting? && w.next < |w.claimed| && w.claimed[w.next] < |s.outbox|
    ensures var i := w.claimed[w.next];
            Inv(s.(outbox := s.outbox[i := s.outbox[i].(status := Reported)], scan := Some(w.(next := w.next + 1))))
  {
    var i := w.claimed[w.next];
    var t := s.(outbox := s.outbox[i := s.outbox[i].(status := Reported)], scan := Some(w.(next := w.next + 1)));
    SpacedBut(s.outbox, t.outbox);
    ReportScanOk(s, t, w);
    ReportRest(s, t, w);
  }

  lemma ReportKeeps(s: Sys, w: Scan, barred: set<Customer>, reachable: set<Customer>)
    requires Inv(s) && s.scan == Some(w) && w.phase.Reporting?
    ensures Inv(WorkStep(s, w, barred, reachable))
  {
    if w.next < |w.claimed| && w.claimed[w.next] < |s.outbox| {
      ReportNextKeeps(s, w);
    } else {
      EndKeeps(s);
    }
  }

  lemma StepKeeps(s: Sys, a: Action)
    requires Inv(s)
    ensures Inv(Step(s, a))
  {
    var t := Step(s, a);
    match a
    case Tick(seconds) =>
      if s.scan.Some? {
        forall c ensures Quiet(s, c) ==> Quiet(t, c) {
        }
        assert forall i | 0 <= i < |s.scan.value.claimed| ::
            IsClaim(s, s.scan.value, s.scan.value.claimed[i], s.scan.value.due[i]);
      }
      forall d | d in t.delivered ensures Backed(t, d) {
        assert Backed(s, d);
      }
    case Begin(forReal, audience) =>
      forall d | d in t.delivered ensures Backed(t, d) {
        assert Backed(s, d);
      }
      forall j | 0 <= j < |s.outbox| ensures s.outbox[j].batch <= s.scans {
        assert s.outbox[j] in s.outbox;
      }
    case Work(barred, reachable) =>
      if s.scan.Some? {
        var w := s.scan.value;
        match w.phase
        case Deduping => DedupeKeeps(s, w, barred, reachable);
        case Screening => ScreenKeeps(s, w, barred, reachable);
        case Claiming => ClaimKeeps(s, w, barred, reachable);
        case Sending => SendKeeps(s, w, barred, reachable);
        case Reporting => ReportKeeps(s, w, barred, reachable);
      }
    case Crash =>
      forall d | d in t.delivered ensures Backed(t, d) {
        assert Backed(s, d);
      }
    case OtherRow(c, dryRun) =>
      OtherRowKeeps(s, Row(false, c, s.clock, Reported, dryRun, 0));
  }

  lemma OtherRowKeeps(s: Sys, r: Row)
    requires Inv(s) && !r.cycle && r.createdAt == s.clock && r.batch == 0
    ensures Inv(s.(outbox := s.outbox + [r]))
  {
    var t := s.(outbox := s.outbox + [r]);
    forall d | d in t.delivered ensures Backed(t, d) {
      assert Backed(s, d);
    }
    if s.scan.Some? {
      var w := s.scan.value;
      forall c ensures Quiet(s, c) ==> Quiet(t, c) {
      }
      forall i | 0 <= i < |w.claimed| ensures IsClaim(t, w, w.claimed[i], w.due[i]) {
        assert IsClaim(s, w, w.claimed[i], w.due[i]);
      }
    }
  }

  lemma {:induction false} RunKeeps(actions: seq<Action>)
    ensures Inv(Run(actions))
  {
    if actions != [] {
      RunKeeps(actions[..|actions| - 1]);
      StepKeeps(Run(actions[..|actions| - 1]), actions[|actions| - 1]);
    }
  }

  // ---------------------------------------------------------------- main results

  /** No message is sent without its own outbox row, recorded before as a real reminder to
      that customer; a row is sent at most once, crashes included. */
  lemma EveryDeliveryIsRecorded(actions: seq<Action>, d: Delivery)
    requires d in Run(actions).delivered
    ensures Backed(Run(actions), d)
    ensures forall i, j | 0 <= i < j < |Run(actions).delivered| ::
              Run(actions).delivered[i].row != Run(actions).delivered[j].row
  {
    RunKeeps(actions);
  }

  /** The claim time of a delivery. */
  function ClaimedAt(s: Sys, d: Delivery): int
    requires d.row < |s.outbox|
  {
    s.outbox[d.row].createdAt
  }

  /** Two real reminders to one customer from different scans were claimed a window apart. */
  lemma RemindersAreSpaced(actions: seq<Action>, d: Delivery, e: Delivery)
    requires d in Run(actions).delivered && e in Run(actions).delivered && d.customer == e.customer && d.row < e.row
    ensures var s := Run(actions);
            && e.row < |s.outbox|
            && (s.outbox[d.row].batch != s.outbox[e.row].batch ==> ClaimedAt(s, e) - ClaimedAt(s, d) >= WINDOW)
  {
    RunKeeps(actions);
    var s := Run(actions);
    assert Backed(s, d) && Backed(s, e);
  }

  /** The audience of every scan names each customer once. */
  predicate DistinctAudiences(actions: seq<Action>) {
    forall a | a in actions && a.Begin? :: Distinct(a.audience)
  }

  /** No two reminder rows of one scan for one customer. */
  ghost predicate NoTwins(outbox: seq<Row>) {
    forall i, j | 0 <= i < j < |outbox| && SameReminder(outbox[i], outbox[j]) :: outbox[i].batch != outbox[j].batch
  }

  lemma ClaimNoTwin(s: Sys, w: Scan)
    requires Inv(s) && NoTwins(s.outbox) && s.scan == Some(w) && w.phase.Claiming? && w.next < |w.due|
    requires Distinct(w.due)
    ensures NoTwins(s.outbox + [ClaimRow(s, w, w.due[w.next])])
  {
    var outbox := s.outbox + [ClaimRow(s, w, w.due[w.next])];
    assert forall x | 0 <= x < |w.claimed| :: IsClaim(s, w, w.claimed[x], w.due[x]);
  }

  lemma StepNoTwins(s: Sys, a: Action)
    requires Inv(s) && NoTwins(s.outbox) && (a.Begin? ==> Distinct(a.audience))
    requires s.scan.Some? ==> Distinct(s.scan.value.audience)
    ensures NoTwins(Step(s, a).outbox)
    ensures Step(s, a).scan.Some? ==> Distinct(Step(s, a).scan.value.audience)
  {
    if a.Work? && s.scan.Some? && s.scan.value.phase.Claiming? && s.scan.value.next < |s.scan.value.due| {
      ClaimNoTwin(s, s.scan.value);
    }
  }

  lemma {:induction false} RunNoTwins(actions: seq<Action>)
    requires DistinctAudiences(actions)
    ensures NoTwins(Run(actions).outbox)
    ensures Run(actions).scan.Some? ==> Distinct(Run(actions).scan.value.audience)
  {
    if actions != [] {
      var n := |actions| - 1;
      assert actions[n] in actions && forall a | a in actions[..n] :: a in actions;
      RunNoTwins(actions[..n]);
      RunKeeps(actions[..n]);
      StepNoTwins(Run(actions[..n]), actions[n]);
    }
  }

  /** With distinct audiences any two real reminders to one customer are a window apart. */
  lemma RemindersAreSpacedApart(actions: seq<Action>, d: Delivery, e: Delivery)
    requires DistinctAudiences(actions)
    requires d in Run(actions).delivered && e in Run(actions).delivered && d.customer == e.customer && d.row < e.row
    ensures e.row < |Run(actions).outbox| && ClaimedAt(Run(actions), e) - ClaimedAt(Run(actions), d) >= WINDOW
  {
    RunKeeps(actions);
    RunNoTwins(actions);
    RemindersAreSpaced(actions, d, e);
    assert Backed(Run(actions), d) && Backed(Run(actions), e);
  }

  /** Two reminders of the running scan to one customer. */
  ghost predicate AreTwins(s: Sys, i: nat, j: nat) {
    && i < j < |s.outbox| && SameReminder(s.outbox[i], s.outbox[j])
    && s.outbox[i].batch == s.outbox[j].batch == s.scans
  }

  lemma TwinsAreListed(s: Sys, w: Scan, i: nat, j: nat)
    requires Inv(s) && s.scan == Some(w) && AreTwins(s, i, j)
    ensures !Distinct(w.due[..|w.claimed|])
  {
    assert i in w.claimed && j in w.claimed;
    var x :| 0 <= x < |w.claimed| && w.claimed[x] == i;
    var y :| 0 <= y < |w.claimed| && w.claimed[y] == j;
    assert IsClaim(s, w, w.claimed[x], w.due[x]) && IsClaim(s, w, w.claimed[y], w.due[y]);
    assert w.due[..|w.claimed|][x] == w.due[..|w.claimed|][y];
  }

  lemma ListedAreTwins(s: Sys, w: Scan) returns (i: nat, j: nat)
    requires Inv(s) && s.scan == Some(w) && !Distinct(w.due[..|w.claimed|])
    ensures AreTwins(s, i, j)
  {
    var listed := w.due[..|w.claimed|];
    var x, y :| 0 <= x < y < |listed| && listed[x] == listed[y];
    assert IsClaim(s, w, w.claimed[x], w.due[x]) && IsClaim(s, w, w.claimed[y], w.due[y]);
    i, j := w.claimed[x], w.claimed[y];
  }

  /** At any step of a scan, real or preview, it has written two reminders to one customer exactly
      when the part of the screened list claimed so far names somebody twice. The overdue list
      has one entry per customer and product, so it can. */
  lemma TwinsIff(s: Sys, w: Scan)
    requires Inv(s) && s.scan == Some(w)
    ensures |w.claimed| <= |w.due|
    ensures (exists i, j :: AreTwins(s, i, j)) <==> !Distinct(w.due[..|w.claimed|])
  {
    if i, j :| AreTwins(s, i, j) {
      TwinsAreListed(s, w, i, j);
    }
    if !Distinct(w.due[..|w.claimed|]) {
      var i, j := ListedAreTwins(s, w);
    }
  }

  lemma RunStep(actions: seq<Action>, a: Action)
    ensures Run(actions + [a]) == Step(Run(actions), a)
  {
    assert (actions + [a])[..|actions|] == actions;
  }

  /** A scan that has just deduped the audience [c, c] on an empty outbox. */
  function TwinScan(c: Customer, phase: Phase): Sys {
    Sys([], [], 0, 1, Some(Scan(true, [c, c], phase, 2, [c, c], [])))
  }

  lemma TwinDedupe(c: Customer) returns (actions: seq<Action>)
    ensures Run(actions) == TwinScan(c, Deduping)
  {
    var work := Work({}, {c});
    var a0: seq<Action> := [];
    RunStep(a0, Begin(true, [c, c]));
    var a1 := a0 + [Begin(true, [c, c])];
    assert Run(a1) == Sys([], [], 0, 1, Some(Scan(true, [c, c], Deduping, 0, [], [])));
    RunStep(a1, work);
    var a2 := a1 + [work];
    assert Run(a2) == Sys([], [], 0, 1, Some(Scan(true, [c, c], Deduping, 1, [c], []))) by {
      assert [] + [c] == [c];
    }
    RunStep(a2, work);
    actions := a2 + [work];
    assert [c] + [c] == [c, c];
  }

  lemma TwinScreen(c: Customer, barred: set<Customer>)
    requires c !in barred
    ensures Filter([c, c], x => x !in barred) == [c, c]
  {
    var keep := (x: Customer) => x !in barred;
    assert [c, c][..1] == [c] && [c][..0] == [];
    assert Filter([c], keep) == [c];
  }

  lemma TwinClaims(c: Customer, s: Sys)
    requires s == Sys([], [], 0, 1, Some(Scan(true, [c, c], Claiming, 0, [c, c], [])))
    ensures var work := Work({}, {c}); var t := Step(Step(s, work), work);
            && t.outbox == [Row(true, c, 0, InFlight, false, 1), Row(true, c, 0, InFlight, false, 1)]
  {
  }

  /** A run with such an audience: one customer is claimed twice at the same instant. */
  lemma TwinsHappen(c: Customer) returns (actions: seq<Action>)
    ensures Run(actions).outbox == [Row(true, c, 0, InFlight, false, 1), Row(true, c, 0, InFlight, false, 1)]
  {
    var work := Work({}, {c});
    var a3 := TwinDedupe(c);
    RunStep(a3, work);
    var a4 := a3 + [work];
    assert Run(a4) == TwinScan(c, Screening);
    RunStep(a4, work);
    var a5 := a4 + [work];
    TwinScreen(c, {});
    assert Run(a5) == Sys([], [], 0, 1, Some(Scan(true, [c, c], Claiming, 0, [c, c], [])));
    RunStep(a5, work);
    RunStep(a5 + [work], work);
    TwinClaims(c, Run(a5));
    actions := a5 + [work] + [work];
  }

  // ---------------------------------------------------------------- the scan as it runs

  /** The next state of a scan after `seconds` more. */
  function Later(s: Sys, seconds: nat, barred: set<Customer>, reachable: set<Customer>): Sys {
    Step(Step(s, Tick(seconds)), Work(barred, reachable))
  }

  /** The states a scan goes through, one per step. */
  ghost predicate IsTrace(trace: seq<Sys>, ticks: seq<nat>, barred: set<Customer>, reachable: set<Customer>) {
    && 1 <= |trace| <= |ticks| + 1
    && forall i | 0 <= i < |trace| - 1 :: trace[i + 1] == Later(trace[i], ticks[i], barred, reachable)
  }

  /** A running scan: its trace, and the state it stands at. Dies when the ticks run out. */
  datatype Progress = Progress(trace: seq<Sys>, ticks: seq<nat>, barred: set<Customer>, reachable: set<Customer>) {
    ghost predicate Valid() {
      IsTrace(trace, ticks, barred, reachable)
    }
    function Last(): Sys {
      if trace == [] then START else trace[|trace| - 1]
    }
    function Taken(): int {
      |trace| - 1
    }
    function Extend(t: Sys): Progress {
      this.(trace := trace + [t])
    }
  }

  lemma Extends(p: Progress, w: Scan, t: Sys)
    requires p.Valid() && p.Taken() < |p.ticks| && p.Last().scan == Some(w)
    requires t == WorkStep(p.Last().(clock := p.Last().clock + p.ticks[p.Taken()]), w, p.barred, p.reachable)
    ensures p.Extend(t).Valid()
  {
    var longer := p.Extend(t);
    forall i | 0 <= i < |longer.trace| - 1
      ensures longer.trace[i + 1] == Later(longer.trace[i], p.ticks[i], p.barred, p.reachable)
    {
      if i < |p.trace| - 1 {
        assert p.trace[i + 1] == Later(p.trace[i], p.ticks[i], p.barred, p.reachable);
      }
    }
  }

  class CycleScheduler {
    var outbox: seq<Row>
    var delivered: seq<Delivery>
    var clock: int
    var scans: nat

    constructor ()
      ensures State(None) == START
    {
      outbox, delivered, clock, scans := [], [], 0, 0;
    }

    ghost function State(scan: Option<Scan>): Sys
      reads this
    {
      Sys(outbox, delivered, clock, scans, scan)
    }

    /** Each pass continues the run `p` and leaves it at the scan state `at`. */
    method DedupePass(forReal: bool, audience: seq<Customer>, ticks: seq<nat>, ghost p0: Progress)
      returns (due: seq<Customer>, n: nat, alive: bool, ghost p: Progress, ghost at: Scan)
      requires p0.Valid() && p0.ticks == ticks && p0.Taken() == 0
      requires p0.Last() == State(Some(Scan(forReal, audience, Deduping, 0, [], [])))
      modifies `clock
      ensures Continues(p0, p, n) && p.Last() == State(Some(at))
      ensures if alive then at == Scan(forReal, audience, Screening, |audience|, due, []) else n == |ticks|
    {
      due, n, alive, p := [], 0, false, p0;
      at := Scan(forReal, audience, Deduping, 0, [], []);
      var i := 0;
      while i < |audience|
        invariant i <= |audience| && at == Scan(forReal, audience, Deduping, i, due, [])
        invariant Continues(p0, p, n) && p.Last() == State(Some(at))
      {
        if n == |ticks| { return; }
        clock := clock + ticks[n];
        if !ExistsRecent(outbox, audience[i], clock) {
          due := due + [audience[i]];
        }
        ghost var w := at;
        i, n, at := i + 1, n + 1, Scan(forReal, audience, Deduping, i + 1, due, []);
        Extends(p, w, State(Some(at)));
        p := p.Extend(State(Some(at)));
      }
      if n == |ticks| { return; }
      ghost var w := at;
      clock, n, alive, at := clock + ticks[n], n + 1, true, Scan(forReal, audience, Screening, i, due, []);
      Extends(p, w, State(Some(at)));
      p := p.Extend(State(Some(at)));
    }

    method ClaimPass(forReal: bool, ghost audience: seq<Customer>, due: seq<Customer>, ticks: seq<nat>, n0: nat,
                     ghost p0: Progress)
      returns (claimed: seq<nat>, n: nat, alive: bool, ghost p: Progress, ghost at: Scan)
      requires Continues(p0, p0, n0) && p0.ticks == ticks
      requires p0.Last() == State(Some(Scan(forReal, audience, Claiming, 0, due, [])))
      modifies `clock, `outbox
      ensures Continues(p0, p, n) && p.Last() == State(Some(at))
      ensures if alive then at == Scan(forReal, audience, Claiming, |due|, due, claimed) else n == |ticks|
      ensures alive ==> |claimed| == |due| && forall j | 0 <= j < |claimed| :: claimed[j] < |outbox|
    {
      claimed, n, alive, p := [], n0, false, p0;
      at := Scan(forReal, audience, Claiming, 0, due, []);
      var i := 0;
      while i < |due|
        invariant i <= |due| && at == Scan(forReal, audience, Claiming, i, due, claimed)
        invariant Continues(p0, p, n) && p.Last() == State(Some(at))
        invariant |claimed| == i && forall j | 0 <= j < i :: claimed[j] < |outbox|
      {
        if n == |ticks| { return; }
        ghost var w := at;
        clock := clock + ticks[n];
        claimed := claimed + [|outbox|];
        outbox := outbox + [Row(true, due[i], clock, if forReal then InFlight else Ready, !forReal, scans)];
        i, n, at := i + 1, n + 1, Scan(forReal, audience, Claiming, i + 1, due, claimed);
        Extends(p, w, State(Some(at)));
        p := p.Extend(State(Some(at)));
      }
      alive := true;
    }

    method SendPass(ghost audience: seq<Customer>, due: seq<Customer>, claimed: seq<nat>, reachable: set<Customer>,
                    ticks: seq<nat>, n0: nat, ghost p0: Progress)
      returns (n: nat, alive: bool, ghost p: Progress, ghost at: Scan)
      requires Continues(p0, p0, n0) && p0.ticks == ticks && p0.reachable == reachable && |claimed| == |due|
      requires p0.Last() == State(Some(Scan(true, audience, Sending, 0, due, claimed)))
      modifies `clock, `delivered
      ensures Continues(p0, p, n) && p.Last() == State(Some(at))
      ensures if alive then at == Scan(true, audience, Reporting, 0, due, claimed) else n == |ticks|
    {
      n, alive, p := n0, false, p0;
      at := Scan(true, audience, Sending, 0, due, claimed);
      var i := 0;
      while i < |due|
        invariant i <= |due| && at == Scan(true, audience, Sending, i, due, claimed)
        invariant Continues(p0, p, n) && p.Last() == State(Some(at))
      {
        if n == |ticks| { return; }
        ghost var w := at;
        clock := clock + ticks[n];
        delivered := delivered + if due[i] in reachable then [Delivery(claimed[i], due[i], clock)] else [];
        i, n, at := i + 1, n + 1, Scan(true, audience, Sending, i + 1, due, claimed);
        Extends(p, w, State(Some(at)));
        p := p.Extend(State(Some(at)));
      }
      if n == |ticks| { return; }
      ghost var w := at;
      clock, n, alive, at := clock + ticks[n], n + 1, true, Scan(true, audience, Reporting, 0, due, claimed);
      Extends(p, w, State(Some(at)));
      p := p.Extend(State(Some(at)));
    }

    method ReportPass(ghost audience: seq<Customer>, ghost due: seq<Customer>, claimed: seq<nat>,
                      ticks: seq<nat>, n0: nat, ghost p0: Progress)
      returns (n: nat, alive: bool, ghost p: Progress, ghost at: Option<Scan>)
      requires Continues(p0, p0, n0) && p0.ticks == ticks && forall j | 0 <= j < |claimed| :: claimed[j] < |outbox|
      requires p0.Last() == State(Some(Scan(true, audience, Reporting, 0, due, claimed)))
      modifies `clock, `outbox
      ensures Continues(p0, p, n) && p.Last() == State(at)
      ensures if alive then at.None? else n == |ticks|
    {
      n, alive, p := n0, false, p0;
      at := Some(Scan(true, audience, Reporting, 0, due, claimed));
      var i := 0;
      while i < |claimed|
        invariant i <= |claimed| && at == Some(Scan(true, audience, Reporting, i, due, claimed))
        invariant Continues(p0, p, n) && p.Last() == State(at)
        invariant forall j | 0 <= j < |claimed| :: claimed[j] < |outbox|
      {
        if n == |ticks| { return; }
        ghost var w := at.value;
        clock := clock + ticks[n];
        outbox := outbox[claimed[i] := outbox[claimed[i]].(status := Reported)];
        i, n, at := i + 1, n + 1, Some(Scan(true, audience, Reporting, i + 1, due, claimed));
        Extends(p, w, State(at));
        p := p.Extend(State(at));
      }
      if n == |ticks| { return; }
      ghost var w := at.value;
      clock, n, alive, at := clock + ticks[n], n + 1, true, None;
      Extends(p, w, State(at));
      p := p.Extend(State(at));
    }

    /** One scan, complete or with a crash after `|ticks|` steps: the tables are those of some
        state the scan goes through, with the scan itself lost. */
    method RunCycleScan(forReal: bool, audience: seq<Customer>, barred: set<Customer>, reachable: set<Customer>,
                        ticks: seq<nat>) returns (n: nat, finished: bool, ghost p: Progress)
      modifies this
      ensures p.Valid() && p.ticks == ticks && p.barred == barred && p.reachable == reachable && p.Taken() == n
      ensures p.trace[0] == Step(old(State(None)), Begin(forReal, audience))
      ensures State(None) == Step(p.Last(), Crash)
      ensures if finished then p.Last().scan.None? else n == |ticks|
    {
      scans, finished := scans + 1, false;
      p := Progress([State(Some(Scan(forReal, audience, Deduping, 0, [], [])))], ticks, barred, reachable);
      var due, claimed, alive;
      ghost var at;
      due, n, alive, p, at := DedupePass(forReal, audience, ticks, p);
      if !alive || n == |ticks| { return; }
      clock, n, due := clock + ticks[n], n + 1, Filter(due, c => c !in barred);
      ghost var w := at;
      at := Scan(forReal, audience, Claiming, 0, due, []);
      Extends(p, w, State(Some(at)));
      p := p.Extend(State(Some(at)));

      claimed, n, alive, p, at := ClaimPass(forReal, audience, due, ticks, n, p);
      if !alive || n == |ticks| { return; }
      w := at;
      clock, n, finished := clock + ticks[n], n + 1, !forReal || due == [];
      ghost var next := if finished then None else Some(Scan(true, audience, Sending, 0, due, claimed));
      Extends(p, w, State(next));
      p := p.Extend(State(next));
      if finished { return; }

      n, alive, p, at := SendPass(audience, due, claimed, reachable, ticks, n, p);
      if !alive { return; }
      n, finished, p, next := ReportPass(audience, due, claimed, ticks, n, p);
    }
  }

  ghost predicate Continues(p0: Progress, p: Progress, n: nat) {
    && p.Valid() && p.Taken() == n
    && p.ticks == p0.ticks && p.barred == p0.barred && p.reachable == p0.reachable
    && p0.trace != [] && p.trace[0] == p0.trace[0]
  }

  /** So whatever the crash point, a scan keeps every promise above. */
  lemma TraceKeeps(p: Progress)
    requires p.Valid() && Inv(p.trace[0])
    ensures Inv(Step(p.Last(), Crash))
  {
    TraceStates(p, |p.trace| - 1);
    StepKeeps(p.Last(), Crash);
  }

  lemma {:induction false} TraceStates(p: Progress, i: nat)
    requires p.Valid() && Inv(p.trace[0]) && i < |p.trace|
    ensures Inv(p.trace[i])
  {
    if i > 0 {
      TraceStates(p, i - 1);
      var s := p.trace[i - 1];
      StepKeeps(s, Tick(p.ticks[i - 1]));
      StepKeeps(Step(s, Tick(p.ticks[i - 1])), Work(p.barred, p.reachable));
      assert p.trace[(i - 1) + 1] == Later(s, p.ticks[i - 1], p.barred, p.reachable);
    }
  }
}
