/** What a scan that is not interrupted achieves: it records a reminder for exactly the fresh
    and permitted customers, in order, and a real one reaches exactly the reachable of them. */
module CycleOutcome {
  import opened Prelude
  import opened CycleScan

  function One(s: Sys, barred: set<Customer>, reachable: set<Customer>): Sys {
    Step(s, Work(barred, reachable))
  }

  function Iterate(f: Sys -> Sys, s: Sys, n: nat): Sys {
    if n == 0 then s else f(Iterate(f, s, n - 1))
  }

  lemma {:induction false} IterateAppend(f: Sys -> Sys, s: Sys, a: nat, b: nat)
    ensures Iterate(f, s, a + b) == Iterate(f, Iterate(f, s, a), b)
  {
    if b > 0 {
      IterateAppend(f, s, a, b - 1);
    }
  }

  function Worker(barred: set<Customer>, reachable: set<Customer>): Sys -> Sys {
    (s: Sys) => One(s, barred, reachable)
  }

  /** `n` steps of the running scan, with nothing in between. */
  function Works(s: Sys, n: nat, barred: set<Customer>, reachable: set<Customer>): Sys {
    Iterate(Worker(barred, reachable), s, n)
  }

  ghost predicate Reaches(f: Sys -> Sys, s: Sys, t: Sys) {
    exists n: nat :: Iterate(f, s, n) == t
  }

  lemma ReachesOn(f: Sys -> Sys, s: Sys, t: Sys, u: Sys)
    requires Reaches(f, s, t) && Reaches(f, t, u)
    ensures Reaches(f, s, u)
  {
    var a: nat :| Iterate(f, s, a) == t;
    var b: nat :| Iterate(f, t, b) == u;
    IterateAppend(f, s, a, b);
  }

  /** Some number of steps leads from `s` to `t`. */
  ghost predicate Leads(s: Sys, t: Sys, barred: set<Customer>, reachable: set<Customer>) {
    Reaches(Worker(barred, reachable), s, t)
  }

  lemma LeadsOn(s: Sys, t: Sys, u: Sys, barred: set<Customer>, reachable: set<Customer>)
    requires Leads(s, t, barred, reachable) && Leads(t, u, barred, reachable)
    ensures Leads(s, u, barred, reachable)
  {
    ReachesOn(Worker(barred, reachable), s, t, u);
  }

  lemma WorksLead(s: Sys, n: nat, barred: set<Customer>, reachable: set<Customer>)
    ensures Leads(s, Works(s, n, barred, reachable), barred, reachable)
  {
  }

  lemma OneLeads(s: Sys, barred: set<Customer>, reachable: set<Customer>)
    ensures Leads(s, One(s, barred, reachable), barred, reachable)
  {
    assert Works(s, 0, barred, reachable) == s;
    assert Works(s, 1, barred, reachable) == One(s, barred, reachable);
  }

  function NotRecent(outbox: seq<Row>, now: int): Customer -> bool {
    (c: Customer) => !ExistsRecent(outbox, c, now)
  }

  function NotIn(barred: set<Customer>): Customer -> bool {
    (c: Customer) => c !in barred
  }

  function IsIn(reachable: set<Customer>): Customer -> bool {
    (c: Customer) => c in reachable
  }

  // ---------------------------------------------------------------- phase by phase

  /** The scan after `i` dedupe steps. */
  function Deduped(s: Sys, forReal: bool, audience: seq<Customer>, i: nat): Sys
    requires i <= |audience|
  {
    s.(scan := Some(Scan(forReal, audience, Deduping, i, Filter(audience[..i], NotRecent(s.outbox, s.clock)), [])))
  }

  lemma DedupeOne(s: Sys, forReal: bool, audience: seq<Customer>, i: nat, barred: set<Customer>,
                  reachable: set<Customer>)
    requires i < |audience|
    ensures One(Deduped(s, forReal, audience, i), barred, reachable) == Deduped(s, forReal, audience, i + 1)
  {
    var p := NotRecent(s.outbox, s.clock);
    FilterStep(audience, p, i);
    var f := Filter(audience[..i], p);
    assert f + [] == f;
  }

  lemma {:induction false} DedupePhase(s: Sys, forReal: bool, audience: seq<Customer>, i: nat,
                                       barred: set<Customer>, reachable: set<Customer>)
    requires i <= |audience|
    ensures Works(Deduped(s, forReal, audience, 0), i, barred, reachable) == Deduped(s, forReal, audience, i)
  {
    if i > 0 {
      DedupePhase(s, forReal, audience, i - 1, barred, reachable);
      DedupeOne(s, forReal, audience, i - 1, barred, reachable);
    }
  }

  function Numbers(start: nat, k: nat): (r: seq<nat>)
    ensures |r| == k && forall i | 0 <= i < k :: r[i] == start + i
  {
    seq(k, i => start + i)
  }

  /** The row a claim writes. */
  function Claim(s: Sys, forReal: bool): Customer -> Row {
    (c: Customer) => Row(true, c, s.clock, if forReal then InFlight else Ready, !forReal, s.scans)
  }

  /** The scan after `i` claims. */
  function Claimed(s: Sys, forReal: bool, audience: seq<Customer>, cs: seq<Customer>, i: nat): Sys
    requires i <= |cs|
  {
    s.(outbox := s.outbox + Map(cs[..i], Claim(s, forReal)),
       scan := Some(Scan(forReal, audience, Claiming, i, cs, Numbers(|s.outbox|, i))))
  }

  lemma MoreNumbers(start: nat, i: nat)
    ensures Numbers(start, i) + [start + i] == Numbers(start, i + 1)
  {
  }

  lemma ClaimOne(s: Sys, forReal: bool, audience: seq<Customer>, cs: seq<Customer>, i: nat,
                 barred: set<Customer>, reachable: set<Customer>)
    requires i < |cs|
    ensures One(Claimed(s, forReal, audience, cs, i), barred, reachable) == Claimed(s, forReal, audience, cs, i + 1)
  {
    var f := Claim(s, forReal);
    MoreNumbers(|s.outbox|, i);
    assert Map(cs[..i + 1], f) == Map(cs[..i], f) + [f(cs[i])];
    Associative(s.outbox, Map(cs[..i], f), [f(cs[i])]);
  }

  lemma {:induction false} ClaimPhase(s: Sys, forReal: bool, audience: seq<Customer>, cs: seq<Customer>, i: nat,
                                      barred: set<Customer>, reachable: set<Customer>)
    requires i <= |cs|
    ensures Works(Claimed(s, forReal, audience, cs, 0), i, barred, reachable) == Claimed(s, forReal, audience, cs, i)
  {
    if i > 0 {
      ClaimPhase(s, forReal, audience, cs, i - 1, barred, reachable);
      ClaimOne(s, forReal, audience, cs, i - 1, barred, reachable);
    }
  }

  /** The messages for the rows numbered from `start`, at this instant. */
  function Messages(start: nat, cs: seq<Customer>, now: int, reachable: set<Customer>): seq<Delivery> {
    if cs == [] then []
    else
      var n := |cs| - 1;
      Messages(start, cs[..n], now, reachable) + if cs[n] in reachable then [Delivery(start + n, cs[n], now)] else []
  }

  /** The scan after `i` sends. */
  function Messaged(s: Sys, audience: seq<Customer>, cs: seq<Customer>, start: nat, i: nat, reachable: set<Customer>)
      : Sys
    requires i <= |cs|
  {
    s.(delivered := s.delivered + Messages(start, cs[..i], s.clock, reachable),
       scan := Some(Scan(true, audience, Sending, i, cs, Numbers(start, |cs|))))
  }

  lemma SendOne(s: Sys, audience: seq<Customer>, cs: seq<Customer>, start: nat, i: nat,
                barred: set<Customer>, reachable: set<Customer>)
    requires i < |cs|
    ensures One(Messaged(s, audience, cs, start, i, reachable), barred, reachable)
         == Messaged(s, audience, cs, start, i + 1, reachable)
  {
    assert cs[..i + 1][..i] == cs[..i];
    var last := if cs[i] in reachable then [Delivery(start + i, cs[i], s.clock)] else [];
    assert Messages(start, cs[..i + 1], s.clock, reachable) == Messages(start, cs[..i], s.clock, reachable) + last;
    Associative(s.delivered, Messages(start, cs[..i], s.clock, reachable), last);
  }

  lemma {:induction false} SendPhase(s: Sys, audience: seq<Customer>, cs: seq<Customer>, start: nat, i: nat,
                                     barred: set<Customer>, reachable: set<Customer>)
    requires i <= |cs|
    ensures Works(Messaged(s, audience, cs, start, 0, reachable), i, barred, reachable)
         == Messaged(s, audience, cs, start, i, reachable)
  {
    if i > 0 {
      SendPhase(s, audience, cs, start, i - 1, barred, reachable);
      SendOne(s, audience, cs, start, i - 1, barred, reachable);
    }
  }

  /** The `k` rows from `start` on, reported. */
  function ReportedRows(outbox: seq<Row>, start: nat, k: nat): (r: seq<Row>)
    ensures |r| == |outbox|
    ensures forall i | 0 <= i < |outbox| ::
              r[i] == if start <= i < start + k then outbox[i].(status := Reported) else outbox[i]
  {
    seq(|outbox|, i requires 0 <= i < |outbox| =>
      if start <= i < start + k then outbox[i].(status := Reported) else outbox[i])
  }

  /** The scan after `i` reports. */
  function Told(s: Sys, audience: seq<Customer>, cs: seq<Customer>, start: nat, i: nat): Sys {
    s.(outbox := ReportedRows(s.outbox, start, i),
       scan := Some(Scan(true, audience, Reporting, i, cs, Numbers(start, |cs|))))
  }

  lemma ReportOne(s: Sys, audience: seq<Customer>, cs: seq<Customer>, start: nat, i: nat,
                  barred: set<Customer>, reachable: set<Customer>)
    requires i < |cs| && |s.outbox| == start + |cs|
    ensures One(Told(s, audience, cs, start, i), barred, reachable) == Told(s, audience, cs, start, i + 1)
  {
    var rows := ReportedRows(s.outbox, start, i);
    assert rows[start + i := rows[start + i].(status := Reported)] == ReportedRows(s.outbox, start, i + 1);
  }

  lemma {:induction false} ReportPhase(s: Sys, audience: seq<Customer>, cs: seq<Customer>, start: nat, i: nat,
                                       barred: set<Customer>, reachable: set<Customer>)
    requires i <= |cs| && |s.outbox| == start + |cs|
    ensures Works(Told(s, audience, cs, start, 0), i, barred, reachable) == Told(s, audience, cs, start, i)
  {
    if i > 0 {
      ReportPhase(s, audience, cs, start, i - 1, barred, reachable);
      ReportOne(s, audience, cs, start, i - 1, barred, reachable);
    }
  }

  // ---------------------------------------------------------------- the whole scan

  /** The customers a scan of this audience has to remind. */
  function ToRemind(s: Sys, audience: seq<Customer>, barred: set<Customer>): seq<Customer> {
    Filter(Filter(audience, NotRecent(s.outbox, s.clock)), NotIn(barred))
  }

  /** After the dedupe, two steps screen the list and start the claims. */
  lemma ScreenPhase(s: Sys, forReal: bool, audience: seq<Customer>, barred: set<Customer>, reachable: set<Customer>)
    ensures Leads(Deduped(s, forReal, audience, |audience|),
                  Claimed(s, forReal, audience, ToRemind(s, audience, barred), 0),
                  barred, reachable)
  {
    var unseen := Filter(audience, NotRecent(s.outbox, s.clock));
    var t := Deduped(s, forReal, audience, |audience|);
    assert audience[..|audience|] == audience;
    var u := s.(scan := Some(Scan(forReal, audience, Screening, |audience|, unseen, [])));
    assert One(t, barred, reachable) == u;
    OneLeads(t, barred, reachable);
    FilterAgree(unseen, c => c !in barred, NotIn(barred));
    var cs := ToRemind(s, audience, barred);
    assert s.outbox + Map(cs[..0], Claim(s, forReal)) == s.outbox;
    assert One(u, barred, reachable) == Claimed(s, forReal, audience, cs, 0);
    OneLeads(u, barred, reachable);
    LeadsOn(t, u, Claimed(s, forReal, audience, cs, 0), barred, reachable);
  }

  lemma UpToClaims(s: Sys, forReal: bool, audience: seq<Customer>, barred: set<Customer>, reachable: set<Customer>)
    ensures var cs := ToRemind(s, audience, barred);
            Leads(Deduped(s, forReal, audience, 0), Claimed(s, forReal, audience, cs, |cs|), barred, reachable)
  {
    var cs := ToRemind(s, audience, barred);
    var start, t := Deduped(s, forReal, audience, 0), Deduped(s, forReal, audience, |audience|);
    DedupePhase(s, forReal, audience, |audience|, barred, reachable);
    WorksLead(start, |audience|, barred, reachable);
    ScreenPhase(s, forReal, audience, barred, reachable);
    LeadsOn(start, t, Claimed(s, forReal, audience, cs, 0), barred, reachable);
    ClaimPhase(s, forReal, audience, cs, |cs|, barred, reachable);
    WorksLead(Claimed(s, forReal, audience, cs, 0), |cs|, barred, reachable);
    LeadsOn(start, Claimed(s, forReal, audience, cs, 0), Claimed(s, forReal, audience, cs, |cs|), barred, reachable);
  }

  /** From the last claim of a real scan with somebody to remind to its end. */
  lemma UpToReports(s: Sys, audience: seq<Customer>, cs: seq<Customer>, start: nat, barred: set<Customer>,
                    reachable: set<Customer>)
    requires cs != [] && |s.outbox| == start + |cs|
    requires s.scan == Some(Scan(true, audience, Claiming, |cs|, cs, Numbers(start, |cs|)))
    ensures Leads(s, s.(outbox := ReportedRows(s.outbox, start, |cs|),
                        delivered := s.delivered + Messages(start, cs, s.clock, reachable), scan := None),
                  barred, reachable)
  {
    var a, b := Messaged(s, audience, cs, start, 0, reachable), Messaged(s, audience, cs, start, |cs|, reachable);
    SendStarts(s, audience, cs, start, barred, reachable);
    SendPhase(s, audience, cs, start, |cs|, barred, reachable);
    WorksLead(a, |cs|, barred, reachable);
    LeadsOn(s, a, b, barred, reachable);
    var c, d := Told(b, audience, cs, start, 0), Told(b, audience, cs, start, |cs|);
    ReportStarts(s, audience, cs, start, barred, reachable);
    LeadsOn(s, b, c, barred, reachable);
    ReportPhase(b, audience, cs, start, |cs|, barred, reachable);
    WorksLead(c, |cs|, barred, reachable);
    LeadsOn(s, c, d, barred, reachable);
    assert One(d, barred, reachable) == d.(scan := None);
    OneLeads(d, barred, reachable);
    LeadsOn(s, d, d.(scan := None), barred, reachable);
    assert cs[..|cs|] == cs;
  }

  lemma SendStarts(s: Sys, audience: seq<Customer>, cs: seq<Customer>, start: nat, barred: set<Customer>,
                   reachable: set<Customer>)
    requires cs != [] && s.scan == Some(Scan(true, audience, Claiming, |cs|, cs, Numbers(start, |cs|)))
    ensures Leads(s, Messaged(s, audience, cs, start, 0, reachable), barred, reachable)
  {
    assert s.delivered + Messages(start, cs[..0], s.clock, reachable) == s.delivered;
    assert One(s, barred, reachable) == Messaged(s, audience, cs, start, 0, reachable);
    OneLeads(s, barred, reachable);
  }

  lemma ReportStarts(s: Sys, audience: seq<Customer>, cs: seq<Customer>, start: nat, barred: set<Customer>,
                     reachable: set<Customer>)
    ensures var b := Messaged(s, audience, cs, start, |cs|, reachable);
            Leads(b, Told(b, audience, cs, start, 0), barred, reachable)
  {
    var b := Messaged(s, audience, cs, start, |cs|, reachable);
    assert ReportedRows(b.outbox, start, 0) == b.outbox;
    assert One(b, barred, reachable) == Told(b, audience, cs, start, 0);
    OneLeads(b, barred, reachable);
  }

  /** The row a scan that ran to its end leaves for a customer. */
  function FinalRow(s: Sys, forReal: bool): Customer -> Row {
    (c: Customer) => Row(true, c, s.clock, if forReal then Reported else Ready, !forReal, s.scans + 1)
  }

  /** What an uninterrupted scan makes of a state without one. */
  function Outcome(s: Sys, forReal: bool, audience: seq<Customer>, barred: set<Customer>, reachable: set<Customer>)
      : Sys {
    var cs := ToRemind(s, audience, barred);
    s.(outbox := s.outbox + Map(cs, FinalRow(s, forReal)),
       delivered := s.delivered + (if forReal then Messages(|s.outbox|, cs, s.clock, reachable) else []),
       scans := s.scans + 1, scan := None)
  }

  lemma ClaimsAreFinal(s: Sys, forReal: bool, cs: seq<Customer>)
    ensures var t := s.(scans := s.scans + 1); var rows := s.outbox + Map(cs, Claim(t, forReal));
            (if forReal then ReportedRows(rows, |s.outbox|, |cs|) else rows) == s.outbox + Map(cs, FinalRow(s, forReal))
  {
  }

  /** An uninterrupted scan ends, having appended one row for each customer to remind, in order,
      and handed to the panel exactly the reachable ones of them if it is real, nobody if not. */
  lemma ScanDoesItsWork(s: Sys, forReal: bool, audience: seq<Customer>, barred: set<Customer>, reachable: set<Customer>)
    requires s.scan.None?
    ensures Leads(Step(s, Begin(forReal, audience)), Outcome(s, forReal, audience, barred, reachable),
                  barred, reachable)
  {
    var t, cs := s.(scans := s.scans + 1), ToRemind(s, audience, barred);
    assert audience[..0] == [];
    assert Step(s, Begin(forReal, audience)) == Deduped(t, forReal, audience, 0);
    UpToClaims(t, forReal, audience, barred, reachable);
    var u := Claimed(t, forReal, audience, cs, |cs|);
    assert cs[..|cs|] == cs;
    ClaimsAreFinal(s, forReal, cs);
    EndOfScan(s, t, forReal, audience, cs, barred, reachable);
    LeadsOn(Deduped(t, forReal, audience, 0), u, Outcome(s, forReal, audience, barred, reachable), barred, reachable);
  }

  lemma EndOfScan(s: Sys, t: Sys, forReal: bool, audience: seq<Customer>, cs: seq<Customer>,
                  barred: set<Customer>, reachable: set<Customer>)
    requires t == s.(scans := s.scans + 1) && cs == ToRemind(s, audience, barred) && cs[..|cs|] == cs
    ensures Leads(Claimed(t, forReal, audience, cs, |cs|), Outcome(s, forReal, audience, barred, reachable),
                  barred, reachable)
  {
    var u := Claimed(t, forReal, audience, cs, |cs|);
    ClaimsAreFinal(s, forReal, cs);
    if forReal && cs != [] {
      UpToReports(u, audience, cs, |s.outbox|, barred, reachable);
    } else {
      assert One(u, barred, reachable) == u.(scan := None);
      assert s.delivered + [] == s.delivered;
      OneLeads(u, barred, reachable);
    }
  }

  /** The messages go to the reachable customers, in order. */
  lemma {:induction false} MessagesReach(start: nat, cs: seq<Customer>, now: int, reachable: set<Customer>)
    ensures Map(Messages(start, cs, now, reachable), (d: Delivery) => d.customer) == Filter(cs, IsIn(reachable))
  {
    if cs != [] {
      MessagesReach(start, cs[..|cs| - 1], now, reachable);
    }
  }

  // ---------------------------------------------------------------- whom a scan reminds

  /** The outbox has a reminder for the customer, a real one or a preview, younger than 7 days. */
  ghost predicate RemindedLately(s: Sys, c: Customer) {
    exists r | r in s.outbox :: r.cycle && r.customer == c && r.createdAt > s.clock - 7 * 86_400
  }

  lemma ToRemindIff(s: Sys, audience: seq<Customer>, barred: set<Customer>, c: Customer)
    ensures c in ToRemind(s, audience, barred) <==> c in audience && c !in barred && !RemindedLately(s, c)
  {
  }

  /** Row `i` of `t` is a reminder to the customer that `s` does not have. */
  predicate NewReminder(s: Sys, t: Sys, i: nat, c: Customer) {
    |s.outbox| <= i < |t.outbox| && t.outbox[i].cycle && t.outbox[i].customer == c && t.outbox[i].createdAt == s.clock
  }

  lemma NewRemindersIff(s: Sys, t: Sys, cs: seq<Customer>, forReal: bool, c: Customer)
    requires t.outbox == s.outbox + Map(cs, FinalRow(s, forReal))
    ensures (exists i: nat :: NewReminder(s, t, i, c)) <==> c in cs
  {
    var rows := Map(cs, FinalRow(s, forReal));
    assert forall i | |s.outbox| <= i < |t.outbox| :: t.outbox[i] == rows[i - |s.outbox|];
    if i: nat :| NewReminder(s, t, i, c) {
      assert cs[i - |s.outbox|] == c;
    }
    if c in cs {
      var i :| 0 <= i < |cs| && cs[i] == c;
      assert NewReminder(s, t, |s.outbox| + i, c);
    }
  }

  /** In any state, reached by whatever run, an uninterrupted scan ends with a new reminder for
      exactly those customers of its audience that the gate does not bar and that no reminder,
      other rows not counted, covers for the last 7 days; the earlier rows stay. */
  lemma ScanRemindsIff(s: Sys, forReal: bool, audience: seq<Customer>,
                       barred: set<Customer>, reachable: set<Customer>, c: Customer)
    requires s.scan.None?
    ensures var t := Outcome(s, forReal, audience, barred, reachable);
            && Leads(Step(s, Begin(forReal, audience)), t, barred, reachable)
            && s.outbox <= t.outbox
            && ((exists i: nat :: NewReminder(s, t, i, c)) <==> c in audience && c !in barred && !RemindedLately(s, c))
  {
    var t := Outcome(s, forReal, audience, barred, reachable);
    ScanDoesItsWork(s, forReal, audience, barred, reachable);
    ToRemindIff(s, audience, barred, c);
    NewRemindersIff(s, t, ToRemind(s, audience, barred), forReal, c);
  }

  /** Messages of other kinds never change whom a scan reminds. */
  lemma OtherRowsDoNotCount(s: Sys, d: Customer, dryRun: bool, audience: seq<Customer>, barred: set<Customer>)
    ensures ToRemind(Step(s, OtherRow(d, dryRun)), audience, barred) == ToRemind(s, audience, barred)
  {
    var t := Step(s, OtherRow(d, dryRun));
    forall c ensures NotRecent(t.outbox, t.clock)(c) == NotRecent(s.outbox, s.clock)(c) {
      assert t.outbox[..|s.outbox|] == s.outbox;
      assert forall r | r in t.outbox && r.cycle :: r in s.outbox;
      assert forall r | r in s.outbox :: r in t.outbox;
    }
    FilterAgree(audience, NotRecent(t.outbox, t.clock), NotRecent(s.outbox, s.clock));
  }
}
