/** The requests as they run: one pass after another over rows, with dictionaries and running
    counters, updating the tables in place. Each is proved to do exactly its step. */
module CampaignService {
  import opened Prelude
  import opened CampaignModel
  import opened CampaignSteps
  import opened CampaignHistory
  import opened CampaignTheorems

  lemma MapStep<T, U>(s: seq<T>, f: T -> U, i: nat)
    requires i < |s|
    ensures Map(s[..i + 1], f) == Map(s[..i], f) + [f(s[i])]
  {
  }

  lemma RosterStep(rows: seq<Opportunity>, i: nat)
    requires i < |rows|
    ensures var c := CustomerOf(rows[i]); var before := Roster(rows[..i]);
            Roster(rows[..i + 1]) == if c in before then before else before + [c]
  {
    MapStep(rows, CustomerOf, i);
    var m := Map(rows[..i + 1], CustomerOf);
    assert m[..i] == Map(rows[..i], CustomerOf);
  }

  lemma LinkedStep(rows: seq<Opportunity>, links: seq<Link>, i: nat, c: CustomerId)
    requires i < |links|
    ensures var found := FindOpportunity(rows, links[i].opportunity);
            LinkedRows(rows, links[..i + 1], c) ==
            LinkedRows(rows, links[..i], c) + if links[i].customer == c && found.Some? then [found.value] else []
  {
    assert links[..i + 1][..i] == links[..i];
  }

  lemma BestStep(rows: seq<Opportunity>, x: Opportunity)
    ensures var best := BestByScore(rows);
            BestByScore(rows + [x]) == if best.None? || x.score > best.value.score then Some(x) else best
  {
    assert (rows + [x])[..|rows|] == rows;
  }

  /** An upsert does not move the other rows. */
  lemma UpsertIndex(rows: seq<SendRow>, r: SendRow, c: CustomerId)
    requires c != r.customer
    ensures var i := RowIndex(rows, r.campaign, c);
            RowIndex(Upsert(rows, r), r.campaign, c) == if i < |rows| then i else |Upsert(rows, r)|
  {
    var up := Upsert(rows, r);
    var i, j := RowIndex(rows, r.campaign, c), RowIndex(up, r.campaign, c);
    assert forall x | 0 <= x < |rows| :: IsRow(up[x], r.campaign, c) <==> IsRow(rows[x], r.campaign, c);
    if i < |rows| {
      assert IsRow(up[i], r.campaign, c);
    }
  }

  // ---------------------------------------------------------------- the gate

  /** Why a contact is not permitted, in the order the gate asks. */
  datatype Reason = Consent | ControlArm | Fatigue

  /** The gate's sets, built once per request. */
  datatype Gate = Gate(optedOut: set<Key>, phones: set<string>, control: set<Key>, recent: set<Key>)

  function GateOf(s: State, recent: set<Key>): Gate {
    Gate(Expand(s, SuppressedIds(s)), SuppressedPhones(s), Expand(s, ControlIds(s)), recent)
  }

  function ReasonFor(g: Gate, key: Key, phone: Option<string>): Option<Reason> {
    if key in g.optedOut then Some(Consent)
    else if phone.Some? && phone.value != "" && phone.value in g.phones then Some(Consent)
    else if key in g.control then Some(ControlArm)
    else if key in g.recent then Some(Fatigue)
    else None
  }

  /** The gate gives a reason exactly for the blocked. */
  lemma ReasonMeans(s: State, recent: set<Key>, key: Key, phone: Option<string>)
    ensures ReasonFor(GateOf(s, recent), key, phone).Some? <==> Blocked(s, key, phone, recent)
  {
  }

  function Passes<T>(g: Gate, key: T -> Key, phone: T -> Option<string>): T -> bool {
    (x: T) => ReasonFor(g, key(x), phone(x)).None?
  }

  function BlockedItems<T>(items: seq<T>, g: Gate, key: T -> Key, phone: T -> Option<string>): seq<(T, Reason)> {
    if items == [] then []
    else
      var x := items[|items| - 1];
      var reason := ReasonFor(g, key(x), phone(x));
      BlockedItems(items[..|items| - 1], g, key, phone) + if reason.Some? then [(x, reason.value)] else []
  }

  lemma BlockedStep<T(!new)>(items: seq<T>, g: Gate, key: T -> Key, phone: T -> Option<string>, i: nat)
    requires i < |items|
    ensures var reason := ReasonFor(g, key(items[i]), phone(items[i]));
            BlockedItems(items[..i + 1], g, key, phone)
            == BlockedItems(items[..i], g, key, phone) + if reason.Some? then [(items[i], reason.value)] else []
  {
    assert items[..i + 1][..i] == items[..i];
  }

  /** Every item is allowed or blocked, and the blocked ones carry the gate's reason. */
  lemma {:induction false} PartitionSplits<T(!new)>(items: seq<T>, g: Gate, key: T -> Key, phone: T -> Option<string>)
    ensures |Filter(items, Passes(g, key, phone))| + |BlockedItems(items, g, key, phone)| == |items|
    ensures forall x, r :: (x, r) in BlockedItems(items, g, key, phone)
                           <==> x in items && ReasonFor(g, key(x), phone(x)) == Some(r)
  {
    if items != [] {
      PartitionSplits(items[..|items| - 1], g, key, phone);
    }
  }

  /** The gate's partition: the allowed items and the blocked ones with their reasons, each in
      the given order. */
  method Partition<T(!new)>(items: seq<T>, key: T -> Key, phone: T -> Option<string>, g: Gate)
    returns (allowed: seq<T>, blocked: seq<(T, Reason)>)
    ensures allowed == Filter(items, Passes(g, key, phone))
    ensures blocked == BlockedItems(items, g, key, phone)
  {
    allowed, blocked := [], [];
    for i := 0 to |items|
      invariant allowed == Filter(items[..i], Passes(g, key, phone))
      invariant blocked == BlockedItems(items[..i], g, key, phone)
    {
      FilterStep(items, Passes(g, key, phone), i);
      BlockedStep(items, g, key, phone, i);
      var reason := ReasonFor(g, key(items[i]), phone(items[i]));
      if reason.None? {
        allowed := allowed + [items[i]];
      } else {
        blocked := blocked + [(items[i], reason.value)];
      }
    }
    assert items[..|items|] == items;
  }

  /** The campaign paths give the gate the customer's number in the table, and no phone. */
  function MemberKey(c: CustomerId): Key {
    Num(c)
  }

  function RowKey(row: Opportunity): Key {
    Num(CustomerOf(row))
  }

  function NoPhone<T>(): T -> Option<string> {
    (x: T) => None
  }

  /** Filtering by the gate's sets is filtering by its decision. */
  lemma ScreenMeans(s: State, cs: seq<CustomerId>)
    ensures Filter(cs, Passes(GateOf(s, {}), MemberKey, NoPhone())) == Permitted(s, cs)
  {
    var g := GateOf(s, {});
    forall c | c in cs ensures Passes(g, MemberKey, NoPhone())(c) <==> MayContact(s, c) {
      ReasonMeans(s, {}, MemberKey(c), None);
    }
    FilterAgree(cs, Passes(g, MemberKey, NoPhone()), c => MayContact(s, c));
  }

  function CreateGate(s: State, o: CreateOrder, now: int): Gate {
    GateOf(s, RecentContactKeys(s, o.legacy, now))
  }

  lemma EligibleMean(s: State, o: CreateOrder, now: int)
    ensures Filter(Candidates(s, o), Passes(CreateGate(s, o, now), RowKey, NoPhone())) == EligibleRows(s, o, now)
  {
    var g := CreateGate(s, o, now);
    forall row | row in Candidates(s, o) ensures Passes(g, RowKey, NoPhone())(row) <==> Eligible(s, o, now, row) {
      ReasonMeans(s, RecentContactKeys(s, o.legacy, now), RowKey(row), None);
    }
    FilterAgree(Candidates(s, o), Passes(g, RowKey, NoPhone()), row => Eligible(s, o, now, row));
  }

  lemma UnionUpdate<K, V>(a: map<K, V>, b: map<K, V>, k: K, v: V)
    ensures (a + b)[k := v] == a + b[k := v]
  {
  }

  ghost predicate IsBest(best: map<CustomerId, Opportunity>, rows: seq<Opportunity>, links: seq<Link>, c: CustomerId) {
    (if c in best then Some(best[c]) else None) == BestByScore(LinkedRows(rows, links, c))
  }

  lemma BestDraft(s: State, best: map<CustomerId, Opportunity>, links: seq<Link>, template: Template, c: CustomerId)
    requires IsBest(best, s.opportunities, links, c)
    ensures DraftFrom(s, if c in best then Some(best[c]) else None, template, c) == MakeDraft(s, links, template, c)
  {
  }

  function AddValue(valueBy: map<CustomerId, int>, c: CustomerId, value: int): map<CustomerId, int> {
    valueBy[c := (if c in valueBy then valueBy[c] else 0) + value]
  }

  ghost predicate KeysAre(valueBy: map<CustomerId, int>, roster: seq<CustomerId>) {
    forall c :: c in valueBy <==> c in roster
  }

  ghost predicate ValuesOf(valueBy: map<CustomerId, int>, rows: seq<Opportunity>) {
    forall c :: ExpectedFor(rows, c) == if c in valueBy then valueBy[c] else 0
  }

  /** What the loop knows after `i` rows. */
  ghost predicate Counted(rows: seq<Opportunity>, i: nat, roster: seq<CustomerId>, valueBy: map<CustomerId, int>) {
    i <= |rows| && roster == Roster(rows[..i]) && KeysAre(valueBy, roster) && ValuesOf(valueBy, rows[..i])
  }

  lemma CountedNone(rows: seq<Opportunity>)
    ensures Counted(rows, 0, [], map[])
  {
    assert rows[..0] == [];
  }

  lemma CountedStep(rows: seq<Opportunity>, i: nat, roster: seq<CustomerId>, valueBy: map<CustomerId, int>)
    requires i < |rows| && Counted(rows, i, roster, valueBy)
    ensures var c := CustomerOf(rows[i]);
            Counted(rows, i + 1, if c in valueBy then roster else roster + [c], AddValue(valueBy, c, rows[i].value))
  {
    RosterStep(rows, i);
    ValuesStep(rows, i, valueBy);
  }

  lemma CountedAll(rows: seq<Opportunity>, roster: seq<CustomerId>, valueBy: map<CustomerId, int>)
    requires Counted(rows, |rows|, roster, valueBy)
    ensures roster == Roster(rows) && forall c | c in roster :: c in valueBy && valueBy[c] == ExpectedFor(rows, c)
  {
    assert rows[..|rows|] == rows;
  }

  lemma ValuesStep(rows: seq<Opportunity>, i: nat, valueBy: map<CustomerId, int>)
    requires i < |rows| && ValuesOf(valueBy, rows[..i])
    ensures ValuesOf(AddValue(valueBy, CustomerOf(rows[i]), rows[i].value), rows[..i + 1])
  {
    var after := AddValue(valueBy, CustomerOf(rows[i]), rows[i].value);
    forall c ensures ExpectedFor(rows[..i + 1], c) == if c in after then after[c] else 0 {
      ExpectedStep(rows, i, c);
    }
  }

  lemma ExpectedStep(rows: seq<Opportunity>, i: nat, c: CustomerId)
    requires i < |rows|
    ensures ExpectedFor(rows[..i + 1], c)
            == ExpectedFor(rows[..i], c) + if CustomerOf(rows[i]) == c then rows[i].value else 0
  {
    assert rows[..i + 1][..i] == rows[..i];
  }

  /** One link changes the best row of its own customer only. */
  lemma IsBestStep(best: map<CustomerId, Opportunity>, best': map<CustomerId, Opportunity>,
                   rows: seq<Opportunity>, links: seq<Link>, i: nat, c: CustomerId)
    requires i < |links| && IsBest(best, rows, links[..i], c)
    requires var found := FindOpportunity(rows, links[i].opportunity); var c' := links[i].customer;
             best' == if found.Some? && (c' !in best || found.value.score > best[c'].score)
                      then best[c' := found.value] else best
    ensures IsBest(best', rows, links[..i + 1], c)
  {
    LinkedStep(rows, links, i, c);
    var found := FindOpportunity(rows, links[i].opportunity);
    if found.Some? && links[i].customer == c {
      BestStep(LinkedRows(rows, links[..i], c), found.value);
    } else {
      assert LinkedRows(rows, links[..i + 1], c) == LinkedRows(rows, links[..i], c);
    }
  }

  ghost predicate IsPrior(rows: seq<SendRow>, prior: map<CustomerId, nat>, k: CampaignId, c: CustomerId) {
    if c in prior then prior[c] == RowIndex(rows, k, c) < |rows| else RowIndex(rows, k, c) == |rows|
  }

  class CampaignDesk {
    var campaigns: map<CampaignId, Campaign>
    var nextId: CampaignId
    var members: map<(CampaignId, CustomerId), Member>
    var sends: seq<SendRow>
    var opportunities: seq<Opportunity>
    var customers: map<CustomerId, Customer>
    var register: set<Suppression>
    var log: seq<Event>

    function Tables(): State
      reads this
    {
      State(campaigns, nextId, members, sends, opportunities, customers, register, log)
    }

    ghost predicate Valid()
      reads this
    {
      Inv(Tables())
    }

    constructor ()
      ensures Valid() && Tables() == EMPTY
    {
      campaigns, nextId, members, sends := map[], 0, map[], [];
      opportunities, customers, register, log := [], map[], {}, [];
      new;
      RunKeeps([]);
    }

    /** The distinct customers in order, with the values of their rows added up. */
    static method ValueByCustomer(rows: seq<Opportunity>)
        returns (roster: seq<CustomerId>, valueBy: map<CustomerId, int>)
      ensures roster == Roster(rows)
      ensures forall c | c in roster :: c in valueBy && valueBy[c] == ExpectedFor(rows, c)
    {
      roster, valueBy := [], map[];
      CountedNone(rows);
      for i := 0 to |rows|
        invariant Counted(rows, i, roster, valueBy)
      {
        CountedStep(rows, i, roster, valueBy);
        if CustomerOf(rows[i]) !in valueBy {
          roster := roster + [CustomerOf(rows[i])];
        }
        valueBy := AddValue(valueBy, CustomerOf(rows[i]), rows[i].value);
      }
      CountedAll(rows, roster, valueBy);
    }

    method AddMembers(k: CampaignId, o: CreateOrder, rows: seq<Opportunity>, roster: seq<CustomerId>,
                      valueBy: map<CustomerId, int>)
      requires forall c | c in roster :: c in valueBy && valueBy[c] == ExpectedFor(rows, c)
      modifies `members
      ensures members == old(members) + NewMembers(k, o, rows, roster)
    {
      for i := 0 to |roster|
        invariant members == old(members) + NewMembers(k, o, rows, roster[..i])
      {
        assert roster[i] in roster && roster[..i + 1][..i] == roster[..i];
        UnionUpdate(old(members), NewMembers(k, o, rows, roster[..i]), (k, roster[i]),
                    Member(ArmOf(o, roster[i]), valueBy[roster[i]], None, None));
        members := members[(k, roster[i]) := Member(ArmOf(o, roster[i]), valueBy[roster[i]], None, None)];
      }
      assert roster[..|roster|] == roster;
    }

    static method LinkRows(rows: seq<Opportunity>) returns (links: seq<Link>)
      ensures links == Map(rows, (row: Opportunity) => Link(row.id, CustomerOf(row)))
    {
      links := [];
      for i := 0 to |rows|
        invariant |links| == i && forall j | 0 <= j < i :: links[j] == Link(rows[j].id, CustomerOf(rows[j]))
      {
        links := links + [Link(rows[i].id, CustomerOf(rows[i]))];
      }
    }

    method WriteCampaign(o: CreateOrder, rows: seq<Opportunity>)
      modifies this
      ensures Tables() == AddCampaign(old(Tables()), o, rows)
    {
      var k := nextId;
      var roster, valueBy := ValueByCustomer(rows);
      AddMembers(k, o, rows, roster, valueBy);
      var links := LinkRows(rows);
      campaigns := campaigns[k := Campaign(None, None, roster, links)];
      nextId := k + 1;
    }

    method CreateCampaign(o: CreateOrder, now: int) returns (created: Option<CampaignId>)
      requires Valid()
      modifies this
      ensures Valid() && Tables() == CreateStep(old(Tables()), o, now)
      ensures created == if Selected(old(Tables()), o, now) == [] then None else Some(old(nextId))
    {
      ghost var s := Tables();
      CreateKeeps(s, o, now);
      EligibleMean(s, o, now);
      var allowed, _ := Partition(Candidates(Tables(), o), RowKey, NoPhone(), CreateGate(Tables(), o, now));
      var rows := allowed[..Min(o.limit, |allowed|)];
      assert rows == Selected(s, o, now);
      if rows == [] {
        return None;
      }
      created := Some(nextId);
      WriteCampaign(o, rows);
    }

    /** The customers of one query that the gate lets through, in row order. */
    method Screen(cs: seq<CustomerId>) returns (allowed: seq<CustomerId>)
      ensures allowed == Permitted(Tables(), cs)
    {
      ScreenMeans(Tables(), cs);
      var permitted, _ := Partition(cs, MemberKey, NoPhone(), GateOf(Tables(), {}));
      allowed := permitted;
    }

    method WriteOffers(k: CampaignId, cs: seq<CustomerId>)
      requires forall c | c in cs :: (k, c) in members
      modifies `members
      ensures Tables() == StampExportOffers(old(Tables()), k, cs)
      ensures members.Keys == old(members.Keys)
    {
      for i := 0 to |cs|
        invariant Tables() == StampExportOffers(old(Tables()), k, cs[..i])
        invariant members.Keys == old(members.Keys)
      {
        var c := cs[i];
        var key := (k, c);
        assert cs[..i + 1][..i] == cs[..i] && c in cs;
        assert key in old(members.Keys);
        members := members[key := OfferStamp(members[key], ExportRung(Tables(), k, cs[i]))];
      }
      assert cs[..|cs|] == cs;
    }

    method WriteExposures(k: CampaignId, cs: seq<CustomerId>, now: int, today: int)
      requires forall c | c in cs :: (k, c) in members
      modifies `members, `log
      ensures Tables() == StampExports(old(Tables()), k, cs, now, today)
    {
      for i := 0 to |cs|
        invariant Tables() == StampExports(old(Tables()), k, cs[..i], now, today)
        invariant members.Keys == old(members.Keys)
      {
        var c := cs[i];
        var key := (k, c);
        assert cs[..i + 1][..i] == cs[..i] && c in cs;
        assert key in old(members.Keys);
        if members[key].exposure.None? {
          members := members[key := members[key].(exposure := Some(Exposure(now, today, ExcelExport)))];
        } else {
          assert members[key := members[key]] == members;
        }
        log := log + [Exported(k, cs[i], now, today)];
      }
      assert cs[..|cs|] == cs;
    }

    method ExportCampaign(k: CampaignId, now: int, today: int) returns (targets: seq<CustomerId>)
      requires Valid()
      modifies this
      ensures Valid() && Tables() == ExportStep(old(Tables()), k, now, today)
      ensures targets == ExportTargets(old(Tables()), k)
    {
      ExportKeeps(Tables(), k, now, today);
      TargetsOfExport(Tables(), k);
      targets := Screen(TreatmentArm(Tables(), k));
      if targets == [] {
        return;
      }
      WriteExport(k, targets, now, today);
    }

    /** The stamps of an export with somebody to contact. */
    method WriteExport(k: CampaignId, targets: seq<CustomerId>, now: int, today: int)
      requires targets == ExportTargets(Tables(), k) && targets != []
      requires forall c | c in targets :: (k, c) in members
      modifies this
      ensures Tables() == ExportStep(old(Tables()), k, now, today)
    {
      WriteOffers(k, targets);
      WriteExposures(k, targets, now, today);
      if k in campaigns && campaigns[k].exportedAt.None? {
        campaigns := campaigns[k := campaigns[k].(exportedAt := Some(now))];
      }
    }

    /** One pass over the joined rows keeps each customer's best row in a dictionary. */
    method BestRows(k: CampaignId) returns (best: map<CustomerId, Opportunity>)
      requires k in campaigns
      ensures forall c :: IsBest(best, opportunities, campaigns[k].links, c)
    {
      var links := campaigns[k].links;
      best := map[];
      for i := 0 to |links|
        invariant forall c :: IsBest(best, opportunities, links[..i], c)
      {
        var found := FindOpportunity(opportunities, links[i].opportunity);
        var c := links[i].customer;
        ghost var before := best;
        if found.Some? {
          if c !in best || found.value.score > best[c].score {
            best := best[c := found.value];
          }
        }
        forall c' {:trigger IsBest(best, opportunities, links[..i + 1], c')}
          ensures IsBest(best, opportunities, links[..i + 1], c')
        {
          IsBestStep(before, best, opportunities, links, i, c');
        }
      }
      assert links[..|links|] == links;
    }

    method SendDrafts(k: CampaignId, template: Template, cs: seq<CustomerId>) returns (drafts: seq<Draft>)
      requires k in campaigns
      ensures drafts == DraftsFor(Tables(), campaigns[k].links, template, cs)
    {
      var best := BestRows(k);
      drafts := [];
      for i := 0 to |cs|
        invariant |drafts| == i
        invariant forall j | 0 <= j < i :: drafts[j] == MakeDraft(Tables(), campaigns[k].links, template, cs[j])
      {
        BestDraft(Tables(), best, campaigns[k].links, template, cs[i]);
        drafts := drafts + [DraftFrom(Tables(), if cs[i] in best then Some(best[cs[i]]) else None, template, cs[i])];
      }
    }

    ghost predicate PriorOk(prior: map<CustomerId, nat>, k: CampaignId)
      reads `sends
    {
      forall c :: IsPrior(sends, prior, k, c)
    }

    /** The rows this campaign already has, by customer. */
    method PriorRows(k: CampaignId) returns (prior: map<CustomerId, nat>)
      requires UniqueRows(sends)
      ensures PriorOk(prior, k)
    {
      prior := map[];
      for i := 0 to |sends|
        invariant forall c | c in prior :: prior[c] < i && IsRow(sends[prior[c]], k, c)
        invariant forall j | 0 <= j < i :: sends[j].campaign == k ==> sends[j].customer in prior
      {
        if sends[i].campaign == k {
          prior := prior[sends[i].customer := i];
        }
      }
    }

    method PendingOnly(k: CampaignId, arm: seq<CustomerId>, prior: map<CustomerId, nat>)
      returns (pending: seq<CustomerId>)
      requires PriorOk(prior, k)
      ensures pending == Undelivered(Tables(), k, arm)
    {
      ghost var s := Tables();
      ghost var open := c => !Delivered(s, k, c);
      pending := [];
      for i := 0 to |arm|
        invariant pending == Filter(arm[..i], open)
      {
        FilterStep(arm, open, i);
        assert IsPrior(sends, prior, k, arm[i]);
        if arm[i] !in prior || !sends[prior[arm[i]]].status.Sent? {
          pending := pending + [arm[i]];
        }
      }
      assert arm[..|arm|] == arm;
    }

    /** The loop over the drafts: one row each, in place where the member has one already. */
    method RecordSends(k: CampaignId, o: SendOrder, drafts: seq<Draft>, prior: map<CustomerId, nat>)
        returns (tally: Tally)
      requires PriorOk(prior, k)
      requires forall i, j | 0 <= i < j < |drafts| :: drafts[i].customer != drafts[j].customer
      modifies `sends, `members, `log
      ensures Tables() == SendAll(old(Tables()), k, o, drafts)
      ensures tally == TallyOf(o, drafts)
    {
      tally := Tally(0, 0, 0, 0, 0, 0, 0);
      for i := 0 to |drafts|
        invariant Tables() == SendAll(old(Tables()), k, o, drafts[..i])
        invariant tally == TallyOf(o, drafts[..i])
        invariant forall j | i <= j < |drafts| :: IsPrior(sends, prior, k, drafts[j].customer)
      {
        assert drafts[..i + 1][..i] == drafts[..i];
        forall j | i < j < |drafts|
          ensures IsPrior(Upsert(sends, RowOf(k, o, drafts[i])), prior, k, drafts[j].customer)
        {
          assert IsPrior(sends, prior, k, drafts[j].customer);
          UpsertIndex(sends, RowOf(k, o, drafts[i]), drafts[j].customer);
        }
        RecordSend(k, o, drafts[i], prior);
        tally := TallyOne(tally, o, drafts[i]);
      }
      assert drafts[..|drafts|] == drafts;
    }

    /** The row of one draft, in place where the member has one already, and the member's stamps. */
    method RecordSend(k: CampaignId, o: SendOrder, d: Draft, prior: map<CustomerId, nat>)
      requires IsPrior(sends, prior, k, d.customer)
      modifies `sends, `members, `log
      ensures Tables() == SendOne(old(Tables()), k, o, d)
    {
      var row := RowOf(k, o, d);
      if d.customer in prior {
        sends := sends[prior[d.customer] := row];
      } else {
        sends := sends + [row];
      }
      var key := (k, d.customer);
      if Billable(o, d) && key in members {
        members := members[key := StampSms(members[key], o, d)];
      }
      log := log + SmsEvents(k, o, d);
    }

    method SendSms(k: CampaignId, o: SendOrder) returns (report: Option<Tally>)
      requires Valid()
      modifies this
      ensures Valid() && Tables() == SendStep(old(Tables()), k, o)
      ensures report == if IsOpen(old(Tables()), k) && SendTargets(old(Tables()), k, o) != []
                        then Some(TallyOf(o, Drafts(old(Tables()), k, o, SendTargets(old(Tables()), k, o)))) else None
    {
      SendKeeps(Tables(), k, o);
      if !(k in campaigns && campaigns[k].closedAt.None?) {
        return None;
      }
      TargetsPending(Tables(), k, o);
      var prior := PriorRows(k);
      var pending := PendingOnly(k, TreatmentArm(Tables(), k), prior);
      var allowed := Screen(pending);
      var targets := allowed[..Min(o.limit, |allowed|)];
      assert targets == SendTargets(Tables(), k, o);
      if targets == [] {
        return None;
      }
      var drafts := SendDrafts(k, o.template, targets);
      var tally := RecordSends(k, o, drafts, prior);
      report := Some(tally);
    }

    method CloseCampaign(k: CampaignId, now: int)
      requires Valid()
      modifies this
      ensures Valid() && Tables() == CloseStep(old(Tables()), k, now)
    {
      ApplyKeeps(Tables(), Close(k, now));
      if k in campaigns {
        campaigns := campaigns[k := campaigns[k].(closedAt := Some(now))];
      }
    }

    /** The cost query: the sum over the real, successful rows, or nothing if there are none. */
    method CampaignCost(k: CampaignId) returns (cost: Option<int>)
      ensures cost == ContactCost(sends, k)
    {
      var total, rows := 0, 0;
      for i := 0 to |sends|
        invariant total == BilledRows(sends[..i], k)
        invariant rows > 0 <==> exists r | r in sends[..i] :: r.campaign == k && RealSent(r)
        invariant rows >= 0
      {
        assert sends[..i + 1][..i] == sends[..i];
        assert forall r :: r in sends[..i + 1] <==> r in sends[..i] || r == sends[i];
        if sends[i].campaign == k && RealSent(sends[i]) {
          total, rows := total + sends[i].cost, rows + 1;
        }
      }
      assert sends[..|sends|] == sends;
      cost := if rows == 0 then None else Some(total);
    }
  }
}
