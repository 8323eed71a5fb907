/** What each request does to the tables, as a function of the state before it. A refused
    request (unknown or closed campaign, nobody left to contact) changes nothing. */
module CampaignSteps {
  import opened Prelude
  import opened Ranking
  import opened CampaignModel
  import opened PhoneNumber

  // ---------------------------------------------------------------- create

  /** `status` None is the filter "all"; `legacy` is the recent real contacts of the outbox;
      `arms` is the randomised assignment of the selected customers. */
  datatype CreateOrder = CreateOrder(
    status: Option<string>, kind: Option<string>, limit: nat, legacy: set<Key>, arms: map<CustomerId, Arm>)

  predicate HigherScore(a: Opportunity, b: Opportunity) {
    a.score > b.score || (a.score == b.score && a.id < b.id)
  }

  predicate Matches(o: CreateOrder, row: Opportunity) {
    && row.customer.Some?
    && (o.status.None? || row.status == o.status.value)
    && (o.kind.None? || row.kind == o.kind.value)
  }

  function CustomerOf(row: Opportunity): CustomerId {
    if row.customer.Some? then row.customer.value else 0
  }

  predicate Eligible(s: State, o: CreateOrder, now: int, row: Opportunity) {
    !Blocked(s, Num(CustomerOf(row)), None, RecentContactKeys(s, o.legacy, now))
  }

  function Candidates(s: State, o: CreateOrder): seq<Opportunity> {
    Sort(Filter(s.opportunities, row => Matches(o, row)), HigherScore)
  }

  function EligibleRows(s: State, o: CreateOrder, now: int): seq<Opportunity> {
    Filter(Candidates(s, o), row => Eligible(s, o, now, row))
  }

  function Selected(s: State, o: CreateOrder, now: int): seq<Opportunity> {
    var rows := EligibleRows(s, o, now);
    rows[..Min(o.limit, |rows|)]
  }

  function ExpectedFor(rows: seq<Opportunity>, c: CustomerId): int {
    if rows == [] then 0
    else
      var n := |rows| - 1;
      ExpectedFor(rows[..n], c) + if CustomerOf(rows[n]) == c then rows[n].value else 0
  }

  function Roster(rows: seq<Opportunity>): seq<CustomerId> {
    Dedup(Map(rows, CustomerOf))
  }

  function ArmOf(o: CreateOrder, c: CustomerId): Arm {
    if c in o.arms then o.arms[c] else Treatment
  }

  function NewMembers(k: CampaignId, o: CreateOrder, rows: seq<Opportunity>, cs: seq<CustomerId>)
    : (m: map<(CampaignId, CustomerId), Member>)
    ensures forall p :: p in m <==> p.0 == k && p.1 in cs
    ensures forall c | c in cs :: m[(k, c)] == Member(ArmOf(o, c), ExpectedFor(rows, c), None, None)
  {
    if cs == [] then map[]
    else
      var n := |cs| - 1;
      NewMembers(k, o, rows, cs[..n])[(k, cs[n]) := Member(ArmOf(o, cs[n]), ExpectedFor(rows, cs[n]), None, None)]
  }

  function AddCampaign(s: State, o: CreateOrder, rows: seq<Opportunity>): State {
    var k := s.nextId;
    var roster := Roster(rows);
    s.(campaigns := s.campaigns[k := Campaign(None, None, roster,
                                              Map(rows, (row: Opportunity) => Link(row.id, CustomerOf(row))))],
       nextId := k + 1,
       members := s.members + NewMembers(k, o, rows, roster))
  }

  function CreateStep(s: State, o: CreateOrder, now: int): State {
    var rows := Selected(s, o, now);
    if rows == [] then s else AddCampaign(s, o, rows)
  }

  // ---------------------------------------------------------------- export

  function TreatmentArm(s: State, k: CampaignId): seq<CustomerId> {
    if k in s.campaigns
    then Filter(s.campaigns[k].roster, c => (k, c) in s.members && s.members[(k, c)].arm.Treatment?)
    else []
  }

  function ExportRung(s: State, k: CampaignId, c: CustomerId): Option<nat> {
    if k in s.campaigns
    then ApprovedRung(BestByValue(LinkedRows(s.opportunities, s.campaigns[k].links, c)))
    else None
  }

  /** An export stamps an offer only where none is and no SMS was the first contact. */
  function OfferStamp(m: Member, rung: Option<nat>): Member {
    var bySms := m.exposure.Some? && m.exposure.value.channel.Sms?;
    if rung.Some? && !bySms && m.offer.None? then m.(offer := rung) else m
  }

  function StampExportOffer(s: State, k: CampaignId, c: CustomerId): State {
    if (k, c) !in s.members then s
    else s.(members := s.members[(k, c) := OfferStamp(s.members[(k, c)], ExportRung(s, k, c))])
  }

  function Expose(m: Member, at: int, date: int, channel: Channel): Member {
    if m.exposure.None? then m.(exposure := Some(Exposure(at, date, channel))) else m
  }

  function StampExport(s: State, k: CampaignId, c: CustomerId, now: int, today: int): State {
    if (k, c) !in s.members then s
    else s.(members := s.members[(k, c) := Expose(s.members[(k, c)], now, today, ExcelExport)],
            log := s.log + [Exported(k, c, now, today)])
  }

  function StampExportOffers(s: State, k: CampaignId, cs: seq<CustomerId>): State {
    if cs == [] then s
    else StampExportOffer(StampExportOffers(s, k, cs[..|cs| - 1]), k, cs[|cs| - 1])
  }

  function StampExports(s: State, k: CampaignId, cs: seq<CustomerId>, now: int, today: int): State {
    if cs == [] then s
    else StampExport(StampExports(s, k, cs[..|cs| - 1], now, today), k, cs[|cs| - 1], now, today)
  }

  function MarkExported(s: State, k: CampaignId, now: int): State {
    if k in s.campaigns && s.campaigns[k].exportedAt.None?
    then s.(campaigns := s.campaigns[k := s.campaigns[k].(exportedAt := Some(now))]) else s
  }

  function Permitted(s: State, cs: seq<CustomerId>): seq<CustomerId> {
    Filter(cs, c => MayContact(s, c))
  }

  function ExportTargets(s: State, k: CampaignId): seq<CustomerId> {
    Permitted(s, TreatmentArm(s, k))
  }

  function ExportStep(s: State, k: CampaignId, now: int, today: int): State {
    var targets := ExportTargets(s, k);
    if targets == [] then s
    else MarkExported(StampExports(StampExportOffers(s, k, targets), k, targets, now, today), k, now)
  }

  // ---------------------------------------------------------------- send

  /** `errors` is the customers whose panel reply reports an error. */
  datatype SendOrder = SendOrder(
    template: Template, dryRun: bool, confirm: bool, limit: nat, smsConfigured: bool,
    costPerSegment: int, errors: set<CustomerId>, now: int, today: int)

  predicate RealSend(o: SendOrder) {
    !o.dryRun && o.confirm && o.smsConfigured
  }

  /** The dry-run provider never reports an error. */
  function StatusOf(o: SendOrder, d: Draft): SendStatus {
    if !HasPhone(d) then Skipped
    else if d.blocked then Skipped
    else if d.text == "" then Skipped
    else if RealSend(o) && d.customer in o.errors then Failed
    else Sent
  }

  predicate Billable(o: SendOrder, d: Draft) {
    RealSend(o) && StatusOf(o, d).Sent?
  }

  function CostOf(o: SendOrder, d: Draft): int {
    if Billable(o, d) then SegmentCount(d.text) * o.costPerSegment else 0
  }

  function RowOf(k: CampaignId, o: SendOrder, d: Draft): SendRow {
    var status := StatusOf(o, d);
    SendRow(k, d.customer, d.phone, d.text,
            if Sendable(d) then SegmentCount(d.text) else 0,
            CostOf(o, d), !RealSend(o), status,
            if status.Sent? then d.offer else None, o.now)
  }

  function Upsert(rows: seq<SendRow>, r: SendRow): seq<SendRow> {
    var i := RowIndex(rows, r.campaign, r.customer);
    if i < |rows| then rows[i := r] else rows + [r]
  }

  function StampSms(m: Member, o: SendOrder, d: Draft): Member {
    var e := Expose(m, o.now, o.today, Sms);
    if d.offer.Some? then e.(offer := d.offer) else e
  }

  function SmsEvents(k: CampaignId, o: SendOrder, d: Draft): seq<Event> {
    if RealSend(o) && Sendable(d)
    then [CampaignSms(k, d.customer, o.now, o.today, StatusOf(o, d).Sent?, d.offer, CostOf(o, d))]
    else []
  }

  function SendOne(s: State, k: CampaignId, o: SendOrder, d: Draft): State {
    var key := (k, d.customer);
    s.(sends := Upsert(s.sends, RowOf(k, o, d)),
       members := if Billable(o, d) && key in s.members
                  then s.members[key := StampSms(s.members[key], o, d)] else s.members,
       log := s.log + SmsEvents(k, o, d))
  }

  function SendAll(s: State, k: CampaignId, o: SendOrder, ds: seq<Draft>): State {
    if ds == [] then s else SendOne(SendAll(s, k, o, ds[..|ds| - 1]), k, o, ds[|ds| - 1])
  }

  function Undelivered(s: State, k: CampaignId, cs: seq<CustomerId>): seq<CustomerId> {
    Filter(cs, c => !Delivered(s, k, c))
  }

  function SendTargets(s: State, k: CampaignId, o: SendOrder): seq<CustomerId> {
    var allowed := Permitted(s, Undelivered(s, k, TreatmentArm(s, k)));
    allowed[..Min(o.limit, |allowed|)]
  }

  function DraftsFor(s: State, links: seq<Link>, template: Template, cs: seq<CustomerId>): (ds: seq<Draft>)
    ensures |ds| == |cs|
    ensures forall i | 0 <= i < |cs| :: ds[i] == MakeDraft(s, links, template, cs[i])
  {
    Map(cs, c => MakeDraft(s, links, template, c))
  }

  function Drafts(s: State, k: CampaignId, o: SendOrder, cs: seq<CustomerId>): seq<Draft>
    requires k in s.campaigns
  {
    DraftsFor(s, s.campaigns[k].links, o.template, cs)
  }

  function SendStep(s: State, k: CampaignId, o: SendOrder): State {
    if !IsOpen(s, k) then s
    else SendAll(s, k, o, Drafts(s, k, o, SendTargets(s, k, o)))
  }

  /** The counters of the response. */
  datatype Tally = Tally(sent: nat, failed: nat, noPhone: nat, noText: nat, noOffer: nat, segments: nat, cost: int)

  function TallyOne(t: Tally, o: SendOrder, d: Draft): Tally {
    var status := StatusOf(o, d);
    t.(sent := t.sent + if status.Sent? then 1 else 0,
       failed := t.failed + if status.Failed? then 1 else 0,
       noPhone := t.noPhone + if !HasPhone(d) then 1 else 0,
       noOffer := t.noOffer + if HasPhone(d) && d.blocked then 1 else 0,
       noText := t.noText + if HasPhone(d) && d.text == "" && !d.blocked then 1 else 0,
       segments := t.segments + if Billable(o, d) then SegmentCount(d.text) else 0,
       cost := t.cost + CostOf(o, d))
  }

  function TallyOf(o: SendOrder, ds: seq<Draft>): Tally {
    if ds == [] then Tally(0, 0, 0, 0, 0, 0, 0) else TallyOne(TallyOf(o, ds[..|ds| - 1]), o, ds[|ds| - 1])
  }

  // ---------------------------------------------------------------- close and the other paths

  function CloseStep(s: State, k: CampaignId, now: int): State {
    if k in s.campaigns
    then s.(campaigns := s.campaigns[k := s.campaigns[k].(closedAt := Some(now))]) else s
  }

  /** A session SMS, with the recent contacts of the outbox, or a cycle reminder, without any.
      The number of a recipient is the text of the sales file, as it was typed. When the ledger
      cannot be read the gate is built empty and only those contacts still block. */
  datatype Recipient = Recipient(key: Key, phone: Option<string>)
  datatype OtherOrder = OtherOrder(
    recipients: seq<Recipient>, legacy: Option<set<Key>>, ledgerUp: bool, forReal: bool, now: int)

  function RecentKeys(s: State, o: OtherOrder): set<Key> {
    match o.legacy
    case None => {}
    case Some(legacy) => if o.ledgerUp then RecentContactKeys(s, legacy, o.now) else legacy
  }

  predicate OtherAllowed(s: State, o: OtherOrder, r: Recipient) {
    if o.ledgerUp then !Blocked(s, r.key, r.phone, RecentKeys(s, o)) else r.key !in RecentKeys(s, o)
  }

  predicate Reached(s: State, o: OtherOrder, r: Recipient) {
    o.forReal && OtherAllowed(s, o, r) && r.phone.Some? && r.phone.value != ""
  }

  function OtherEvents(s: State, o: OtherOrder): seq<Event> {
    Map(Filter(o.recipients, r => Reached(s, o, r)),
        (r: Recipient) => OtherSms(r.key, if r.phone.Some? then r.phone.value else ""))
  }

  function OtherStep(s: State, o: OtherOrder): State {
    s.(log := s.log + OtherEvents(s, o))
  }

  // ---------------------------------------------------------------- runs

  /** Imported customers keep their number in normal form, if it has one. */
  function StoreCustomers(customers: map<CustomerId, Customer>): map<CustomerId, Customer> {
    map c | c in customers :: customers[c].(phone := Stored(customers[c].phone))
  }

  function StoreOptOut(r: Suppression): Suppression {
    Suppression(r.customer, Stored(r.phone))
  }

  /** An opt-out is refused when it names neither a customer nor a valid number. */
  function StoreOptOuts(register: set<Suppression>): set<Suppression> {
    set r | r in register && (r.customer.Some? || Stored(r.phone).Some?) :: StoreOptOut(r)
  }

  /** `Outside` is everything other modules may do between two requests: the opportunity
      engine, offer approvals, customer imports and the opt-out register. */
  datatype Request =
    | Create(create: CreateOrder, at: int)
    | Export(campaign: CampaignId, at: int, date: int)
    | Send(campaign: CampaignId, order: SendOrder)
    | Close(campaign: CampaignId, at: int)
    | Other(other: OtherOrder)
    | Outside(opportunities: seq<Opportunity>, customers: map<CustomerId, Customer>, register: set<Suppression>)

  function Apply(s: State, r: Request): State {
    match r
    case Create(o, at) => CreateStep(s, o, at)
    case Export(k, at, date) => ExportStep(s, k, at, date)
    case Send(k, o) => SendStep(s, k, o)
    case Close(k, at) => CloseStep(s, k, at)
    case Other(o) => OtherStep(s, o)
    case Outside(opportunities, customers, register) =>
      s.(opportunities := opportunities, customers := StoreCustomers(customers), register := StoreOptOuts(register))
  }

  function Run(rs: seq<Request>): State {
    if rs == [] then EMPTY else Apply(Run(rs[..|rs| - 1]), rs[|rs| - 1])
  }
}
