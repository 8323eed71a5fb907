/** The tables behind a campaign experiment, and what every request reads from them:
    the contact gate, the linked opportunities and the drafts. One business. Tables with
    a natural key are maps; `campaign_sends` and `opportunities` are sequences of rows. */
module CampaignModel {
  import opened Prelude
  import opened Ranking
  import opened Decimal
  import opened PhoneNumber

  type CustomerId = int
  type CampaignId = nat
  type OpportunityId = int

  const DAY := 86_400
  const FATIGUE_WINDOW_DAYS := 14
  const SEGMENT_CHARS_SINGLE := 70
  const SEGMENT_CHARS_MULTIPART := 67

  /** One string space holds both `str(customers.id)` and the raw keys of sales files,
      so a raw key may coincide with the number of somebody else. */
  datatype Key = Num(id: int) | Raw(text: string)

  /** `rawKeys` are the keys of sales files; `keys` the other identifiers on record. */
  datatype Customer = Customer(name: string, phone: Option<string>, keys: set<Key>, rawKeys: set<Key>)

  /** An active row of the opt-out register: a customer, a phone number, or both. Numbers in
      the tables are in normal form. */
  datatype Suppression = Suppression(customer: Option<CustomerId>, phone: Option<string>)

  datatype Offer = Offer(bp: nat, approved: bool)

  datatype Slot = NameSlot | DiscountSlot | OtherSlot

  /** A message template as the placeholder scan sees it. `source` is the placeholder as
      written, braces and blanks included; blanks around the name do not change its slot. */
  datatype Piece = Literal(text: string) | Placeholder(slot: Slot, source: string)
  type Template = seq<Piece>

  const DISCOUNT_PLACEHOLDER := "{تخفیف}"
  const DEFAULT_NAME := "مشتری گرامی"

  datatype Opportunity = Opportunity(
    id: OpportunityId, customer: Option<CustomerId>, status: string, kind: string,
    score: int, value: int, message: Template, offer: Option<Offer>)

  datatype Arm = Treatment | Control
  datatype Channel = ExcelExport | Sms
  datatype Exposure = Exposure(at: int, date: int, channel: Channel)
  datatype Member = Member(arm: Arm, expectedValue: int, exposure: Option<Exposure>, offer: Option<nat>)
  datatype Link = Link(opportunity: OpportunityId, customer: CustomerId)

  /** `roster` is the members in row order. `closedAt` is set exactly when the status is closed. */
  datatype Campaign = Campaign(
    closedAt: Option<int>, exportedAt: Option<int>, roster: seq<CustomerId>, links: seq<Link>)

  datatype SendStatus = Sent | Failed | Skipped
  datatype SendRow = SendRow(
    campaign: CampaignId, customer: CustomerId, phone: Option<string>, text: string,
    segments: nat, cost: int, dryRun: bool, status: SendStatus, offer: Option<nat>, sentAt: int)

  /** What left the system: a file row, or a message handed to the SMS panel. Previews leave nothing. */
  datatype Event =
    | Exported(campaign: CampaignId, customer: CustomerId, at: int, date: int)
    | CampaignSms(campaign: CampaignId, customer: CustomerId, at: int, date: int,
                  accepted: bool, rung: Option<nat>, cost: int)
    | OtherSms(key: Key, phone: string)

  datatype State = State(
    campaigns: map<CampaignId, Campaign>,
    nextId: CampaignId,
    members: map<(CampaignId, CustomerId), Member>,
    sends: seq<SendRow>,
    opportunities: seq<Opportunity>,
    customers: map<CustomerId, Customer>,
    register: set<Suppression>,
    log: seq<Event>)

  const EMPTY := State(map[], 0, map[], [], [], map[], {}, [])

  // ---------------------------------------------------------------- contact gate

  function KeysOf(s: State, c: CustomerId): set<Key> {
    {Num(c)} + if c in s.customers then s.customers[c].keys + s.customers[c].rawKeys else {}
  }

  function Expand(s: State, ids: set<CustomerId>): set<Key> {
    set c, k | c in ids && k in KeysOf(s, c) :: k
  }

  predicate IsOpen(s: State, k: CampaignId) {
    k in s.campaigns && s.campaigns[k].closedAt.None?
  }

  function ControlIds(s: State): set<CustomerId> {
    set p | p in s.members && s.members[p].arm.Control? && IsOpen(s, p.0) :: p.1
  }

  function SuppressedPhones(s: State): set<string> {
    set r | r in s.register && r.phone.Some? :: r.phone.value
  }

  /** Customers in the register by id, or through a registered number that is now theirs. */
  function SuppressedIds(s: State): set<CustomerId> {
    (set r | r in s.register && r.customer.Some? :: r.customer.value) +
    (set c | c in s.customers && s.customers[c].phone.Some?
             && s.customers[c].phone.value in SuppressedPhones(s))
  }

  /** The gate as a decision: opted out, then control, then recently contacted. */
  predicate Blocked(s: State, key: Key, phone: Option<string>, recent: set<Key>) {
    || key in Expand(s, SuppressedIds(s))
    || (phone.Some? && phone.value != "" && phone.value in SuppressedPhones(s))
    || key in Expand(s, ControlIds(s))
    || key in recent
  }

  predicate MayContact(s: State, c: CustomerId) {
    !Blocked(s, Num(c), None, {})
  }

  /** Customers whose exposure stamp lies in the fatigue window that ends at `now`. */
  function RecentExposures(s: State, now: int): set<CustomerId> {
    set p | p in s.members && s.members[p].exposure.Some?
            && now - FATIGUE_WINDOW_DAYS * DAY <= s.members[p].exposure.value.at <= now :: p.1
  }

  /** The customers that one of these keys of sales files denotes. */
  function OwnersOf(s: State, keys: set<Key>): set<CustomerId> {
    set c | c in s.customers && s.customers[c].rawKeys * keys != {}
  }

  /** Everybody contacted recently, by a campaign or, as `legacy` says, through the outbox, under
      every key. */
  function RecentContactKeys(s: State, legacy: set<Key>, now: int): set<Key> {
    Expand(s, RecentExposures(s, now) + OwnersOf(s, legacy)) + legacy
  }

  // ---------------------------------------------------------------- opportunities and drafts

  function FindOpportunity(rows: seq<Opportunity>, id: OpportunityId): Option<Opportunity> {
    if rows == [] then None
    else if rows[0].id == id then Some(rows[0])
    else FindOpportunity(rows[1..], id)
  }

  /** The join of a campaign's links with the opportunities, for one customer, in link order. */
  function LinkedRows(rows: seq<Opportunity>, links: seq<Link>, c: CustomerId): (r: seq<Opportunity>)
    ensures forall o :: o in r ==>
      exists l | l in links :: l.customer == c && FindOpportunity(rows, l.opportunity) == Some(o)
  {
    if links == [] then []
    else
      var n := |links| - 1;
      var found := FindOpportunity(rows, links[n].opportunity);
      LinkedRows(rows, links[..n], c)
      + if links[n].customer == c && found.Some? then [found.value] else []
  }

  /** The first row with the largest score: the one whose text and offer an SMS uses. */
  function BestByScore(rows: seq<Opportunity>): (best: Option<Opportunity>)
    ensures best.None? <==> rows == []
    ensures best.Some? ==> best.value in rows && forall o | o in rows :: o.score <= best.value.score
  {
    if rows == [] then None
    else
      var n := |rows| - 1;
      var best := BestByScore(rows[..n]);
      if best.None? || rows[n].score > best.value.score then Some(rows[n]) else best
  }

  /** The export sorts a member's rows by (-value, kind); this is the first of them. */
  function BestByValue(rows: seq<Opportunity>): (best: Option<Opportunity>)
    ensures best.None? <==> rows == []
    ensures best.Some? ==> best.value in rows && forall o | o in rows :: o.value <= best.value.value
  {
    if rows == [] then None
    else
      var n := |rows| - 1;
      var best := BestByValue(rows[..n]);
      if best.None? || rows[n].value > best.value.value
         || (rows[n].value == best.value.value && TextLess(rows[n].kind, best.value.kind))
      then Some(rows[n]) else best
  }

  /** The discount of an opportunity, if a person approved it and it is not zero. */
  function ApprovedRung(best: Option<Opportunity>): Option<nat> {
    if best.Some? && best.value.offer.Some? && best.value.offer.value.approved
       && best.value.offer.value.bp != 0
    then Some(best.value.offer.value.bp) else None
  }

  /** Basis points as a percentage with the trailing zeros dropped, as the `g` format writes it. */
  function DiscountText(bp: nat): string {
    DigitsOf(bp / 100)
    + (if bp % 100 == 0 then ""
       else if bp % 10 == 0 then "." + DigitsOf(bp % 100 / 10)
       else if bp % 100 < 10 then ".0" + DigitsOf(bp % 100)
       else "." + DigitsOf(bp % 100))
    + "٪"
  }

  function RenderPiece(p: Piece, name: string, rung: Option<nat>): string {
    match p
    case Literal(text) => text
    case Placeholder(NameSlot, _) => name
    case Placeholder(DiscountSlot, source) => if rung.Some? then DiscountText(rung.value) else source
    case Placeholder(OtherSlot, source) => source
  }

  function Render(t: Template, name: string, rung: Option<nat>): string {
    if t == [] then "" else Render(t[..|t| - 1], name, rung) + RenderPiece(t[|t| - 1], name, rung)
  }

  /** The template holds the placeholder exactly as the offer rule looks for it. */
  predicate NeedsOffer(t: Template) {
    Placeholder(DiscountSlot, DISCOUNT_PLACEHOLDER) in t
  }

  function SegmentCount(text: string): nat {
    var n := |text|;
    if n == 0 then 0
    else if n <= SEGMENT_CHARS_SINGLE then 1
    else (n + SEGMENT_CHARS_MULTIPART - 1) / SEGMENT_CHARS_MULTIPART
  }

  datatype Draft = Draft(
    customer: CustomerId, phone: Option<string>, text: string, offer: Option<nat>, blocked: bool)

  predicate HasPhone(d: Draft) {
    d.phone.Some? && d.phone.value != ""
  }

  predicate Sendable(d: Draft) {
    HasPhone(d) && d.text != ""
  }

  /** The text, number and offer of one member. An empty template counts as none given. */
  function MakeDraft(s: State, links: seq<Link>, template: Template, c: CustomerId): Draft {
    var best := BestByScore(LinkedRows(s.opportunities, links, c));
    DraftFrom(s, best, template, c)
  }

  function DraftFrom(s: State, best: Option<Opportunity>, template: Template, c: CustomerId): Draft {
    var name := if c in s.customers && s.customers[c].name != "" then s.customers[c].name else DEFAULT_NAME;
    var rung := ApprovedRung(best);
    var source := if template != [] then template else if best.Some? then best.value.message else [];
    var needs := NeedsOffer(source);
    var blocked := needs && rung.None?;
    Draft(c,
          if c in s.customers then Stored(s.customers[c].phone) else None,
          if blocked then "" else Render(source, name, rung),
          if needs && !blocked then rung else None,
          blocked)
  }

  // ---------------------------------------------------------------- send rows

  predicate IsRow(r: SendRow, k: CampaignId, c: CustomerId) {
    r.campaign == k && r.customer == c
  }

  function RowIndex(rows: seq<SendRow>, k: CampaignId, c: CustomerId): (i: nat)
    ensures i <= |rows|
    ensures i < |rows| ==> IsRow(rows[i], k, c)
    ensures forall j | 0 <= j < i :: !IsRow(rows[j], k, c)
  {
    if rows == [] then 0
    else
      var n := |rows| - 1;
      var i := RowIndex(rows[..n], k, c);
      if i < n then i else if IsRow(rows[n], k, c) then n else n + 1
  }

  function FindRow(rows: seq<SendRow>, k: CampaignId, c: CustomerId): Option<SendRow> {
    var i := RowIndex(rows, k, c);
    if i < |rows| then Some(rows[i]) else None
  }

  predicate Delivered(s: State, k: CampaignId, c: CustomerId) {
    var r := FindRow(s.sends, k, c);
    r.Some? && r.value.status.Sent?
  }

  predicate RealSent(r: SendRow) {
    r.status.Sent? && !r.dryRun
  }

  predicate ReallyDelivered(s: State, k: CampaignId, c: CustomerId) {
    var r := FindRow(s.sends, k, c);
    r.Some? && RealSent(r.value)
  }

  /** The unique constraint of `campaign_sends`. */
  predicate UniqueRows(rows: seq<SendRow>) {
    forall i, j | 0 <= i < j < |rows| :: !IsRow(rows[j], rows[i].campaign, rows[i].customer)
  }
}
