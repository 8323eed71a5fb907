/** Runs that show the exceptions to be real: one customer, one campaign, from the empty tables. */
module CampaignWitnesses {
  import opened Prelude
  import opened Ranking
  import opened PhoneNumber
  import opened CampaignModel
  import opened CampaignSteps
  import opened CampaignHistory
  import opened CampaignTheorems
  import opened CampaignContacts
  import opened OfferText

  // ---------------------------------------------------------------- a campaign for one customer

  function Person(n: string): Customer {
    Customer("", Some("+98" + n), {}, {})
  }

  function People(c: CustomerId, n: string): map<CustomerId, Customer> {
    map[c := Person(n)]
  }

  /** Rows of one customer, best score first. */
  ghost predicate RowsOf(rows: seq<Opportunity>, c: CustomerId) {
    && rows != [] && (forall row | row in rows :: row.customer == Some(c))
    && forall i, j | 0 <= i < j < |rows| :: rows[i].score > rows[j].score
  }

  function OrderAll(rows: seq<Opportunity>): CreateOrder {
    CreateOrder(None, None, |rows|, {}, map[])
  }

  /** The tables are filled and a campaign is made of all rows. */
  function Opening(rows: seq<Opportunity>, c: CustomerId, n: string): seq<Request> {
    [Outside(rows, People(c, n), {}), Create(OrderAll(rows), 0)]
  }

  function LinkOf(row: Opportunity): Link {
    Link(row.id, CustomerOf(row))
  }

  /** The tables after that. */
  function Opened(rows: seq<Opportunity>, c: CustomerId, n: string): State {
    State(map[0 := Campaign(None, None, [c], Map(rows, LinkOf))], 1,
          map[(0, c) := Member(Treatment, ExpectedFor(rows, c), None, None)],
          [], rows, People(c, n), {}, [])
  }

  lemma {:induction false} AllMatch(rows: seq<Opportunity>, p: Opportunity -> bool)
    requires forall row | row in rows :: p(row)
    ensures Filter(rows, p) == rows
  {
    forall i | 0 <= i < |rows| ensures p(rows[i]) {
      assert rows[i] in rows;
    }
    FilterAll(rows, p);
  }

  lemma {:induction false} OneRoster(rows: seq<Opportunity>, c: CustomerId)
    requires rows != [] && forall row | row in rows :: row.customer == Some(c)
    ensures Roster(rows) == [c]
  {
    var n := |rows| - 1;
    assert rows[n] in rows && forall row | row in rows[..n] :: row in rows;
    var cs := Map(rows, CustomerOf);
    assert cs[..n] == Map(rows[..n], CustomerOf) && cs[n] == c;
    if n > 0 {
      OneRoster(rows[..n], c);
    } else {
      assert Dedup(cs[..0]) == [];
    }
  }

  /** With nobody opted out and nobody held as a control, the gate without fatigue is open. */
  lemma OpenGate(s: State, c: CustomerId)
    requires s.register == {} && forall p | p in s.members :: s.members[p].arm.Treatment?
    ensures MayContact(s, c) && SuppressedPhones(s) == {} && !Blocked(s, Num(c), None, {})
  {
    assert SuppressedPhones(s) == {} && SuppressedIds(s) == {} && ControlIds(s) == {};
  }

  /** The tables before the campaign. */
  function Filled(rows: seq<Opportunity>, c: CustomerId, n: string): State {
    State(map[], 0, map[], [], rows, People(c, n), {}, [])
  }

  lemma RowsAreOrdered(rows: seq<Opportunity>, c: CustomerId)
    requires RowsOf(rows, c)
    ensures Ordered(rows, HigherScore)
  {
  }

  lemma AllCandidates(s: State, o: CreateOrder, c: CustomerId)
    requires RowsOf(s.opportunities, c) && o.status.None? && o.kind.None?
    ensures Candidates(s, o) == s.opportunities
  {
    AllMatch(s.opportunities, row => Matches(o, row));
    RowsAreOrdered(s.opportunities, c);
    SortOfOrdered(s.opportunities, HigherScore);
  }

  lemma AllEligible(s: State, o: CreateOrder, now: int)
    requires s.register == {} && s.members == map[] && o.legacy == {}
    ensures forall row :: Eligible(s, o, now, row)
  {
    assert RecentExposures(s, now) == {};
    assert OwnersOf(s, {}) == {} && RecentContactKeys(s, o.legacy, now) == {};
    forall row ensures Eligible(s, o, now, row) {
      OpenGate(s, CustomerOf(row));
    }
  }

  lemma OpenForAll(rows: seq<Opportunity>, c: CustomerId, n: string)
    requires RowsOf(rows, c)
    ensures Selected(Filled(rows, c, n), OrderAll(rows), 0) == rows
  {
    var s, o := Filled(rows, c, n), OrderAll(rows);
    AllCandidates(s, o, c);
    AllEligible(s, o, 0);
    AllMatch(rows, row => Eligible(s, o, 0, row));
    assert rows[..Min(o.limit, |rows|)] == rows;
  }

  lemma FillingRuns(rows: seq<Opportunity>, c: CustomerId, n: string)
    requires IsNational(n)
    ensures Run([Outside(rows, People(c, n), {})]) == Filled(rows, c, n)
  {
    var out := Outside(rows, People(c, n), {});
    assert [out][..0] == [] && Run([out]) == Apply(EMPTY, out);
    SpellingsAgree(Plus, n);
    assert StoreCustomers(People(c, n)) == People(c, n);
    assert StoreOptOuts({}) == {};
  }

  lemma AddingOpens(rows: seq<Opportunity>, c: CustomerId, n: string)
    requires RowsOf(rows, c)
    ensures AddCampaign(Filled(rows, c, n), OrderAll(rows), rows) == Opened(rows, c, n)
  {
    OneRoster(rows, c);
    assert [c][..0] == [];
    assert NewMembers(0, OrderAll(rows), rows, [c])
           == map[(0, c) := Member(Treatment, ExpectedFor(rows, c), None, None)];
    assert Map(rows, (row: Opportunity) => Link(row.id, CustomerOf(row))) == Map(rows, LinkOf);
  }

  lemma OpeningRuns(rows: seq<Opportunity>, c: CustomerId, n: string)
    requires RowsOf(rows, c) && IsNational(n)
    ensures Run(Opening(rows, c, n)) == Opened(rows, c, n)
  {
    var rs := Opening(rows, c, n);
    assert rs[..1] == [Outside(rows, People(c, n), {})];
    FillingRuns(rows, c, n);
    CreatingOpens(rows, c, n);
    assert rs[1] == Create(OrderAll(rows), 0);
  }

  lemma CreatingOpens(rows: seq<Opportunity>, c: CustomerId, n: string)
    requires RowsOf(rows, c)
    ensures Apply(Filled(rows, c, n), Create(OrderAll(rows), 0)) == Opened(rows, c, n)
  {
    OpenForAll(rows, c, n);
    AddingOpens(rows, c, n);
  }

  // ---------------------------------------------------------------- steps of that campaign

  /** Campaign 0 is open and `c` is its one member, in the treatment arm; nobody is opted out. */
  ghost predicate Solo(s: State, c: CustomerId, n: string) {
    && IsOpen(s, 0) && s.campaigns[0].roster == [c]
    && (forall p :: p in s.members <==> p == (0, c)) && s.members[(0, c)].arm.Treatment?
    && s.register == {} && s.customers == People(c, n)
  }

  lemma {:induction false} FilterOne(x: CustomerId, p: CustomerId -> bool)
    ensures Filter([x], p) == if p(x) then [x] else []
  {
    assert [x][..0] == [];
  }

  lemma SoloArm(s: State, c: CustomerId, n: string)
    requires Solo(s, c, n)
    ensures TreatmentArm(s, 0) == [c]
  {
    FilterOne(c, x => (0, x) in s.members && s.members[(0, x)].arm.Treatment?);
  }

  lemma SoloPermitted(s: State, c: CustomerId, n: string)
    requires Solo(s, c, n)
    ensures Permitted(s, [c]) == [c] && Permitted(s, []) == []
  {
    OpenGate(s, c);
    FilterOne(c, x => MayContact(s, x));
  }

  lemma SoloUndelivered(s: State, c: CustomerId)
    ensures Undelivered(s, 0, [c]) == if Delivered(s, 0, c) then [] else [c]
  {
    FilterOne(c, x => !Delivered(s, 0, x));
  }

  lemma SoloTargets(s: State, c: CustomerId, n: string, o: SendOrder)
    requires Solo(s, c, n) && o.limit == 1
    ensures SendTargets(s, 0, o) == if Delivered(s, 0, c) then [] else [c]
  {
    SoloArm(s, c, n);
    SoloPermitted(s, c, n);
    SoloUndelivered(s, c);
  }

  /** The tables after an export of the campaign. */
  function AfterExport(s: State, c: CustomerId, now: int, today: int): State
    requires 0 in s.campaigns && (0, c) in s.members
  {
    var offered := OfferStamp(s.members[(0, c)], ExportRung(s, 0, c));
    MarkExported(s.(members := s.members[(0, c) := Expose(offered, now, today, ExcelExport)],
                    log := s.log + [Exported(0, c, now, today)]), 0, now)
  }

  lemma OneOffer(s: State, c: CustomerId)
    ensures StampExportOffers(s, 0, [c]) == StampExportOffer(s, 0, c)
  {
    assert [c][..0] == [];
  }

  lemma OneStamp(s: State, c: CustomerId, now: int, today: int)
    ensures StampExports(s, 0, [c], now, today) == StampExport(s, 0, c, now, today)
  {
    assert [c][..0] == [];
  }

  lemma StampsOfOne(s: State, c: CustomerId, now: int, today: int)
    requires 0 in s.campaigns && (0, c) in s.members
    ensures MarkExported(StampExport(StampExportOffer(s, 0, c), 0, c, now, today), 0, now)
            == AfterExport(s, c, now, today)
  {
    var m := OfferStamp(s.members[(0, c)], ExportRung(s, 0, c));
    var members := s.members[(0, c) := m];
    assert members[(0, c) := Expose(m, now, today, ExcelExport)]
           == s.members[(0, c) := Expose(m, now, today, ExcelExport)];
  }

  lemma SoloExport(s: State, c: CustomerId, n: string, now: int, today: int)
    requires Solo(s, c, n)
    ensures ExportStep(s, 0, now, today) == AfterExport(s, c, now, today)
  {
    SoloArm(s, c, n);
    SoloPermitted(s, c, n);
    assert ExportTargets(s, 0) == [c];
    OneOffer(s, c);
    OneStamp(StampExportOffer(s, 0, c), c, now, today);
    StampsOfOne(s, c, now, today);
  }

  lemma SoloAfterExport(s: State, c: CustomerId, n: string, now: int, today: int)
    requires Solo(s, c, n)
    ensures Solo(AfterExport(s, c, now, today), c, n)
  {
  }

  /** An order with a template without placeholders. */
  function Message(text: string, forReal: bool, now: int): SendOrder {
    SendOrder([Literal(text)], !forReal, true, 1, true, 3_000, {}, now, now / DAY)
  }

  lemma PlainDraft(s: State, links: seq<Link>, c: CustomerId, n: string, text: string)
    requires IsNational(n) && s.customers == People(c, n)
    ensures MakeDraft(s, links, [Literal(text)], c) == Draft(c, Some("+98" + n), text, None, false)
  {
    SpellingsAgree(Plus, n);
    var t := [Literal(text)];
    assert t[..0] == [];
    assert Render(t, DEFAULT_NAME, ApprovedRung(BestByScore(LinkedRows(s.opportunities, links, c)))) == "" + text;
  }

  /** The tables after that order. */
  function AfterSend(s: State, c: CustomerId, n: string, text: string, forReal: bool, now: int): State {
    SendOne(s, 0, Message(text, forReal, now), Draft(c, Some("+98" + n), text, None, false))
  }

  lemma OneDraft(s: State, o: SendOrder, c: CustomerId)
    requires 0 in s.campaigns
    ensures SendAll(s, 0, o, Drafts(s, 0, o, [c]))
            == SendOne(s, 0, o, MakeDraft(s, s.campaigns[0].links, o.template, c))
  {
    var d := MakeDraft(s, s.campaigns[0].links, o.template, c);
    assert Drafts(s, 0, o, [c]) == [d];
    assert [d][..0] == [] && SendAll(s, 0, o, []) == s;
  }

  lemma SoloSend(s: State, c: CustomerId, n: string, text: string, forReal: bool, now: int)
    requires Solo(s, c, n) && IsNational(n) && !Delivered(s, 0, c)
    ensures SendStep(s, 0, Message(text, forReal, now)) == AfterSend(s, c, n, text, forReal, now)
  {
    var o := Message(text, forReal, now);
    SoloTargets(s, c, n, o);
    OneDraft(s, o, c);
    PlainDraft(s, s.campaigns[0].links, c, n, text);
  }

  lemma SoloAfterSend(s: State, c: CustomerId, n: string, text: string, forReal: bool, now: int)
    requires Solo(s, c, n)
    ensures Solo(AfterSend(s, c, n, text, forReal, now), c, n)
  {
  }

  function SmsEvent(c: CustomerId, text: string, now: int): Event {
    CampaignSms(0, c, now, now / DAY, true, None, SegmentCount(text) * 3_000)
  }

  /** A message with a text is sent: really, or as a preview. */
  lemma SoloSent(s: State, c: CustomerId, n: string, text: string, forReal: bool, now: int)
    requires text != ""
    ensures var t := AfterSend(s, c, n, text, forReal, now);
            && Delivered(t, 0, c) && (ReallyDelivered(t, 0, c) <==> forReal)
            && FindRow(t.sends, 0, c).value.offer == None
            && t.log == s.log + (if forReal then [SmsEvent(c, text, now)] else [])
            && t.members == (if forReal && (0, c) in s.members
                             then s.members[(0, c) := Expose(s.members[(0, c)], now, now / DAY, Sms)] else s.members)
  {
    var o, d := Message(text, forReal, now), Draft(c, Some("+98" + n), text, None, false);
    UpsertFind(s.sends, RowOf(0, o, d), 0, c);
    assert CostOf(o, d) == if forReal then SegmentCount(text) * 3_000 else 0;
  }

  lemma OpenedIsSolo(rows: seq<Opportunity>, c: CustomerId, n: string)
    ensures Solo(Opened(rows, c, n), c, n) && !Delivered(Opened(rows, c, n), 0, c)
  {
  }

  lemma RunsTo(rs: seq<Request>, s: State, o: SendOrder, t: State)
    requires Run(rs) == s && SendStep(s, 0, o) == t
    ensures Run(rs + [Send(0, o)]) == t
  {
    OneMore(rs, Send(0, o));
  }

  lemma SendRuns(rs: seq<Request>, s: State, c: CustomerId, n: string, text: string, forReal: bool, now: int)
    requires Run(rs) == s && Solo(s, c, n) && IsNational(n) && !Delivered(s, 0, c)
    ensures Run(rs + [Send(0, Message(text, forReal, now))]) == AfterSend(s, c, n, text, forReal, now)
  {
    SoloSend(s, c, n, text, forReal, now);
    RunsTo(rs, s, Message(text, forReal, now), AfterSend(s, c, n, text, forReal, now));
  }

  /** The tables after the opening and an export on day 0. */
  function Exported0(rows: seq<Opportunity>, c: CustomerId, n: string): State {
    AfterExport(Opened(rows, c, n), c, 0, 0)
  }

  lemma ExportRuns(rows: seq<Opportunity>, c: CustomerId, n: string)
    requires RowsOf(rows, c) && IsNational(n)
    ensures var s := Exported0(rows, c, n);
            && Run(Opening(rows, c, n) + [Export(0, 0, 0)]) == s
            && Solo(s, c, n) && !Delivered(s, 0, c)
  {
    OpeningRuns(rows, c, n);
    OpenedIsSolo(rows, c, n);
    OneMore(Opening(rows, c, n), Export(0, 0, 0));
    SoloExport(Opened(rows, c, n), c, n, 0, 0);
    SoloAfterExport(Opened(rows, c, n), c, n, 0, 0);
    assert Exported0(rows, c, n).sends == [];
  }

  /** The opening, an export on day 0 and a real message without a discount on a later day. */
  function ExportThenSms(rows: seq<Opportunity>, c: CustomerId, n: string, day: nat): seq<Request> {
    Opening(rows, c, n) + [Export(0, 0, 0)] + [Send(0, Message("x", true, day * DAY))]
  }

  function Texted(rows: seq<Opportunity>, c: CustomerId, n: string, day: nat): State {
    AfterSend(Exported0(rows, c, n), c, n, "x", true, day * DAY)
  }

  lemma TextedMeans(rows: seq<Opportunity>, c: CustomerId, n: string, day: nat)
    requires Solo(Exported0(rows, c, n), c, n)
    ensures var s := Texted(rows, c, n, day);
            && Solo(s, c, n) && ReallyDelivered(s, 0, c) && FindRow(s.sends, 0, c).value.offer == None
            && SmsEvent(c, "x", day * DAY) in s.log
            && s.members[(0, c)] == Exported0(rows, c, n).members[(0, c)]
            && s.campaigns == Exported0(rows, c, n).campaigns
  {
    var b := Exported0(rows, c, n);
    SoloAfterSend(b, c, n, "x", true, day * DAY);
    SoloSent(b, c, n, "x", true, day * DAY);
    assert b.members[(0, c)].exposure.Some?;
  }

  lemma ExportThenSmsRuns(rows: seq<Opportunity>, c: CustomerId, n: string, day: nat)
    requires RowsOf(rows, c) && IsNational(n)
    ensures Run(ExportThenSms(rows, c, n, day)) == Texted(rows, c, n, day)
    ensures Solo(Exported0(rows, c, n), c, n)
  {
    ExportRuns(rows, c, n);
    SendRuns(Opening(rows, c, n) + [Export(0, 0, 0)], Exported0(rows, c, n), c, n, "x", true, day * DAY);
  }

  // ---------------------------------------------------------------- the fatigue window

  /** A member exported on day 0 and really texted on day 20 is not in the window on day 25, and
      the gate with that window lets the member through. */
  lemma SecondContactIsNotSeen(row: Opportunity, c: CustomerId, n: string)
    requires row.customer == Some(c) && IsNational(n)
    ensures var s, now := Run(ExportThenSms([row], c, n, 20)), 25 * DAY;
            && (exists e | e in s.log ::
                  e.CampaignSms? && IsExposure(e, 0, c) && now - FATIGUE_WINDOW_DAYS * DAY <= e.at <= now)
            && c !in RecentExposures(s, now)
            && !Blocked(s, Num(c), None, RecentContactKeys(s, {}, now))
  {
    ExportThenSmsRuns([row], c, n, 20);
    TextedMeans([row], c, n, 20);
    var e := SmsEvent(c, "x", 20 * DAY);
    assert IsExposure(e, 0, c) && e.at == 20 * DAY;
    NotSeenLate(Texted([row], c, n, 20), c, n);
  }

  lemma NotSeenLate(s: State, c: CustomerId, n: string)
    requires Solo(s, c, n) && s.members[(0, c)].exposure == Some(Exposure(0, 0, ExcelExport))
    ensures RecentExposures(s, 25 * DAY) == {}
    ensures !Blocked(s, Num(c), None, RecentContactKeys(s, {}, 25 * DAY))
  {
    assert RecentExposures(s, 25 * DAY) == {};
    assert OwnersOf(s, {}) == {} && RecentContactKeys(s, {}, 25 * DAY) == {};
    OpenGate(s, c);
  }

  // ---------------------------------------------------------------- previews

  /** A preview and then a real send: nobody gets a message, though the gate permits the member. */
  lemma PreviewThenNothing(row: Opportunity, c: CustomerId, n: string)
    requires row.customer == Some(c) && IsNational(n)
    ensures var rs := Opening([row], c, n) + [Send(0, Message("x", false, 0))];
            && AcceptedSms(Run(rs + [Send(0, Message("x", true, DAY))]).log, 0, c) == 0
            && IsTreatment(Run(rs), 0, c) && MayContact(Run(rs), c)
  {
    var rs, a := Opening([row], c, n), Opened([row], c, n);
    OpeningRuns([row], c, n);
    OpenedIsSolo([row], c, n);
    SendRuns(rs, a, c, n, "x", false, 0);
    SoloSent(a, c, n, "x", false, 0);
    SoloAfterSend(a, c, n, "x", false, 0);
    var t := AfterSend(a, c, n, "x", false, 0);
    OpenGate(t, c);
    PreviewBlocksRealSms(rs + [Send(0, Message("x", false, 0))], [Send(0, Message("x", true, DAY))], 0, c);
  }

  /** Without the preview the same send is accepted. */
  lemma NoPreviewThenSms(row: Opportunity, c: CustomerId, n: string)
    requires row.customer == Some(c) && IsNational(n)
    ensures AcceptedSms(Run(Opening([row], c, n) + [Send(0, Message("x", true, DAY))]).log, 0, c) == 1
  {
    var rs, a := Opening([row], c, n), Opened([row], c, n);
    OpeningRuns([row], c, n);
    OpenedIsSolo([row], c, n);
    SendRuns(rs, a, c, n, "x", true, DAY);
    SoloSent(a, c, n, "x", true, DAY);
    AtMostOneRealSms(rs + [Send(0, Message("x", true, DAY))], 0, c);
  }

  // ---------------------------------------------------------------- offers

  function WithOffer(row: Opportunity, bp: nat): Opportunity {
    row.(offer := Some(Offer(bp, true)))
  }

  /** An export, a real message without a discount, and only then an approved offer. */
  function LateApproval(row: Opportunity, c: CustomerId, n: string, bp: nat): seq<Request> {
    ExportThenSms([row], c, n, 1) + [Outside([WithOffer(row, bp)], People(c, n), {})]
  }

  function Approved(row: Opportunity, c: CustomerId, n: string, bp: nat): State {
    Texted([row], c, n, 1).(opportunities := [WithOffer(row, bp)])
  }

  lemma LateApprovalRuns(row: Opportunity, c: CustomerId, n: string, bp: nat)
    requires row.customer == Some(c) && IsNational(n)
    ensures Run(LateApproval(row, c, n, bp)) == Approved(row, c, n, bp)
  {
    ExportThenSmsRuns([row], c, n, 1);
    TextedMeans([row], c, n, 1);
    OneMore(ExportThenSms([row], c, n, 1), Outside([WithOffer(row, bp)], People(c, n), {}));
    Approve(Texted([row], c, n, 1), c, n, WithOffer(row, bp));
  }

  /** The first export of a member whose row has no offer. */
  lemma FirstStamp(s: State, c: CustomerId)
    requires 0 in s.campaigns && (0, c) in s.members && ExportRung(s, 0, c).None?
    requires s.members[(0, c)].exposure.None? && s.members[(0, c)].offer.None?
    ensures var t := AfterExport(s, c, 0, 0);
            && StampedOffer(t, (0, c)) == None && FirstChannel(t, (0, c)) == Some(ExcelExport)
            && 0 in t.campaigns && t.campaigns[0].links == s.campaigns[0].links
  {
  }

  /** The campaign, its one member and its one link before anything happens. */
  lemma OpenedMeans(row: Opportunity, c: CustomerId, n: string)
    requires row.customer == Some(c)
    ensures var s := Opened([row], c, n);
            && 0 in s.campaigns && s.campaigns[0].links == [Link(row.id, c)] && (0, c) in s.members
            && s.members[(0, c)].exposure.None? && s.members[(0, c)].offer.None? && s.opportunities == [row]
  {
    assert Map([row], LinkOf) == [Link(row.id, c)];
  }

  lemma ApprovedMeans(row: Opportunity, c: CustomerId, n: string, bp: nat)
    requires row.customer == Some(c) && row.offer == None && IsNational(n)
    ensures var t := Approved(row, c, n, bp);
            && Solo(t, c, n) && t.campaigns[0].links == [Link(row.id, c)]
            && ReallyDelivered(t, 0, c) && FindRow(t.sends, 0, c).value.offer == None
            && StampedOffer(t, (0, c)) == None && FirstChannel(t, (0, c)) == Some(ExcelExport)
  {
    var a, s, b := Opened([row], c, n), Texted([row], c, n, 1), Exported0([row], c, n);
    OpenedMeans(row, c, n);
    NoOfferYet(a, row, c);
    FirstStamp(a, c);
    OpenedIsSolo([row], c, n);
    SoloAfterExport(a, c, n, 0, 0);
    TextedMeans([row], c, n, 1);
    OnlyOpportunities(s, Approved(row, c, n, bp), c, n);
    assert StampedOffer(s, (0, c)) == StampedOffer(b, (0, c)) && FirstChannel(s, (0, c)) == FirstChannel(b, (0, c));
  }

  /** New opportunities touch neither rows nor stamps. */
  lemma OnlyOpportunities(s: State, t: State, c: CustomerId, n: string)
    requires Solo(s, c, n) && t == s.(opportunities := t.opportunities)
    ensures Solo(t, c, n) && t.campaigns == s.campaigns && t.sends == s.sends
    ensures ReallyDelivered(t, 0, c) == ReallyDelivered(s, 0, c)
    ensures StampedOffer(t, (0, c)) == StampedOffer(s, (0, c)) && FirstChannel(t, (0, c)) == FirstChannel(s, (0, c))
  {
  }

  /** A member exported without an offer and then really texted without a discount: after the
      offer is approved, a second export stamps a discount that was never sent. */
  lemma ExportRewrites(row: Opportunity, c: CustomerId, n: string, bp: nat)
    requires row.customer == Some(c) && row.offer == None && IsNational(n) && bp != 0
    ensures var rs := LateApproval(row, c, n, bp);
            && ReallyDelivered(Run(rs), 0, c) && FindRow(Run(rs).sends, 0, c).value.offer == None
            && StampedOffer(Run(rs), (0, c)) == None
            && StampedOffer(Run(rs + [Export(0, 2 * DAY, 2)]), (0, c)) == Some(bp)
  {
    var t := Approved(row, c, n, bp);
    LateApprovalRuns(row, c, n, bp);
    ApprovedMeans(row, c, n, bp);
    OneMore(LateApproval(row, c, n, bp), Export(0, 2 * DAY, 2));
    SoloExport(t, c, n, 2 * DAY, 2);
    SecondExport(t, WithOffer(row, bp), c);
  }

  /** The stamp a second export leaves. */
  lemma SecondExport(t: State, row: Opportunity, c: CustomerId)
    requires 0 in t.campaigns && t.campaigns[0].links == [Link(row.id, c)] && t.opportunities == [row]
    requires (0, c) in t.members && FirstChannel(t, (0, c)) == Some(ExcelExport) && StampedOffer(t, (0, c)) == None
    ensures StampedOffer(AfterExport(t, c, 2 * DAY, 2), (0, c)) == ApprovedRung(Some(row))
  {
    LinkedOne(t, row, c);
  }

  lemma NoOfferYet(s: State, row: Opportunity, c: CustomerId)
    requires 0 in s.campaigns && s.opportunities == [row] && row.offer == None
    ensures ExportRung(s, 0, c) == None
  {
    OnlyRow(row, s.campaigns[0].links, c);
  }

  lemma FindOne(row: Opportunity, id: OpportunityId)
    ensures FindOpportunity([row], id).Some? ==> FindOpportunity([row], id).value == row
  {
    assert [row][1..] == [];
  }

  lemma {:induction false} OnlyRow(row: Opportunity, links: seq<Link>, c: CustomerId)
    ensures forall o | o in LinkedRows([row], links, c) :: o == row
  {
    if links != [] {
      OnlyRow(row, links[..|links| - 1], c);
      FindOne(row, links[|links| - 1].opportunity);
    }
  }

  lemma LinkedOne(s: State, row: Opportunity, c: CustomerId)
    requires 0 in s.campaigns && s.opportunities == [row] && s.campaigns[0].links == [Link(row.id, c)]
    ensures ExportRung(s, 0, c) == ApprovedRung(Some(row))
  {
    assert [Link(row.id, c)][..0] == [];
    assert LinkedRows([row], [Link(row.id, c)], c) == [row];
    assert [row][..0] == [];
  }

  lemma Approve(s: State, c: CustomerId, n: string, row: Opportunity)
    requires Solo(s, c, n) && IsNational(n)
    ensures Apply(s, Outside([row], People(c, n), {})) == s.(opportunities := [row])
  {
    SpellingsAgree(Plus, n);
    assert StoreCustomers(People(c, n)) == People(c, n);
    assert StoreOptOuts({}) == {};
  }

  /** A template whose discount placeholder has blanks in its braces: the text shows the rung and
      no offer is recorded; without an approval the placeholder itself is sent. */
  lemma BlankPlaceholder(s: State, best: Opportunity, c: CustomerId)
    ensures var rung := ApprovedRung(Some(best));
            var d := DraftFrom(s, Some(best), [Placeholder(DiscountSlot, BLANK_PLACEHOLDER)], c);
            && d.offer == None && !d.blocked
            && if rung.Some? then ReadsAs(d.text, rung.value) else d.text == BLANK_PLACEHOLDER
  {
    var p := Placeholder(DiscountSlot, BLANK_PLACEHOLDER);
    BlankIsOther();
    if ApprovedRung(Some(best)).Some? {
      DiscountTextMeans(ApprovedRung(Some(best)).value);
    }
    RenderOne(p, DEFAULT_NAME, ApprovedRung(Some(best)));
    if c in s.customers {
      RenderOne(p, s.customers[c].name, ApprovedRung(Some(best)));
    }
    assert !NeedsOffer([p]);
  }

  const BLANK_PLACEHOLDER := "{ تخفیف }"

  lemma BlankIsOther()
    ensures BLANK_PLACEHOLDER != DISCOUNT_PLACEHOLDER
  {
    assert BLANK_PLACEHOLDER[1] == ' ' && DISCOUNT_PLACEHOLDER[1] == 'ت';
  }

  lemma RenderOne(p: Piece, name: string, rung: Option<nat>)
    ensures Render([p], name, rung) == RenderPiece(p, name, rung)
  {
    assert [p][..0] == [];
    assert "" + RenderPiece(p, name, rung) == RenderPiece(p, name, rung);
  }

  /** The export picks a member's row by value and the SMS by score: in one reachable state the
      SMS would offer one discount and the export stamps another. */
  lemma RungsDiffer(a: Opportunity, b: Opportunity, c: CustomerId, n: string)
    requires a.customer == b.customer == Some(c) && IsNational(n) && a.id != b.id
    requires a.score > b.score && a.value < b.value
    requires ApprovedRung(Some(a)).Some? && ApprovedRung(Some(b)).Some?
             && ApprovedRung(Some(a)) != ApprovedRung(Some(b))
    ensures 0 in Run(Opening([a, b], c, n)).campaigns
    ensures var s := Run(Opening([a, b], c, n));
            var sms := MakeDraft(s, s.campaigns[0].links, [Placeholder(DiscountSlot, DISCOUNT_PLACEHOLDER)], c);
            && sms.offer == ApprovedRung(Some(a)) && ExportRung(s, 0, c) == ApprovedRung(Some(b))
            && sms.offer != ExportRung(s, 0, c)
  {
    OpeningRuns([a, b], c, n);
    var s := Opened([a, b], c, n);
    LinkedTwo(a, b, c);
    BestOfTwo(a, b);
    OfferOf(s, a, c);
    assert ExportRung(s, 0, c) == ApprovedRung(Some(b));
  }

  /** The draft of a template with the discount placeholder carries the best row's rung. */
  lemma OfferOf(s: State, best: Opportunity, c: CustomerId)
    requires 0 in s.campaigns && BestByScore(LinkedRows(s.opportunities, s.campaigns[0].links, c)) == Some(best)
    ensures MakeDraft(s, s.campaigns[0].links, [Placeholder(DiscountSlot, DISCOUNT_PLACEHOLDER)], c).offer
            == ApprovedRung(Some(best))
  {
    assert Placeholder(DiscountSlot, DISCOUNT_PLACEHOLDER) in [Placeholder(DiscountSlot, DISCOUNT_PLACEHOLDER)];
  }

  lemma LinkedTwo(a: Opportunity, b: Opportunity, c: CustomerId)
    requires a.customer == b.customer == Some(c) && a.id != b.id
    ensures LinkedRows([a, b], Map([a, b], LinkOf), c) == [a, b]
  {
    var links, first := [Link(a.id, c), Link(b.id, c)], [Link(a.id, c)];
    assert Map([a, b], LinkOf) == links;
    assert links[..1] == first && first[..0] == [];
    assert [a, b][1..] == [b];
    assert FindOpportunity([a, b], a.id) == Some(a);
    assert FindOpportunity([b], b.id) == Some(b);
    assert LinkedRows([a, b], [], c) == [];
    assert LinkedRows([a, b], first, c) == [a];
  }

  lemma BestOfTwo(a: Opportunity, b: Opportunity)
    requires a.score > b.score && a.value < b.value
    ensures BestByScore([a, b]) == Some(a) && BestByValue([a, b]) == Some(b)
  {
    assert [a, b][..1] == [a] && [a][..0] == [];
    assert BestByScore([a]) == Some(a) && BestByValue([a]) == Some(a);
  }
}
