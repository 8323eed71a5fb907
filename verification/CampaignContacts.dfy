/** Who is contacted, with which discount, and whom a new campaign takes in. */
module CampaignContacts {
  import opened Prelude
  import opened Ranking
  import opened CampaignModel
  import opened CampaignSteps
  import opened CampaignHistory
  import opened CampaignTheorems
  import opened OfferText

  // ---------------------------------------------------------------- the log grows by contacts

  lemma {:induction false} SendAllEvents(s: State, k: CampaignId, o: SendOrder, ds: seq<Draft>)
    ensures var t := SendAll(s, k, o, ds);
            && s.log <= t.log
            && forall i | |s.log| <= i < |t.log| :: exists d | d in ds :: SmsEvents(k, o, d) == [t.log[i]]
  {
    if ds != [] {
      var n := |ds| - 1;
      SendAllEvents(s, k, o, ds[..n]);
      var t, u := SendAll(s, k, o, ds[..n]), SendAll(s, k, o, ds);
      forall i | |s.log| <= i < |u.log| ensures exists d | d in ds :: SmsEvents(k, o, d) == [u.log[i]] {
        if i < |t.log| {
          var d :| d in ds[..n] && SmsEvents(k, o, d) == [t.log[i]];
          assert d in ds;
        } else {
          assert SmsEvents(k, o, ds[n]) == [u.log[i]] && ds[n] in ds;
        }
      }
    }
  }

  lemma LogGrows(s: State, r: Request)
    requires Inv(s)
    ensures s.log <= Apply(s, r).log
  {
    match r
    case Create(_, _) =>
    case Close(_, _) =>
    case Outside(_, _, _) =>
    case Other(_) =>
    case Export(k, at, date) => ExportForm(s, k, at, date);
    case Send(k, o) =>
      if IsOpen(s, k) {
        SendAllEvents(s, k, o, Drafts(s, k, o, SendTargets(s, k, o)));
      }
  }

  /** The contact concerns customer `c`: by id, or by any key that denotes `c`. */
  predicate Reaches(s: State, e: Event, c: CustomerId) {
    match e
    case Exported(_, c', _, _) => c' == c
    case CampaignSms(_, c', _, _, _, _, _) => c' == c
    case OtherSms(key, _) => key in KeysOf(s, c)
  }

  /** The gate could not read the ledger: only session SMS and cycle reminders go on without it. */
  predicate LedgerDown(r: Request) {
    r.Other? && !r.other.ledgerUp
  }

  lemma InExpand(s: State, ids: set<CustomerId>, c: CustomerId, key: Key)
    requires c in ids && key in KeysOf(s, c)
    ensures key in Expand(s, ids)
  {
  }

  lemma OtherContact(s: State, o: OtherOrder, e: Event)
    requires e in OtherEvents(s, o)
    ensures e.OtherSms? && e.phone != "" && OtherAllowed(s, o, Recipient(e.key, Some(e.phone)))
  {
    var reached := Filter(o.recipients, r => Reached(s, o, r));
    var i :| 0 <= i < |reached| && OtherEvents(s, o)[i] == e;
    assert reached[i] in reached && reached[i] == Recipient(e.key, Some(e.phone));
  }

  lemma EventOfDraft(k: CampaignId, o: SendOrder, d: Draft, e: Event)
    requires SmsEvents(k, o, d) == [e]
    ensures e.CampaignSms? && e.customer == d.customer
  {
    assert [e][0] == e;
  }

  lemma EventOfSend(s: State, k: CampaignId, o: SendOrder, cs: seq<CustomerId>, i: nat)
    requires k in s.campaigns && |s.log| <= i < |SendAll(s, k, o, Drafts(s, k, o, cs)).log|
    ensures var e := SendAll(s, k, o, Drafts(s, k, o, cs)).log[i]; e.CampaignSms? && e.customer in cs
  {
    var ds := Drafts(s, k, o, cs);
    SendAllEvents(s, k, o, ds);
    var e := SendAll(s, k, o, ds).log[i];
    var d :| d in ds && SmsEvents(k, o, d) == [e];
    EventOfDraft(k, o, d, e);
    var j :| 0 <= j < |ds| && ds[j] == d;
    assert d.customer == cs[j];
  }

  lemma SendContact(s: State, k: CampaignId, o: SendOrder, i: nat)
    requires Inv(s) && |s.log| <= i < |SendStep(s, k, o).log|
    ensures var e := SendStep(s, k, o).log[i]; e.CampaignSms? && MayContact(s, e.customer)
  {
    if IsOpen(s, k) {
      TargetsPending(s, k, o);
      EventOfSend(s, k, o, SendTargets(s, k, o), i);
    }
  }

  lemma ExportContact(s: State, k: CampaignId, at: int, date: int, i: nat)
    requires Inv(s) && |s.log| <= i < |ExportStep(s, k, at, date).log|
    ensures var e := ExportStep(s, k, at, date).log[i]; e.Exported? && MayContact(s, e.customer)
  {
    TargetsOfExport(s, k);
    var c := ExportEvent(s, k, at, date, i);
  }

  lemma ExportEvent(s: State, k: CampaignId, at: int, date: int, i: nat) returns (c: CustomerId)
    requires Inv(s) && |s.log| <= i < |ExportStep(s, k, at, date).log|
    ensures c in ExportTargets(s, k) && ExportStep(s, k, at, date).log[i] == Exported(k, c, at, date)
  {
    ExportForm(s, k, at, date);
    c := EventOf(s, ExportStep(s, k, at, date), k, ExportTargets(s, k), at, date, i);
  }

  lemma EventOf(s: State, t: State, k: CampaignId, cs: seq<CustomerId>, at: int, date: int, i: nat)
      returns (c: CustomerId)
    requires IsExport(s, t, k, cs, at, date) && |s.log| <= i < |t.log|
    ensures c in cs && t.log[i] == Exported(k, c, at, date)
  {
    c := cs[i - |s.log|];
  }

  lemma NewContact(s: State, r: Request, i: nat)
    requires Inv(s) && |s.log| <= i < |Apply(s, r).log|
    ensures var e := Apply(s, r).log[i];
            && (!e.OtherSms? ==> MayContact(s, e.customer))
            && (e.OtherSms? ==> r.Other? && e.phone != "" && OtherAllowed(s, r.other, Recipient(e.key, Some(e.phone))))
  {
    match r
    case Create(_, _) =>
    case Close(_, _) =>
    case Outside(_, _, _) =>
    case Other(o) =>
      assert Apply(s, r).log[i] in OtherEvents(s, o);
      OtherContact(s, o, Apply(s, r).log[i]);
    case Export(k, at, date) => ExportContact(s, k, at, date, i);
    case Send(k, o) => SendContact(s, k, o, i);
  }

  /** A request only adds to the log, and every contact it adds, on any path, is to somebody who
      at that moment is neither opted out nor a control of an open campaign, whatever key the
      path knows the person by; nor is it to a number spelled as the register spells it. */
  lemma ContactsArePermitted(s: State, r: Request, i: nat, c: CustomerId)
    requires Inv(s) && !LedgerDown(r)
    requires |s.log| <= i < |Apply(s, r).log| && Reaches(s, Apply(s, r).log[i], c)
    ensures s.log <= Apply(s, r).log
    ensures c !in SuppressedIds(s) && c !in ControlIds(s)
    ensures var e := Apply(s, r).log[i]; e.OtherSms? ==> e.phone !in SuppressedPhones(s)
  {
    LogGrows(s, r);
    NewContact(s, r, i);
    var e := Apply(s, r).log[i];
    var key := if e.OtherSms? then e.key else Num(c);
    if c in SuppressedIds(s) {
      InExpand(s, SuppressedIds(s), c, key);
    }
    if c in ControlIds(s) {
      InExpand(s, ControlIds(s), c, key);
    }
  }

  predicate IsControl(s: State, k: CampaignId, c: CustomerId) {
    (k, c) in s.members && s.members[(k, c)].arm.Control?
  }

  lemma ControlStep(s: State, r: Request, k: CampaignId, c: CustomerId, at: nat)
    requires Inv(s) && !LedgerDown(r) && IsControl(s, k, c) && IsOpen(s, k)
    requires |s.log| <= at < |Apply(s, r).log|
    ensures !Reaches(s, Apply(s, r).log[at], c)
  {
    assert (k, c) in s.members && (k, c).1 == c;
    assert c in ControlIds(s);
    if Reaches(s, Apply(s, r).log[at], c) {
      ContactsArePermitted(s, r, at, c);
    }
  }

  /** From the request that made `c` a control of `k` (or any later one) until `k` is closed,
      no request contacts `c`. */
  lemma ControlIsNeverContacted(rs: seq<Request>, later: seq<Request>, r: Request, k: CampaignId, c: CustomerId,
                                at: nat)
    requires IsControl(Run(rs), k, c) && IsOpen(Run(rs + later), k) && !LedgerDown(r)
    requires |Run(rs + later).log| <= at < |Apply(Run(rs + later), r).log|
    ensures !Reaches(Run(rs + later), Apply(Run(rs + later), r).log[at], c)
  {
    ExposureNeverMoves(rs, later, k, c);
    RunKeeps(rs + later);
    ControlStep(Run(rs + later), r, k, c, at);
  }

  // ---------------------------------------------------------------- discounts

  /** The text contains a percentage that reads as this rung. */
  ghost predicate Shows(text: string, rung: nat) {
    exists pre, p, post :: IsCut(text, pre, p, post) && ReadsAs(p, rung)
  }

  predicate IsCut(text: string, pre: string, p: string, post: string) {
    text == pre + p + post
  }

  lemma ShowsItself(rung: nat)
    ensures Shows(DiscountText(rung), rung)
  {
    DiscountTextMeans(rung);
    var p := DiscountText(rung);
    assert "" + p + "" == p;
    assert IsCut(p, "", p, "");
  }

  lemma ShowsInside(a: string, text: string, b: string, rung: nat)
    requires Shows(text, rung)
    ensures Shows(a + text + b, rung)
  {
    var pre, p, post :| IsCut(text, pre, p, post) && ReadsAs(p, rung);
    assert a + text + b == (a + pre) + p + (post + b);
    assert IsCut(a + text + b, a + pre, p, post + b);
  }

  predicate HasDiscountSlot(t: Template) {
    exists p | p in t :: p.Placeholder? && p.slot.DiscountSlot?
  }

  lemma {:induction false} RenderShows(t: Template, name: string, rung: nat)
    requires HasDiscountSlot(t)
    ensures Shows(Render(t, name, Some(rung)), rung)
  {
    var n := |t| - 1;
    var start, last := Render(t[..n], name, Some(rung)), RenderPiece(t[n], name, Some(rung));
    if t[n].Placeholder? && t[n].slot.DiscountSlot? {
      ShowsItself(rung);
      ShowsLater(start, last, rung);
    } else {
      var p :| p in t && p.Placeholder? && p.slot.DiscountSlot?;
      assert p in t[..n];
      RenderShows(t[..n], name, rung);
      ShowsEarlier(start, last, rung);
    }
  }

  lemma ShowsLater(start: string, last: string, rung: nat)
    requires Shows(last, rung)
    ensures Shows(start + last, rung)
  {
    assert start + last + "" == start + last;
    ShowsInside(start, last, "", rung);
  }

  lemma ShowsEarlier(start: string, last: string, rung: nat)
    requires Shows(start, rung)
    ensures Shows(start + last, rung)
  {
    assert "" + start + last == start + last;
    ShowsInside("", start, last, rung);
  }

  /** A draft carries an offer only if the text shows that rung, and the rung is the approved
      offer of the member's best-scored linked opportunity. */
  lemma DraftOffer(s: State, links: seq<Link>, template: Template, c: CustomerId)
    requires MakeDraft(s, links, template, c).offer.Some?
    ensures var d := MakeDraft(s, links, template, c); var rows := LinkedRows(s.opportunities, links, c);
            && !d.blocked
            && Shows(d.text, d.offer.value)
            && exists best | best in rows ::
                 && (forall o | o in rows :: o.score <= best.score)
                 && best.offer == Some(Offer(d.offer.value, true)) && d.offer.value != 0
  {
    var best := BestByScore(LinkedRows(s.opportunities, links, c));
    var source := if template != [] then template else best.value.message;
    var p := Placeholder(DiscountSlot, DISCOUNT_PLACEHOLDER);
    assert p in source && p.Placeholder? && p.slot.DiscountSlot?;
    var name := if c in s.customers && s.customers[c].name != "" then s.customers[c].name else DEFAULT_NAME;
    RenderShows(source, name, ApprovedRung(best).value);
  }

  /** The offer recorded with a message is the one its text shows, unless the only discount
      placeholders are written with blanks: those are filled in but not recorded. */
  lemma RecordedIffShown(s: State, best: Option<Opportunity>, template: Template, c: CustomerId)
    ensures var source := if template != [] then template else if best.Some? then best.value.message else [];
            var shown := HasDiscountSlot(source) && ApprovedRung(best).Some?;
            (DraftFrom(s, best, template, c).offer.Some? <==> shown)
            <==> (NeedsOffer(source) || !HasDiscountSlot(source) || ApprovedRung(best).None?)
  {
    var source := if template != [] then template else if best.Some? then best.value.message else [];
    if NeedsOffer(source) {
      var p := Placeholder(DiscountSlot, DISCOUNT_PLACEHOLDER);
      assert p in source && p.Placeholder? && p.slot.DiscountSlot?;
    }
  }

  /** An offer stamp that a request changes comes from an offer approved at that moment, of an
      opportunity linked to this member. */
  ghost predicate FromApproved(s: State, p: (CampaignId, CustomerId), rung: nat) {
    p.0 in s.campaigns && rung != 0 &&
    exists o | o in LinkedRows(s.opportunities, s.campaigns[p.0].links, p.1) :: o.offer == Some(Offer(rung, true))
  }

  lemma {:induction false} SendAllOffers(s: State, k: CampaignId, o: SendOrder, ds: seq<Draft>,
                                         p: (CampaignId, CustomerId))
    requires p in s.members
    ensures var t := SendAll(s, k, o, ds);
            && p in t.members
            && (t.members[p].offer != s.members[p].offer ==>
                  p.0 == k && exists d | d in ds :: d.customer == p.1 && d.offer.Some? && d.offer == t.members[p].offer)
  {
    if ds != [] {
      var n := |ds| - 1;
      SendAllOffers(s, k, o, ds[..n], p);
      var t, u := SendAll(s, k, o, ds[..n]), SendAll(s, k, o, ds);
      assert ds[n] in ds;
      if u.members[p].offer != s.members[p].offer && u.members[p].offer == t.members[p].offer {
        var d :| d in ds[..n] && d.customer == p.1 && d.offer.Some? && d.offer == t.members[p].offer;
        assert d in ds;
      }
    }
  }

  function StampedOffer(s: State, p: (CampaignId, CustomerId)): Option<nat> {
    if p in s.members then s.members[p].offer else None
  }

  lemma CreateOffers(s: State, o: CreateOrder, at: int, p: (CampaignId, CustomerId))
    requires Inv(s)
    ensures StampedOffer(CreateStep(s, o, at), p) == StampedOffer(s, p)
  {
    var members := NewMembers(s.nextId, o, Selected(s, o, at), Roster(Selected(s, o, at)));
    assert (p.0, p.1) == p;
    assert (p.0, p.1) in s.members ==> p !in members;
    assert p in members ==> members[p].offer.None?;
  }

  lemma ExportOffers(s: State, t: State, k: CampaignId, cs: seq<CustomerId>, now: int, today: int,
                     p: (CampaignId, CustomerId))
    requires IsExport(s, t, k, cs, now, today)
    ensures StampedOffer(t, p) != StampedOffer(s, p) ==>
              p.0 == k && StampedOffer(t, p) == ExportRung(s, k, p.1) && ExportRung(s, k, p.1).Some?
  {
    assert p in t.members.Keys <==> p in s.members.Keys;
  }

  lemma SendOffers(s: State, k: CampaignId, o: SendOrder, p: (CampaignId, CustomerId))
    requires p in s.members && IsOpen(s, k)
    ensures var t := SendStep(s, k, o);
            StampedOffer(t, p) != StampedOffer(s, p) ==>
              StampedOffer(t, p).Some? && FromApproved(s, p, StampedOffer(t, p).value)
  {
    var ds := Drafts(s, k, o, SendTargets(s, k, o));
    var t := SendAll(s, k, o, ds);
    SendAllOffers(s, k, o, ds, p);
    if t.members[p].offer != s.members[p].offer {
      var d :| d in ds && d.customer == p.1 && d.offer.Some? && d.offer == t.members[p].offer;
      DraftOffer(s, s.campaigns[k].links, o.template, p.1);
    }
  }

  lemma OfferStampsAreApproved(s: State, r: Request, p: (CampaignId, CustomerId))
    requires Inv(s) && p in s.members
    ensures var t := Apply(s, r);
            StampedOffer(t, p) != StampedOffer(s, p) ==>
              StampedOffer(t, p).Some? && FromApproved(s, p, StampedOffer(t, p).value)
  {
    match r
    case Create(o, at) => CreateOffers(s, o, at, p);
    case Export(k, at, date) =>
      ExportForm(s, k, at, date);
      ExportOffers(s, ExportStep(s, k, at, date), k, ExportTargets(s, k), at, date, p);
    case Send(k, o) =>
      if IsOpen(s, k) {
        SendOffers(s, k, o, p);
      }
    case Close(_, _) =>
    case Other(_) =>
    case Outside(_, _, _) =>
  }

  function FirstChannel(s: State, p: (CampaignId, CustomerId)): Option<Channel> {
    if p in s.members && s.members[p].exposure.Some? then Some(s.members[p].exposure.value.channel) else None
  }

  /** The rung of a real SMS is the member's stamp from then on; and if that SMS was the first
      contact, the stamp is exactly what it showed, even when that is no discount. */
  lemma SmsOfferStays(rs: seq<Request>, more: seq<Request>, k: CampaignId, c: CustomerId)
    requires ReallyDelivered(Run(rs), k, c)
    requires FindRow(Run(rs).sends, k, c).value.offer.Some? || FirstChannel(Run(rs + more), (k, c)) == Some(Sms)
    ensures StampedOffer(Run(rs + more), (k, c)) == FindRow(Run(rs).sends, k, c).value.offer
  {
    SentRowStays(rs, more, k, c);
    RunKeeps(rs + more);
    var t := Run(rs + more);
    assert FindRow(t.sends, k, c).value in t.sends;
    assert MemberOk(t, k, c);
  }

  lemma DeliveredWasExposed(s: State, k: CampaignId, c: CustomerId)
    requires Inv(s) && ReallyDelivered(s, k, c)
    ensures (k, c) in s.members && FirstChannel(s, (k, c)).Some?
  {
    assert FindRow(s.sends, k, c).value in s.sends;
    assert MemberOk(s, k, c);
    AcceptedMeans(s.log, k, c);
    FirstExposureMeans(s.log, k, c);
  }

  /** The remaining case. After a real SMS without a discount to a member first contacted by
      an export, a later export does write a discount nobody was sent, exactly when: */
  lemma ExportRewritesIff(s: State, k: CampaignId, c: CustomerId, now: int, today: int)
    requires Inv(s) && ReallyDelivered(s, k, c)
    ensures StampedOffer(ExportStep(s, k, now, today), (k, c)) != StampedOffer(s, (k, c)) <==>
              && c in ExportTargets(s, k) && ExportRung(s, k, c).Some?
              && StampedOffer(s, (k, c)).None? && FirstChannel(s, (k, c)) == Some(ExcelExport)
  {
    DeliveredWasExposed(s, k, c);
    ExportForm(s, k, now, today);
    ExportOfferIff(s, ExportStep(s, k, now, today), k, ExportTargets(s, k), now, today, c);
  }

  lemma ExportOfferIff(s: State, t: State, k: CampaignId, cs: seq<CustomerId>, now: int, today: int, c: CustomerId)
    requires IsExport(s, t, k, cs, now, today) && (k, c) in s.members && FirstChannel(s, (k, c)).Some?
    ensures StampedOffer(t, (k, c)) != StampedOffer(s, (k, c)) <==>
              && c in cs && ExportRung(s, k, c).Some?
              && StampedOffer(s, (k, c)).None? && FirstChannel(s, (k, c)) == Some(ExcelExport)
  {
    assert (k, c) in t.members.Keys;
  }

  // ---------------------------------------------------------------- the row of each path

  /** The first row of largest score: the SMS path's. */
  predicate TopScore(rows: seq<Opportunity>, i: nat) {
    && i < |rows|
    && (forall j | 0 <= j < |rows| :: rows[j].score <= rows[i].score)
    && (forall j | 0 <= j < i :: rows[j].score < rows[i].score)
  }

  predicate ValueBefore(a: Opportunity, b: Opportunity) {
    a.value > b.value || (a.value == b.value && TextLess(a.kind, b.kind))
  }

  /** The first row in the order of falling value, then kind: the export's. */
  predicate TopValue(rows: seq<Opportunity>, i: nat) {
    && i < |rows|
    && (forall j | 0 <= j < |rows| :: !ValueBefore(rows[j], rows[i]))
    && (forall j | 0 <= j < i :: ValueBefore(rows[i], rows[j]))
  }

  lemma LastOrBest(rows: seq<Opportunity>)
    requires rows != []
    ensures var n := |rows| - 1; var best := BestByScore(rows[..n]);
            BestByScore(rows) == if n == 0 || rows[n].score > best.value.score then Some(rows[n]) else best
  {
  }

  lemma {:induction false} ScoreIndex(rows: seq<Opportunity>) returns (i: nat)
    requires rows != []
    ensures TopScore(rows, i) && BestByScore(rows) == Some(rows[i])
  {
    var n := |rows| - 1;
    LastOrBest(rows);
    if n == 0 {
      i := 0;
    } else {
      var front := rows[..n];
      i := ScoreIndex(front);
      assert forall j | 0 <= j < n :: front[j] == rows[j];
      if rows[n].score > rows[i].score {
        i := n;
      }
    }
  }

  lemma ValueBeforeIsWeak()
    ensures StrictWeak(ValueBefore)
  {
    forall x, y | ValueBefore(x, y) ensures !ValueBefore(y, x) {
      if x.value == y.value {
        TextLessAsymmetric(x.kind, y.kind);
      }
    }
    forall x, y, z | !ValueBefore(x, y) && !ValueBefore(y, z) ensures !ValueBefore(x, z) {
      if x.value == y.value == z.value {
        TextLessNegative(x.kind, y.kind, z.kind);
      }
    }
  }

  lemma {:induction false} ValueIndex(rows: seq<Opportunity>) returns (i: nat)
    requires rows != []
    ensures TopValue(rows, i) && BestByValue(rows) == Some(rows[i])
  {
    ValueBeforeIsWeak();
    var n := |rows| - 1;
    if n == 0 {
      assert BestByValue(rows[..0]).None?;
      i := 0;
    } else {
      var front := rows[..n];
      i := ValueIndex(front);
      assert forall j | 0 <= j < n :: front[j] == rows[j];
      assert BestByValue(rows) == Some(if ValueBefore(rows[n], rows[i]) then rows[n] else rows[i]);
      if ValueBefore(rows[n], rows[i]) {
        NewTopValue(rows, i);
        i := n;
      }
    }
  }

  /** A last row before the first one so far is before all of them. */
  lemma NewTopValue(rows: seq<Opportunity>, i: nat)
    requires StrictWeak(ValueBefore) && i < |rows| - 1 && ValueBefore(rows[|rows| - 1], rows[i])
    requires forall j | 0 <= j < |rows| - 1 :: !ValueBefore(rows[j], rows[i])
    ensures TopValue(rows, |rows| - 1)
  {
    var last := rows[|rows| - 1];
    forall j | 0 <= j < |rows| - 1 ensures ValueBefore(last, rows[j]) {
      assert !ValueBefore(rows[j], rows[i]);
    }
  }

  lemma TopsAreUnique(rows: seq<Opportunity>, i: nat, j: nat)
    requires i < |rows| && j < |rows|
    ensures TopScore(rows, i) && TopScore(rows, j) ==> i == j
    ensures TopValue(rows, i) && TopValue(rows, j) ==> i == j
  {
    var a, b := rows[i], rows[j];
    assert TopScore(rows, i) ==> b.score <= a.score && (j < i ==> b.score < a.score);
    assert TopScore(rows, j) ==> a.score <= b.score && (i < j ==> a.score < b.score);
    assert TopValue(rows, i) ==> !ValueBefore(b, a) && (j < i ==> ValueBefore(a, b));
    assert TopValue(rows, j) ==> !ValueBefore(a, b) && (i < j ==> ValueBefore(b, a));
  }

  /** The SMS and the export speak of the same row of a member exactly when one row, in the
      stored order, is the first by score and also the first by value and kind. */
  lemma SameRowIff(rows: seq<Opportunity>)
    ensures BestByScore(rows) == BestByValue(rows) <==>
              rows == [] || exists i: nat :: TopScore(rows, i) && TopValue(rows, i)
  {
    if rows != [] {
      var i := ScoreIndex(rows);
      var j := ValueIndex(rows);
      if BestByScore(rows) == BestByValue(rows) {
        ValueBeforeIsWeak();
        assert rows[i] == rows[j];
        assert i == j;
      }
      if k: nat :| TopScore(rows, k) && TopValue(rows, k) {
        TopsAreUnique(rows, i, k);
        TopsAreUnique(rows, j, k);
      }
    }
  }

  // ---------------------------------------------------------------- a new campaign

  lemma EligibleOrdered(s: State, o: CreateOrder, now: int)
    ensures Ordered(EligibleRows(s, o, now), HigherScore)
    ensures forall x :: x in EligibleRows(s, o, now) <==>
              x in s.opportunities && Matches(o, x) && Eligible(s, o, now, x)
  {
    var found := Filter(s.opportunities, row => Matches(o, row));
    SortOrdered(found, HigherScore);
    FilterOrdered(Candidates(s, o), row => Eligible(s, o, now, row));
    forall x ensures x in Candidates(s, o) <==> x in found {
      SortMembers(found, HigherScore, x);
    }
  }

  /** The row matches the filters of the order and its customer passes the gate. */
  function Wanted(s: State, o: CreateOrder, now: int): Opportunity -> bool {
    (row: Opportunity) => Matches(o, row) && Eligible(s, o, now, row)
  }

  lemma FilteredInTwoSteps(rows: seq<Opportunity>, sorted: seq<Opportunity>, p: Opportunity -> bool,
                           q: Opportunity -> bool, both: Opportunity -> bool)
    requires multiset(sorted) == multiset(Filter(rows, p)) && forall x :: both(x) <==> p(x) && q(x)
    ensures multiset(Filter(sorted, q)) == multiset(Filter(rows, both))
  {
    forall x ensures multiset(Filter(sorted, q))[x] == multiset(Filter(rows, both))[x] {
      FilterCount(rows, p, x);
      FilterCount(sorted, q, x);
      FilterCount(rows, both, x);
    }
  }

  lemma EligibleAreWanted(s: State, o: CreateOrder, now: int)
    ensures multiset(EligibleRows(s, o, now)) == multiset(Filter(s.opportunities, Wanted(s, o, now)))
  {
    FilteredInTwoSteps(s.opportunities, Candidates(s, o), row => Matches(o, row), row => Eligible(s, o, now, row),
                       Wanted(s, o, now));
  }

  /** A higher score goes first, and of equal scores the smaller number. */
  predicate GoesFirst(a: Opportunity, b: Opportunity) {
    a.score > b.score || (a.score == b.score && a.id <= b.id)
  }

  lemma PrefixIsBest(all: seq<Opportunity>, limit: nat)
    requires Ordered(all, HigherScore)
    ensures var rows := all[..Min(limit, |all|)];
            && (forall i, j | 0 <= i < j < |rows| :: GoesFirst(rows[i], rows[j])) && multiset(rows) <= multiset(all)
            && forall x, y | x in multiset(all) - multiset(rows) && y in rows :: GoesFirst(y, x)
  {
    var n := Min(limit, |all|);
    var rows, rest := all[..n], all[n..];
    assert all == rows + rest;
    forall x, y | x in multiset(all) - multiset(rows) && y in rows ensures GoesFirst(y, x) {
      assert x in multiset(rest);
      var i :| 0 <= i < |rest| && rest[i] == x;
      var j :| 0 <= j < n && rows[j] == y;
      assert all[n + i] == x && all[j] == y;
    }
  }

  lemma CountedTwice(a: seq<Opportunity>, b: seq<Opportunity>)
    requires multiset(a) == multiset(b)
    ensures |a| == |b|
  {
    assert |multiset(a)| == |multiset(b)|;
  }

  /** The selection takes `limit` rows of those that match and may be contacted, or all of them,
      each as often as it occurs, best score first; no row left out goes before one taken. */
  lemma SelectionIsBest(s: State, o: CreateOrder, now: int)
    ensures var rows, wanted := Selected(s, o, now), Filter(s.opportunities, Wanted(s, o, now));
            && |rows| == Min(o.limit, |wanted|)
            && multiset(rows) <= multiset(wanted) <= multiset(s.opportunities)
            && (forall i, j | 0 <= i < j < |rows| :: GoesFirst(rows[i], rows[j]))
            && (forall x, y | x in multiset(wanted) - multiset(rows) && y in rows :: GoesFirst(y, x))
    ensures forall x | x in Selected(s, o, now) :: x in s.opportunities && Matches(o, x) && Eligible(s, o, now, x)
  {
    EligibleOrdered(s, o, now);
    EligibleAreWanted(s, o, now);
    CountedTwice(EligibleRows(s, o, now), Filter(s.opportunities, Wanted(s, o, now)));
    PrefixIsBest(EligibleRows(s, o, now), o.limit);
    FilterFewer(s.opportunities, Wanted(s, o, now));
  }

  lemma FilterFewer(rows: seq<Opportunity>, p: Opportunity -> bool)
    ensures multiset(Filter(rows, p)) <= multiset(rows)
  {
    forall x ensures multiset(Filter(rows, p))[x] <= multiset(rows)[x] {
      FilterCount(rows, p, x);
    }
  }

  lemma {:induction false} FilterOrdered(s: seq<Opportunity>, p: Opportunity -> bool)
    requires Ordered(s, HigherScore)
    ensures Ordered(Filter(s, p), HigherScore)
  {
    if s != [] {
      var n := |s| - 1;
      FilterOrdered(s[..n], p);
      forall x | x in s[..n] ensures !HigherScore(s[n], x) {
        var i :| 0 <= i < n && s[i] == x;
      }
    }
  }

  function SumValues(rows: seq<Opportunity>): int {
    Sum(Map(rows, (row: Opportunity) => row.value))
  }

  /** The members' expected values add up to the selected opportunities' values. */
  lemma {:induction false} ValuesAddUp(rows: seq<Opportunity>, cs: seq<CustomerId>)
    requires Distinct(cs) && forall row | row in rows :: CustomerOf(row) in cs
    ensures Sum(Map(cs, c => ExpectedFor(rows, c))) == SumValues(rows)
  {
    var value := (row: Opportunity) => row.value;
    if rows == [] {
      SumZero(Map(cs, c => ExpectedFor(rows, c)));
    } else {
      var n := |rows| - 1;
      assert rows[n] in rows && forall row | row in rows[..n] :: row in rows;
      ValuesAddUp(rows[..n], cs);
      OneMoreRow(rows, cs);
      assert Map(rows, value)[..n] == Map(rows[..n], value);
    }
  }

  lemma OneMoreRow(rows: seq<Opportunity>, cs: seq<CustomerId>)
    requires Distinct(cs) && rows != [] && CustomerOf(rows[|rows| - 1]) in cs
    ensures Sum(Map(cs, c => ExpectedFor(rows, c)))
         == Sum(Map(cs, c => ExpectedFor(rows[..|rows| - 1], c))) + rows[|rows| - 1].value
  {
    var n := |rows| - 1;
    var i :| 0 <= i < |cs| && cs[i] == CustomerOf(rows[n]);
    SumDiffers(Map(cs, c => ExpectedFor(rows[..n], c)), Map(cs, c => ExpectedFor(rows, c)), i);
  }

  /** A created campaign: its links are the selected rows in order, its members their distinct
      customers, one row and one arm each, nobody contacted yet, and no value is lost or counted twice. */
  lemma CreatedCampaign(s: State, o: CreateOrder, now: int)
    requires Inv(s) && Selected(s, o, now) != []
    ensures var t := CreateStep(s, o, now); var rows := Selected(s, o, now); var k := s.nextId;
            && k !in s.campaigns && IsOpen(t, k)
            && t.campaigns[k].links == Map(rows, (row: Opportunity) => Link(row.id, CustomerOf(row)))
            && t.campaigns[k].roster == Dedup(Map(rows, CustomerOf)) && Distinct(t.campaigns[k].roster)
            && (forall c | c in t.campaigns[k].roster :: (k, c) in t.members
                  && t.members[(k, c)] == Member(ArmOf(o, c), ExpectedFor(rows, c), None, None))
            && Sum(Map(t.campaigns[k].roster, c => ExpectedFor(rows, c))) == SumValues(rows)
  {
    var rows := Selected(s, o, now);
    assert forall row | row in rows :: CustomerOf(row) in Roster(rows) by {
      forall row | row in rows ensures CustomerOf(row) in Roster(rows) {
        var i :| 0 <= i < |rows| && rows[i] == row;
        assert Map(rows, CustomerOf)[i] == CustomerOf(row);
      }
    }
    ValuesAddUp(rows, Roster(rows));
  }

  /** A customer joins exactly when a selected row is theirs; nobody opted out, held as a
      control or stamped within the fatigue window joins. */
  lemma JoinsIff(s: State, o: CreateOrder, now: int, c: CustomerId)
    requires Inv(s)
    ensures var rows := Selected(s, o, now);
            && (c in Roster(rows) <==> exists row | row in rows :: row.customer == Some(c))
            && (c in Roster(rows) ==>
                  c !in SuppressedIds(s) && c !in ControlIds(s) && c !in RecentExposures(s, now))
  {
    var rows := Selected(s, o, now);
    SelectionIsBest(s, o, now);
    RosterMembers(rows, c);
    if c in Roster(rows) {
      var row :| row in rows && row.customer == Some(c);
      EligibleMeans(s, o, now, row);
    }
  }

  lemma RosterMembers(rows: seq<Opportunity>, c: CustomerId)
    requires forall row | row in rows :: row.customer.Some?
    ensures c in Roster(rows) <==> exists row | row in rows :: row.customer == Some(c)
  {
    var cs := Map(rows, CustomerOf);
    if c in cs {
      var i :| 0 <= i < |cs| && cs[i] == c;
      assert rows[i] in rows;
    }
    if exists row | row in rows :: row.customer == Some(c) {
      var row :| row in rows && row.customer == Some(c);
      var i :| 0 <= i < |rows| && rows[i] == row;
      assert cs[i] == c;
    }
  }

  lemma EligibleMeans(s: State, o: CreateOrder, now: int, row: Opportunity)
    requires Eligible(s, o, now, row)
    ensures var c := CustomerOf(row);
            c !in SuppressedIds(s) && c !in ControlIds(s) && c !in RecentExposures(s, now)
  {
    var c := CustomerOf(row);
    assert Num(c) in KeysOf(s, c);
  }

  // ---------------------------------------------------------------- fatigue

  /** The fatigue window looks at each member's first exposure only. */
  lemma FatigueSeesFirstExposures(rs: seq<Request>, now: int, c: CustomerId)
    ensures var s := Run(rs);
            c in RecentExposures(s, now) <==>
            exists k | (k, c) in s.members && FirstExposure(s.log, k, c).Some? ::
              now - FATIGUE_WINDOW_DAYS * DAY <= FirstExposure(s.log, k, c).value.at <= now
  {
    RunKeeps(rs);
    var s := Run(rs);
    if c in RecentExposures(s, now) {
      var p :| p in s.members && p.1 == c && s.members[p].exposure.Some?
               && now - FATIGUE_WINDOW_DAYS * DAY <= s.members[p].exposure.value.at <= now;
      assert MemberOk(s, p.0, c);
      assert (p.0, c) == p;
    }
    if k :| (k, c) in s.members && FirstExposure(s.log, k, c).Some?
            && now - FATIGUE_WINDOW_DAYS * DAY <= FirstExposure(s.log, k, c).value.at <= now {
      assert MemberOk(s, k, c);
      assert (k, c) in s.members;
    }
  }
}
