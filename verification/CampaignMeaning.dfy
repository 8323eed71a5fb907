/** The requests in terms of the table rows alone: whom the gate blocks, whom a campaign takes in,
    what an export stamps, what closing does and what a send counts. */
module CampaignMeaning {
  import opened Prelude
  import opened PhoneNumber
  import opened CampaignModel
  import opened CampaignSteps
  import opened CampaignHistory
  import opened CampaignTheorems
  import opened CampaignContacts
  import opened OfferText
  import CampaignService

  // ---------------------------------------------------------------- the gate

  /** The key is one of this customer's. */
  predicate Denotes(s: State, key: Key, d: CustomerId) {
    key == Num(d) || (d in s.customers && (key in s.customers[d].keys || key in s.customers[d].rawKeys))
  }

  /** The register names the customer, or the number stored for the customer. */
  ghost predicate OptedOut(s: State, d: CustomerId) {
    exists r | r in s.register ::
      r.customer == Some(d) || (d in s.customers && r.phone.Some? && r.phone == s.customers[d].phone)
  }

  /** A control member of a campaign that is not closed. */
  ghost predicate HeldAsControl(s: State, d: CustomerId) {
    exists k | k in s.campaigns ::
      s.campaigns[k].closedAt == None && (k, d) in s.members && s.members[(k, d)].arm == Control
  }

  /** First contacted by some campaign in the 14 days that end now. */
  ghost predicate StampedLately(s: State, d: CustomerId, now: int) {
    exists k | (k, d) in s.members ::
      match s.members[(k, d)].exposure
      case Some(e) => now - 14 * 86_400 <= e.at <= now
      case None => false
  }

  lemma ExpandIff(s: State, ids: set<CustomerId>, key: Key)
    ensures key in Expand(s, ids) <==> exists d | d in ids :: Denotes(s, key, d)
  {
    if d :| d in ids && Denotes(s, key, d) {
      assert key in KeysOf(s, d);
    }
    if key in Expand(s, ids) {
      var d :| d in ids && key in KeysOf(s, d);
      assert Denotes(s, key, d);
    }
  }

  lemma SuppressedIff(s: State, d: CustomerId)
    ensures d in SuppressedIds(s) <==> OptedOut(s, d)
  {
    if d in s.customers && s.customers[d].phone.Some? && s.customers[d].phone.value in SuppressedPhones(s) {
      var r :| r in s.register && r.phone.Some? && r.phone.value == s.customers[d].phone.value;
      assert r.phone == s.customers[d].phone;
    }
    if OptedOut(s, d) {
      var r :| r in s.register
        && (r.customer == Some(d) || (d in s.customers && r.phone.Some? && r.phone == s.customers[d].phone));
      if r.customer != Some(d) {
        assert r.phone.value in SuppressedPhones(s);
      }
    }
  }

  lemma ControlIff(s: State, d: CustomerId)
    ensures d in ControlIds(s) <==> HeldAsControl(s, d)
  {
    if d in ControlIds(s) {
      var p :| p in s.members && s.members[p].arm.Control? && IsOpen(s, p.0) && p.1 == d;
      assert (p.0, d) == p;
    }
    if HeldAsControl(s, d) {
      var k :| k in s.campaigns && s.campaigns[k].closedAt == None
               && (k, d) in s.members && s.members[(k, d)].arm == Control;
      assert IsOpen(s, (k, d).0) && (k, d).1 == d;
    }
  }

  lemma LatelyIff(s: State, d: CustomerId, now: int)
    ensures d in RecentExposures(s, now) <==> StampedLately(s, d, now)
  {
    if d in RecentExposures(s, now) {
      var p :| p in s.members && s.members[p].exposure.Some? && p.1 == d
               && now - FATIGUE_WINDOW_DAYS * DAY <= s.members[p].exposure.value.at <= now;
      assert (p.0, d) == p;
    }
    if StampedLately(s, d, now) {
      var k :| (k, d) in s.members && s.members[(k, d)].exposure.Some?
               && now - 14 * 86_400 <= s.members[(k, d)].exposure.value.at <= now;
      assert (k, d).1 == d;
    }
  }

  /** Somebody this key denotes is opted out or held as a control. */
  ghost predicate Excluded(s: State, key: Key) {
    exists d :: Denotes(s, key, d) && (OptedOut(s, d) || HeldAsControl(s, d))
  }

  /** Whom the gate blocks, and nobody else: a key that denotes somebody opted out or held as a
      control, a number in the register, or a key among the recent contacts. */
  lemma GateMeans(s: State, key: Key, phone: Option<string>, recent: set<Key>)
    ensures Blocked(s, key, phone, recent) <==>
              || Excluded(s, key)
              || (phone.Some? && phone.value != "" && exists r | r in s.register :: r.phone == phone)
              || key in recent
  {
    ExpandIff(s, SuppressedIds(s), key);
    ExpandIff(s, ControlIds(s), key);
    forall d ensures d in SuppressedIds(s) <==> OptedOut(s, d) {
      SuppressedIff(s, d);
    }
    forall d ensures d in ControlIds(s) <==> HeldAsControl(s, d) {
      ControlIff(s, d);
    }
    PhoneIff(s, phone);
  }

  lemma PhoneIff(s: State, phone: Option<string>)
    ensures phone.Some? ==> (phone.value in SuppressedPhones(s) <==> exists r | r in s.register :: r.phone == phone)
  {
    if phone.Some? && phone.value in SuppressedPhones(s) {
      var r :| r in s.register && r.phone.Some? && r.phone.value == phone.value;
      assert r.phone == phone;
    }
  }

  /** The key denotes somebody opted out, or the number is in the register. */
  ghost predicate RefusedConsent(s: State, key: Key, phone: Option<string>) {
    || (exists d :: Denotes(s, key, d) && OptedOut(s, d))
    || (phone.Some? && phone.value != "" && exists r | r in s.register :: r.phone == phone)
  }

  /** Which reason the gate gives: first the opt-outs, then the controls, then the recent contacts. */
  lemma ReasonIff(s: State, recent: set<Key>, key: Key, phone: Option<string>)
    ensures var reason := CampaignService.ReasonFor(CampaignService.GateOf(s, recent), key, phone);
            var control := exists d :: Denotes(s, key, d) && HeldAsControl(s, d);
            && (reason == Some(CampaignService.Consent) <==> RefusedConsent(s, key, phone))
            && (reason == Some(CampaignService.ControlArm) <==> !RefusedConsent(s, key, phone) && control)
            && (reason == Some(CampaignService.Fatigue) <==>
                  !RefusedConsent(s, key, phone) && !control && key in recent)
  {
    ExpandIff(s, SuppressedIds(s), key);
    ExpandIff(s, ControlIds(s), key);
    forall d ensures d in SuppressedIds(s) <==> OptedOut(s, d) {
      SuppressedIff(s, d);
    }
    forall d ensures d in ControlIds(s) <==> HeldAsControl(s, d) {
      ControlIff(s, d);
    }
    PhoneIff(s, phone);
  }

  lemma MayContactIff(s: State, c: CustomerId)
    ensures MayContact(s, c) <==> !Excluded(s, Num(c))
  {
    GateMeans(s, Num(c), None, {});
  }

  /** The recent contacts: the keys of the outbox, and every key of a customer they denote or of
      one stamped lately. */
  lemma RecentKeyIff(s: State, legacy: set<Key>, now: int, key: Key)
    ensures key in RecentContactKeys(s, legacy, now) <==>
              || key in legacy
              || exists d :: Denotes(s, key, d) && (StampedLately(s, d, now) || OwnsOne(s, d, legacy))
  {
    ExpandIff(s, RecentExposures(s, now) + OwnersOf(s, legacy), key);
    forall d ensures d in RecentExposures(s, now) <==> StampedLately(s, d, now) {
      LatelyIff(s, d, now);
    }
    forall d ensures d in OwnersOf(s, legacy) <==> OwnsOne(s, d, legacy) {
      OwnerIff(s, d, legacy);
    }
  }

  ghost predicate OwnsOne(s: State, d: CustomerId, legacy: set<Key>) {
    d in s.customers && exists key | key in legacy :: key in s.customers[d].rawKeys
  }

  lemma OwnerIff(s: State, d: CustomerId, legacy: set<Key>)
    ensures d in OwnersOf(s, legacy) <==> OwnsOne(s, d, legacy)
  {
    if d in s.customers && exists key | key in legacy :: key in s.customers[d].rawKeys {
      var key :| key in legacy && key in s.customers[d].rawKeys;
      assert key in s.customers[d].rawKeys * legacy;
    }
    if d in OwnersOf(s, legacy) {
      var key :| key in s.customers[d].rawKeys * legacy;
    }
  }

  // ---------------------------------------------------------------- whom a campaign takes in

  /** The rows a new campaign draws from: of a customer, with the order's status and kind, not
      excluded and not recently contacted. */
  lemma WantedIff(s: State, o: CreateOrder, now: int, row: Opportunity)
    ensures Wanted(s, o, now)(row) <==>
              && row.customer.Some?
              && (o.status == None || o.status == Some(row.status))
              && (o.kind == None || o.kind == Some(row.kind))
              && !Excluded(s, Num(row.customer.value))
              && Num(row.customer.value) !in o.legacy
              && !(exists d :: Denotes(s, Num(row.customer.value), d)
                               && (StampedLately(s, d, now) || OwnsOne(s, d, o.legacy)))
  {
    if row.customer.Some? {
      GateMeans(s, Num(row.customer.value), None, RecentContactKeys(s, o.legacy, now));
      RecentKeyIff(s, o.legacy, now, Num(row.customer.value));
    }
  }

  function HeldBy(c: CustomerId): Opportunity -> bool {
    (row: Opportunity) => CustomerOf(row) == c
  }

  /** A member's expected value is the sum of the values of the selected rows of that customer. */
  lemma {:induction false} ExpectedMeans(rows: seq<Opportunity>, c: CustomerId)
    ensures ExpectedFor(rows, c) == SumValues(Filter(rows, HeldBy(c)))
  {
    if rows != [] {
      var n := |rows| - 1;
      var own := Filter(rows[..n], HeldBy(c));
      ExpectedMeans(rows[..n], c);
      if CustomerOf(rows[n]) == c {
        ValuesAppend(own, rows[n]);
      } else {
        assert own + [] == own;
      }
    }
  }

  lemma ValuesAppend(rows: seq<Opportunity>, row: Opportunity)
    ensures SumValues(rows + [row]) == SumValues(rows) + row.value
  {
    var value := (row: Opportunity) => row.value;
    MapAppend(rows, row, value);
    assert Map(rows + [row], value)[..|rows|] == Map(rows, value);
  }

  /** A created campaign: open, not exported, its roster the distinct customers of the rows. */
  function CampaignOf(rows: seq<Opportunity>): Campaign {
    Campaign(None, None, Dedup(Map(rows, CustomerOf)), Map(rows, (row: Opportunity) => Link(row.id, CustomerOf(row))))
  }

  function MemberOf(o: CreateOrder, rows: seq<Opportunity>, c: CustomerId): Member {
    Member(if c in o.arms then o.arms[c] else Treatment, SumValues(Filter(rows, HeldBy(c))), None, None)
  }

  lemma AddsMember(s: State, o: CreateOrder, rows: seq<Opportunity>, p: (CampaignId, CustomerId))
    ensures var t := AddCampaign(s, o, rows);
            if p.0 == s.nextId && p.1 in Dedup(Map(rows, CustomerOf))
            then p in t.members && t.members[p] == MemberOf(o, rows, p.1)
            else (p in t.members <==> p in s.members) && (p in s.members ==> t.members[p] == s.members[p])
  {
    ExpectedMeans(rows, p.1);
  }

  lemma AddsCampaign(s: State, o: CreateOrder, rows: seq<Opportunity>)
    ensures var t := AddCampaign(s, o, rows);
            t == s.(campaigns := s.campaigns[s.nextId := CampaignOf(rows)], members := t.members,
                    nextId := s.nextId + 1)
  {
  }

  /** A creation that selects nothing changes nothing; another adds one campaign under the next
      number and one member per customer of the selected rows. */
  lemma CreateWrites(s: State, o: CreateOrder, now: int, p: (CampaignId, CustomerId))
    ensures var t := CreateStep(s, o, now); var rows := Selected(s, o, now);
            if rows == [] then t == s
            else
              && t == s.(campaigns := s.campaigns[s.nextId := CampaignOf(rows)], members := t.members,
                         nextId := s.nextId + 1)
              && (if p.0 == s.nextId && p.1 in Dedup(Map(rows, CustomerOf))
                  then p in t.members && t.members[p] == MemberOf(o, rows, p.1)
                  else (p in t.members <==> p in s.members) && (p in s.members ==> t.members[p] == s.members[p]))
  {
    AddsMember(s, o, Selected(s, o, now), p);
    AddsCampaign(s, o, Selected(s, o, now));
  }

  // ---------------------------------------------------------------- the other contact paths

  /** Whom a session SMS or a cycle reminder reaches: a recipient with a number, in a real send,
      whose key is not recent and, with the ledger, neither denotes nor has the number of somebody
      opted out or held as a control. A cycle reminder knows no recent contacts; without the
      ledger those of the outbox are all that is known. */
  lemma ReachedIff(s: State, o: OtherOrder, r: Recipient)
    ensures Reached(s, o, r) <==>
              && o.forReal && r.phone.Some? && r.phone.value != ""
              && (o.legacy == None || r.key !in o.legacy.value)
              && (o.ledgerUp ==>
                    && !Excluded(s, r.key) && (forall row | row in s.register :: row.phone != r.phone)
                    && (o.legacy == None ||
                        !exists d :: Denotes(s, r.key, d)
                                     && (StampedLately(s, d, o.now) || OwnsOne(s, d, o.legacy.value))))
  {
    GateMeans(s, r.key, r.phone, RecentKeys(s, o));
    if o.legacy.Some? {
      RecentKeyIff(s, o.legacy.value, o.now, r.key);
    }
  }

  ghost predicate KeptFrom(raw: Suppression, row: Suppression) {
    row.customer == raw.customer && row.phone == Stored(raw.phone) && (row.customer != None || row.phone != None)
  }

  lemma KeptIff(rs: set<Suppression>, row: Suppression)
    ensures row in StoreOptOuts(rs) <==> exists raw | raw in rs :: KeptFrom(raw, row)
  {
    if row in StoreOptOuts(rs) {
      var raw :| raw in rs && (raw.customer.Some? || Stored(raw.phone).Some?) && row == StoreOptOut(raw);
      assert KeptFrom(raw, row);
    }
    if raw :| raw in rs && KeptFrom(raw, row) {
      assert row == StoreOptOut(raw);
    }
  }

  /** The register holds exactly the opt-outs that name a customer or a valid number; customers
      and opt-outs change nothing else. */
  lemma RegisterMeans(s: State, ps: seq<Opportunity>, cs: map<CustomerId, Customer>, rs: set<Suppression>,
                      row: Suppression)
    ensures var t := Apply(s, Outside(ps, cs, rs));
            && (row in t.register <==> exists raw | raw in rs :: KeptFrom(raw, row))
            && t == s.(opportunities := ps, customers := t.customers, register := t.register)
  {
    KeptIff(rs, row);
  }

  /** A session SMS with the ledger up goes to nobody a campaign first contacted within 14 days. */
  lemma SessionSkipsRecent(s: State, o: OtherOrder, e: Event, d: CustomerId)
    requires o.ledgerUp && o.legacy.Some? && e in OtherEvents(s, o) && Denotes(s, e.key, d)
    ensures !StampedLately(s, d, o.now)
  {
    OtherContact(s, o, e);
    RecentKeyIff(s, o.legacy.value, o.now, e.key);
  }

  // ---------------------------------------------------------------- exports

  /** An export names the campaign's treatment members that are not excluded, in roster order,
      whether the campaign is closed or not. */
  lemma ExportAddresses(s: State, k: CampaignId)
    requires k in s.campaigns
    ensures forall c :: c in ExportTargets(s, k) <==>
              c in s.campaigns[k].roster && (k, c) in s.members && s.members[(k, c)].arm == Treatment
              && !Excluded(s, Num(c))
    ensures ExportTargets(s, k) == Filter(s.campaigns[k].roster, Exportable(s, k))
  {
    var arm, permitted := c => (k, c) in s.members && s.members[(k, c)].arm.Treatment?, c => MayContact(s, c);
    FilterTwice(s.campaigns[k].roster, arm, permitted);
    FilterAgree(s.campaigns[k].roster, Both(arm, permitted), Exportable(s, k));
    forall c ensures MayContact(s, c) <==> !Excluded(s, Num(c)) {
      MayContactIff(s, c);
    }
  }

  function Exportable(s: State, k: CampaignId): CustomerId -> bool {
    (c: CustomerId) => (k, c) in s.members && s.members[(k, c)].arm == Treatment && MayContact(s, c)
  }

  /** The offer an export leaves on each member of each campaign: the approved rung of the top
      row by value, if the member is a target, nothing is stamped and no SMS came first, contacted
      before or not; else the stamp stays. */
  lemma ExportStamps(s: State, k: CampaignId, now: int, today: int, p: (CampaignId, CustomerId))
    requires Inv(s) && p in s.members
    ensures var m := s.members[p];
            StampedOffer(ExportStep(s, k, now, today), p) ==
              if p.0 == k && p.1 in ExportTargets(s, k) && m.offer == None && ExportRung(s, k, p.1).Some?
                 && (m.exposure == None || m.exposure.value.channel == ExcelExport)
              then ExportRung(s, k, p.1) else m.offer
  {
    ExportForm(s, k, now, today);
    assert p in ExportStep(s, k, now, today).members.Keys;
  }

  /** The first contact an export leaves on each member. */
  lemma ExportExposes(s: State, k: CampaignId, now: int, today: int, p: (CampaignId, CustomerId))
    requires Inv(s) && p in s.members
    ensures var t := ExportStep(s, k, now, today);
            && p in t.members
            && t.members[p].exposure ==
                 (if p.0 == k && p.1 in ExportTargets(s, k) && s.members[p].exposure == None
                  then Some(Exposure(now, today, ExcelExport)) else s.members[p].exposure)
            && t.members[p].arm == s.members[p].arm && t.members[p].expectedValue == s.members[p].expectedValue
  {
    ExportForm(s, k, now, today);
    ExposesForm(s, ExportStep(s, k, now, today), k, ExportTargets(s, k), now, today, p);
  }

  lemma ExposesForm(s: State, t: State, k: CampaignId, cs: seq<CustomerId>, now: int, today: int,
                    p: (CampaignId, CustomerId))
    requires IsExport(s, t, k, cs, now, today) && p in s.members
    ensures p in t.members
    ensures t.members[p].exposure == if p.0 == k && p.1 in cs && s.members[p].exposure == None
                                     then Some(Exposure(now, today, ExcelExport)) else s.members[p].exposure
    ensures t.members[p].arm == s.members[p].arm && t.members[p].expectedValue == s.members[p].expectedValue
  {
    assert p in t.members.Keys;
  }

  lemma {:induction false} OffersKeepRest(s: State, k: CampaignId, cs: seq<CustomerId>)
    ensures var t := StampExportOffers(s, k, cs);
            t.campaigns == s.campaigns && t.opportunities == s.opportunities && t.customers == s.customers
            && t.register == s.register && t.sends == s.sends && t.nextId == s.nextId
  {
    if cs != [] {
      OffersKeepRest(s, k, cs[..|cs| - 1]);
    }
  }

  lemma {:induction false} ExportsKeepRest(s: State, k: CampaignId, cs: seq<CustomerId>, now: int, today: int)
    ensures var t := StampExports(s, k, cs, now, today);
            t.campaigns == s.campaigns && t.opportunities == s.opportunities && t.customers == s.customers
            && t.register == s.register && t.sends == s.sends && t.nextId == s.nextId
  {
    if cs != [] {
      ExportsKeepRest(s, k, cs[..|cs| - 1], now, today);
    }
  }

  /** The first export with somebody to contact dates the campaign; nothing else of the tables
      but members and log changes. */
  lemma ExportMarks(s: State, k: CampaignId, now: int, today: int)
    requires k in s.campaigns
    ensures var t := ExportStep(s, k, now, today); var first := s.campaigns[k].exportedAt == None;
            && t.campaigns == (if ExportTargets(s, k) != [] && first
                               then s.campaigns[k := s.campaigns[k].(exportedAt := Some(now))] else s.campaigns)
            && t.opportunities == s.opportunities && t.customers == s.customers && t.register == s.register
            && t.sends == s.sends && t.nextId == s.nextId
  {
    OffersKeepRest(s, k, ExportTargets(s, k));
    ExportsKeepRest(StampExportOffers(s, k, ExportTargets(s, k)), k, ExportTargets(s, k), now, today);
  }

  /** The row that leads by value, then kind, holds this discount, approved and not zero. */
  ghost predicate Offers(rows: seq<Opportunity>, bp: nat) {
    bp != 0 && exists i: nat :: TopValue(rows, i) && rows[i].offer == Some(Offer(bp, true))
  }

  lemma LeadingOffer(rows: seq<Opportunity>, bp: nat)
    ensures ApprovedRung(BestByValue(rows)) == Some(bp) <==> Offers(rows, bp)
  {
    if rows != [] {
      var i := ValueIndex(rows);
      if Offers(rows, bp) {
        var j: nat :| TopValue(rows, j) && rows[j].offer == Some(Offer(bp, true));
        TopsAreUnique(rows, i, j);
      }
    }
  }

  /** The rung of an export is the offer of the leading row. */
  lemma ExportRungIff(s: State, k: CampaignId, c: CustomerId, bp: nat)
    requires k in s.campaigns
    ensures ExportRung(s, k, c) == Some(bp) <==> Offers(LinkedRows(s.opportunities, s.campaigns[k].links, c), bp)
  {
    LeadingOffer(LinkedRows(s.opportunities, s.campaigns[k].links, c), bp);
  }

  /** The row that a link names: the first with its number. */
  predicate NamedBy(rows: seq<Opportunity>, link: Link, i: nat) {
    && i < |rows| && rows[i].id == link.opportunity
    && forall j | 0 <= j < i :: rows[j].id != link.opportunity
  }

  ghost predicate Names(rows: seq<Opportunity>, link: Link, row: Opportunity) {
    exists i: nat :: NamedBy(rows, link, i) && rows[i] == row
  }

  lemma {:induction false} FindFirst(rows: seq<Opportunity>, link: Link)
    ensures match FindOpportunity(rows, link.opportunity)
            case Some(row) => Names(rows, link, row)
            case None => forall row | row in rows :: row.id != link.opportunity
  {
    if rows != [] && rows[0].id == link.opportunity {
      assert NamedBy(rows, link, 0);
    } else if rows != [] {
      FindFirst(rows[1..], link);
      var found := FindOpportunity(rows[1..], link.opportunity);
      if found.Some? {
        var i: nat :| NamedBy(rows[1..], link, i) && rows[1..][i] == found.value;
        assert forall j | 1 <= j < i + 1 :: rows[j] == rows[1..][j - 1];
        assert NamedBy(rows, link, i + 1);
      }
    }
  }

  function OfCustomer(rows: seq<Opportunity>, c: CustomerId): Link -> bool {
    (l: Link) => l.customer == c && exists row | row in rows :: row.id == l.opportunity
  }

  lemma LinkedStep(rows: seq<Opportunity>, links: seq<Link>, c: CustomerId)
    requires links != []
    ensures var n := |links| - 1; var found := FindOpportunity(rows, links[n].opportunity);
            LinkedRows(rows, links, c)
            == LinkedRows(rows, links[..n], c)
               + if OfCustomer(rows, c)(links[n]) && found.Some? then [found.value] else []
    ensures OfCustomer(rows, c)(links[|links| - 1]) ==>
              FindOpportunity(rows, links[|links| - 1].opportunity).Some?
  {
    FindFirst(rows, links[|links| - 1]);
  }

  /** The rows of a member: one for each link of that customer to a row that still is there, in
      the order of the links. */
  lemma {:induction false} LinkedRowsMean(rows: seq<Opportunity>, links: seq<Link>, c: CustomerId)
    ensures var own, linked := Filter(links, OfCustomer(rows, c)), LinkedRows(rows, links, c);
            |linked| == |own| && forall k | 0 <= k < |own| :: Names(rows, own[k], linked[k])
  {
    if links != [] {
      var front, last := links[..|links| - 1], links[|links| - 1];
      LinkedRowsMean(rows, front, c);
      LinkedStep(rows, links, c);
      FindFirst(rows, last);
      FilterStep(links, OfCustomer(rows, c), |front|);
      assert links[..|front| + 1] == links;
    }
  }

  // ---------------------------------------------------------------- closing

  lemma StaysClosed(s: State, r: Request, k: CampaignId)
    requires Inv(s) && k in s.campaigns && !IsOpen(s, k)
    ensures k in Apply(s, r).campaigns && !IsOpen(Apply(s, r), k)
  {
    MembersPersist(s, r);
  }

  lemma {:induction false} ClosedForGood(rs: seq<Request>, more: seq<Request>, k: CampaignId)
    requires k in Run(rs).campaigns && !IsOpen(Run(rs), k)
    ensures k in Run(rs + more).campaigns && !IsOpen(Run(rs + more), k)
  {
    if more == [] {
      assert rs + more == rs;
    } else {
      var n := |more| - 1;
      ClosedForGood(rs, more[..n], k);
      RunAppend(rs, more);
      RunKeeps(rs + more[..n]);
      StaysClosed(Run(rs + more[..n]), more[n], k);
    }
  }

  lemma CloseTakesEffect(rs: seq<Request>, at: int, k: CampaignId)
    requires k in Run(rs).campaigns
    ensures var s, t := Run(rs), Run(rs + [Close(k, at)]);
            && t == s.(campaigns := s.campaigns[k := s.campaigns[k].(closedAt := Some(at))])
            && k in t.campaigns && !IsOpen(t, k)
  {
    assert (rs + [Close(k, at)])[..|rs|] == rs;
  }

  lemma ClosedRefuses(s: State, k: CampaignId, o: SendOrder)
    requires k in s.campaigns && !IsOpen(s, k)
    ensures s.campaigns[k].closedAt != None && Apply(s, Send(k, o)) == s
  {
  }

  /** A closing takes effect at once and for good: in every later state the campaign is closed,
      every send to it is refused without effect, and it holds no controls. */
  lemma CloseIsFinal(rs: seq<Request>, at: int, more: seq<Request>, k: CampaignId, o: SendOrder)
    requires k in Run(rs).campaigns
    ensures var s := Run(rs + [Close(k, at)] + more);
            k in s.campaigns && s.campaigns[k].closedAt != None && Apply(s, Send(k, o)) == s
    ensures Run(rs + [Close(k, at)])
            == Run(rs).(campaigns := Run(rs).campaigns[k := Run(rs).campaigns[k].(closedAt := Some(at))])
  {
    CloseTakesEffect(rs, at, k);
    ClosedForGood(rs + [Close(k, at)], more, k);
    ClosedRefuses(Run(rs + [Close(k, at)] + more), k, o);
  }

  // ---------------------------------------------------------------- what a send counts

  /** The template of the order, or without one the message of the member's best-scored row. */
  function SourceOf(s: State, k: CampaignId, o: SendOrder, c: CustomerId): Template
    requires k in s.campaigns
  {
    var best := BestByScore(LinkedRows(s.opportunities, s.campaigns[k].links, c));
    if o.template != [] then o.template else if best.Some? then best.value.message else []
  }

  predicate HasNumber(s: State, c: CustomerId) {
    c in s.customers && Stored(s.customers[c].phone).Some?
  }

  /** The text asks for a discount that nobody approved. */
  predicate LacksOffer(s: State, k: CampaignId, o: SendOrder, c: CustomerId)
    requires k in s.campaigns
  {
    && Placeholder(DiscountSlot, DISCOUNT_PLACEHOLDER) in SourceOf(s, k, o, c)
    && var best := BestByScore(LinkedRows(s.opportunities, s.campaigns[k].links, c));
       (best.None? || best.value.offer == None || !best.value.offer.value.approved || best.value.offer.value.bp == 0)
  }

  predicate LacksText(s: State, k: CampaignId, o: SendOrder, c: CustomerId)
    requires k in s.campaigns
  {
    MakeDraft(s, s.campaigns[k].links, o.template, c).text == ""
  }

  lemma DraftMeans(s: State, k: CampaignId, o: SendOrder, c: CustomerId)
    requires k in s.campaigns
    ensures var d := MakeDraft(s, s.campaigns[k].links, o.template, c);
            (HasPhone(d) <==> HasNumber(s, c)) && (d.blocked <==> LacksOffer(s, k, o, c))
  {
    if c in s.customers && s.customers[c].phone.Some? && Stored(s.customers[c].phone).Some? {
      assert Stored(s.customers[c].phone).value[0] == '+';
    }
  }

  /** What an unblocked text shows at each piece of its source: the literals, the customer's name
      or the general address, the approved percentage, other placeholders as written. */
  lemma DraftPiece(s: State, k: CampaignId, o: SendOrder, c: CustomerId, i: nat)
      returns (before: string, text: string, after: string)
    requires k in s.campaigns && !LacksOffer(s, k, o, c) && i < |SourceOf(s, k, o, c)|
    ensures MakeDraft(s, s.campaigns[k].links, o.template, c).text == before + text + after
    ensures match SourceOf(s, k, o, c)[i]
            case Literal(source) => text == source
            case Placeholder(NameSlot, _) =>
              text == if c in s.customers && s.customers[c].name != "" then s.customers[c].name else "مشتری گرامی"
            case Placeholder(DiscountSlot, source) =>
              var rung := ApprovedRung(BestByScore(LinkedRows(s.opportunities, s.campaigns[k].links, c)));
              if rung.Some? then ReadsAs(text, rung.value) else text == source
            case Placeholder(OtherSlot, source) => text == source
  {
    DraftMeans(s, k, o, c);
    var name := if c in s.customers && s.customers[c].name != "" then s.customers[c].name else DEFAULT_NAME;
    var rung := ApprovedRung(BestByScore(LinkedRows(s.opportunities, s.campaigns[k].links, c)));
    var t := SourceOf(s, k, o, c);
    text := RenderedPiece(t, name, rung, i);
    before, after := Render(t[..i], name, rung), Render(t[i + 1..], name, rung);
  }

  function Numberless(s: State): CustomerId -> bool {
    (c: CustomerId) => !HasNumber(s, c)
  }

  function Offerless(s: State, k: CampaignId, o: SendOrder): CustomerId -> bool
    requires k in s.campaigns
  {
    (c: CustomerId) => HasNumber(s, c) && LacksOffer(s, k, o, c)
  }

  function Textless(s: State, k: CampaignId, o: SendOrder): CustomerId -> bool
    requires k in s.campaigns
  {
    (c: CustomerId) => HasNumber(s, c) && !LacksOffer(s, k, o, c) && LacksText(s, k, o, c)
  }

  /** Each reason to skip has its own counter: no valid number; a number but a discount nobody
      approved; a number, no such discount, and no text. */
  lemma {:induction false} SkipCounters(s: State, k: CampaignId, o: SendOrder, cs: seq<CustomerId>)
    requires k in s.campaigns
    ensures var t := TallyOf(o, Drafts(s, k, o, cs));
            && t.noPhone == |Filter(cs, Numberless(s))|
            && t.noOffer == |Filter(cs, Offerless(s, k, o))|
            && t.noText == |Filter(cs, Textless(s, k, o))|
  {
    if cs != [] {
      var n := |cs| - 1;
      SkipCounters(s, k, o, cs[..n]);
      LastDraft(s, k, o, cs);
      DraftMeans(s, k, o, cs[n]);
      SkipStep(TallyOf(o, Drafts(s, k, o, cs[..n])), o, MakeDraft(s, s.campaigns[k].links, o.template, cs[n]));
      CountLast(cs, Numberless(s));
      CountLast(cs, Offerless(s, k, o));
      CountLast(cs, Textless(s, k, o));
    }
  }

  lemma LastDraft(s: State, k: CampaignId, o: SendOrder, cs: seq<CustomerId>)
    requires k in s.campaigns && cs != []
    ensures var n := |cs| - 1; var d := MakeDraft(s, s.campaigns[k].links, o.template, cs[n]);
            TallyOf(o, Drafts(s, k, o, cs)) == TallyOne(TallyOf(o, Drafts(s, k, o, cs[..n])), o, d)
  {
    assert Drafts(s, k, o, cs)[..|cs| - 1] == Drafts(s, k, o, cs[..|cs| - 1]);
  }

  lemma SkipStep(t: Tally, o: SendOrder, d: Draft)
    ensures var u := TallyOne(t, o, d);
            && u.noPhone == t.noPhone + (if !HasPhone(d) then 1 else 0)
            && u.noOffer == t.noOffer + (if HasPhone(d) && d.blocked then 1 else 0)
            && u.noText == t.noText + (if HasPhone(d) && !d.blocked && d.text == "" then 1 else 0)
  {
  }

  /** What the really sent rows of these members add up to, in segments and in money. */
  function SentSegments(t: State, k: CampaignId, cs: seq<CustomerId>): int {
    if cs == [] then 0
    else
      var row := FindRow(t.sends, k, cs[|cs| - 1]);
      SentSegments(t, k, cs[..|cs| - 1]) + if row.Some? && RealSent(row.value) then row.value.segments else 0
  }

  lemma {:induction false} SegmentsCounted(t: State, k: CampaignId, o: SendOrder, cs: seq<CustomerId>, ds: seq<Draft>)
    requires |ds| == |cs| && forall i | 0 <= i < |cs| :: FindRow(t.sends, k, cs[i]) == Some(RowOf(k, o, ds[i]))
    ensures TallyOf(o, ds).segments == SentSegments(t, k, cs)
  {
    if cs != [] {
      var n := |cs| - 1;
      SegmentsCounted(t, k, o, cs[..n], ds[..n]);
      BilledSegments(k, o, ds[n]);
    }
  }

  lemma BilledSegments(k: CampaignId, o: SendOrder, d: Draft)
    ensures (if RealSent(RowOf(k, o, d)) then RowOf(k, o, d).segments else 0)
         == if Billable(o, d) then SegmentCount(d.text) else 0
  {
  }

  lemma Spread(a: int, b: int, price: int)
    ensures (a + b) * price == a * price + b * price
  {
  }

  lemma {:induction false} CostBySegments(o: SendOrder, ds: seq<Draft>)
    ensures TallyOf(o, ds).cost == TallyOf(o, ds).segments * o.costPerSegment
  {
    if ds != [] {
      var t := TallyOf(o, ds[..|ds| - 1]);
      CostBySegments(o, ds[..|ds| - 1]);
      var more := if Billable(o, ds[|ds| - 1]) then SegmentCount(ds[|ds| - 1].text) else 0;
      Spread(t.segments, more, o.costPerSegment);
    }
  }

  /** A send reports the segments of the rows it really sent, and their price. */
  lemma SendCountsSegments(s: State, k: CampaignId, o: SendOrder)
    requires Inv(s) && IsOpen(s, k)
    ensures var cs := SendTargets(s, k, o); var tally := TallyOf(o, Drafts(s, k, o, cs));
            && tally.segments == SentSegments(SendStep(s, k, o), k, cs)
            && tally.cost == tally.segments * o.costPerSegment
  {
    var cs := SendTargets(s, k, o);
    var ds := Drafts(s, k, o, cs);
    TargetsPending(s, k, o);
    DistinctDrafts(s, k, o, cs);
    forall i | 0 <= i < |cs| ensures FindRow(SendStep(s, k, o).sends, k, cs[i]) == Some(RowOf(k, o, ds[i])) {
      SendAllWrites(s, k, o, ds, i);
    }
    SegmentsCounted(SendStep(s, k, o), k, o, cs, ds);
    CostBySegments(o, ds);
  }

  // ---------------------------------------------------------------- what a send hands over

  /** The member has a number and a text. */
  function Handed(s: State, k: CampaignId, o: SendOrder): CustomerId -> bool
    requires k in s.campaigns
  {
    (c: CustomerId) => HasNumber(s, c) && !LacksText(s, k, o, c)
  }

  /** The message of one member: accepted unless the panel reports an error, billed if accepted. */
  function MessageTo(s: State, k: CampaignId, o: SendOrder): CustomerId -> Event
    requires k in s.campaigns
  {
    (c: CustomerId) =>
      var d := MakeDraft(s, s.campaigns[k].links, o.template, c);
      CampaignSms(k, c, o.now, o.today, c !in o.errors, d.offer,
                  if c in o.errors then 0 else SegmentCount(d.text) * o.costPerSegment)
  }

  lemma MapAppend<T, U>(s: seq<T>, x: T, f: T -> U)
    ensures Map(s + [x], f) == Map(s, f) + [f(x)]
  {
  }

  lemma OneMessage(s: State, k: CampaignId, o: SendOrder, c: CustomerId)
    requires k in s.campaigns
    ensures SmsEvents(k, o, MakeDraft(s, s.campaigns[k].links, o.template, c))
         == if !o.dryRun && o.confirm && o.smsConfigured && Handed(s, k, o)(c) then [MessageTo(s, k, o)(c)] else []
  {
    DraftMeans(s, k, o, c);
  }

  function Messages(s: State, k: CampaignId, o: SendOrder, cs: seq<CustomerId>): seq<Event>
    requires k in s.campaigns
  {
    if !o.dryRun && o.confirm && o.smsConfigured then Map(Filter(cs, Handed(s, k, o)), MessageTo(s, k, o)) else []
  }

  lemma MessagesStep(s: State, k: CampaignId, o: SendOrder, cs: seq<CustomerId>)
    requires k in s.campaigns && cs != []
    ensures var n := |cs| - 1;
            Messages(s, k, o, cs)
            == Messages(s, k, o, cs[..n]) + SmsEvents(k, o, MakeDraft(s, s.campaigns[k].links, o.template, cs[n]))
  {
    var n := |cs| - 1;
    OneMessage(s, k, o, cs[n]);
    MapAppend(Filter(cs[..n], Handed(s, k, o)), cs[n], MessageTo(s, k, o));
  }

  lemma LastSend(s: State, t: State, k: CampaignId, o: SendOrder, cs: seq<CustomerId>)
    requires k in s.campaigns && cs != []
    ensures var n := |cs| - 1;
            SendAll(t, k, o, Drafts(s, k, o, cs)).log
            == SendAll(t, k, o, Drafts(s, k, o, cs[..n])).log
               + SmsEvents(k, o, MakeDraft(s, s.campaigns[k].links, o.template, cs[n]))
  {
    assert Drafts(s, k, o, cs)[..|cs| - 1] == Drafts(s, k, o, cs[..|cs| - 1]);
  }

  lemma {:induction false} MessagesOf(s: State, t: State, k: CampaignId, o: SendOrder, cs: seq<CustomerId>)
    requires k in s.campaigns
    ensures SendAll(t, k, o, Drafts(s, k, o, cs)).log == t.log + Messages(s, k, o, cs)
  {
    if cs == [] {
      assert t.log + [] == t.log;
    } else {
      MessagesOf(s, t, k, o, cs[..|cs| - 1]);
      LastSend(s, t, k, o, cs);
      MessagesStep(s, k, o, cs);
    }
  }

  /** A send that is confirmed, no preview and configured hands the panel one message for each
      member addressed who has a number and a text, in order; any other hands over none. */
  lemma SendHandsOver(s: State, k: CampaignId, o: SendOrder)
    requires IsOpen(s, k)
    ensures SendStep(s, k, o).log
         == s.log + if !o.dryRun && o.confirm && o.smsConfigured
                    then Map(Filter(SendTargets(s, k, o), Handed(s, k, o)), MessageTo(s, k, o)) else []
  {
    MessagesOf(s, s, k, o, SendTargets(s, k, o));
  }
}
