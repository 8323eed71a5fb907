/** What the tables must say about the past, and the proof that every request keeps it. */
module CampaignHistory {
  import opened Prelude
  import opened CampaignModel
  import opened CampaignSteps

  // ---------------------------------------------------------------- reading the log

  /** A completed export of the member, or an accepted real SMS to it. */
  predicate IsExposure(e: Event, k: CampaignId, c: CustomerId) {
    match e
    case Exported(k', c', _, _) => k' == k && c' == c
    case CampaignSms(k', c', _, _, accepted, _, _) => k' == k && c' == c && accepted
    case OtherSms(_, _) => false
  }

  function StampOf(e: Event): Exposure
    requires !e.OtherSms?
  {
    Exposure(e.at, e.date, if e.Exported? then ExcelExport else Sms)
  }

  function FirstExposure(log: seq<Event>, k: CampaignId, c: CustomerId): Option<Exposure> {
    if log == [] then None
    else
      var n := |log| - 1;
      var first := FirstExposure(log[..n], k, c);
      if first.Some? then first
      else if IsExposure(log[n], k, c) then Some(StampOf(log[n])) else None
  }

  /** How many real messages of campaign `k` the panel accepted for `c`. */
  function AcceptedSms(log: seq<Event>, k: CampaignId, c: CustomerId): nat {
    if log == [] then 0
    else
      var n := |log| - 1;
      AcceptedSms(log[..n], k, c) + if log[n].CampaignSms? && IsExposure(log[n], k, c) then 1 else 0
  }

  /** What the accepted real messages of campaign `k` cost. */
  function SpentOn(log: seq<Event>, k: CampaignId): int {
    if log == [] then 0
    else
      var n := |log| - 1;
      SpentOn(log[..n], k)
      + if log[n].CampaignSms? && log[n].campaign == k && log[n].accepted then log[n].cost else 0
  }

  lemma AppendOne(log: seq<Event>, e: Event, k: CampaignId, c: CustomerId)
    ensures FirstExposure(log + [e], k, c) ==
            if FirstExposure(log, k, c).Some? then FirstExposure(log, k, c)
            else if IsExposure(e, k, c) then Some(StampOf(e)) else None
    ensures AcceptedSms(log + [e], k, c) ==
            AcceptedSms(log, k, c) + if e.CampaignSms? && IsExposure(e, k, c) then 1 else 0
    ensures SpentOn(log + [e], k) ==
            SpentOn(log, k) + if e.CampaignSms? && e.campaign == k && e.accepted then e.cost else 0
  {
    assert (log + [e])[..|log|] == log;
  }

  /** The cost of the real, successful rows: the query behind the campaign's contact cost. */
  function BilledRows(rows: seq<SendRow>, k: CampaignId): int {
    if rows == [] then 0
    else
      var n := |rows| - 1;
      BilledRows(rows[..n], k) + if rows[n].campaign == k && RealSent(rows[n]) then rows[n].cost else 0
  }

  // ---------------------------------------------------------------- the invariant

  predicate IsTreatment(s: State, k: CampaignId, c: CustomerId) {
    (k, c) in s.members && s.members[(k, c)].arm.Treatment?
  }

  ghost predicate RosterOk(s: State) {
    && (forall k | k in s.campaigns :: k < s.nextId && Distinct(s.campaigns[k].roster))
    && (forall k, c :: (k, c) in s.members <==> k in s.campaigns && c in s.campaigns[k].roster)
  }

  ghost predicate Shape(s: State) {
    && RosterOk(s)
    && UniqueRows(s.sends)
    && (forall r | r in s.sends :: IsTreatment(s, r.campaign, r.customer))
    && (forall e | e in s.log :: !e.OtherSms? ==> IsTreatment(s, e.campaign, e.customer))
  }

  /** No member is lost and nobody changes arm. */
  ghost predicate SameArms(s: State, t: State) {
    forall p | p in s.members :: p in t.members && t.members[p].arm == s.members[p].arm
  }

  lemma ShapeCarries(s: State, t: State)
    requires Shape(s) && RosterOk(t) && SameArms(s, t) && t.sends == s.sends
    requires forall e | e in t.log :: e in s.log || (!e.OtherSms? ==> IsTreatment(t, e.campaign, e.customer))
    ensures Shape(t)
  {
    forall e | e in t.log ensures !e.OtherSms? ==> IsTreatment(t, e.campaign, e.customer) {
      if e in s.log && !e.OtherSms? {
        assert IsTreatment(s, e.campaign, e.customer);
      }
    }
    forall r | r in t.sends ensures IsTreatment(t, r.campaign, r.customer) {
      assert IsTreatment(s, r.campaign, r.customer);
    }
  }

  /** Stamp = first exposure in the log; one accepted SMS exactly when the row says so;
      the rung of a real SMS stays on the member, and is the whole stamp if SMS came first. */
  ghost predicate MemberOk(s: State, k: CampaignId, c: CustomerId)
    requires (k, c) in s.members
  {
    var m := s.members[(k, c)];
    var row := FindRow(s.sends, k, c);
    && m.exposure == FirstExposure(s.log, k, c)
    && (m.exposure.None? ==> m.offer.None?)
    && AcceptedSms(s.log, k, c) == (if ReallyDelivered(s, k, c) then 1 else 0)
    && (ReallyDelivered(s, k, c) && row.value.offer.Some? ==> m.offer == row.value.offer)
    && (m.exposure.Some? && m.exposure.value.channel.Sms? ==>
          ReallyDelivered(s, k, c) && m.offer == row.value.offer)
  }

  ghost predicate Inv(s: State) {
    && Shape(s)
    && (forall k, c | (k, c) in s.members :: MemberOk(s, k, c))
    && (forall k :: BilledRows(s.sends, k) == SpentOn(s.log, k))
  }

  // ---------------------------------------------------------------- upsert

  lemma {:induction false} IndexAppend(rows: seq<SendRow>, r: SendRow, k: CampaignId, c: CustomerId)
    ensures FindRow(rows + [r], k, c) ==
            if FindRow(rows, k, c).Some? then FindRow(rows, k, c)
            else if IsRow(r, k, c) then Some(r) else None
  {
    assert (rows + [r])[..|rows|] == rows;
  }

  lemma UpsertFind(rows: seq<SendRow>, r: SendRow, k: CampaignId, c: CustomerId)
    ensures FindRow(Upsert(rows, r), k, c) == if IsRow(r, k, c) then Some(r) else FindRow(rows, k, c)
  {
    var i := RowIndex(rows, r.campaign, r.customer);
    if i == |rows| {
      IndexAppend(rows, r, k, c);
    } else {
      var up := rows[i := r];
      var j, j' := RowIndex(rows, k, c), RowIndex(up, k, c);
      if IsRow(r, k, c) {
        assert j == i && j' == i by { assert IsRow(up[i], k, c); }
      } else {
        assert forall x | 0 <= x < |rows| :: IsRow(up[x], k, c) <==> IsRow(rows[x], k, c);
        assert j == j';
      }
    }
  }

  lemma UpsertUnique(rows: seq<SendRow>, r: SendRow)
    requires UniqueRows(rows)
    ensures UniqueRows(Upsert(rows, r))
    ensures forall x | x in Upsert(rows, r) :: x == r || x in rows
  {
  }

  function Billed(r: Option<SendRow>, k: CampaignId): int {
    if r.Some? && r.value.campaign == k && RealSent(r.value) then r.value.cost else 0
  }

  lemma {:induction false} BilledReplace(rows: seq<SendRow>, i: nat, r: SendRow, k: CampaignId)
    requires i < |rows|
    ensures BilledRows(rows[i := r], k) == BilledRows(rows, k) - Billed(Some(rows[i]), k) + Billed(Some(r), k)
  {
    var n := |rows| - 1;
    if i < n {
      BilledReplace(rows[..n], i, r, k);
      assert rows[i := r][..n] == rows[..n][i := r];
    } else {
      assert rows[i := r][..n] == rows[..n];
    }
  }

  lemma UpsertBilled(rows: seq<SendRow>, r: SendRow, k: CampaignId)
    ensures BilledRows(Upsert(rows, r), k) ==
            BilledRows(rows, k) - Billed(FindRow(rows, r.campaign, r.customer), k) + Billed(Some(r), k)
  {
    var i := RowIndex(rows, r.campaign, r.customer);
    if i < |rows| {
      BilledReplace(rows, i, r, k);
    } else {
      assert (rows + [r])[..|rows|] == rows;
    }
  }

  // ---------------------------------------------------------------- one draft of a send

  ghost predicate Pending(s: State, k: CampaignId, c: CustomerId) {
    IsTreatment(s, k, c) && !Delivered(s, k, c)
  }

  lemma SendOneShape(s: State, k: CampaignId, o: SendOrder, d: Draft)
    requires Inv(s) && Pending(s, k, d.customer)
    ensures Shape(SendOne(s, k, o, d))
  {
    UpsertUnique(s.sends, RowOf(k, o, d));
  }

  lemma SendOneMember(s: State, k: CampaignId, o: SendOrder, d: Draft, k': CampaignId, c': CustomerId)
    requires Inv(s) && Pending(s, k, d.customer) && (k', c') in s.members
    requires d.offer.Some? ==> !d.blocked
    ensures MemberOk(SendOne(s, k, o, d), k', c')
  {
    var r := RowOf(k, o, d);
    UpsertFind(s.sends, r, k', c');
    if SmsEvents(k, o, d) != [] {
      AppendOne(s.log, SmsEvents(k, o, d)[0], k', c');
    } else {
      assert s.log + SmsEvents(k, o, d) == s.log;
    }
    assert MemberOk(s, k', c');
  }

  lemma SendOneCost(s: State, k: CampaignId, o: SendOrder, d: Draft, k': CampaignId)
    requires Inv(s) && Pending(s, k, d.customer)
    ensures var t := SendOne(s, k, o, d); BilledRows(t.sends, k') == SpentOn(t.log, k')
    ensures SpentOn(SendOne(s, k, o, d).log, k) == SpentOn(s.log, k) + CostOf(o, d)
  {
    UpsertBilled(s.sends, RowOf(k, o, d), k');
    UpsertBilled(s.sends, RowOf(k, o, d), k);
    if SmsEvents(k, o, d) != [] {
      AppendOne(s.log, SmsEvents(k, o, d)[0], k', d.customer);
      AppendOne(s.log, SmsEvents(k, o, d)[0], k, d.customer);
    } else {
      assert s.log + SmsEvents(k, o, d) == s.log;
    }
  }

  lemma SendOneKeeps(s: State, k: CampaignId, o: SendOrder, d: Draft)
    requires Inv(s) && Pending(s, k, d.customer)
    requires d.offer.Some? ==> !d.blocked
    ensures Inv(SendOne(s, k, o, d))
  {
    SendOneShape(s, k, o, d);
    var t := SendOne(s, k, o, d);
    forall k', c' | (k', c') in t.members ensures MemberOk(t, k', c') {
      SendOneMember(s, k, o, d, k', c');
    }
    forall k' ensures BilledRows(t.sends, k') == SpentOn(t.log, k') {
      SendOneCost(s, k, o, d, k');
    }
  }

  ghost predicate DraftsOk(s: State, k: CampaignId, ds: seq<Draft>) {
    && (forall i, j | 0 <= i < j < |ds| :: ds[i].customer != ds[j].customer)
    && (forall i | 0 <= i < |ds| :: Pending(s, k, ds[i].customer) && (ds[i].offer.Some? ==> !ds[i].blocked))
  }

  /** What a batch leaves alone: the rows of everybody outside it, and the shape of the campaign. */
  lemma {:induction false} SendAllFrame(s: State, k: CampaignId, o: SendOrder, ds: seq<Draft>, k': CampaignId,
                                        c': CustomerId)
    requires k' != k || forall i | 0 <= i < |ds| :: ds[i].customer != c'
    ensures var t := SendAll(s, k, o, ds);
            && FindRow(t.sends, k', c') == FindRow(s.sends, k', c')
            && ((k', c') in s.members <==> (k', c') in t.members)
            && ((k', c') in s.members ==> t.members[(k', c')] == s.members[(k', c')])
  {
    if ds != [] {
      var n := |ds| - 1;
      SendAllFrame(s, k, o, ds[..n], k', c');
      UpsertFind(SendAll(s, k, o, ds[..n]).sends, RowOf(k, o, ds[n]), k', c');
    }
  }

  lemma NextPending(s: State, k: CampaignId, o: SendOrder, ds: seq<Draft>)
    requires ds != [] && DraftsOk(s, k, ds)
    ensures DraftsOk(s, k, ds[..|ds| - 1])
    ensures Pending(SendAll(s, k, o, ds[..|ds| - 1]), k, ds[|ds| - 1].customer)
  {
    SendAllFrame(s, k, o, ds[..|ds| - 1], k, ds[|ds| - 1].customer);
  }

  lemma {:induction false} SendAllKeeps(s: State, k: CampaignId, o: SendOrder, ds: seq<Draft>)
    requires Inv(s) && DraftsOk(s, k, ds)
    ensures Inv(SendAll(s, k, o, ds))
  {
    if ds != [] {
      var n := |ds| - 1;
      NextPending(s, k, o, ds);
      SendAllKeeps(s, k, o, ds[..n]);
      SendOneKeeps(SendAll(s, k, o, ds[..n]), k, o, ds[n]);
    }
  }

  /** The cost the response reports is what the log of real messages grows by. */
  lemma {:induction false} SendAllSpends(s: State, k: CampaignId, o: SendOrder, ds: seq<Draft>)
    ensures SpentOn(SendAll(s, k, o, ds).log, k) == SpentOn(s.log, k) + TallyOf(o, ds).cost
  {
    if ds != [] {
      var n := |ds| - 1;
      SendAllSpends(s, k, o, ds[..n]);
      var t := SendAll(s, k, o, ds[..n]);
      if SmsEvents(k, o, ds[n]) != [] {
        AppendOne(t.log, SmsEvents(k, o, ds[n])[0], k, ds[n].customer);
      } else {
        assert t.log + SmsEvents(k, o, ds[n]) == t.log;
      }
    }
  }

  // ---------------------------------------------------------------- every request

  lemma TargetsPending(s: State, k: CampaignId, o: SendOrder)
    requires Shape(s) && k in s.campaigns
    ensures Distinct(SendTargets(s, k, o))
    ensures forall c | c in SendTargets(s, k, o) :: Pending(s, k, c) && MayContact(s, c)
    ensures DraftsOk(s, k, Drafts(s, k, o, SendTargets(s, k, o)))
  {
    var isTreatment := c => (k, c) in s.members && s.members[(k, c)].arm.Treatment?;
    FilterDistinct(s.campaigns[k].roster, isTreatment);
    var arm := TreatmentArm(s, k);
    FilterDistinct(arm, c => !Delivered(s, k, c));
    FilterDistinct(Undelivered(s, k, arm), c => MayContact(s, c));
  }

  lemma SendKeeps(s: State, k: CampaignId, o: SendOrder)
    requires Inv(s)
    ensures Inv(SendStep(s, k, o))
  {
    if IsOpen(s, k) {
      TargetsPending(s, k, o);
      SendAllKeeps(s, k, o, Drafts(s, k, o, SendTargets(s, k, o)));
    }
  }

  /** The offer pass of an export, in closed form. */
  lemma {:induction false} OfferPass(s: State, k: CampaignId, cs: seq<CustomerId>)
    requires Distinct(cs) && forall c | c in cs :: (k, c) in s.members
    ensures var t := StampExportOffers(s, k, cs);
            && t == s.(members := t.members)
            && t.members.Keys == s.members.Keys
            && forall p | p in s.members :: t.members[p] ==
                 if p.0 == k && p.1 in cs then OfferStamp(s.members[p], ExportRung(s, k, p.1)) else s.members[p]
  {
    if cs != [] {
      var n := |cs| - 1;
      OfferPass(s, k, cs[..n]);
      assert cs[n] !in cs[..n];
      assert forall c :: c in cs <==> c in cs[..n] || c == cs[n];
    }
  }

  /** The exposure pass of an export, in closed form. */
  function ExportEvents(k: CampaignId, cs: seq<CustomerId>, now: int, today: int): seq<Event> {
    Map(cs, c => Exported(k, c, now, today))
  }

  /** One more stamp on top of the stamps of the others. */
  lemma StampStep(s: State, t: State, k: CampaignId, cs: seq<CustomerId>, c: CustomerId, now: int, today: int)
    requires c !in cs && (k, c) in s.members && t == s.(members := t.members, log := t.log)
    requires t.members.Keys == s.members.Keys
    requires forall p | p in s.members :: t.members[p] ==
               if p.0 == k && p.1 in cs then Expose(s.members[p], now, today, ExcelExport) else s.members[p]
    ensures var u := StampExport(t, k, c, now, today);
            && u == s.(members := u.members, log := t.log + [Exported(k, c, now, today)])
            && u.members.Keys == s.members.Keys
            && forall p | p in s.members :: u.members[p] ==
                 if p.0 == k && p.1 in cs + [c] then Expose(s.members[p], now, today, ExcelExport) else s.members[p]
  {
    assert (k, c) in t.members.Keys;
  }

  lemma {:induction false} ExposurePass(s: State, k: CampaignId, cs: seq<CustomerId>, now: int, today: int)
    requires Distinct(cs) && forall c | c in cs :: (k, c) in s.members
    ensures var t := StampExports(s, k, cs, now, today);
            && t == s.(members := t.members, log := t.log)
            && t.members.Keys == s.members.Keys
            && t.log == s.log + ExportEvents(k, cs, now, today)
            && forall p | p in s.members :: t.members[p] ==
                 if p.0 == k && p.1 in cs then Expose(s.members[p], now, today, ExcelExport) else s.members[p]
  {
    if cs != [] {
      var n := |cs| - 1;
      ExposurePass(s, k, cs[..n], now, today);
      assert cs[n] !in cs[..n] && cs == cs[..n] + [cs[n]];
      LastExport(s.log, k, cs, now, today);
      StampStep(s, StampExports(s, k, cs[..n], now, today), k, cs[..n], cs[n], now, today);
    }
  }

  lemma OneExportInLog(log: seq<Event>, k: CampaignId, c: CustomerId, now: int, today: int, k': CampaignId,
                       c': CustomerId)
    ensures var log' := log + [Exported(k, c, now, today)];
            && AcceptedSms(log', k', c') == AcceptedSms(log, k', c')
            && SpentOn(log', k') == SpentOn(log, k')
            && FirstExposure(log', k', c') ==
                 if FirstExposure(log, k', c').None? && k' == k && c' == c
                 then Some(Exposure(now, today, ExcelExport)) else FirstExposure(log, k', c')
  {
    AppendOne(log, Exported(k, c, now, today), k', c');
  }

  lemma LastExport(log: seq<Event>, k: CampaignId, cs: seq<CustomerId>, now: int, today: int)
    requires cs != []
    ensures var n := |cs| - 1;
            log + ExportEvents(k, cs, now, today)
            == (log + ExportEvents(k, cs[..n], now, today)) + [Exported(k, cs[n], now, today)]
  {
  }

  lemma {:induction false} ExportsInLog(log: seq<Event>, k: CampaignId, cs: seq<CustomerId>, now: int, today: int,
                                        k': CampaignId, c': CustomerId)
    ensures var log' := log + ExportEvents(k, cs, now, today);
            && AcceptedSms(log', k', c') == AcceptedSms(log, k', c')
            && SpentOn(log', k') == SpentOn(log, k')
            && FirstExposure(log', k', c') ==
                 if FirstExposure(log, k', c').None? && k' == k && c' in cs
                 then Some(Exposure(now, today, ExcelExport)) else FirstExposure(log, k', c')
  {
    if cs == [] {
      assert log + ExportEvents(k, cs, now, today) == log;
    } else {
      var n := |cs| - 1;
      ExportsInLog(log, k, cs[..n], now, today, k', c');
      LastExport(log, k, cs, now, today);
      OneExportInLog(log + ExportEvents(k, cs[..n], now, today), k, cs[n], now, today, k', c');
      assert c' in cs <==> c' in cs[..n] || c' == cs[n];
    }
  }

  lemma TargetsOfExport(s: State, k: CampaignId)
    requires Shape(s)
    ensures Distinct(ExportTargets(s, k))
    ensures forall c | c in ExportTargets(s, k) :: IsTreatment(s, k, c) && MayContact(s, c)
  {
    if k in s.campaigns {
      FilterDistinct(s.campaigns[k].roster, c => (k, c) in s.members && s.members[(k, c)].arm.Treatment?);
      FilterDistinct(TreatmentArm(s, k), c => MayContact(s, c));
    }
  }

  /** An export in closed form: the log, the stamped members, and what it leaves alone. */
  ghost predicate IsExport(s: State, t: State, k: CampaignId, cs: seq<CustomerId>, now: int, today: int) {
    && t.log == s.log + ExportEvents(k, cs, now, today)
    && t.members.Keys == s.members.Keys
    && (forall p | p in s.members :: t.members[p] ==
          if p.0 == k && p.1 in cs
          then Expose(OfferStamp(s.members[p], ExportRung(s, k, p.1)), now, today, ExcelExport)
          else s.members[p])
    && t.sends == s.sends && t.nextId == s.nextId
    && t.campaigns.Keys == s.campaigns.Keys
    && (forall j | j in s.campaigns ::
          t.campaigns[j].roster == s.campaigns[j].roster && t.campaigns[j].closedAt == s.campaigns[j].closedAt)
  }

  lemma ExportForm(s: State, k: CampaignId, now: int, today: int)
    requires Shape(s)
    ensures IsExport(s, ExportStep(s, k, now, today), k, ExportTargets(s, k), now, today)
  {
    var cs := ExportTargets(s, k);
    TargetsOfExport(s, k);
    if cs == [] {
      assert s.log + ExportEvents(k, cs, now, today) == s.log;
    } else {
      var t := StampExportOffers(s, k, cs);
      OfferPass(s, k, cs);
      ExposurePass(t, k, cs, now, today);
      MarkedIsExport(s, StampExports(t, k, cs, now, today), k, cs, now, today);
    }
  }

  lemma MarkedIsExport(s: State, t: State, k: CampaignId, cs: seq<CustomerId>, now: int, today: int)
    requires IsExport(s, t, k, cs, now, today)
    ensures IsExport(s, MarkExported(t, k, now), k, cs, now, today)
  {
  }

  lemma RosterCarries(s: State, t: State)
    requires RosterOk(s)
    requires t.members.Keys == s.members.Keys && t.campaigns.Keys == s.campaigns.Keys && t.nextId == s.nextId
    requires forall j | j in s.campaigns :: t.campaigns[j].roster == s.campaigns[j].roster
    ensures RosterOk(t)
  {
    forall j, c ensures (j, c) in t.members <==> j in t.campaigns && c in t.campaigns[j].roster {
      assert (j, c) in t.members.Keys <==> (j, c) in s.members.Keys;
      assert j in t.campaigns.Keys <==> j in s.campaigns.Keys;
    }
    forall j | j in t.campaigns ensures j < t.nextId && Distinct(t.campaigns[j].roster) {
      assert j in s.campaigns.Keys;
    }
  }

  lemma ExportShape(s: State, t: State, k: CampaignId, cs: seq<CustomerId>, now: int, today: int)
    requires Shape(s) && IsExport(s, t, k, cs, now, today)
    requires forall c | c in cs :: IsTreatment(s, k, c)
    ensures Shape(t) && SameArms(s, t)
  {
    RosterCarries(s, t);
    forall e | e in t.log ensures e in s.log || (!e.OtherSms? ==> IsTreatment(t, e.campaign, e.customer)) {
      if e !in s.log {
        assert e.campaign == k && e.customer in cs;
        assert IsTreatment(s, k, e.customer);
      }
    }
    ShapeCarries(s, t);
  }

  lemma ExportMember(s: State, t: State, k: CampaignId, cs: seq<CustomerId>, now: int, today: int,
                     k': CampaignId, c': CustomerId)
    requires (k', c') in s.members && MemberOk(s, k', c') && IsExport(s, t, k, cs, now, today)
    ensures (k', c') in t.members && MemberOk(t, k', c')
  {
    ExportsInLog(s.log, k, cs, now, today, k', c');
    assert (k', c') in t.members.Keys;
  }

  lemma ExportKeeps(s: State, k: CampaignId, now: int, today: int)
    requires Inv(s)
    ensures Inv(ExportStep(s, k, now, today)) && SameArms(s, ExportStep(s, k, now, today))
  {
    TargetsOfExport(s, k);
    ExportForm(s, k, now, today);
    IsExportKeeps(s, ExportStep(s, k, now, today), k, ExportTargets(s, k), now, today);
  }

  lemma IsExportKeeps(s: State, t: State, k: CampaignId, cs: seq<CustomerId>, now: int, today: int)
    requires Inv(s) && IsExport(s, t, k, cs, now, today)
    requires forall c | c in cs :: IsTreatment(s, k, c)
    ensures Inv(t) && SameArms(s, t)
  {
    ExportShape(s, t, k, cs, now, today);
    forall k', c' | (k', c') in t.members ensures MemberOk(t, k', c') {
      assert (k', c') in s.members.Keys;
      ExportMember(s, t, k, cs, now, today, k', c');
    }
    forall k' ensures BilledRows(t.sends, k') == SpentOn(t.log, k') {
      ExportsInLog(s.log, k, cs, now, today, k', 0);
    }
  }

  lemma NothingYet(s: State, k: CampaignId, c: CustomerId)
    requires Shape(s) && (k, c) !in s.members
    ensures FindRow(s.sends, k, c).None?
    ensures FirstExposure(s.log, k, c).None? && AcceptedSms(s.log, k, c) == 0
  {
    NoEvents(s.log, k, c);
  }

  lemma {:induction false} NoEvents(log: seq<Event>, k: CampaignId, c: CustomerId)
    requires forall e | e in log :: !IsExposure(e, k, c)
    ensures FirstExposure(log, k, c).None? && AcceptedSms(log, k, c) == 0
  {
    if log != [] {
      assert forall e | e in log[..|log| - 1] :: e in log;
      NoEvents(log[..|log| - 1], k, c);
      assert log[|log| - 1] in log;
    }
  }

  lemma JoinedRoster(s: State, t: State, k: CampaignId, campaign: Campaign,
                     joined: map<(CampaignId, CustomerId), Member>)
    requires RosterOk(s) && k == s.nextId && Distinct(campaign.roster)
    requires forall p :: p in joined <==> p.0 == k && p.1 in campaign.roster
    requires t.campaigns == s.campaigns[k := campaign] && t.nextId == k + 1 && t.members == s.members + joined
    ensures RosterOk(t) && SameArms(s, t)
    ensures forall p | p in s.members :: p !in joined
  {
    forall p | p in s.members ensures p !in joined {
      assert (p.0, p.1) in s.members;
    }
    forall k', c' ensures (k', c') in t.members <==> k' in t.campaigns && c' in t.campaigns[k'].roster {
      assert (k', c') in joined <==> k' == k && c' in campaign.roster;
      assert (k', c') in s.members <==> k' in s.campaigns && c' in s.campaigns[k'].roster;
    }
  }

  lemma CreateShape(s: State, o: CreateOrder, now: int)
    requires Inv(s)
    ensures Shape(CreateStep(s, o, now)) && SameArms(s, CreateStep(s, o, now))
  {
    var t := CreateStep(s, o, now);
    var rows := Selected(s, o, now);
    if rows != [] {
      var k := s.nextId;
      JoinedRoster(s, t, k, t.campaigns[k], NewMembers(k, o, rows, Roster(rows)));
      ShapeCarries(s, t);
    }
  }

  lemma CreateMember(s: State, o: CreateOrder, now: int, k: CampaignId, c: CustomerId)
    requires Inv(s) && (k, c) in CreateStep(s, o, now).members
    ensures MemberOk(CreateStep(s, o, now), k, c)
  {
    if (k, c) in s.members {
      assert k != s.nextId;
      assert MemberOk(s, k, c);
    } else {
      NothingYet(s, k, c);
    }
  }

  lemma CreateKeeps(s: State, o: CreateOrder, now: int)
    requires Inv(s)
    ensures Inv(CreateStep(s, o, now))
  {
    CreateShape(s, o, now);
    var t := CreateStep(s, o, now);
    forall k, c | (k, c) in t.members ensures MemberOk(t, k, c) {
      CreateMember(s, o, now, k, c);
    }
  }

  lemma {:induction false} OtherInLog(log: seq<Event>, more: seq<Event>, k: CampaignId, c: CustomerId)
    requires forall e | e in more :: e.OtherSms?
    ensures FirstExposure(log + more, k, c) == FirstExposure(log, k, c)
    ensures AcceptedSms(log + more, k, c) == AcceptedSms(log, k, c)
    ensures SpentOn(log + more, k) == SpentOn(log, k)
  {
    if more == [] {
      assert log + more == log;
    } else {
      var n := |more| - 1;
      assert more[n] in more && forall e | e in more[..n] :: e in more;
      OtherInLog(log, more[..n], k, c);
      assert log + more == (log + more[..n]) + [more[n]];
      AppendOne(log + more[..n], more[n], k, c);
    }
  }

  lemma OtherKeeps(s: State, o: OtherOrder)
    requires Inv(s)
    ensures Inv(OtherStep(s, o))
  {
    var t := OtherStep(s, o);
    forall k, c | (k, c) in t.members ensures MemberOk(t, k, c) {
      OtherInLog(s.log, OtherEvents(s, o), k, c);
      assert MemberOk(s, k, c);
    }
    forall k ensures BilledRows(t.sends, k) == SpentOn(t.log, k) {
      OtherInLog(s.log, OtherEvents(s, o), k, 0);
    }
  }

  lemma ApplyKeeps(s: State, r: Request)
    requires Inv(s)
    ensures Inv(Apply(s, r))
  {
    match r
    case Create(o, at) => CreateKeeps(s, o, at);
    case Export(k, at, date) => ExportKeeps(s, k, at, date);
    case Send(k, o) => SendKeeps(s, k, o);
    case Close(k, at) =>
      forall k', c' | (k', c') in s.members ensures MemberOk(Apply(s, r), k', c') {
        assert MemberOk(s, k', c');
      }
    case Other(o) => OtherKeeps(s, o);
    case Outside(_, _, _) =>
      forall k', c' | (k', c') in s.members ensures MemberOk(Apply(s, r), k', c') {
        assert MemberOk(s, k', c');
      }
  }

  /** Every reachable state satisfies the invariant. */
  lemma {:induction false} RunKeeps(rs: seq<Request>)
    ensures Inv(Run(rs))
  {
    if rs != [] {
      RunKeeps(rs[..|rs| - 1]);
      ApplyKeeps(Run(rs[..|rs| - 1]), rs[|rs| - 1]);
    }
  }

  lemma OneMore(rs: seq<Request>, r: Request)
    ensures Run(rs + [r]) == Apply(Run(rs), r)
  {
    assert (rs + [r])[..|rs|] == rs;
  }
}
