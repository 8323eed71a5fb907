/** Main results about every run of campaign requests, in any order and over any number of
    campaigns, with panel failures, previews, approvals and opt-outs in between. */
module CampaignTheorems {
  import opened Prelude
  import opened CampaignModel
  import opened CampaignSteps
  import opened CampaignHistory

  // ---------------------------------------------------------------- at most one real message

  /** Per member and campaign: at most one accepted real SMS, at most one send row, and the
      row says "really sent" exactly when the message was accepted. */
  lemma AtMostOneRealSms(rs: seq<Request>, k: CampaignId, c: CustomerId)
    ensures var s := Run(rs);
            && AcceptedSms(s.log, k, c) <= 1
            && (AcceptedSms(s.log, k, c) == 1 <==> ReallyDelivered(s, k, c))
            && UniqueRows(s.sends)
  {
    RunKeeps(rs);
    var s := Run(rs);
    if (k, c) in s.members {
      assert MemberOk(s, k, c);
    } else {
      NothingYet(s, k, c);
    }
  }

  /** How many messages of campaign `k` were handed to the panel for `c`, accepted or not. */
  function Attempts(log: seq<Event>, k: CampaignId, c: CustomerId): nat {
    if log == [] then 0
    else
      var n := |log| - 1;
      Attempts(log[..n], k, c)
      + if log[n].CampaignSms? && log[n].campaign == k && log[n].customer == c then 1 else 0
  }

  lemma {:induction false} AttemptsAppend(log: seq<Event>, more: seq<Event>, k: CampaignId, c: CustomerId)
    requires forall e | e in more :: !(e.CampaignSms? && e.campaign == k && e.customer == c)
    ensures Attempts(log + more, k, c) == Attempts(log, k, c)
  {
    if more == [] {
      assert log + more == log;
    } else {
      var n := |more| - 1;
      assert more[n] in more && forall e | e in more[..n] :: e in more;
      AttemptsAppend(log, more[..n], k, c);
      assert (log + more)[..|log| + n] == log + more[..n];
    }
  }

  lemma {:induction false} SendAllAttempts(s: State, k: CampaignId, o: SendOrder, ds: seq<Draft>, k': CampaignId,
                                           c: CustomerId)
    requires k' != k || forall i | 0 <= i < |ds| :: ds[i].customer != c
    ensures Attempts(SendAll(s, k, o, ds).log, k', c) == Attempts(s.log, k', c)
  {
    if ds != [] {
      var n := |ds| - 1;
      SendAllAttempts(s, k, o, ds[..n], k', c);
      AttemptsAppend(SendAll(s, k, o, ds[..n]).log, SmsEvents(k, o, ds[n]), k', c);
    }
  }

  /** A row with status SENT, real or preview, is never rewritten and nothing more is sent. */
  lemma SentRowIsFinal(s: State, r: Request, k: CampaignId, c: CustomerId)
    requires Inv(s) && Delivered(s, k, c)
    ensures FindRow(Apply(s, r).sends, k, c) == FindRow(s.sends, k, c)
    ensures Attempts(Apply(s, r).log, k, c) == Attempts(s.log, k, c)
  {
    match r
    case Create(_, _) =>
    case Close(_, _) =>
    case Outside(_, _, _) =>
    case Export(k', at, date) =>
      ExportForm(s, k', at, date);
      AttemptsAppend(s.log, ExportEvents(k', ExportTargets(s, k'), at, date), k, c);
    case Other(o) =>
      AttemptsAppend(s.log, OtherEvents(s, o), k, c);
    case Send(k', o) => SendLeavesSent(s, k', o, k, c);
  }

  lemma SendLeavesSent(s: State, k': CampaignId, o: SendOrder, k: CampaignId, c: CustomerId)
    requires Inv(s) && Delivered(s, k, c)
    ensures var t := SendStep(s, k', o);
            FindRow(t.sends, k, c) == FindRow(s.sends, k, c) && Attempts(t.log, k, c) == Attempts(s.log, k, c)
  {
    if IsOpen(s, k') {
      TargetsPending(s, k', o);
      var ds := Drafts(s, k', o, SendTargets(s, k', o));
      SendAllFrame(s, k', o, ds, k, c);
      SendAllAttempts(s, k', o, ds, k, c);
    }
  }

  lemma RunAppend(rs: seq<Request>, more: seq<Request>)
    requires more != []
    ensures Run(rs + more) == Apply(Run(rs + more[..|more| - 1]), more[|more| - 1])
  {
    assert (rs + more)[..|rs + more| - 1] == rs + more[..|more| - 1];
  }

  /** The same over every continuation of a run. */
  lemma {:induction false} SentRowStays(rs: seq<Request>, more: seq<Request>, k: CampaignId, c: CustomerId)
    requires Delivered(Run(rs), k, c)
    ensures FindRow(Run(rs + more).sends, k, c) == FindRow(Run(rs).sends, k, c)
    ensures Attempts(Run(rs + more).log, k, c) == Attempts(Run(rs).log, k, c)
  {
    if more == [] {
      assert rs + more == rs;
    } else {
      var n := |more| - 1;
      SentRowStays(rs, more[..n], k, c);
      RunAppend(rs, more);
      RunKeeps(rs + more[..n]);
      SentRowIsFinal(Run(rs + more[..n]), more[n], k, c);
    }
  }

  /** A preview that recorded the member as SENT shuts out every later real message to it:
      previews are not transparent. */
  lemma PreviewBlocksRealSms(rs: seq<Request>, more: seq<Request>, k: CampaignId, c: CustomerId)
    requires Delivered(Run(rs), k, c) && !ReallyDelivered(Run(rs), k, c)
    ensures AcceptedSms(Run(rs + more).log, k, c) == 0
  {
    SentRowStays(rs, more, k, c);
    AtMostOneRealSms(rs + more, k, c);
  }

  /** A treatment member without a SENT row of either sort whom the gate permits. */
  function Waiting(s: State, k: CampaignId): CustomerId -> bool {
    (c: CustomerId) => IsTreatment(s, k, c) && !Delivered(s, k, c) && MayContact(s, c)
  }

  /** Exactly whom a send addresses: the first `limit` of the waiting members, in roster order. */
  lemma AddressedIff(s: State, k: CampaignId, o: SendOrder)
    requires k in s.campaigns
    ensures var waiting := Filter(s.campaigns[k].roster, Waiting(s, k));
            SendTargets(s, k, o) == waiting[..Min(o.limit, |waiting|)]
  {
    var roster := s.campaigns[k].roster;
    var arm := c => (k, c) in s.members && s.members[(k, c)].arm.Treatment?;
    var undelivered, permitted := c => !Delivered(s, k, c), c => MayContact(s, c);
    FilterTwice(roster, arm, undelivered);
    FilterTwice(roster, Both(arm, undelivered), permitted);
    FilterAgree(roster, Both(Both(arm, undelivered), permitted), Waiting(s, k));
  }

  // ---------------------------------------------------------------- exposure stamps

  /** The stamp is the first completed export or accepted SMS, and there is one iff there was one. */
  lemma ExposureIsFirst(rs: seq<Request>, k: CampaignId, c: CustomerId)
    requires (k, c) in Run(rs).members
    ensures var s := Run(rs); var stamp := s.members[(k, c)].exposure;
            && (stamp.None? <==> forall e | e in s.log :: !IsExposure(e, k, c))
            && (stamp.Some? ==> exists i | 0 <= i < |s.log| ::
                  && IsExposure(s.log[i], k, c) && stamp.value == StampOf(s.log[i])
                  && forall j | 0 <= j < i :: !IsExposure(s.log[j], k, c))
  {
    RunKeeps(rs);
    assert MemberOk(Run(rs), k, c);
    FirstExposureMeans(Run(rs).log, k, c);
  }

  lemma {:induction false} FirstExposureMeans(log: seq<Event>, k: CampaignId, c: CustomerId)
    ensures var first := FirstExposure(log, k, c);
            && (first.None? <==> forall e | e in log :: !IsExposure(e, k, c))
            && (first.Some? ==> exists i | 0 <= i < |log| ::
                  && IsExposure(log[i], k, c) && first.value == StampOf(log[i])
                  && forall j | 0 <= j < i :: !IsExposure(log[j], k, c))
  {
    if log != [] {
      var n := |log| - 1;
      FirstExposureMeans(log[..n], k, c);
      if FirstExposure(log[..n], k, c).Some? {
        var i :| 0 <= i < n && IsExposure(log[..n][i], k, c)
                 && FirstExposure(log[..n], k, c).value == StampOf(log[..n][i])
                 && forall j | 0 <= j < i :: !IsExposure(log[..n][j], k, c);
        assert forall j | 0 <= j < i :: log[j] == log[..n][j];
        assert IsExposure(log[i], k, c) && log[i] in log;
      } else if IsExposure(log[n], k, c) {
        assert forall j | 0 <= j < n :: log[j] in log[..n];
        assert log[n] in log;
      } else {
        assert forall e | e in log :: e in log[..n] || e == log[n];
      }
    }
  }

  /** No member is lost or changes arm, a stamp that is set stays, and closed stays closed. */
  ghost predicate Persists(s: State, t: State) {
    && SameArms(s, t)
    && (forall p | p in s.members && s.members[p].exposure.Some? ::
          p in t.members && t.members[p].exposure == s.members[p].exposure)
    && (forall k | k in s.campaigns && !IsOpen(s, k) :: k in t.campaigns && !IsOpen(t, k))
  }

  lemma ExportPersists(s: State, t: State, k: CampaignId, cs: seq<CustomerId>, now: int, today: int)
    requires IsExport(s, t, k, cs, now, today)
    ensures Persists(s, t)
  {
    forall p | p in s.members ensures p in t.members {
      assert p in t.members.Keys;
    }
    forall j | j in s.campaigns ensures j in t.campaigns {
      assert j in t.campaigns.Keys;
    }
  }

  lemma CreatePersists(s: State, o: CreateOrder, now: int)
    requires Inv(s)
    ensures Persists(s, CreateStep(s, o, now))
  {
    if Selected(s, o, now) != [] {
      forall p | p in s.members ensures p in CreateStep(s, o, now).members
                                        && CreateStep(s, o, now).members[p] == s.members[p] {
        assert (p.0, p.1) in s.members;
        assert p !in NewMembers(s.nextId, o, Selected(s, o, now), Roster(Selected(s, o, now)));
      }
    }
  }

  lemma MembersPersist(s: State, r: Request)
    requires Inv(s)
    ensures Persists(s, Apply(s, r))
  {
    match r
    case Create(o, at) => CreatePersists(s, o, at);
    case Export(k, at, date) =>
      ExportForm(s, k, at, date);
      ExportPersists(s, ExportStep(s, k, at, date), k, ExportTargets(s, k), at, date);
    case Send(k, o) =>
      if IsOpen(s, k) {
        SendAllPersists(s, k, o, Drafts(s, k, o, SendTargets(s, k, o)));
      }
    case Close(_, _) =>
    case Other(_) =>
    case Outside(_, _, _) =>
  }

  lemma {:induction false} SendAllPersists(s: State, k: CampaignId, o: SendOrder, ds: seq<Draft>)
    ensures var t := SendAll(s, k, o, ds);
            && t.campaigns == s.campaigns && SameArms(s, t)
            && forall p | p in s.members && s.members[p].exposure.Some? ::
                 t.members[p].exposure == s.members[p].exposure
  {
    if ds != [] {
      SendAllPersists(s, k, o, ds[..|ds| - 1]);
    }
  }

  /** A stamp, once set, is the same at every later point of the run. */
  lemma {:induction false} ExposureNeverMoves(rs: seq<Request>, more: seq<Request>, k: CampaignId, c: CustomerId)
    requires (k, c) in Run(rs).members
    ensures var s, t := Run(rs), Run(rs + more);
            && (k, c) in t.members && t.members[(k, c)].arm == s.members[(k, c)].arm
            && (s.members[(k, c)].exposure.Some? ==>
                  t.members[(k, c)].exposure == s.members[(k, c)].exposure)
  {
    if more == [] {
      assert rs + more == rs;
    } else {
      var n := |more| - 1;
      ExposureNeverMoves(rs, more[..n], k, c);
      RunAppend(rs, more);
      RunKeeps(rs + more[..n]);
      MembersPersist(Run(rs + more[..n]), more[n]);
    }
  }

  // ---------------------------------------------------------------- the contact cost

  /** `_contact_cost_rial`: no row, no number. */
  function ContactCost(rows: seq<SendRow>, k: CampaignId): Option<int> {
    if exists r | r in rows :: r.campaign == k && RealSent(r) then Some(BilledRows(rows, k)) else None
  }

  lemma RowIsFound(rows: seq<SendRow>, r: SendRow)
    requires UniqueRows(rows) && r in rows
    ensures FindRow(rows, r.campaign, r.customer) == Some(r)
  {
    var i :| 0 <= i < |rows| && rows[i] == r;
    var j := RowIndex(rows, r.campaign, r.customer);
    assert IsRow(rows[i], r.campaign, r.customer);
    assert j <= i;
  }

  lemma {:induction false} AcceptedMeans(log: seq<Event>, k: CampaignId, c: CustomerId)
    ensures AcceptedSms(log, k, c) > 0 <==> exists e | e in log :: e.CampaignSms? && IsExposure(e, k, c)
  {
    if log != [] {
      var n := |log| - 1;
      AcceptedMeans(log[..n], k, c);
      assert log[n] in log;
      assert forall e :: e in log <==> e in log[..n] || e == log[n];
    }
  }

  lemma RealRowWasAccepted(s: State, r: SendRow)
    requires Inv(s) && r in s.sends && RealSent(r)
    ensures exists e | e in s.log :: e.CampaignSms? && e.campaign == r.campaign && e.accepted
  {
    RowIsFound(s.sends, r);
    assert MemberOk(s, r.campaign, r.customer);
    AcceptedMeans(s.log, r.campaign, r.customer);
  }

  lemma AcceptedHasRealRow(s: State, e: Event)
    requires Inv(s) && e in s.log && e.CampaignSms? && e.accepted
    ensures exists r | r in s.sends :: r.campaign == e.campaign && RealSent(r)
  {
    AcceptedMeans(s.log, e.campaign, e.customer);
    assert MemberOk(s, e.campaign, e.customer);
    assert FindRow(s.sends, e.campaign, e.customer).value in s.sends;
  }

  /** The cost that the request reports for campaign `k`: that of a send it does not refuse. */
  function ReportedBy(s: State, r: Request, k: CampaignId): int {
    if r.Send? && r.campaign == k && IsOpen(s, k)
    then TallyOf(r.order, Drafts(s, k, r.order, SendTargets(s, k, r.order))).cost else 0
  }

  /** The sum of the costs that all sends of the campaign reported. */
  function ReportedCost(rs: seq<Request>, k: CampaignId): int {
    if rs == [] then 0
    else ReportedCost(rs[..|rs| - 1], k) + ReportedBy(Run(rs[..|rs| - 1]), rs[|rs| - 1], k)
  }

  lemma {:induction false} OtherCampaignSpends(s: State, k: CampaignId, o: SendOrder, ds: seq<Draft>, j: CampaignId)
    requires j != k
    ensures SpentOn(SendAll(s, k, o, ds).log, j) == SpentOn(s.log, j)
  {
    if ds != [] {
      var n := |ds| - 1;
      OtherCampaignSpends(s, k, o, ds[..n], j);
      var t := SendAll(s, k, o, ds[..n]);
      if SmsEvents(k, o, ds[n]) != [] {
        AppendOne(t.log, SmsEvents(k, o, ds[n])[0], j, ds[n].customer);
      } else {
        assert t.log + SmsEvents(k, o, ds[n]) == t.log;
      }
    }
  }

  lemma SendSpends(s: State, j: CampaignId, o: SendOrder, k: CampaignId)
    ensures SpentOn(SendStep(s, j, o).log, k) == SpentOn(s.log, k) + ReportedBy(s, Send(j, o), k)
  {
    if IsOpen(s, j) {
      var ds := Drafts(s, j, o, SendTargets(s, j, o));
      if j == k {
        SendAllSpends(s, j, o, ds);
      } else {
        OtherCampaignSpends(s, j, o, ds, k);
      }
    }
  }

  lemma RequestSpends(s: State, r: Request, k: CampaignId)
    requires Inv(s)
    ensures SpentOn(Apply(s, r).log, k) == SpentOn(s.log, k) + ReportedBy(s, r, k)
  {
    match r
    case Create(_, _) =>
    case Close(_, _) =>
    case Outside(_, _, _) =>
    case Send(j, o) => SendSpends(s, j, o, k);
    case Export(j, at, date) =>
      ExportForm(s, j, at, date);
      ExportsInLog(s.log, j, ExportTargets(s, j), at, date, k, 0);
    case Other(o) => OtherInLog(s.log, OtherEvents(s, o), k, 0);
  }

  lemma {:induction false} SpentIsReported(rs: seq<Request>, k: CampaignId)
    ensures SpentOn(Run(rs).log, k) == ReportedCost(rs, k)
  {
    if rs != [] {
      SpentIsReported(rs[..|rs| - 1], k);
      RunKeeps(rs[..|rs| - 1]);
      RequestSpends(Run(rs[..|rs| - 1]), rs[|rs| - 1], k);
    }
  }

  lemma CostIsKnownIff(s: State, k: CampaignId)
    requires Inv(s)
    ensures ContactCost(s.sends, k).Some? <==> exists e | e in s.log :: e.CampaignSms? && e.campaign == k && e.accepted
  {
    if exists r | r in s.sends :: r.campaign == k && RealSent(r) {
      var r :| r in s.sends && r.campaign == k && RealSent(r);
      RealRowWasAccepted(s, r);
    } else if exists e | e in s.log :: e.CampaignSms? && e.campaign == k && e.accepted {
      var e :| e in s.log && e.CampaignSms? && e.campaign == k && e.accepted;
      AcceptedHasRealRow(s, e);
    }
  }

  /** After any run the campaign's cost, read from its rows, is the sum of the costs its sends
      reported, which is what its accepted real messages cost; it is unknown exactly when no
      real message was ever accepted. */
  lemma ContactCostIsSpent(rs: seq<Request>, k: CampaignId)
    ensures var s := Run(rs); var cost := ContactCost(s.sends, k);
            && SpentOn(s.log, k) == ReportedCost(rs, k)
            && (cost.Some? ==> cost.value == ReportedCost(rs, k))
            && (cost.None? ==> ReportedCost(rs, k) == 0)
            && (cost.Some? <==> exists e | e in s.log :: e.CampaignSms? && e.campaign == k && e.accepted)
  {
    RunKeeps(rs);
    SpentIsReported(rs, k);
    CostIsKnownIff(Run(rs), k);
    assert BilledRows(Run(rs).sends, k) == SpentOn(Run(rs).log, k);
    if ContactCost(Run(rs).sends, k).None? {
      NothingBilled(Run(rs).sends, k);
    }
  }

  lemma {:induction false} NothingBilled(rows: seq<SendRow>, k: CampaignId)
    requires forall r | r in rows :: !(r.campaign == k && RealSent(r))
    ensures BilledRows(rows, k) == 0
  {
    if rows != [] {
      var n := |rows| - 1;
      assert rows[n] in rows && forall r | r in rows[..n] :: r in rows;
      NothingBilled(rows[..n], k);
    }
  }

  /** In every call the five counters add up to the drafts, and the cost it reports is the
      growth of the campaign's real spending. */
  lemma {:induction false} TallyAddsUp(o: SendOrder, ds: seq<Draft>)
    requires forall d | d in ds :: d.blocked ==> d.text == ""
    ensures var t := TallyOf(o, ds); t.sent + t.failed + t.noPhone + t.noText + t.noOffer == |ds|
  {
    if ds != [] {
      var n := |ds| - 1;
      assert ds[n] in ds && forall d | d in ds[..n] :: d in ds;
      TallyAddsUp(o, ds[..n]);
    }
  }

  lemma SendReport(s: State, k: CampaignId, o: SendOrder)
    requires IsOpen(s, k)
    ensures var ds := Drafts(s, k, o, SendTargets(s, k, o)); var t := TallyOf(o, ds);
            && t.sent + t.failed + t.noPhone + t.noText + t.noOffer == |SendTargets(s, k, o)|
            && SpentOn(SendStep(s, k, o).log, k) == SpentOn(s.log, k) + t.cost
  {
    var ds := Drafts(s, k, o, SendTargets(s, k, o));
    TallyAddsUp(o, ds);
    SendAllSpends(s, k, o, ds);
  }

  // ---------------------------------------------------------------- what a send writes

  lemma {:induction false} SendAllWrites(s: State, k: CampaignId, o: SendOrder, ds: seq<Draft>, i: nat)
    requires i < |ds| && forall x, y | 0 <= x < y < |ds| :: ds[x].customer != ds[y].customer
    ensures FindRow(SendAll(s, k, o, ds).sends, k, ds[i].customer) == Some(RowOf(k, o, ds[i]))
  {
    var n := |ds| - 1;
    UpsertFind(SendAll(s, k, o, ds[..n]).sends, RowOf(k, o, ds[n]), k, ds[i].customer);
    if i < n {
      SendAllWrites(s, k, o, ds[..n], i);
    }
  }

  /** The row says what became of the draft: skipped without a number or a text, failed when a
      real send met an error, else sent; it costs money only if really sent, and carries an
      offer only if sent. */
  predicate Reports(o: SendOrder, d: Draft, row: SendRow) {
    && row.phone == d.phone && row.text == d.text && row.sentAt == o.now
    && (!row.dryRun <==> !o.dryRun && o.confirm && o.smsConfigured)
    && (row.status.Skipped? <==> !HasPhone(d) || d.text == "")
    && (row.status.Failed? <==> !row.dryRun && HasPhone(d) && d.text != "" && d.customer in o.errors)
    && row.segments == (if row.status.Skipped? then 0 else SegmentCount(d.text))
    && row.cost == (if row.status.Sent? && !row.dryRun then row.segments * o.costPerSegment else 0)
    && row.offer == (if row.status.Sent? then d.offer else None)
  }

  lemma RowReports(s: State, k: CampaignId, o: SendOrder, links: seq<Link>, c: CustomerId)
    ensures var d := MakeDraft(s, links, o.template, c); Reports(o, d, RowOf(k, o, d))
  {
  }

  lemma DistinctDrafts(s: State, k: CampaignId, o: SendOrder, cs: seq<CustomerId>)
    requires k in s.campaigns && Distinct(cs)
    ensures var ds := Drafts(s, k, o, cs); forall x, y | 0 <= x < y < |ds| :: ds[x].customer != ds[y].customer
  {
    var ds := Drafts(s, k, o, cs);
    assert forall i | 0 <= i < |ds| :: ds[i].customer == cs[i];
  }

  /** A send leaves exactly one row for every member addressed, which reports what became of the
      draft, and touches no other row. */
  lemma SendWrites(s: State, k: CampaignId, o: SendOrder, j: CampaignId, c: CustomerId)
    requires Inv(s) && IsOpen(s, k)
    ensures var row := FindRow(SendStep(s, k, o).sends, j, c);
            if j == k && c in SendTargets(s, k, o)
            then row.Some? && Reports(o, MakeDraft(s, s.campaigns[k].links, o.template, c), row.value)
            else row == FindRow(s.sends, j, c)
  {
    var cs := SendTargets(s, k, o);
    var ds := Drafts(s, k, o, cs);
    TargetsPending(s, k, o);
    DistinctDrafts(s, k, o, cs);
    assert forall i | 0 <= i < |ds| :: ds[i].customer == cs[i];
    if j == k && c in cs {
      var i :| 0 <= i < |cs| && cs[i] == c;
      SendAllWrites(s, k, o, ds, i);
      RowReports(s, k, o, s.campaigns[k].links, c);
    } else {
      SendAllFrame(s, k, o, ds, j, c);
    }
  }

  function HasStatus(s: State, k: CampaignId, status: SendStatus): CustomerId -> bool {
    (c: CustomerId) => FindRow(s.sends, k, c).Some? && FindRow(s.sends, k, c).value.status == status
  }

  /** A tally counts the drafts by status; the three reasons to skip share the skipped ones. */
  lemma {:induction false} TallyCounts(o: SendOrder, ds: seq<Draft>, cs: seq<CustomerId>,
                                       sent: CustomerId -> bool, failed: CustomerId -> bool,
                                       skipped: CustomerId -> bool)
    requires |ds| == |cs| && forall d | d in ds :: d.blocked ==> d.text == ""
    requires forall i | 0 <= i < |ds| ::
      && sent(cs[i]) == StatusOf(o, ds[i]).Sent? && failed(cs[i]) == StatusOf(o, ds[i]).Failed?
      && skipped(cs[i]) == StatusOf(o, ds[i]).Skipped?
    ensures var t := TallyOf(o, ds);
            && t.sent == |Filter(cs, sent)| && t.failed == |Filter(cs, failed)|
            && t.noPhone + t.noText + t.noOffer == |Filter(cs, skipped)|
  {
    if ds != [] {
      var n := |ds| - 1;
      assert ds[n] in ds && forall d | d in ds[..n] :: d in ds;
      TallyCounts(o, ds[..n], cs[..n], sent, failed, skipped);
      CountLast(cs, sent);
      CountLast(cs, failed);
      CountLast(cs, skipped);
      TallyStep(TallyOf(o, ds[..n]), o, ds[n]);
    }
  }

  lemma CountLast(cs: seq<CustomerId>, p: CustomerId -> bool)
    requires cs != []
    ensures |Filter(cs, p)| == |Filter(cs[..|cs| - 1], p)| + if p(cs[|cs| - 1]) then 1 else 0
  {
  }

  lemma TallyStep(t: Tally, o: SendOrder, d: Draft)
    requires d.blocked ==> d.text == ""
    ensures var u := TallyOne(t, o, d);
            && u.sent == t.sent + (if StatusOf(o, d).Sent? then 1 else 0)
            && u.failed == t.failed + (if StatusOf(o, d).Failed? then 1 else 0)
            && u.noPhone + u.noText + u.noOffer
               == t.noPhone + t.noText + t.noOffer + (if StatusOf(o, d).Skipped? then 1 else 0)
  {
  }

  /** The counters of the response are the numbers of rows that now have that status. */
  lemma CountersMatchRows(s: State, k: CampaignId, o: SendOrder)
    requires Inv(s) && IsOpen(s, k)
    ensures var cs := SendTargets(s, k, o); var t := SendStep(s, k, o); var tally := TallyOf(o, Drafts(s, k, o, cs));
            && tally.sent == |Filter(cs, HasStatus(t, k, Sent))|
            && tally.failed == |Filter(cs, HasStatus(t, k, Failed))|
            && tally.noPhone + tally.noText + tally.noOffer == |Filter(cs, HasStatus(t, k, Skipped))|
  {
    var cs := SendTargets(s, k, o);
    TargetsPending(s, k, o);
    DistinctDrafts(s, k, o, cs);
    CountersOf(s, k, o, cs, Drafts(s, k, o, cs), SendStep(s, k, o));
  }

  lemma CountersOf(s: State, k: CampaignId, o: SendOrder, cs: seq<CustomerId>, ds: seq<Draft>, t: State)
    requires t == SendAll(s, k, o, ds) && |ds| == |cs| && forall i | 0 <= i < |ds| :: ds[i].customer == cs[i]
    requires forall x, y | 0 <= x < y < |ds| :: ds[x].customer != ds[y].customer
    requires forall d | d in ds :: d.blocked ==> d.text == ""
    ensures var tally := TallyOf(o, ds);
            && tally.sent == |Filter(cs, HasStatus(t, k, Sent))|
            && tally.failed == |Filter(cs, HasStatus(t, k, Failed))|
            && tally.noPhone + tally.noText + tally.noOffer == |Filter(cs, HasStatus(t, k, Skipped))|
  {
    forall i | 0 <= i < |cs| ensures FindRow(t.sends, k, cs[i]) == Some(RowOf(k, o, ds[i])) {
      SendAllWrites(s, k, o, ds, i);
    }
    TallyCounts(o, ds, cs, HasStatus(t, k, Sent), HasStatus(t, k, Failed), HasStatus(t, k, Skipped));
  }
}
