/** Telephone numbers at the gate. The register and the customer table hold normal forms; the
    session and scan paths hand over numbers as they were typed, and the gate compares text. */
module CampaignNumbers {
  import opened Prelude
  import opened PhoneNumber
  import opened CampaignModel
  import opened CampaignSteps
  import opened CampaignHistory

  // ---------------------------------------------------------------- the tables hold normal forms

  ghost predicate NumbersOk(s: State) {
    && (forall c | c in s.customers :: IsNormal(s.customers[c].phone))
    && (forall r | r in s.register :: IsNormal(r.phone))
  }

  predicate SameDirectory(s: State, t: State) {
    t.customers == s.customers && t.register == s.register
  }

  lemma {:induction false} SendAllDirectory(s: State, k: CampaignId, o: SendOrder, ds: seq<Draft>)
    ensures SameDirectory(s, SendAll(s, k, o, ds))
  {
    if ds != [] {
      SendAllDirectory(s, k, o, ds[..|ds| - 1]);
    }
  }

  lemma {:induction false} OffersDirectory(s: State, k: CampaignId, cs: seq<CustomerId>)
    ensures SameDirectory(s, StampExportOffers(s, k, cs))
  {
    if cs != [] {
      OffersDirectory(s, k, cs[..|cs| - 1]);
    }
  }

  lemma {:induction false} StampsDirectory(s: State, k: CampaignId, cs: seq<CustomerId>, now: int, today: int)
    ensures SameDirectory(s, StampExports(s, k, cs, now, today))
  {
    if cs != [] {
      StampsDirectory(s, k, cs[..|cs| - 1], now, today);
    }
  }

  lemma ApplyDirectory(s: State, r: Request)
    requires !r.Outside?
    ensures SameDirectory(s, Apply(s, r))
  {
    match r
    case Create(_, _) =>
    case Export(k, at, date) =>
      var cs := ExportTargets(s, k);
      OffersDirectory(s, k, cs);
      StampsDirectory(StampExportOffers(s, k, cs), k, cs, at, date);
    case Send(k, o) =>
      if IsOpen(s, k) {
        SendAllDirectory(s, k, o, Drafts(s, k, o, SendTargets(s, k, o)));
      }
    case Close(_, _) =>
    case Other(_) =>
  }

  lemma OptOutIsNormal(raw: Suppression)
    ensures IsNormal(StoreOptOut(raw).phone)
  {
    StoredIsNormal(raw.phone);
  }

  lemma CustomersAreNormal(customers: map<CustomerId, Customer>, c: CustomerId)
    requires c in customers
    ensures IsNormal(StoreCustomers(customers)[c].phone)
  {
    StoredIsNormal(customers[c].phone);
  }

  lemma StoredOk(s: State, customers: map<CustomerId, Customer>, register: set<Suppression>)
    requires s.customers == StoreCustomers(customers) && s.register == StoreOptOuts(register)
    ensures NumbersOk(s)
  {
    forall c | c in s.customers ensures IsNormal(s.customers[c].phone) {
      CustomersAreNormal(customers, c);
    }
    forall r | r in s.register ensures IsNormal(r.phone) {
      var raw :| raw in register && r == StoreOptOut(raw);
      OptOutIsNormal(raw);
    }
  }

  lemma ApplyNumbersOk(s: State, r: Request)
    requires NumbersOk(s)
    ensures NumbersOk(Apply(s, r))
  {
    if r.Outside? {
      StoredOk(Apply(s, r), r.customers, r.register);
    } else {
      ApplyDirectory(s, r);
    }
  }

  /** In every reachable state the customer table and the register hold normal forms only. */
  lemma {:induction false} RunNumbersOk(rs: seq<Request>)
    ensures NumbersOk(Run(rs))
  {
    if rs != [] {
      RunNumbersOk(rs[..|rs| - 1]);
      ApplyNumbersOk(Run(rs[..|rs| - 1]), rs[|rs| - 1]);
    }
  }

  // ---------------------------------------------------------------- whom a number reaches

  /** The number, however it is written, is in the opt-out register. */
  predicate Registered(s: State, number: string) {
    NormalPhone(number).Some? && NormalPhone(number).value in SuppressedPhones(s)
  }

  /** The keys of everybody opted out or held as a control. */
  function BarredKeys(s: State): set<Key> {
    Expand(s, SuppressedIds(s) + ControlIds(s))
  }

  /** No message may go to this key at this number. */
  predicate Forbidden(s: State, key: Key, number: string) {
    key in BarredKeys(s) || Registered(s, number)
  }

  lemma SendGoesToPermittedNumbers(rs: seq<Request>, k: CampaignId, o: SendOrder, c: CustomerId)
    requires k in Run(rs).campaigns && c in SendTargets(Run(rs), k, o)
    ensures var s := Run(rs); var phone := MakeDraft(s, s.campaigns[k].links, o.template, c).phone;
            phone.Some? ==> !Registered(s, phone.value)
  {
    RunKeeps(rs);
    RunNumbersOk(rs);
    var s := Run(rs);
    TargetsPending(s, k, o);
    assert MayContact(s, c);
    assert Num(c) in KeysOf(s, c);
    assert c !in SuppressedIds(s);
  }

  lemma RegisteredText(s: State, number: string)
    requires NumbersOk(s) && Registered(s, number)
    ensures number != "" && (number in SuppressedPhones(s) <==> NormalPhone(number) == Some(number))
  {
    if number in SuppressedPhones(s) {
      var r :| r in s.register && r.phone == Some(number);
      assert IsNormal(r.phone);
    }
  }

  lemma BarredMeans(s: State, key: Key)
    ensures key in BarredKeys(s) <==> key in Expand(s, SuppressedIds(s)) || key in Expand(s, ControlIds(s))
  {
  }

  /** The gate stops a forbidden recipient through the fatigue keys, or, with the ledger, through
      the person's key, or because the number is typed in normal form. */
  predicate Stopped(s: State, o: OtherOrder, r: Recipient) {
    || r.key in RecentKeys(s, o)
    || (o.ledgerUp && r.key in BarredKeys(s))
    || (o.ledgerUp && r.phone.Some? && NormalPhone(r.phone.value) == r.phone)
  }

  lemma StoppedIff(s: State, o: OtherOrder, r: Recipient)
    requires NumbersOk(s) && r.phone.Some? && Forbidden(s, r.key, r.phone.value)
    ensures OtherAllowed(s, o, r) <==> !Stopped(s, o, r)
  {
    BarredMeans(s, r.key);
    if Registered(s, r.phone.value) {
      RegisteredText(s, r.phone.value);
    }
  }

  lemma OtherEventIff(s: State, o: OtherOrder, r: Recipient)
    requires r in o.recipients && r.phone.Some?
    ensures OtherSms(r.key, r.phone.value) in OtherEvents(s, o) <==> Reached(s, o, r)
  {
    var reached := Filter(o.recipients, r => Reached(s, o, r));
    var events := OtherEvents(s, o);
    if OtherSms(r.key, r.phone.value) in events {
      var i :| 0 <= i < |events| && events[i] == OtherSms(r.key, r.phone.value);
      assert reached[i] in reached && reached[i] == r;
    }
    if Reached(s, o, r) {
      var i :| 0 <= i < |reached| && reached[i] == r;
      assert events[i] == OtherSms(r.key, r.phone.value);
    }
  }

  /** The recipients an order would send to if there were no gate. */
  predicate Addressed(o: OtherOrder, r: Recipient) {
    o.forReal && r in o.recipients && r.phone.Some? && r.phone.value != ""
  }

  /** A session SMS or a scan reaches nobody it must not, by key or by number, exactly when each
      forbidden recipient with a number is stopped by one of the texts the gate compares. */
  lemma GateHoldsIff(rs: seq<Request>, o: OtherOrder)
    ensures var s := Run(rs);
            (forall e | e in OtherEvents(s, o) :: !Forbidden(s, e.key, e.phone)) <==>
            (forall r | Addressed(o, r) && Forbidden(s, r.key, r.phone.value) :: Stopped(s, o, r))
  {
    RunNumbersOk(rs);
    var s := Run(rs);
    if forall r | Addressed(o, r) && Forbidden(s, r.key, r.phone.value) :: Stopped(s, o, r) {
      forall e | e in OtherEvents(s, o) ensures !Forbidden(s, e.key, e.phone) {
        var r := Source(s, o, e);
        if Forbidden(s, r.key, r.phone.value) {
          StoppedIff(s, o, r);
        }
      }
    }
    if forall e | e in OtherEvents(s, o) :: !Forbidden(s, e.key, e.phone) {
      forall r | Addressed(o, r) && Forbidden(s, r.key, r.phone.value) ensures Stopped(s, o, r) {
        OtherEventIff(s, o, r);
        StoppedIff(s, o, r);
      }
    }
  }

  lemma Source(s: State, o: OtherOrder, e: Event) returns (r: Recipient)
    requires e in OtherEvents(s, o)
    ensures e.OtherSms? && Addressed(o, r) && OtherAllowed(s, o, r) && r == Recipient(e.key, Some(e.phone))
  {
    var reached := Filter(o.recipients, r => Reached(s, o, r));
    var i :| 0 <= i < |OtherEvents(s, o)| && OtherEvents(s, o)[i] == e;
    r := reached[i];
    assert r in reached;
  }

  /** Such a recipient: any number that is registered, but typed with a leading zero, for a key
      nobody is known by. The ledger is up, and the message goes out. */
  lemma TypedNumberIsReached(n: string, key: string)
    requires IsNational(n)
    ensures var rs := [Outside([], map[], {Suppression(None, Some("+98" + n))})];
            var o := OtherOrder([Recipient(Raw(key), Some("0" + n))], None, true, true, 0);
            && Run(rs + [Other(o)]).log == [OtherSms(Raw(key), "0" + n)]
            && Registered(Run(rs), "0" + n) && Forbidden(Run(rs), Raw(key), "0" + n)
  {
    var out := Outside([], map[], {Suppression(None, Some("+98" + n))});
    var o := OtherOrder([Recipient(Raw(key), Some("0" + n))], None, true, true, 0);
    SpellingsAgree(Plus, n);
    OptedOutOnly("+98" + n);
    AfterOther([out], o);
    TypedPasses(OnlyOptOut("+98" + n), n, key, o);
  }

  lemma AfterOther(rs: seq<Request>, o: OtherOrder)
    ensures Run(rs + [Other(o)]).log == Run(rs).log + OtherEvents(Run(rs), o)
  {
    OneMore(rs, Other(o));
    OtherLogs(Run(rs), o);
  }

  lemma OtherLogs(s: State, o: OtherOrder)
    ensures Apply(s, Other(o)).log == s.log + OtherEvents(s, o)
  {
  }

  lemma TypedPasses(s: State, n: string, key: string, o: OtherOrder)
    requires IsNational(n) && SuppressedPhones(s) == {"+98" + n} && SuppressedIds(s) == {} && ControlIds(s) == {}
    requires o == OtherOrder([Recipient(Raw(key), Some("0" + n))], None, true, true, 0)
    ensures OtherEvents(s, o) == [OtherSms(Raw(key), "0" + n)]
    ensures Registered(s, "0" + n) && Forbidden(s, Raw(key), "0" + n)
  {
    SpellingsAgree(Zero, n);
    assert ("0" + n)[0] != ("+98" + n)[0];
    OneReached(s, o, o.recipients[0]);
  }

  /** The state with one opt-out of a number and nothing else. */
  function OnlyOptOut(number: string): State {
    EMPTY.(register := {Suppression(None, Some(number))})
  }

  lemma OneOptOut(number: string)
    requires NormalPhone(number) == Some(number)
    ensures StoreOptOuts({Suppression(None, Some(number))}) == {Suppression(None, Some(number))}
  {
    var raw := Suppression(None, Some(number));
    assert StoreOptOut(raw) == raw;
  }

  lemma OneNumber(number: string)
    ensures var s := OnlyOptOut(number);
            SuppressedPhones(s) == {number} && SuppressedIds(s) == {} && ControlIds(s) == {}
  {
    assert Suppression(None, Some(number)) in OnlyOptOut(number).register;
  }

  lemma OptedOutOnly(number: string)
    requires NormalPhone(number) == Some(number)
    ensures var s := Run([Outside([], map[], {Suppression(None, Some(number))})]);
            && s == OnlyOptOut(number)
            && SuppressedPhones(s) == {number} && SuppressedIds(s) == {} && ControlIds(s) == {}
  {
    var out := Outside([], map[], {Suppression(None, Some(number))});
    assert [out][..0] == [];
    assert Run([out]) == Apply(EMPTY, out);
    OneOptOut(number);
    assert StoreCustomers(map[]) == map[];
    OneNumber(number);
  }

  lemma OneReached(s: State, o: OtherOrder, r: Recipient)
    requires o.recipients == [r] && Reached(s, o, r)
    ensures OtherEvents(s, o) == [OtherSms(r.key, r.phone.value)]
  {
    assert [r][..0] == [];
    assert Filter([r], r => Reached(s, o, r)) == [r];
  }
}
