/** The merchant's payment requests and the webhook callbacks that settle them. */
module Merchant {
  import opened Decimal
  import opened Rounding

  const LIFETIME := 600

  // The largest value of an INTEGER column.
  const MAX_INTEGER := 0x7FFF_FFFF_FFFF_FFFF

  datatype Status = PENDING | SUCCESS | FAILED | EXPIRED

  datatype Payment = Payment(merchant: string, cents: int, status: Status, expiresAt: int)

  /** One row of the event log. */
  datatype Entry = Entry(paymentId: string, status: Status)

  datatype Tables = Tables(payments: map<string, Payment>, log: seq<Entry>, webhooks: set<string>)

  datatype Callback = Callback(paymentId: string, status: string, amount: Amount)

  datatype Reply = Created | InvalidAmount | Accepted | AlreadyProcessed | AlreadySettled(status: Status) | NotFound | AmountMismatch | InternalError

  /** The cents of an amount: the product with 100 is rounded to 28 digits, then its fraction is dropped, towards zero. */
  function Truncate(amount: Amount): int {
    if amount.digits >= 0 then CutTo(Round28(amount.digits), amount.Cent())
    else -(CutTo(Round28(-amount.digits), amount.Cent()) as int)
  }

  /** Rounding to 28 digits reaches the next whole cent: the amount has more than 28 digits and lies within
      half a unit of its 28th digit of that cent; half a unit exactly also counts, unless the unit is the cent
      and the next cent is odd. */
  predicate GainsCent(n: nat, cent: nat)
    requires cent > 0
  {
    var q, u := n / cent, UnitFor(n, 1);
    var gap := (q + 1) * cent - n;
    n > LIMIT && (2 * gap < u || (2 * gap == u && (u < cent || q % 2 == 1)))
  }

  /** Below 10^28 cents an amount is cut to its whole cents, or gains exactly one; from there on it keeps its whole cents
      exactly when these are a multiple of the unit of its 28th digit. */
  lemma TruncateIff(amount: Amount)
    requires amount.digits >= 0
    ensures var n, cent := amount.digits, amount.Cent(); var q := n / cent;
            if q < LIMIT then Truncate(amount) == (if GainsCent(n, cent) then q + 1 else q)
            else Truncate(amount) == q <==> q * cent % UnitFor(n, 1) == 0
  {
    var n, cent := amount.digits, amount.Cent();
    var q := CentBelow(n, cent);
    DivMod(n, q, n - q * cent, cent);
    if q < LIMIT {
      SmallTruncate(n, q, amount.places);
    } else {
      LargeTruncate(n, q, amount.places);
    }
  }

  lemma SmallTruncate(n: nat, q: nat, k: nat)
    requires q < LIMIT && q * Pow10(k) <= n < q * Pow10(k) + Pow10(k) && n / Pow10(k) == q
    ensures Round28(n) / Pow10(k) == if GainsCent(n, Pow10(k)) then q + 1 else q
  {
    var cent := Pow10(k);
    assert (q + 1) * cent == q * cent + cent;
    Round28AtLeast(n, q, k);
    Round28AtMost(n, q + 1, k);
    assert n < (q + 1) * cent;
    ReachesIff(n, q, k);
    if Round28(n) == (q + 1) * cent {
      DivMod(Round28(n), q + 1, 0, cent);
    } else {
      DivMod(Round28(n), q, Round28(n) - q * cent, cent);
    }
  }

  /** Rounding reaches the next cent, for a unit that is a cent or finer. */
  lemma UnitReaches(n: nat, q: nat, j: nat, k: nat)
    requires j <= k && n < (q + 1) * Pow10(k)
    ensures var u, gap := Pow10(j), (q + 1) * Pow10(k) - n;
            RoundTo(n, u) == (q + 1) * Pow10(k) <==> 2 * gap < u || (2 * gap == u && (u < Pow10(k) || q % 2 == 1))
  {
    if j < k {
      var c := FinerEven(q + 1, j, k);
      FinerIsSmaller(j, k);
      NearestBelow(n, c, Pow10(j));
    } else {
      NearestBelow(n, q + 1, Pow10(k));
    }
  }

  lemma ReachesIff(n: nat, q: nat, k: nat)
    requires q < LIMIT && q * Pow10(k) <= n < (q + 1) * Pow10(k) && n / Pow10(k) == q
    ensures Round28(n) == (q + 1) * Pow10(k) <==> GainsCent(n, Pow10(k))
  {
    if n > LIMIT {
      var j := Rounded(n);
      if j > k {
        CoarseIsLarge(n, j, k);
        NextMultiple(q, LIMIT, Pow10(k));
      }
      UnitReaches(n, q, j, k);
    }
  }

  /** From 10^28 cents on, the unit is a multiple of ten cents. */
  lemma LargeUnit(n: nat, j: nat, k: nat) returns (f: nat)
    requires n >= LIMIT * Pow10(k) && n < LIMIT * Pow10(j)
    ensures Pow10(j) == f * Pow10(k) && Pow10(j) >= 10 * Pow10(k)
  {
    if j <= k {
      Pow10Grows(j, k);
    }
    assert j > k;
    Pow10Add(j - k, k);
    f := Pow10(j - k);
    Pow10Grows(k, j - 1);
    assert Pow10(j) == 10 * Pow10(j - 1);
  }

  lemma LargeTruncate(n: nat, q: nat, k: nat)
    requires q >= LIMIT && q * Pow10(k) <= n < q * Pow10(k) + Pow10(k)
    ensures Round28(n) / Pow10(k) == q <==> q * Pow10(k) % UnitFor(n, 1) == 0
  {
    Times(LIMIT, q, Pow10(k));
    var j := UnitExponent(n, 0);
    var f := LargeUnit(n, j, k);
    assert UnitFor(n, 1) == Pow10(j);
    if n > LIMIT {
      CutAtUnit(n, q, Pow10(k), Pow10(j), f);
    } else {
      DivMod(n, q, n - q * Pow10(k), Pow10(k));
    }
  }

  lemma CutAtUnit(n: nat, q: nat, cent: nat, u: nat, f: nat)
    requires cent > 0 && u == f * cent && u >= 10 * cent && q * cent <= n < q * cent + cent
    ensures RoundTo(n, u) / cent == q <==> q * cent % u == 0
  {
    var m := Nearest(n, u);
    RoundedCents(m, cent, u, f);
    if m * f == q {
      MultipleOfUnit(m, q, cent, u, f);
    }
    if q * cent % u == 0 {
      KeptByUnit(n, q, cent, u);
      Cancel(m * f, q, cent);
    }
  }

  lemma RoundedCents(m: nat, cent: nat, u: nat, f: nat)
    requires cent > 0 && u == f * cent
    ensures m * u == m * f * cent && m * u / cent == m * f
  {
    assert m * (f * cent) == m * f * cent;
    DivMod(m * u, m * f, 0, cent);
  }

  lemma MultipleOfUnit(m: nat, q: nat, cent: nat, u: nat, f: nat)
    requires cent > 0 && u == f * cent && u > 0 && m * f == q
    ensures q * cent % u == 0
  {
    RoundedCents(m, cent, u, f);
    DivMod(q * cent, m, 0, u);
  }

  lemma KeptByUnit(n: nat, q: nat, cent: nat, u: nat)
    requires cent > 0 && u >= 10 * cent && q * cent <= n < q * cent + cent && q * cent % u == 0
    ensures RoundTo(n, u) == q * cent
  {
    Division(q * cent, u);
    NearestOf(n, q * cent / u, u);
  }

  lemma TruncateSymmetric(amount: Amount)
    requires amount.digits != 0
    ensures Truncate(Amount(-amount.digits, amount.places)) == -Truncate(amount)
  {
  }

  /** 99 cents and twenty-eight nines are taken for 100 cents. */
  lemma TruncateRoundsUp()
    ensures var a := Amount(100 * LIMIT - 1, 28); a.digits < 100 * a.Cent() && Truncate(a) == 100
  {
    LimitIsPower();
    var n := 100 * LIMIT - 1;
    assert UnitFor(n, 100) == 100 && UnitFor(n, 10) == 100 && UnitFor(n, 1) == 100;
    DivMod(n, LIMIT - 1, 99, 100);
    assert Round28(n) == 100 * LIMIT;
    DivMod(100 * LIMIT, 100, 0, LIMIT);
  }

  // ---------- specification ----------

  function Create(s: Tables, merchant: string, id: string, amount: Amount, now: int): (Tables, Reply) {
    if amount.digits <= 0 then (s, InvalidAmount)
    else if id in s.payments || Truncate(amount) > MAX_INTEGER then (s, InternalError)
    else (Tables(s.payments[id := Payment(merchant, Truncate(amount), PENDING, now + LIFETIME)],
                 s.log + [Entry(id, PENDING)], s.webhooks), Created)
  }

  function Verdict(p: Payment, cb: Callback, now: int): Status {
    if now > p.expiresAt then EXPIRED else if cb.status == "SUCCESS" then SUCCESS else FAILED
  }

  function Settle(s: Tables, merchant: string, eventId: string, cb: Callback, now: int): (Tables, Reply) {
    if eventId in s.webhooks then (s, AlreadyProcessed)
    else if cb.paymentId !in s.payments || s.payments[cb.paymentId].merchant != merchant then (s, NotFound)
    else
      var p := s.payments[cb.paymentId];
      if p.status != PENDING then (s.(webhooks := s.webhooks + {eventId}), AlreadySettled(p.status))
      else if Truncate(cb.amount) != p.cents then (s, AmountMismatch)
      else
        var v := Verdict(p, cb, now);
        (Tables(s.payments[cb.paymentId := p.(status := v)], s.log + [Entry(cb.paymentId, v)], s.webhooks + {eventId}), Accepted)
  }

  // ---------- the service ----------

  /** The committed tables and the copy an open transaction works on. */
  class Service {
    const merchant: string
    var committed: Tables
    var work: Tables

    constructor (merchant: string)
      ensures this.merchant == merchant && committed == work == Tables(map[], [], {})
    {
      this.merchant := merchant;
      committed := Tables(map[], [], {});
      work := Tables(map[], [], {});
    }

    method Commit()
      modifies this`committed
      ensures committed == work
    {
      committed := work;
    }

    method Rollback()
      modifies this`work
      ensures work == committed
    {
      work := committed;
    }

    method InsertPayment(id: string, p: Payment) returns (ok: bool)
      modifies this`work
      ensures ok <==> id !in old(work).payments && p.cents <= MAX_INTEGER
      ensures work == if ok then old(work).(payments := old(work).payments[id := p]) else old(work)
    {
      ok := id !in work.payments && p.cents <= MAX_INTEGER;
      if ok {
        work := work.(payments := work.payments[id := p]);
      }
    }

    method CreatePayment(id: string, amount: Amount, now: int) returns (reply: Reply)
      requires work == committed
      modifies this
      ensures (committed, reply) == Create(old(committed), merchant, id, amount, now) && work == committed
      ensures reply == InvalidAmount <==> amount.digits <= 0
      ensures reply == Created <==>
        amount.digits > 0 && id !in old(committed).payments && Truncate(amount) <= 9_223_372_036_854_775_807
      ensures reply == Created || reply == InvalidAmount || reply == InternalError
    {
      if amount.digits <= 0 {
        return InvalidAmount;
      }
      var ok := InsertPayment(id, Payment(merchant, Truncate(amount), PENDING, now + LIFETIME));
      if !ok {
        Rollback();
        return InternalError;
      }
      work := work.(log := work.log + [Entry(id, PENDING)]);
      Commit();
      reply := Created;
    }

    method PaymentCallback(eventId: string, cb: Callback, now: int) returns (reply: Reply)
      requires work == committed
      modifies this
      ensures (committed, reply) == Settle(old(committed), merchant, eventId, cb, now) && work == committed
    {
      if eventId in work.webhooks {
        return AlreadyProcessed;
      }
      if cb.paymentId !in work.payments || work.payments[cb.paymentId].merchant != merchant {
        Rollback();
        return NotFound;
      }
      var p := work.payments[cb.paymentId];
      if p.status != PENDING {
        work := work.(webhooks := work.webhooks + {eventId});
        Commit();
        return AlreadySettled(p.status);
      }
      if Truncate(cb.amount) != p.cents {
        Rollback();
        return AmountMismatch;
      }
      var status := EXPIRED;
      if now <= p.expiresAt {
        status := if cb.status == "SUCCESS" then SUCCESS else FAILED;
      }
      work := work.(payments := work.payments[cb.paymentId := p.(status := status)]);
      work := work.(log := work.log + [Entry(cb.paymentId, status)]);
      work := work.(webhooks := work.webhooks + {eventId});
      Commit();
      reply := Accepted;
    }
  }

  // ---------- runs ----------

  datatype Event =
    | Request(merchant: string, id: string, amount: Amount, now: int)
    | Webhook(merchant: string, eventId: string, cb: Callback, now: int)

  function Step(s: Tables, e: Event): Tables {
    match e
    case Request(merchant, id, amount, now) => Create(s, merchant, id, amount, now).0
    case Webhook(merchant, eventId, cb, now) => Settle(s, merchant, eventId, cb, now).0
  }

  function RunFrom(s: Tables, es: seq<Event>): Tables {
    if es == [] then s else Step(RunFrom(s, es[..|es| - 1]), es[|es| - 1])
  }

  function Run(es: seq<Event>): Tables {
    RunFrom(Tables(map[], [], {}), es)
  }

  /** The statuses the log records for one payment, in order. */
  function History(log: seq<Entry>, id: string): seq<Status> {
    if log == [] then [] else
      var e := log[|log| - 1];
      History(log[..|log| - 1], id) + if e.paymentId == id then [e.status] else []
  }

  function Expected(s: Tables, id: string): seq<Status> {
    if id !in s.payments then []
    else if s.payments[id].status == PENDING then [PENDING]
    else [PENDING, s.payments[id].status]
  }

  lemma HistorySnoc(log: seq<Entry>, e: Entry, id: string)
    ensures History(log + [e], id) == History(log, id) + if e.paymentId == id then [e.status] else []
  {
    assert (log + [e])[..|log|] == log;
  }

  lemma CreateKeepsLog(s: Tables, merchant: string, id: string, amount: Amount, now: int, x: string)
    requires History(s.log, x) == Expected(s, x)
    ensures var t := Create(s, merchant, id, amount, now).0; History(t.log, x) == Expected(t, x)
  {
    HistorySnoc(s.log, Entry(id, PENDING), x);
  }

  lemma SettleKeepsLog(s: Tables, merchant: string, eventId: string, cb: Callback, now: int, x: string)
    requires History(s.log, x) == Expected(s, x)
    ensures var t := Settle(s, merchant, eventId, cb, now).0; History(t.log, x) == Expected(t, x)
  {
    if Settle(s, merchant, eventId, cb, now).1.Accepted? {
      HistorySnoc(s.log, Entry(cb.paymentId, Verdict(s.payments[cb.paymentId], cb, now)), x);
    }
  }

  /** After every run, the log of each payment is PENDING alone, or PENDING and then its one final status. */
  lemma {:induction false} LogIsPendingThenFinal(es: seq<Event>, id: string)
    ensures History(Run(es).log, id) == Expected(Run(es), id)
  {
    if es != [] {
      LogIsPendingThenFinal(es[..|es| - 1], id);
      match es[|es| - 1]
      case Request(merchant, p, amount, now) => CreateKeepsLog(Run(es[..|es| - 1]), merchant, p, amount, now, id);
      case Webhook(merchant, eventId, cb, now) => SettleKeepsLog(Run(es[..|es| - 1]), merchant, eventId, cb, now, id);
    }
  }

  /** Whatever happens afterwards, a payment keeps its amount and expiry, and a final status stays. */
  lemma {:induction false} SettledForever(s: Tables, es: seq<Event>, id: string)
    requires id in s.payments
    ensures var t := RunFrom(s, es);
            && id in t.payments && t.payments[id] == s.payments[id].(status := t.payments[id].status)
            && (s.payments[id].status != PENDING ==> t.payments[id] == s.payments[id])
  {
    if es != [] {
      SettledForever(s, es[..|es| - 1], id);
    }
  }

  lemma {:induction false} WebhooksKept(s: Tables, es: seq<Event>)
    ensures s.webhooks <= RunFrom(s, es).webhooks
  {
    if es != [] {
      WebhooksKept(s, es[..|es| - 1]);
    }
  }

  /** Once a webhook id is recorded, delivering it again, at any later time and with any content, changes nothing. */
  lemma RecordedWebhookIsIgnored(s: Tables, es: seq<Event>, merchant: string, eventId: string, cb: Callback, now: int)
    requires eventId in s.webhooks
    ensures Settle(RunFrom(s, es), merchant, eventId, cb, now) == (RunFrom(s, es), AlreadyProcessed)
  {
    WebhooksKept(s, es);
  }

  /** A delivery that was answered, other than by an error, is recorded. */
  lemma {:induction false} AnsweredIsRecorded(s: Tables, es: seq<Event>, merchant: string, eventId: string, cb: Callback, now: int)
    requires var r := Settle(s, merchant, eventId, cb, now).1; r.Accepted? || r.AlreadyProcessed? || r.AlreadySettled?
    ensures var t := RunFrom(Settle(s, merchant, eventId, cb, now).0, es);
            Settle(t, merchant, eventId, cb, now) == (t, AlreadyProcessed)
  {
    RecordedWebhookIsIgnored(Settle(s, merchant, eventId, cb, now).0, es, merchant, eventId, cb, now);
  }

  // ---------- what a run decides ----------

  /** A request for a payment id that can be granted: a positive amount that fits the column. */
  predicate Asks(e: Event, id: string) {
    e.Request? && e.id == id && e.amount.digits > 0 && Truncate(e.amount) <= 9_223_372_036_854_775_807
  }

  predicate AskedAt(es: seq<Event>, i: int, id: string) {
    0 <= i < |es| && Asks(es[i], id)
  }

  ghost predicate FirstAsked(es: seq<Event>, i: int, id: string) {
    AskedAt(es, i, id) && forall j :: j < i ==> !AskedAt(es, j, id)
  }

  /** What the first such request fixes for good: merchant, cents, and ten minutes to pay. */
  predicate Grants(e: Event, p: Payment) {
    e.Request? && p.merchant == e.merchant && p.cents == Truncate(e.amount) && p.expiresAt == e.now + 600
  }

  /** A payment exists exactly when a grantable request asked for its id, and it is as the first of them says. */
  lemma {:induction false} GrantedIff(es: seq<Event>, id: string)
    ensures id in Run(es).payments <==> exists i :: AskedAt(es, i, id)
    ensures id in Run(es).payments ==> exists i :: FirstAsked(es, i, id) && Grants(es[i], Run(es).payments[id])
  {
    if es != [] {
      var n := |es| - 1;
      var front := es[..n];
      GrantedIff(front, id);
      assert forall i :: i < n ==> (AskedAt(es, i, id) <==> AskedAt(front, i, id));
      if id in Run(front).payments {
        var i :| FirstAsked(front, i, id) && Grants(front[i], Run(front).payments[id]);
        assert FirstAsked(es, i, id) && Grants(es[i], Run(es).payments[id]);
      } else if AskedAt(es, n, id) {
        assert FirstAsked(es, n, id) && Grants(es[n], Run(es).payments[id]);
      }
    }
  }

  /** At its turn in the run, event i is a webhook with a new event id, for an existing payment of its merchant. */
  ghost predicate Delivered(es: seq<Event>, i: int, id: string) {
    && 0 <= i < |es| && es[i].Webhook? && es[i].cb.paymentId == id
    && var s := Run(es[..i]);
       es[i].eventId !in s.webhooks && id in s.payments && s.payments[id].merchant == es[i].merchant
  }

  /** ... and it carries the amount of the payment. */
  ghost predicate Matches(es: seq<Event>, i: int, id: string) {
    Delivered(es, i, id) && Truncate(es[i].cb.amount) == Run(es[..i]).payments[id].cents
  }

  /** The first webhook of the run that matches a payment: the one that settles it. */
  ghost predicate Settles(es: seq<Event>, i: int, id: string) {
    Matches(es, i, id) && forall j :: j < i ==> !Matches(es, j, id)
  }

  lemma MatchesFront(es: seq<Event>, i: int, id: string)
    requires es != [] && i < |es| - 1
    ensures Matches(es, i, id) <==> Matches(es[..|es| - 1], i, id)
  {
    if 0 <= i {
      assert es[..|es| - 1][..i] == es[..i] && es[..|es| - 1][i] == es[i];
    }
  }

  lemma SettlesAlike(es: seq<Event>, front: seq<Event>, i: int, id: string)
    requires forall j :: j <= i ==> (Matches(es, j, id) <==> Matches(front, j, id))
    ensures Settles(es, i, id) <==> Settles(front, i, id)
  {
  }

  /** How a webhook leaves the payment it settles. */
  predicate Decides(e: Event, status: Status, expiresAt: int)
    requires e.Webhook?
  {
    match status
    case PENDING => false
    case SUCCESS => e.now <= expiresAt && e.cb.status == "SUCCESS"
    case FAILED => e.now <= expiresAt && e.cb.status != "SUCCESS"
    case EXPIRED => e.now > expiresAt
  }

  /** The status of a payment after a run, in terms of the run. */
  ghost predicate StatusIs(es: seq<Event>, id: string, p: Payment) {
    if p.status == PENDING then forall i :: !Matches(es, i, id)
    else exists i :: Settles(es, i, id) && Decides(es[i], p.status, p.expiresAt)
  }

  lemma {:induction false} StatusHolds(es: seq<Event>, id: string)
    requires id in Run(es).payments
    ensures StatusIs(es, id, Run(es).payments[id])
  {
    var n := |es| - 1;
    var front, e := es[..n], es[n];
    forall i | i < n ensures Matches(es, i, id) <==> Matches(front, i, id) {
      MatchesFront(es, i, id);
    }
    forall i | i < n ensures Settles(es, i, id) <==> Settles(front, i, id) {
      SettlesAlike(es, front, i, id);
    }
    if id in Run(front).payments {
      StatusHolds(front, id);
      StatusMoves(es, id);
    } else {
      NoneMatches(es, id);
    }
  }

  /** Before a payment exists nothing matches it. */
  lemma {:induction false} NoneMatches(es: seq<Event>, id: string)
    requires es != [] && id !in Run(es[..|es| - 1]).payments
    ensures forall i :: !Matches(es, i, id)
    ensures id in Run(es).payments ==> Run(es).payments[id].status == PENDING
  {
    var front := es[..|es| - 1];
    forall i ensures !Matches(es, i, id) {
      if Matches(es, i, id) {
        assert front[..i] == es[..i];
        PaymentsStay(front, i, id);
      }
    }
  }

  lemma {:induction false} PaymentsStay(es: seq<Event>, i: nat, id: string)
    requires i <= |es| && id in Run(es[..i]).payments
    ensures id in Run(es).payments
    decreases |es|
  {
    if i == |es| {
      assert es[..i] == es;
    } else {
      assert es[..|es| - 1][..i] == es[..i];
      PaymentsStay(es[..|es| - 1], i, id);
    }
  }

  lemma StatusMoves(es: seq<Event>, id: string)
    requires es != [] && id in Run(es[..|es| - 1]).payments && StatusIs(es[..|es| - 1], id, Run(es[..|es| - 1]).payments[id])
    requires forall i :: i < |es| - 1 ==> (Matches(es, i, id) <==> Matches(es[..|es| - 1], i, id))
    requires forall i :: i < |es| - 1 ==> (Settles(es, i, id) <==> Settles(es[..|es| - 1], i, id))
    ensures id in Run(es).payments && StatusIs(es, id, Run(es).payments[id])
  {
    var n := |es| - 1;
    var front, p, p' := es[..n], Run(es[..n]).payments[id], Run(es).payments[id];
    if p.status != PENDING {
      var i :| Settles(front, i, id) && Decides(front[i], p.status, p.expiresAt);
      assert es[i] == front[i] && p' == p && Settles(es, i, id);
    } else if Matches(es, n, id) {
      assert Settles(es, n, id);
      assert Decides(es[n], p'.status, p'.expiresAt);
    } else {
      assert p' == p;
    }
  }

  /** After every run a payment has a status if and only if that is what the first matching webhook decided: SUCCESS if
      it reported success in time, EXPIRED if it came too late, FAILED if it came in time with any other report;
      PENDING if and only if no webhook matched. */
  lemma {:induction false} StatusIff(es: seq<Event>, id: string)
    requires id in Run(es).payments
    ensures var p := Run(es).payments[id];
            && (p.status == PENDING <==> forall i :: !Matches(es, i, id))
            && (p.status == SUCCESS <==> exists i :: Settles(es, i, id) && es[i].now <= p.expiresAt && es[i].cb.status == "SUCCESS")
            && (p.status == FAILED <==> exists i :: Settles(es, i, id) && es[i].now <= p.expiresAt && es[i].cb.status != "SUCCESS")
            && (p.status == EXPIRED <==> exists i :: Settles(es, i, id) && es[i].now > p.expiresAt)
  {
    StatusHolds(es, id);
    forall i, j | Settles(es, i, id) && Settles(es, j, id) ensures i == j {
    }
  }

  /** At its turn, event i is a webhook for an existing payment of its merchant that is settled already or has its amount. */
  ghost predicate Answers(es: seq<Event>, i: int, eventId: string) {
    && 0 <= i < |es| && es[i].Webhook? && es[i].eventId == eventId
    && var s, cb := Run(es[..i]), es[i].cb;
       && cb.paymentId in s.payments && s.payments[cb.paymentId].merchant == es[i].merchant
       && (s.payments[cb.paymentId].status != PENDING || Truncate(cb.amount) == s.payments[cb.paymentId].cents)
  }

  /** A webhook id is recorded exactly when a delivery of it found its payment settled or paid its amount. */
  lemma {:induction false} RecordedIff(es: seq<Event>, eventId: string)
    ensures eventId in Run(es).webhooks <==> exists i :: Answers(es, i, eventId)
  {
    if es != [] {
      var n := |es| - 1;
      var front := es[..n];
      RecordedIff(front, eventId);
      forall i | i < n ensures Answers(es, i, eventId) <==> Answers(front, i, eventId) {
        if 0 <= i {
          assert front[..i] == es[..i] && front[i] == es[i];
        }
      }
      if i :| Answers(front, i, eventId) {
        assert Answers(es, i, eventId);
      }
      if Answers(es, n, eventId) {
        assert eventId in Run(es).webhooks;
      }
    }
  }

  /** The reply to a webhook that arrives after a run. */
  function ReplyTo(es: seq<Event>, e: Event): Reply
    requires e.Webhook?
  {
    Settle(Run(es), e.merchant, e.eventId, e.cb, e.now).1
  }

  lemma NextEvent(es: seq<Event>, e: Event, id: string)
    requires e.Webhook? && e.cb.paymentId == id
    ensures var all, s := es + [e], Run(es);
            Matches(all, |es|, id) <==>
              && e.eventId !in s.webhooks && id in s.payments && s.payments[id].merchant == e.merchant
              && Truncate(e.cb.amount) == s.payments[id].cents
    ensures forall i :: i < |es| ==> (Matches(es + [e], i, id) <==> Matches(es, i, id))
  {
    var all := es + [e];
    assert all[..|es|] == es && all[|es|] == e;
    forall i | i < |es| ensures Matches(all, i, id) <==> Matches(es, i, id) {
      MatchesFront(all, i, id);
    }
  }

  /** The webhook that settles a payment is accepted, and it alone; one delivered to a settled payment is told the status;
      one with another amount for a pending payment is a mismatch. */
  lemma {:induction false} RepliesIff(es: seq<Event>, e: Event)
    requires e.Webhook?
    ensures var a, s, id := ReplyTo(es, e), Run(es), e.cb.paymentId;
            var found := e.eventId !in s.webhooks && id in s.payments && s.payments[id].merchant == e.merchant;
            && (a == Accepted <==> Settles(es + [e], |es|, id))
            && (a.AlreadySettled? <==> found && s.payments[id].status != PENDING)
            && (a.AlreadySettled? ==> a.status == s.payments[id].status)
            && (a == AmountMismatch <==> found && s.payments[id].status == PENDING && !Settles(es + [e], |es|, id))
            && (a == AlreadyProcessed <==> e.eventId in s.webhooks)
            && (a == NotFound <==> e.eventId !in s.webhooks && !found)
  {
    var id := e.cb.paymentId;
    NextEvent(es, e, id);
    if id in Run(es).payments {
      StatusHolds(es, id);
    }
  }
}
