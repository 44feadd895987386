/**
 Recurring payments: checkout, the provider's notification, cancellation, and
 the entitlement they write.

 A notification is verified against the record it names, written to a ledger
 once per event key, and only then turned into a plan, in a second transaction.
 Each of those is one atomic step of `Next`, so a run may put anything else
 between them, or stop there.
 */
module Billing {
  import opened Common
  import opened Text

  type UserId = string
  type PlanId = string
  type BillingId = string
  type HandlerId = nat

  /** The plan of an account with no subscription. */
  const UNSUBSCRIBED_PLAN: PlanId := "none"

  const PAID: string := "4"

  predicate IsReversal(payState: string)
  {
    payState == "9" || payState == "64" || payState == "70" || payState == "71"
  }

  datatype BillingStatus = Pending | RegistrationFailed | Active | CancelAtPeriodEnd | Cancelled | PaymentFailed {
    /** Will the provider still charge for this, or has it already? */
    predicate HoldsTheProvider() {
      Pending? || Active? || PaymentFailed?
    }
  }

  datatype Record = Record(
    user: UserId, plan: PlanId, rebill: Option<string>, status: BillingStatus, amount: int,
    activatedAt: Option<int>, cancelledAt: Option<int>)

  /** One row of the payment ledger. */
  datatype Entry = Entry(
    id: int, key: string, billing: BillingId, user: UserId, payState: string, amount: int, processedAt: int)

  /** A `subscriptions` row: the plan and whether its status reads active. */
  datatype Subscription = Subscription(plan: PlanId, active: bool)

  /** The tables billing reads and writes. `sellable` are the plans that can broadcast. */
  datatype Db = Db(
    sellable: set<PlanId>,
    users: map<UserId, PlanId>,
    subs: map<UserId, Subscription>,
    records: map<BillingId, Record>,
    ledger: seq<Entry>)

  datatype Config = Config(userid: string, linkkey: string, linkval: string)

  type Form = map<string, string>

  /** What a verified notification says, with the account and plan taken from the record. */
  datatype Payment = Payment(key: string, billing: BillingId, user: UserId, plan: PlanId, amount: int, payState: string)

  datatype Refusal = BadCredentials | UnknownOrder | WrongAmount | WrongRegistration | NotActivated

  datatype Verdict = Refused(why: Refusal) | Genuine(payment: Payment)

  datatype Outcome = Activated(plan: PlanId) | Recorded | AlreadyHandled | Rejected(why: Refusal)

  function Field(form: Form, k: string): string
  {
    Trim(Lookup(form, k, ""))
  }

  function Price(form: Form): int
  {
    match ParseI64(Without(Field(form, "price"), ','))
    case Some(n) => n
    case None => -1
  }

  /** The idempotency key: the provider's own number, or a composite without one. */
  function EventKey(form: Form): string
  {
    if Field(form, "mul_no") == "" then
      Field(form, "var1") + ":" + Field(form, "pay_state") + ":" + Field(form, "pay_date")
    else Field(form, "mul_no")
  }

  function Verify(cfg: Config, db: Db, form: Form): Verdict
  {
    var order := Field(form, "var1");
    if Field(form, "userid") != cfg.userid || Field(form, "linkkey") != cfg.linkkey || Field(form, "linkval") != cfg.linkval
    then Refused(BadCredentials)
    else if order !in db.records then Refused(UnknownOrder)
    else
      var record := db.records[order];
      if Price(form) != record.amount then Refused(WrongAmount)
      else if record.rebill != Some(Field(form, "rebill_no")) then Refused(WrongRegistration)
      else
        Genuine(Payment(EventKey(form), order, record.user, record.plan, record.amount, Field(form, "pay_state")))
  }

  predicate HasKey(ledger: seq<Entry>, key: string)
  {
    exists i :: 0 <= i < |ledger| && ledger[i].key == key
  }

  predicate HasPaid(ledger: seq<Entry>, b: BillingId)
  {
    exists i :: 0 <= i < |ledger| && ledger[i].billing == b && ledger[i].payState == PAID
  }

  function OrNow(t: Option<int>, now: int): Option<int>
  {
    if t.Some? then t else Some(now)
  }

  /** The status a notification puts a record in, if it changes it. */
  function StatusOf(record: Record, payState: string, now: int): Record
  {
    if payState == PAID then record.(status := Active, activatedAt := OrNow(record.activatedAt, now))
    else if IsReversal(payState) then record.(status := PaymentFailed)
    else record
  }

  /** Ledger row and status change together, once per key. */
  function RecordPayment(db: Db, p: Payment, id: int, now: int): (Db, bool)
  {
    if HasKey(db.ledger, p.key) then (db, false)
    else
      (db.(
         ledger := db.ledger + [Entry(id, p.key, p.billing, p.user, p.payState, p.amount, now)],
         records := if p.billing in db.records
                    then db.records[p.billing := StatusOf(db.records[p.billing], p.payState, now)]
                    else db.records),
       true)
  }

  /** Both halves of "what plan is this account on"; a foreign key refuses an unknown account. */
  function WritePlan(db: Db, u: UserId, plan: PlanId, active: bool): Db
  {
    if u !in db.users then db
    else db.(users := db.users[u := plan], subs := db.subs[u := Subscription(plan, active)])
  }

  function Activate(db: Db, u: UserId, plan: PlanId): (Db, bool)
  {
    if plan in db.sellable && u in db.users then (WritePlan(db, u, plan, true), true) else (db, false)
  }

  /** `writes` is whether the second transaction gets through. */
  function HandleFeedback(cfg: Config, db: Db, form: Form, id: int, now: int, writes: bool): (Db, Outcome)
  {
    match Verify(cfg, db, form)
    case Refused(why) => (db, Rejected(why))
    case Genuine(p) =>
      var (noted, first) := RecordPayment(db, p, id, now);
      if !first then (db, AlreadyHandled)
      else if p.payState != PAID then (noted, Recorded)
      else
        var (done, ok) := Activate(noted, p.user, p.plan);
        if writes && ok then (done, Activated(p.plan)) else (noted, Rejected(NotActivated))
  }

  /** Cancel a record and take back the plan it paid for; whether one was taken. */
  function CancelAndRevoke(db: Db, b: BillingId, now: int): (Db, bool)
    requires b in db.records
  {
    var record := db.records[b];
    var cancelled := db.(records := db.records[b :=
      record.(status := Cancelled, cancelledAt := OrNow(record.cancelledAt, now))]);
    if record.activatedAt.Some? && record.user in db.users && db.users[record.user] == record.plan
    then (WritePlan(cancelled, record.user, UNSUBSCRIBED_PLAN, false), true)
    else (cancelled, false)
  }

  /** The audit's condition: over at the provider, still entitled here. */
  predicate Mismatch(db: Db, b: BillingId)
  {
    && b in db.records
    && var record := db.records[b];
    && (record.status.Cancelled? || record.status.CancelAtPeriodEnd?)
    && record.activatedAt.Some?
    && record.user in db.users
    && db.users[record.user] == record.plan != UNSUBSCRIBED_PLAN
    && (record.user in db.subs ==> db.subs[record.user].active)
  }

  /** The tables, and the statements made against them. */
  class BillingStore {
    const sellable: set<PlanId>
    var users: map<UserId, PlanId>
    var subs: map<UserId, Subscription>
    var records: map<BillingId, Record>
    var ledger: seq<Entry>

    ghost function State(): Db
      reads this
    {
      Db(sellable, users, subs, records, ledger)
    }

    constructor (sellable: set<PlanId>)
      ensures State() == Db(sellable, map[], map[], map[], [])
    {
      this.sellable := sellable;
      users, subs, records, ledger := map[], map[], map[], [];
    }

    method RecordBillingPayment(p: Payment, id: int, now: int) returns (inserted: bool)
      modifies this
      ensures (State(), inserted) == RecordPayment(old(State()), p, id, now)
    {
      if HasKey(ledger, p.key) {
        return false;
      }
      ledger := ledger + [Entry(id, p.key, p.billing, p.user, p.payState, p.amount, now)];
      if p.billing in records {
        if p.payState == PAID {
          var record := records[p.billing];
          records := records[p.billing := record.(status := Active, activatedAt := OrNow(record.activatedAt, now))];
        } else if IsReversal(p.payState) {
          records := records[p.billing := records[p.billing].(status := PaymentFailed)];
        }
      }
      inserted := true;
      assert p.billing in old(records) ==> records == old(records)[p.billing := records[p.billing]];
    }

    method WriteBoth(user: UserId, plan: PlanId, active: bool)
      modifies this
      ensures State() == WritePlan(old(State()), user, plan, active)
    {
      if user in users {
        users := users[user := plan];
        subs := subs[user := Subscription(plan, active)];
      }
    }

    method ActivateSubscription(user: UserId, plan: PlanId) returns (ok: bool)
      modifies this
      ensures (State(), ok) == Activate(old(State()), user, plan)
    {
      ok := plan in sellable && user in users;
      if ok {
        WriteBoth(user, plan, true);
      }
    }

    /** One notification, start to finish. */
    method Feedback(cfg: Config, form: Form, id: int, now: int) returns (outcome: Outcome)
      modifies this
      ensures (State(), outcome) == HandleFeedback(cfg, old(State()), form, id, now, true)
    {
      var order := Field(form, "var1");
      if Field(form, "userid") != cfg.userid || Field(form, "linkkey") != cfg.linkkey
         || Field(form, "linkval") != cfg.linkval {
        return Rejected(BadCredentials);
      }
      if order !in records {
        return Rejected(UnknownOrder);
      }
      var record := records[order];
      if Price(form) != record.amount {
        return Rejected(WrongAmount);
      }
      if record.rebill != Some(Field(form, "rebill_no")) {
        return Rejected(WrongRegistration);
      }
      var payState := Field(form, "pay_state");
      var p := Payment(EventKey(form), order, record.user, record.plan, record.amount, payState);
      var first := RecordBillingPayment(p, id, now);
      if !first {
        return AlreadyHandled;
      }
      if payState != PAID {
        return Recorded;
      }
      var ok := ActivateSubscription(p.user, p.plan);
      outcome := if ok then Activated(p.plan) else Rejected(NotActivated);
    }

    method CancelBillingAndRevoke(b: BillingId, now: int) returns (revoked: bool)
      requires b in records
      modifies this
      ensures (State(), revoked) == CancelAndRevoke(old(State()), b, now)
    {
      var record := records[b];
      records := records[b := record.(status := Cancelled, cancelledAt := OrNow(record.cancelledAt, now))];
      revoked := record.activatedAt.Some? && record.user in users && users[record.user] == record.plan;
      if revoked {
        WriteBoth(record.user, UNSUBSCRIBED_PLAN, false);
      }
    }

    /** Refuses anything the audit does not list. */
    method FixBillingMismatch(b: BillingId, now: int) returns (fixed: bool)
      modifies this
      ensures fixed == old(Mismatch(State(), b))
      ensures State() == if fixed then CancelAndRevoke(old(State()), b, now).0 else old(State())
    {
      fixed := b in records
        && (records[b].status.Cancelled? || records[b].status.CancelAtPeriodEnd?)
        && records[b].activatedAt.Some? && records[b].user in users
        && users[records[b].user] == records[b].plan && records[b].plan != UNSUBSCRIBED_PLAN
        && (records[b].user in subs ==> subs[records[b].user].active);
      if fixed {
        var revoked := CancelBillingAndRevoke(b, now);
      }
    }

    /** The operator's repair: fix every row the audit printed, one by one. */
    method RepairAll(listed: seq<BillingId>, now: int) returns (done: nat)
      modifies this
      ensures State() == Repair(old(State()), listed, now)
      ensures done == RepairCount(old(State()), listed, now)
    {
      done := 0;
      var i := 0;
      while i < |listed|
        invariant 0 <= i <= |listed|
        invariant done + RepairCount(State(), listed[i..], now) == RepairCount(old(State()), listed, now)
        invariant Repair(State(), listed[i..], now) == Repair(old(State()), listed, now)
      {
        assert listed[i..][0] == listed[i] && listed[i..][1..] == listed[i + 1..];
        var fixed := FixBillingMismatch(listed[i], now);
        if fixed {
          done := done + 1;
        }
        i := i + 1;
      }
    }
  }

  /** The repair loop on values. */
  function Repair(db: Db, listed: seq<BillingId>, now: int): Db
    decreases |listed|
  {
    if listed == [] then db
    else if Mismatch(db, listed[0]) then Repair(CancelAndRevoke(db, listed[0], now).0, listed[1..], now)
    else Repair(db, listed[1..], now)
  }

  /** How many of the rows it fixes. */
  function RepairCount(db: Db, listed: seq<BillingId>, now: int): nat
    decreases |listed|
  {
    if listed == [] then 0
    else if Mismatch(db, listed[0]) then 1 + RepairCount(CancelAndRevoke(db, listed[0], now).0, listed[1..], now)
    else RepairCount(db, listed[1..], now)
  }
}
