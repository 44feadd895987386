/** What billing guarantees over whole runs, interleaved any way. */
module BillingRuns {
  import opened Common
  import opened Billing

  // ---- replay ---------------------------------------------------------------

  /** One delivery of a notification: its row id and time, and whether the second transaction gets through. */
  datatype Delivery = Delivery(form: Form, id: int, now: int, writes: bool)

  function Deliver(cfg: Config, db: Db, d: Delivery): Db
  {
    HandleFeedback(cfg, db, d.form, d.id, d.now, d.writes).0
  }

  function DeliverAll(cfg: Config, db: Db, ds: seq<Delivery>): Db
    decreases |ds|
  {
    if ds == [] then db else DeliverAll(cfg, Deliver(cfg, db, ds[0]), ds[1..])
  }

  /** The deliveries that are the first of their notification, `seen` apart. */
  function Firsts(ds: seq<Delivery>, seen: set<Form>): seq<Delivery>
    decreases |ds|
  {
    if ds == [] then []
    else if ds[0].form in seen then Firsts(ds[1..], seen)
    else [ds[0]] + Firsts(ds[1..], seen + {ds[0].form})
  }

  /** Same records with the same terms; statuses and times may differ. */
  ghost predicate SameTerms(a: Db, b: Db)
  {
    && a.records.Keys == b.records.Keys
    && a.sellable == b.sellable
    && a.users.Keys == b.users.Keys
    && forall k :: k in a.records ==>
         && a.records[k].user == b.records[k].user && a.records[k].plan == b.records[k].plan
         && a.records[k].amount == b.records[k].amount && a.records[k].rebill == b.records[k].rebill
  }

  /** Delivering this notification again would change nothing. */
  ghost predicate Settled(cfg: Config, db: Db, form: Form)
  {
    Verify(cfg, db, form).Genuine? ==> HasKey(db.ledger, EventKey(form))
  }

  lemma KeysStay(ledger: seq<Entry>, e: Entry)
    ensures forall key :: HasKey(ledger, key) ==> HasKey(ledger + [e], key)
    ensures HasKey(ledger + [e], e.key)
    ensures forall key :: HasKey(ledger + [e], key) ==> key == e.key || HasKey(ledger, key)
  {
    forall key | HasKey(ledger, key) ensures HasKey(ledger + [e], key) {
      var i :| 0 <= i < |ledger| && ledger[i].key == key;
      assert (ledger + [e])[i].key == key;
    }
    assert (ledger + [e])[|ledger|].key == e.key;
  }

  /** Verifying reads only what no notification writes. */
  lemma VerifyReadsTerms(cfg: Config, a: Db, b: Db, form: Form)
    requires SameTerms(a, b)
    ensures Verify(cfg, a, form) == Verify(cfg, b, form)
  {
  }

  lemma NoteKeepsTerms(db: Db, p: Payment, id: int, now: int)
    ensures var (db', inserted) := RecordPayment(db, p, id, now);
            && SameTerms(db, db') && db'.users == db.users && db'.subs == db.subs
            && (inserted <==> !HasKey(db.ledger, p.key))
            && (!inserted ==> db' == db)
            && (forall key :: HasKey(db'.ledger, key) <==> key == p.key || HasKey(db.ledger, key))
  {
    KeysStay(db.ledger, Entry(id, p.key, p.billing, p.user, p.payState, p.amount, now));
  }

  lemma ActivateKeepsTerms(db: Db, u: UserId, plan: PlanId)
    ensures SameTerms(db, Activate(db, u, plan).0) && Activate(db, u, plan).0.ledger == db.ledger
  {
  }

  /** A delivery settles its notification and unsettles none. */
  lemma DeliverSettles(cfg: Config, db: Db, d: Delivery)
    ensures var db' := Deliver(cfg, db, d);
            && SameTerms(db, db')
            && (forall key :: HasKey(db.ledger, key) ==> HasKey(db'.ledger, key))
            && (forall form :: Verify(cfg, db', form) == Verify(cfg, db, form))
            && Settled(cfg, db', d.form)
            && (Settled(cfg, db, d.form) ==> db' == db)
  {
    var db' := Deliver(cfg, db, d);
    match Verify(cfg, db, d.form) {
      case Refused(_) =>
      case Genuine(p) =>
        hide Activate, RecordPayment;
        var noted := RecordPayment(db, p, d.id, d.now).0;
        NoteKeepsTerms(db, p, d.id, d.now);
        ActivateKeepsTerms(noted, p.user, p.plan);
    }
    forall form ensures Verify(cfg, db', form) == Verify(cfg, db, form) {
      VerifyReadsTerms(cfg, db, db', form);
    }
  }

  lemma {:induction false} RepeatsDrop(cfg: Config, db: Db, ds: seq<Delivery>, seen: set<Form>)
    requires forall form :: form in seen ==> Settled(cfg, db, form)
    ensures DeliverAll(cfg, db, ds) == DeliverAll(cfg, db, Firsts(ds, seen))
    decreases |ds|
  {
    if ds != [] {
      DeliverSettles(cfg, db, ds[0]);
      var db' := Deliver(cfg, db, ds[0]);
      if ds[0].form in seen {
        RepeatsDrop(cfg, db, ds[1..], seen);
      } else {
        RepeatsDrop(cfg, db', ds[1..], seen + {ds[0].form});
        var rest := Firsts(ds[1..], seen + {ds[0].form});
        assert Firsts(ds, seen) == [ds[0]] + rest;
        assert ([ds[0]] + rest)[0] == ds[0] && ([ds[0]] + rest)[1..] == rest;
      }
    }
  }

  /**
   Duplicating notifications anywhere in a run of them, with whatever times and
   failures the copies meet, ends in the same ledger, records and plans as the
   run with only the first of each.
   */
  lemma DuplicatesChangeNothing(cfg: Config, db: Db, ds: seq<Delivery>)
    ensures DeliverAll(cfg, db, ds) == DeliverAll(cfg, db, Firsts(ds, {}))
  {
    RepeatsDrop(cfg, db, ds, {});
  }

  // ---- what can give an account a plan again ----------------------------------

  /** The delivery that would activate `u`: genuine, paid, for a plan on sale, and its writes get through. */
  predicate Pays(cfg: Config, db: Db, d: Delivery, u: UserId)
  {
    match Verify(cfg, db, d.form)
    case Refused(_) => false
    case Genuine(p) => p.user == u && p.payState == PAID && p.plan in db.sellable && d.writes
  }

  /** No genuine delivery before the `i`-th carries its event key. */
  predicate KeyIsNew(cfg: Config, db: Db, ds: seq<Delivery>, i: nat)
    requires i < |ds|
  {
    && !HasKey(db.ledger, EventKey(ds[i].form))
    && forall j :: 0 <= j < i ==>
         !(Verify(cfg, db, ds[j].form).Genuine? && EventKey(ds[j].form) == EventKey(ds[i].form))
  }

  /**
   An account without a plan gets one back from a run of notifications exactly
   when one of them pays for a record of that account under an event key that
   was neither in the ledger nor used by an earlier notification of the run.
   */
  lemma {:induction false} PlanReturnsExactly(cfg: Config, db: Db, ds: seq<Delivery>, u: UserId)
    requires u in db.users && db.users[u] == UNSUBSCRIBED_PLAN && UNSUBSCRIBED_PLAN !in db.sellable
    ensures u in DeliverAll(cfg, db, ds).users
    ensures DeliverAll(cfg, db, ds).users[u] != UNSUBSCRIBED_PLAN <==>
            exists i :: 0 <= i < |ds| && Pays(cfg, db, ds[i], u) && KeyIsNew(cfg, db, ds, i)
    decreases |ds|
  {
    if ds != [] {
      var db' := Deliver(cfg, db, ds[0]);
      DeliverSettles(cfg, db, ds[0]);
      FirstDelivery(cfg, db, ds[0], u);
      if db'.users[u] != UNSUBSCRIBED_PLAN {
        PlanStays(cfg, db', ds[1..], u);
        assert KeyIsNew(cfg, db, ds, 0);
      } else {
        PlanReturnsExactly(cfg, db', ds[1..], u);
        ShiftWitness(cfg, db, ds, u);
      }
    }
  }

  lemma FirstDelivery(cfg: Config, db: Db, d: Delivery, u: UserId)
    requires u in db.users && UNSUBSCRIBED_PLAN !in db.sellable
    ensures var db' := Deliver(cfg, db, d);
            && u in db'.users
            && (Pays(cfg, db, d, u) && !HasKey(db.ledger, EventKey(d.form)) ==> db'.users[u] != UNSUBSCRIBED_PLAN)
            && (db'.users[u] != db.users[u] ==> Pays(cfg, db, d, u) && !HasKey(db.ledger, EventKey(d.form)))
            && (db.users[u] != UNSUBSCRIBED_PLAN ==> db'.users[u] != UNSUBSCRIBED_PLAN)
            && (forall key :: HasKey(db'.ledger, key) <==>
                 HasKey(db.ledger, key) || (Verify(cfg, db, d.form).Genuine? && key == EventKey(d.form)))
  {
    match Verify(cfg, db, d.form)
    case Refused(_) =>
    case Genuine(p) =>
      KeysStay(db.ledger, Entry(d.id, p.key, p.billing, p.user, p.payState, p.amount, d.now));
  }

  lemma {:induction false} PlanStays(cfg: Config, db: Db, ds: seq<Delivery>, u: UserId)
    requires u in db.users && db.users[u] != UNSUBSCRIBED_PLAN && UNSUBSCRIBED_PLAN !in db.sellable
    ensures u in DeliverAll(cfg, db, ds).users && DeliverAll(cfg, db, ds).users[u] != UNSUBSCRIBED_PLAN
    decreases |ds|
  {
    if ds != [] {
      FirstDelivery(cfg, db, ds[0], u);
      DeliverSettles(cfg, db, ds[0]);
      PlanStays(cfg, Deliver(cfg, db, ds[0]), ds[1..], u);
    }
  }

  lemma ShiftWitness(cfg: Config, db: Db, ds: seq<Delivery>, u: UserId)
    requires ds != [] && u in db.users && db.users[u] == UNSUBSCRIBED_PLAN && UNSUBSCRIBED_PLAN !in db.sellable
    requires Deliver(cfg, db, ds[0]).users[u] == UNSUBSCRIBED_PLAN
    ensures var db' := Deliver(cfg, db, ds[0]);
            (exists i :: 0 <= i < |ds| && Pays(cfg, db, ds[i], u) && KeyIsNew(cfg, db, ds, i)) <==>
            (exists i :: 0 <= i < |ds[1..]| && Pays(cfg, db', ds[1..][i], u) && KeyIsNew(cfg, db', ds[1..], i))
  {
    var db', rest := Deliver(cfg, db, ds[0]), ds[1..];
    DeliverSettles(cfg, db, ds[0]);
    FirstDelivery(cfg, db, ds[0], u);
    forall i | 0 <= i < |rest|
      ensures Pays(cfg, db', rest[i], u) == Pays(cfg, db, ds[i + 1], u)
      ensures KeyIsNew(cfg, db', rest, i) == KeyIsNew(cfg, db, ds, i + 1)
    {
      assert rest[i] == ds[i + 1];
      if KeyIsNew(cfg, db', rest, i) {
        forall j | 0 <= j < i + 1
          ensures !(Verify(cfg, db, ds[j].form).Genuine? && EventKey(ds[j].form) == EventKey(ds[i + 1].form))
        {
          if j > 0 {
            assert rest[j - 1] == ds[j];
          }
        }
      }
      if KeyIsNew(cfg, db, ds, i + 1) {
        forall j | 0 <= j < i
          ensures !(Verify(cfg, db', rest[j].form).Genuine? && EventKey(rest[j].form) == EventKey(rest[i].form))
        {
          assert rest[j] == ds[j + 1];
        }
      }
    }
    if i :| 0 <= i < |ds| && Pays(cfg, db, ds[i], u) && KeyIsNew(cfg, db, ds, i) {
      assert i != 0;
      assert Pays(cfg, db', rest[i - 1], u) && KeyIsNew(cfg, db', rest, i - 1);
    }
  }

  /**
   The key is the provider's payment number alone, so a payment reported in two
   states under one number is recorded in the first of them only: a completed
   payment announced after its own request activates nothing, now or on retry.
   */
  lemma OneNumberTwoStates(cfg: Config, db: Db, asked: Delivery, paid: Delivery, u: UserId)
    requires Verify(cfg, db, asked.form).Genuine? && Field(asked.form, "pay_state") != PAID
    requires Pays(cfg, db, paid, u)
    requires Field(asked.form, "mul_no") == Field(paid.form, "mul_no") != ""
    requires u in db.users
    ensures var db' := Deliver(cfg, db, asked);
            && HandleFeedback(cfg, db', paid.form, paid.id, paid.now, paid.writes) == (db', AlreadyHandled)
            && db'.users == db.users
  {
    DeliverSettles(cfg, db, asked);
  }

  /**
   The ledger row and the plan are two transactions. When the second does not
   happen, the payment stays recorded, the provider is told to retry, and no
   retry ever activates it.
   */
  lemma LostActivation(cfg: Config, db: Db, d: Delivery, noted: Db, retries: seq<Delivery>, u: UserId)
    requires Pays(cfg, db, d.(writes := true), u) && !d.writes && !HasKey(db.ledger, EventKey(d.form))
    requires noted == Deliver(cfg, db, d) && CopiesOf(retries, d.form)
    ensures HandleFeedback(cfg, db, d.form, d.id, d.now, d.writes).1 == Rejected(NotActivated)
    ensures HasKey(noted.ledger, EventKey(d.form)) && noted.users == db.users && noted.subs == db.subs
    ensures DeliverAll(cfg, noted, retries) == noted
  {
    DeliverSettles(cfg, db, d);
    SettledStays(cfg, noted, retries, d.form);
  }

  predicate CopiesOf(ds: seq<Delivery>, form: Form)
  {
    forall i :: 0 <= i < |ds| ==> ds[i].form == form
  }

  lemma {:induction false} SettledStays(cfg: Config, db: Db, retries: seq<Delivery>, form: Form)
    requires Settled(cfg, db, form)
    requires CopiesOf(retries, form)
    ensures DeliverAll(cfg, db, retries) == db
    decreases |retries|
  {
    if retries != [] {
      DeliverSettles(cfg, db, retries[0]);
      SettledStays(cfg, db, retries[1..], form);
    }
  }
}
