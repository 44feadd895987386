/** Cancellation, the audit that looks for entitlements nobody pays for, and its repair. */
module BillingAudit {
  import opened Common
  import opened Text
  import opened Billing
  import opened BillingWorld
  import opened BillingLaws

  /**
   A cancellation takes a plan exactly when the ledger holds a payment for the
   record and the account is on the plan it bought. It then takes that account's
   plan only, and leaves every other record, account and ledger row alone.
   */
  lemma CancelRevokesExactly(w: World, b: BillingId, now: int)
    requires Sound(w) && b in w.db.records
    ensures var (db', revoked) := CancelAndRevoke(w.db, b, now);
            var u := w.db.records[b].user;
            && (revoked <==> HasPaid(w.db.ledger, b) && u in w.db.users && w.db.users[u] == w.db.records[b].plan)
            && db'.users == (if revoked then w.db.users[u := "none"] else w.db.users)
            && (revoked ==> db'.subs == w.db.subs[u := Subscription(UNSUBSCRIBED_PLAN, false)])
            && (!revoked ==> db'.subs == w.db.subs)
            && db'.records - {b} == w.db.records - {b}
            && db'.records[b].status.Cancelled? && db'.records[b].cancelledAt.Some?
            && db'.ledger == w.db.ledger
  {
    hide HasPaid, PlansAgree, KeysUnique, EntriesMatch, Registrations, RebillsUnique, AllBought, InFlight, AppliedOnce;
    assert Provenance(w.db);
  }

  /** Cancelling again takes nothing and changes nothing, as long as the plan on record is a real one. */
  lemma CancelTwiceIsOnce(db: Db, b: BillingId, now: int, later: int)
    requires b in db.records && db.records[b].plan != UNSUBSCRIBED_PLAN
    ensures var db' := CancelAndRevoke(db, b, now).0;
            b in db'.records && CancelAndRevoke(db', b, later) == (db', false)
  {
    var db' := CancelAndRevoke(db, b, now).0;
    var again := db'.records[b].(status := Cancelled, cancelledAt := OrNow(db'.records[b].cancelledAt, later));
    assert again == db'.records[b];
    assert db'.records[b := again] == db'.records;
  }

  // ---- what brings an account onto the audit's list -----------------------------

  /** The record is over at the provider, was paid for, and bought a real plan. */
  predicate OverAndPaid(db: Db, b: BillingId)
  {
    && b in db.records
    && (db.records[b].status.Cancelled? || db.records[b].status.CancelAtPeriodEnd?)
    && db.records[b].activatedAt.Some?
    && db.records[b].plan != UNSUBSCRIBED_PLAN
  }

  /** An account with no subscription row is audited as if it had an active one, and one whose row is not active never is. */
  lemma MissingSubscriptionReadsActive(db: Db, b: BillingId, plan: PlanId)
    requires b in db.records
    ensures var u := db.records[b].user;
            && (u !in db.subs ==> (Mismatch(db, b) <==> Mismatch(db.(subs := db.subs[u := Subscription(plan, true)]), b)))
            && !Mismatch(db.(subs := db.subs[u := Subscription(plan, false)]), b)
  {
  }

  /** The step puts `u` on `plan`, active. */
  predicate Gives(w: World, s: Step, u: UserId, plan: PlanId)
  {
    && u in w.db.users
    && match s
       case SetPlan(v, p, active) => v == u && p == plan && active
       case Grant(h) =>
         && h in w.handlers && w.handlers[h].Noted?
         && w.handlers[h].p.user == u && w.handlers[h].p.plan == plan && plan in w.db.sellable
       case _ => false
  }

  /**
   A record joins the audit's list exactly when it is over and paid and its
   account is given that same plan again: by the operator, or by a payment,
   be it for another record or one that was still on its way when this one was
   cancelled. Nothing else ever puts a row on the list.
   */
  lemma MismatchArisesExactly(cfg: Config, w: World, s: Step, b: BillingId)
    requires Sound(w) && !Mismatch(w.db, b)
    ensures Mismatch(Next(cfg, w, s).db, b) <==>
              OverAndPaid(w.db, b) && Gives(w, s, w.db.records[b].user, w.db.records[b].plan)
  {
    hide KeysUnique, EntriesMatch, Provenance, RebillsUnique, InFlight, AppliedOnce, HasKey, RebillTaken, Verify;
    match s
    case Attach(_, _) => assert b in w.registering ==> w.db.records[b].activatedAt == None;
    case RegistrationFails(_) => assert b in w.registering ==> w.db.records[b].activatedAt == None;
    case _ =>
      hide AllBought, Registrations;
  }

  /** No step of the run gives an account the plan of a record of its own that is over and paid. */
  ghost predicate NeverRegiven(cfg: Config, w: World, steps: seq<Step>)
    decreases |steps|
  {
    steps == [] ||
    (&& (forall b :: OverAndPaid(w.db, b) ==> !Gives(w, steps[0], w.db.records[b].user, w.db.records[b].plan))
     && NeverRegiven(cfg, Next(cfg, w, steps[0]), steps[1..]))
  }

  /** Under that condition the list, once empty, stays empty. */
  lemma {:induction false} AuditStaysEmpty(cfg: Config, w: World, steps: seq<Step>, b: BillingId)
    requires Sound(w) && (forall c :: !Mismatch(w.db, c)) && NeverRegiven(cfg, w, steps)
    ensures !Mismatch(After(cfg, w, steps).db, b)
    decreases |steps|
  {
    if steps != [] {
      NextKeepsSound(cfg, w, steps[0]);
      forall c ensures !Mismatch(Next(cfg, w, steps[0]).db, c) {
        MismatchArisesExactly(cfg, w, steps[0], c);
        hide Next, Sound, Gives, Mismatch;
      }
      hide Next, Sound, Gives, Mismatch, OverAndPaid;
      AuditStaysEmpty(cfg, Next(cfg, w, steps[0]), steps[1..], b);
    }
  }

  // ---- the repair -----------------------------------------------------------------

  /** Someone on the list is this account. */
  predicate Listed(db: Db, u: UserId)
  {
    exists b :: b in db.records && db.records[b].user == u && Mismatch(db, b)
  }

  /** Fixing one row takes its whole account off the list and moves no other account. */
  lemma FixOne(db: Db, b: BillingId, now: int, c: BillingId)
    requires Mismatch(db, b)
    ensures var db' := CancelAndRevoke(db, b, now).0;
            Mismatch(db', c) <==> Mismatch(db, c) && db.records[c].user != db.records[b].user
  {
  }

  /**
   Repairing a list that names every mismatch ends with no mismatch. Exactly the
   accounts that were listed lose their plan; every other account, and the
   ledger, is as it was.
   */
  lemma {:induction false} RepairEmptiesTheList(db: Db, listed: seq<BillingId>, now: int, u: UserId)
    requires forall b :: Mismatch(db, b) ==> b in listed
    ensures var db' := Repair(db, listed, now);
            && (forall b :: !Mismatch(db', b))
            && db'.ledger == db.ledger && db'.users.Keys == db.users.Keys
            && (u in db.users ==> db'.users[u] == if Listed(db, u) then UNSUBSCRIBED_PLAN else db.users[u])
    decreases |listed|
  {
    if listed != [] {
      var b := listed[0];
      assert forall c :: c in listed ==> c == b || c in listed[1..];
      if Mismatch(db, b) {
        var fixed := CancelAndRevoke(db, b, now).0;
        forall c ensures Mismatch(fixed, c) <==> Mismatch(db, c) && db.records[c].user != db.records[b].user {
          FixOne(db, b, now, c);
        }
        var v := db.records[b].user;
        assert fixed.users == db.users[v := UNSUBSCRIBED_PLAN] && fixed.ledger == db.ledger;
        assert forall c :: c in fixed.records <==> c in db.records;
        assert forall c :: c in db.records ==> fixed.records[c].user == db.records[c].user;
        RepairEmptiesTheList(fixed, listed[1..], now, u);
        hide Mismatch, CancelAndRevoke;
        assert Listed(fixed, u) <==> Listed(db, u) && u != v;
        assert Listed(db, v);
      } else {
        RepairEmptiesTheList(db, listed[1..], now, u);
      }
    } else {
      assert forall b :: !Mismatch(db, b);
    }
  }

  /** The accounts of these rows that are on the list. */
  function ListedUsers(db: Db, listed: seq<BillingId>): set<UserId>
  {
    set i | 0 <= i < |listed| && Mismatch(db, listed[i]) :: db.records[listed[i]].user
  }

  /** The number the repair reports is the number of accounts whose plan it takes, not of rows. */
  lemma {:induction false} RepairCountsAccounts(db: Db, listed: seq<BillingId>, now: int)
    ensures RepairCount(db, listed, now) == |ListedUsers(db, listed)|
    decreases |listed|
  {
    if listed != [] {
      var b, rest := listed[0], listed[1..];
      assert forall i :: 0 <= i < |rest| ==> rest[i] == listed[i + 1];
      if Mismatch(db, b) {
        var v, fixed := db.records[b].user, CancelAndRevoke(db, b, now).0;
        forall c ensures Mismatch(fixed, c) <==> Mismatch(db, c) && db.records[c].user != v {
          FixOne(db, b, now, c);
        }
        assert forall c :: Mismatch(db, c) ==> fixed.records[c].user == db.records[c].user;
        RepairCountsAccounts(fixed, rest, now);
        hide Mismatch, CancelAndRevoke;
        OneAccountFewer(db, fixed, listed, v);
      } else {
        RepairCountsAccounts(db, rest, now);
        assert ListedUsers(db, listed) == ListedUsers(db, rest) by {
          forall u | u in ListedUsers(db, listed) ensures u in ListedUsers(db, rest) {
            var i :| 0 <= i < |listed| && Mismatch(db, listed[i]) && db.records[listed[i]].user == u;
            assert rest[i - 1] == listed[i];
          }
        }
      }
    }
  }

  lemma OneAccountFewer(db: Db, fixed: Db, listed: seq<BillingId>, v: UserId)
    requires listed != [] && Mismatch(db, listed[0]) && db.records[listed[0]].user == v
    requires forall c :: Mismatch(fixed, c) <==> Mismatch(db, c) && db.records[c].user != v
    requires forall c :: Mismatch(db, c) && Mismatch(fixed, c) ==> fixed.records[c].user == db.records[c].user
    ensures |ListedUsers(db, listed)| == 1 + |ListedUsers(fixed, listed[1..])|
  {
    var before, after := ListedUsers(db, listed), ListedUsers(fixed, listed[1..]);
    hide Mismatch;
    forall u ensures u in before <==> u == v || u in after {
      StillListed(db, fixed, listed, v, u);
    }
    assert v !in after;
    hide ListedUsers;
    assert before == after + {v};
  }

  lemma StillListed(db: Db, fixed: Db, listed: seq<BillingId>, v: UserId, u: UserId)
    requires listed != [] && Mismatch(db, listed[0]) && db.records[listed[0]].user == v
    requires forall c :: Mismatch(fixed, c) <==> Mismatch(db, c) && db.records[c].user != v
    requires forall c :: Mismatch(db, c) && Mismatch(fixed, c) ==> fixed.records[c].user == db.records[c].user
    ensures u in ListedUsers(db, listed) <==> u == v || u in ListedUsers(fixed, listed[1..])
  {
    var rest := listed[1..];
    hide Mismatch;
    if u in ListedUsers(db, listed) && u != v {
      var i :| 0 <= i < |listed| && Mismatch(db, listed[i]) && db.records[listed[i]].user == u;
      assert rest[i - 1] == listed[i];
    }
    if u in ListedUsers(fixed, rest) {
      var i :| 0 <= i < |rest| && Mismatch(fixed, rest[i]) && fixed.records[rest[i]].user == u;
      assert listed[i + 1] == rest[i];
    }
  }

  /**
   The audit cannot tell who paid. An account that cancelled, bought the same
   plan again and is paying for it is on the list because of the old record, and
   repairing that row takes the plan from a subscription still being charged.
   */
  lemma RepairTakesFromAPayer(w: World, ended: BillingId, current: BillingId, now: int)
    requires Sound(w) && OverAndPaid(w.db, ended)
    requires current in w.db.records && w.db.records[current].status.Active?
    requires w.db.records[current].user == w.db.records[ended].user && w.db.records[ended].user in w.db.users
    requires w.db.records[current].plan == w.db.records[ended].plan
    requires w.db.users[w.db.records[ended].user] == w.db.records[ended].plan
    requires w.db.subs[w.db.records[ended].user].active
    ensures Mismatch(w.db, ended)
    ensures var db' := CancelAndRevoke(w.db, ended, now).0;
            && db'.users[w.db.records[ended].user] == UNSUBSCRIBED_PLAN
            && db'.records[current] == w.db.records[current] && db'.records[current].status.HoldsTheProvider()
  {
    hide KeysUnique, EntriesMatch, Provenance, Registrations, RebillsUnique, AllBought, InFlight, AppliedOnce;
    assert ended != current;
  }

  // ---- a run that gets there --------------------------------------------------------

  /** A checkout that is registered and paid for: its record, its registration, and what the provider sends. */
  datatype Purchase = Purchase(billing: BillingId, rebill: string, form: Form, id: int, at: int)

  /** The notification is a genuine payment of this price. */
  predicate PaysFor(cfg: Config, p: Purchase, amount: int)
  {
    && Field(p.form, "userid") == cfg.userid && Field(p.form, "linkkey") == cfg.linkkey
    && Field(p.form, "linkval") == cfg.linkval && Field(p.form, "var1") == p.billing
    && Price(p.form) == amount && Field(p.form, "rebill_no") == p.rebill && Field(p.form, "pay_state") == PAID
  }

  function Buy(p: Purchase, u: UserId, plan: PlanId, amount: int, h: HandlerId): seq<Step>
  {
    [Open(p.billing, u, plan, amount), Attach(p.billing, p.rebill), Check(h, p.form), Note(h, p.id, p.at), Grant(h)]
  }

  /** Nothing of this purchase is in the tables yet. */
  predicate New(w: World, p: Purchase)
  {
    && p.billing !in w.db.records && p.billing !in w.registering && !RebillTaken(w.db.records, p.rebill)
    && !HasKey(w.db.ledger, EventKey(p.form)) && !HasId(w.db.ledger, p.id)
  }

  /** What a purchase leaves. */
  function AfterBuying(w: World, p: Purchase, u: UserId, plan: PlanId, amount: int): World
  {
    var key := EventKey(p.form);
    World(
      Db(w.db.sellable, w.db.users[u := plan], w.db.subs[u := Subscription(plan, true)],
         w.db.records[p.billing := Record(u, plan, Some(p.rebill), Active, amount, Some(p.at), None)],
         w.db.ledger + [Entry(p.id, key, p.billing, u, PAID, amount, p.at)]),
      w.registering, w.handlers, w.applied + [key])
  }

  lemma FiveSteps(cfg: Config, w: World, a: Step, b: Step, c: Step, d: Step, e: Step)
    ensures After(cfg, w, [a, b, c, d, e]) == Next(cfg, Next(cfg, Next(cfg, Next(cfg, Next(cfg, w, a), b), c), d), e)
  {
    hide Next, After;
    var w1 := Next(cfg, w, a);
    var w2 := Next(cfg, w1, b);
    var w3 := Next(cfg, w2, c);
    var w4 := Next(cfg, w3, d);
    assert [a, b, c, d, e] == [a] + ([b] + ([c] + ([d] + ([e] + []))));
    OneStepThen(cfg, w, a, [b] + ([c] + ([d] + ([e] + []))));
    OneStepThen(cfg, w1, b, [c] + ([d] + ([e] + [])));
    OneStepThen(cfg, w2, c, [d] + ([e] + []));
    OneStepThen(cfg, w3, d, [e] + []);
    OneStepThen(cfg, w4, e, []);
    assert After(cfg, Next(cfg, w4, e), []) == Next(cfg, w4, e) by { NoStep(cfg, Next(cfg, w4, e)); }
  }

  lemma NoStep(cfg: Config, w: World)
    ensures After(cfg, w, []) == w
  {
  }

  lemma Registered(cfg: Config, w: World, p: Purchase, u: UserId, plan: PlanId, amount: int)
    requires u in w.db.users && plan in w.db.sellable && New(w, p)
    ensures Next(cfg, Next(cfg, w, Open(p.billing, u, plan, amount)), Attach(p.billing, p.rebill)) ==
              w.(db := w.db.(records := w.db.records[p.billing := Record(u, plan, Some(p.rebill), Pending, amount, None, None)]))
  {
    hide HasKey, HasId, EventKey;
    var placed := Next(cfg, w, Open(p.billing, u, plan, amount));
    assert !RebillTaken(placed.db.records, p.rebill);
    var attached := Next(cfg, placed, Attach(p.billing, p.rebill));
    assert attached.registering == w.registering;
    assert attached.db.records == w.db.records[p.billing := attached.db.records[p.billing]];
  }

  lemma BuyingWorks(cfg: Config, w: World, p: Purchase, u: UserId, plan: PlanId, amount: int, h: HandlerId)
    requires u in w.db.users && plan in w.db.sellable && New(w, p) && h !in w.handlers && PaysFor(cfg, p, amount)
    ensures After(cfg, w, Buy(p, u, plan, amount, h)) == AfterBuying(w, p, u, plan, amount)
  {
    var b, key := p.billing, EventKey(p.form);
    FiveSteps(cfg, w, Open(b, u, plan, amount), Attach(b, p.rebill), Check(h, p.form), Note(h, p.id, p.at), Grant(h));
    hide Field, Price, EventKey, After, RebillTaken;
    Registered(cfg, w, p, u, plan, amount);
    var attached := Next(cfg, Next(cfg, w, Open(b, u, plan, amount)), Attach(b, p.rebill));
    var payment := Payment(key, b, u, plan, amount, PAID);
    var checked := Next(cfg, attached, Check(h, p.form));
    assert checked == attached.(handlers := w.handlers[h := Checked(payment)]);
    hide Verify;
    var noted := Next(cfg, checked, Note(h, p.id, p.at));
    assert noted.db.ledger == w.db.ledger + [Entry(p.id, key, b, u, PAID, amount, p.at)];
    assert noted.handlers == w.handlers[h := Noted(payment)];
    assert noted.db.records == w.db.records[b := Record(u, plan, Some(p.rebill), Active, amount, Some(p.at), None)];
    assert noted.handlers - {h} == w.handlers;
  }

  /** A notification of a payment of 980, under the provider's own number. */
  function Notice(cfg: Config, b: BillingId, rebill: string, number: string): Form
  {
    map["userid" := cfg.userid, "linkkey" := cfg.linkkey, "linkval" := cfg.linkval, "var1" := b,
        "price" := "980", "rebill_no" := rebill, "pay_state" := PAID, "mul_no" := number]
  }

  lemma NoticePays(cfg: Config, b: BillingId, rebill: string, number: string, id: int, at: int)
    requires Trimmed(cfg.userid) && Trimmed(cfg.linkkey) && Trimmed(cfg.linkval)
    requires Trimmed(b) && Trimmed(rebill) && Trimmed(number) && number != ""
    ensures PaysFor(cfg, Purchase(b, rebill, Notice(cfg, b, rebill, number), id, at), 980)
    ensures EventKey(Notice(cfg, b, rebill, number)) == number
  {
    var form := Notice(cfg, b, rebill, number);
    hide Trim;
    ThePriceReads();
    hide Without, ParseI64;
    TrimKeepsTrimmed(cfg.userid);
    TrimKeepsTrimmed(cfg.linkkey);
    TrimKeepsTrimmed(cfg.linkval);
    TrimKeepsTrimmed(b);
    TrimKeepsTrimmed(rebill);
    TrimKeepsTrimmed(number);
    TrimKeepsTrimmed("980");
    TrimKeepsTrimmed(PAID);
    hide Trimmed;
    assert Price(form) == 980;
  }

  lemma ThePriceReads()
    ensures ParseI64(Without("980", ',')) == Some(980)
  {
    assert "980"[..2] == "98" && "98"[..1] == "9";
    assert Digits("9") == Some(9);
    assert Digits("98") == Some(98);
    assert Digits("980") == Some(980);
    assert Without("0", ',') == "0" && "80"[1..] == "0" && "980"[1..] == "80";
    assert Without("980", ',') == "980";
  }

  /** Sign up, buy a plan, cancel it, and buy it again. */
  function BuyTwice(u: UserId, plan: PlanId, amount: int, h: HandlerId, was: Purchase, at: int, again: Purchase): seq<Step>
  {
    [NewUser(u, UNSUBSCRIBED_PLAN, false)]
    + (Buy(was, u, plan, amount, h) + ([Cancel(was.billing, at)] + Buy(again, u, plan, amount, h)))
  }

  /** And then the first record is on the audit's list, and repairing it takes the plan the second one pays for. */
  lemma PayerLosesThePlan(
      cfg: Config, sellable: set<PlanId>, u: UserId, plan: PlanId, amount: int, h: HandlerId,
      was: Purchase, at: int, again: Purchase, later: int)
    requires plan in sellable && plan != UNSUBSCRIBED_PLAN
    requires PaysFor(cfg, was, amount) && PaysFor(cfg, again, amount)
    requires was.billing != again.billing && was.rebill != again.rebill && was.id != again.id
    requires EventKey(was.form) != EventKey(again.form)
    ensures var db := After(cfg, Start(sellable), BuyTwice(u, plan, amount, h, was, at, again)).db;
            && Mismatch(db, was.billing)
            && again.billing in db.records && db.records[again.billing].status.Active?
            && var fixed := CancelAndRevoke(db, was.billing, later).0;
               fixed.users == map[u := UNSUBSCRIBED_PLAN] && fixed.records[again.billing] == db.records[again.billing]
  {
    var start := Start(sellable);
    var join := Next(cfg, start, NewUser(u, UNSUBSCRIBED_PLAN, false));
    var bought := AfterBuying(join, was, u, plan, amount);
    var ended := Next(cfg, bought, Cancel(was.billing, at));
    var end := AfterBuying(ended, again, u, plan, amount);
    hide PaysFor, EventKey, After, Buy;
    BuyingWorks(cfg, join, was, u, plan, amount, h);
    BuyingWorks(cfg, ended, again, u, plan, amount, h);
    OneStepThen(cfg, start, NewUser(u, UNSUBSCRIBED_PLAN, false),
      Buy(was, u, plan, amount, h) + ([Cancel(was.billing, at)] + Buy(again, u, plan, amount, h)));
    RunsJoin(cfg, join, Buy(was, u, plan, amount, h), [Cancel(was.billing, at)] + Buy(again, u, plan, amount, h));
    OneStepThen(cfg, bought, Cancel(was.billing, at), Buy(again, u, plan, amount, h));
    assert After(cfg, start, BuyTwice(u, plan, amount, h, was, at, again)) == end;
  }

  // ---- one recurring registration per account --------------------------------------

  /** The records of an account the provider will still charge for. */
  function Live(db: Db, u: UserId): set<BillingId>
  {
    set b | b in db.records && db.records[b].user == u && db.records[b].status.HoldsTheProvider()
  }

  /**
   A checkout opens a record that holds the account, once, for an account there is
   and a plan on sale. It ends by its registration, under a number no other record
   has, or by a failure, which lets go of the account so that it can try again.
   */
  lemma CheckoutsEnd(cfg: Config, w: World, b: BillingId, u: UserId, plan: PlanId, amount: int, rebill: string)
    ensures var placed := Next(cfg, w, Open(b, u, plan, amount));
            if b in w.db.records || u !in w.db.users || plan !in w.db.sellable then placed == w
            else
              && placed.db.records == w.db.records[b := Record(u, plan, None, Pending, amount, None, None)]
              && placed.registering == w.registering + {b} && Live(placed.db, u) == Live(w.db, u) + {b}
    ensures b in w.registering && b in w.db.records ==>
              var (failed, attached) := (Next(cfg, w, RegistrationFails(b)), Next(cfg, w, Attach(b, rebill)));
              && failed.registering == attached.registering == w.registering - {b}
              && failed.db.records - {b} == w.db.records - {b} && b in failed.db.records
              && failed.db.records[b] == w.db.records[b].(status := RegistrationFailed)
              && Live(failed.db, w.db.records[b].user) == Live(w.db, w.db.records[b].user) - {b}
              && (RebillTaken(w.db.records, rebill) ==> attached == failed)
              && (!RebillTaken(w.db.records, rebill) ==>
                   attached.db.records == w.db.records[b := w.db.records[b].(rebill := Some(rebill))])
    ensures b !in w.registering ==> Next(cfg, w, RegistrationFails(b)) == w && Next(cfg, w, Attach(b, rebill)) == w
  {
    hide RebillTaken;
  }

  /** Which records hold the account: those waiting to be paid, paid, or paid back. */
  lemma HoldingStatuses(db: Db, b: BillingId)
    requires b in db.records
    ensures b in Live(db, db.records[b].user) <==>
              var s := db.records[b].status; !s.RegistrationFailed? && !s.CancelAtPeriodEnd? && !s.Cancelled?
  {
  }

  /** A notification about a record reaches the ledger in a state that changes the record. */
  predicate Stirs(w: World, s: Step, b: BillingId)
  {
    && s.Note?
    && s.handler in w.handlers && w.handlers[s.handler].Checked?
    && w.handlers[s.handler].p.billing == b
    && !HasKey(w.db.ledger, w.handlers[s.handler].p.key)
    && !HasId(w.db.ledger, s.id)
    && (w.handlers[s.handler].p.payState == PAID || IsReversal(w.handlers[s.handler].p.payState))
  }

  /** The step opens this record, or stirs one of the account's. */
  predicate ComesAlive(w: World, s: Step, b: BillingId, u: UserId)
  {
    || (s.Open? && s.billing == b && s.user == u && b !in w.db.records && u in w.db.users && s.plan in w.db.sellable)
    || (b in w.db.records && w.db.records[b].user == u && Stirs(w, s, b))
  }

  /**
   An account gains a live record exactly by a checkout or by a first-seen
   payment or reversal of a record that had ended. The latter means a refund
   reported after a cancellation blocks the next checkout again.
   */
  lemma LiveGrowsExactly(cfg: Config, w: World, s: Step, b: BillingId, u: UserId)
    requires Sound(w) && b !in Live(w.db, u)
    ensures b in Live(Next(cfg, w, s).db, u) <==> ComesAlive(w, s, b, u)
  {
    hide PlansAgree, KeysUnique, EntriesMatch, Provenance, RebillsUnique, InFlight, AppliedOnce, HasKey, Verify;
    match s
    case Attach(_, _) =>
      hide AllBought, RebillTaken;
    case _ =>
      hide Registrations, AllBought, RebillTaken;
  }

  /** The provider charges this account under one record at most. */
  predicate AtMostOne(db: Db, u: UserId)
  {
    forall a, b :: a in Live(db, u) && b in Live(db, u) ==> a == b
  }

  /** The account has a live record, and the step makes one of its other records live. */
  ghost predicate Second(w: World, s: Step, u: UserId)
  {
    Live(w.db, u) != {} && exists b :: b !in Live(w.db, u) && ComesAlive(w, s, b, u)
  }

  /** A step that brings one record to life leaves every other one's account and status alone. */
  lemma OneAtATime(cfg: Config, w: World, s: Step, b: BillingId, a: BillingId, u: UserId)
    requires ComesAlive(w, s, b, u) && a != b
    ensures a in Live(Next(cfg, w, s).db, u) <==> a in Live(w.db, u)
  {
    hide Verify, HasKey, HasId;
  }

  /**
   An account with at most one live record keeps at most one exactly when the step
   does not give it a second: by a checkout while it has one, or by a first-seen
   payment or reversal of a record that had ended while another is live.
   */
  lemma SecondArisesExactly(cfg: Config, w: World, s: Step, u: UserId)
    requires Sound(w) && AtMostOne(w.db, u)
    ensures AtMostOne(Next(cfg, w, s).db, u) <==> !Second(w, s, u)
  {
    var w' := Next(cfg, w, s);
    forall b | b !in Live(w.db, u) ensures b in Live(w'.db, u) <==> ComesAlive(w, s, b, u) {
      LiveGrowsExactly(cfg, w, s, b, u);
    }
    hide Sound, Next, Live;
    if b :| b !in Live(w.db, u) && ComesAlive(w, s, b, u) {
      forall a | a != b ensures a in Live(w'.db, u) <==> a in Live(w.db, u) {
        OneAtATime(cfg, w, s, b, a, u);
      }
      hide ComesAlive;
      if a :| a in Live(w.db, u) {
        assert a in Live(w'.db, u) && b in Live(w'.db, u);
      }
    } else {
      hide ComesAlive;
      assert forall b :: b in Live(w'.db, u) ==> b in Live(w.db, u);
    }
  }

  /** No step of the run gives the account a second live record. */
  ghost predicate NeverSecond(cfg: Config, w: World, steps: seq<Step>, u: UserId)
    decreases |steps|
  {
    steps == [] || (!Second(w, steps[0], u) && NeverSecond(cfg, Next(cfg, w, steps[0]), steps[1..], u))
  }

  /** At every moment of the run. */
  ghost predicate AlwaysAtMostOne(cfg: Config, w: World, steps: seq<Step>, u: UserId)
  {
    forall n :: 0 <= n <= |steps| ==> AtMostOne(After(cfg, w, steps[..n]).db, u)
  }

  lemma OneMoreMoment(cfg: Config, w: World, steps: seq<Step>, u: UserId)
    requires steps != []
    ensures AlwaysAtMostOne(cfg, w, steps, u) <==>
              AtMostOne(w.db, u) && AlwaysAtMostOne(cfg, Next(cfg, w, steps[0]), steps[1..], u)
  {
    hide Next, AtMostOne;
    var w', rest := Next(cfg, w, steps[0]), steps[1..];
    assert After(cfg, w, steps[..0]) == w;
    forall n | 0 <= n <= |rest| ensures After(cfg, w', rest[..n]) == After(cfg, w, steps[..n + 1]) {
      assert steps[..n + 1][0] == steps[0] && steps[..n + 1][1..] == rest[..n];
    }
    if AtMostOne(w.db, u) && AlwaysAtMostOne(cfg, w', rest, u) {
      forall n | 0 <= n <= |steps| ensures AtMostOne(After(cfg, w, steps[..n]).db, u) {
        if n > 0 {
          assert AtMostOne(After(cfg, w', rest[..n - 1]).db, u);
        }
      }
    }
  }

  /** Over whole runs: the account never has two live records exactly when no step gives it a second. */
  lemma {:induction false} OneRegistrationExactly(cfg: Config, w: World, steps: seq<Step>, u: UserId)
    requires Sound(w) && AtMostOne(w.db, u)
    ensures AlwaysAtMostOne(cfg, w, steps, u) <==> NeverSecond(cfg, w, steps, u)
    decreases |steps|
  {
    hide Sound, Next, Second, AtMostOne;
    if steps == [] {
      assert steps[..0] == [];
    } else {
      var w' := Next(cfg, w, steps[0]);
      NextKeepsSound(cfg, w, steps[0]);
      SecondArisesExactly(cfg, w, steps[0], u);
      OneMoreMoment(cfg, w, steps, u);
      if AtMostOne(w'.db, u) {
        OneRegistrationExactly(cfg, w', steps[1..], u);
      } else {
        assert steps[1..][..0] == [] && After(cfg, w', steps[1..][..0]) == w';
      }
    }
  }

  /**
   The check for a live record and the insert are two steps, so two checkouts
   that both find none leave two.
   */
  lemma TwoCheckoutsAtOnce(cfg: Config, w: World, u: UserId, plan: PlanId, a: BillingId, b: BillingId, amount: int)
    requires u in w.db.users && plan in w.db.sellable && Live(w.db, u) == {}
    requires a !in w.db.records && b !in w.db.records && a != b
    ensures Live(After(cfg, w, [Open(a, u, plan, amount), Open(b, u, plan, amount)]).db, u) == {a, b}
  {
    var one := Next(cfg, w, Open(a, u, plan, amount));
    var both := Next(cfg, one, Open(b, u, plan, amount));
    assert [Open(a, u, plan, amount), Open(b, u, plan, amount)][1..] == [Open(b, u, plan, amount)];
    assert After(cfg, one, [Open(b, u, plan, amount)]) == After(cfg, both, []);
    assert After(cfg, w, [Open(a, u, plan, amount), Open(b, u, plan, amount)]) == both;
    assert Live(one.db, u) == Live(w.db, u) + {a};
    assert Live(both.db, u) == Live(one.db, u) + {b};
  }
}
