/** What the billing invariant buys: provenance, conservation, revocation and the audit. */
module BillingLaws {
  import opened Common
  import opened Billing
  import opened BillingWorld

  lemma {:induction false} RunKeepsSound(cfg: Config, w: World, steps: seq<Step>)
    requires Sound(w)
    ensures Sound(After(cfg, w, steps))
    decreases |steps|
  {
    hide Sound, Next;
    if steps != [] {
      NextKeepsSound(cfg, w, steps[0]);
      RunKeepsSound(cfg, Next(cfg, w, steps[0]), steps[1..]);
    }
  }

  lemma {:induction false} RunsJoin(cfg: Config, w: World, a: seq<Step>, b: seq<Step>)
    ensures After(cfg, w, a + b) == After(cfg, After(cfg, w, a), b)
    decreases |a|
  {
    hide Next;
    if a == [] {
      assert a + b == b;
    } else {
      assert (a + b)[0] == a[0] && (a + b)[1..] == a[1..] + b;
      RunsJoin(cfg, Next(cfg, w, a[0]), a[1..], b);
    }
  }

  lemma OneStepThen(cfg: Config, w: World, s: Step, rest: seq<Step>)
    ensures After(cfg, w, [s] + rest) == After(cfg, Next(cfg, w, s), rest)
  {
    hide Next;
    assert ([s] + rest)[0] == s && ([s] + rest)[1..] == rest;
  }

  /**
   In every reachable state: `users` and `subscriptions` agree, event keys are
   unique, a record reads as activated exactly when the ledger holds a payment
   for it, a failed registration has neither, and no payment is turned into a
   plan twice.
   */
  lemma EveryRunIsSound(cfg: Config, sellable: set<PlanId>, steps: seq<Step>)
    ensures Sound(After(cfg, Start(sellable), steps))
  {
    RunKeepsSound(cfg, Start(sellable), steps);
  }

  /**
   A notification handled without interruption is the three steps in a row, and
   one whose second transaction is lost is the first two.
   */
  lemma FeedbackIsThreeSteps(cfg: Config, w: World, h: HandlerId, form: Form, id: int, now: int)
    requires h !in w.handlers && !HasId(w.db.ledger, id)
    ensures var noted := Next(cfg, Next(cfg, w, Check(h, form)), Note(h, id, now));
            && noted.db == HandleFeedback(cfg, w.db, form, id, now, false).0
            && Next(cfg, noted, Grant(h)).db == HandleFeedback(cfg, w.db, form, id, now, true).0
            && Next(cfg, noted, Grant(h)).handlers == w.handlers
            && Next(cfg, noted, Grant(h)).applied ==
                 w.applied + (if HandleFeedback(cfg, w.db, form, id, now, true).1.Activated? then [EventKey(form)] else [])
            && Next(cfg, noted, Drop(h)).handlers == w.handlers && Next(cfg, noted, Drop(h)).db == noted.db
  {
    hide HasKey, EventKey, Price, Field;
  }

  // ---- replay, whatever happened since ----------------------------------------

  lemma {:induction false} HistoryGrows(cfg: Config, w: World, steps: seq<Step>)
    ensures var w' := After(cfg, w, steps);
            && w.db.ledger <= w'.db.ledger && w.applied <= w'.applied
    decreases |steps|
  {
    if steps != [] {
      NextGrows(cfg, w, steps[0]);
      hide Next;
      HistoryGrows(cfg, Next(cfg, w, steps[0]), steps[1..]);
    }
  }

  lemma NextGrows(cfg: Config, w: World, s: Step)
    ensures var w' := Next(cfg, w, s);
            && w.db.ledger <= w'.db.ledger && w.applied <= w'.applied
  {
    hide Verify, HasKey, RebillTaken;
  }

  /**
   Once an event key is in the ledger, its notification changes nothing ever
   again, whatever happened in between: in particular it undoes no cancellation.
   */
  lemma ReplayIsInert(cfg: Config, w: World, steps: seq<Step>, form: Form, id: int, now: int, writes: bool)
    requires HasKey(w.db.ledger, EventKey(form))
    ensures var db := After(cfg, w, steps).db;
            && HasKey(db.ledger, EventKey(form))
            && HandleFeedback(cfg, db, form, id, now, writes).0 == db
  {
    HistoryGrows(cfg, w, steps);
    var i :| 0 <= i < |w.db.ledger| && w.db.ledger[i].key == EventKey(form);
    assert After(cfg, w, steps).db.ledger[i] == w.db.ledger[i];
  }

  /** The step that puts `u` on a plan: an operator's, or a payment not applied before. */
  predicate PutsOnPlan(w: World, s: Step, u: UserId, applied: seq<string>)
  {
    match s
    case SetPlan(v, plan, _) => v == u && plan != UNSUBSCRIBED_PLAN
    case Grant(h) =>
      && h in w.handlers && w.handlers[h].Noted?
      && w.handlers[h].p.user == u && w.handlers[h].p.key !in applied
      && PaidUnder(w.db.ledger, w.handlers[h].p.key, w.handlers[h].p.billing)
    case _ => false
  }

  lemma OnlyThesePutOnPlan(cfg: Config, w: World, s: Step, u: UserId)
    requires Sound(w) && u in w.db.users && w.db.users[u] == UNSUBSCRIBED_PLAN
    ensures var w' := Next(cfg, w, s);
            && u in w'.db.users
            && (w'.db.users[u] != UNSUBSCRIBED_PLAN ==> PutsOnPlan(w, s, u, w.applied))
  {
    hide Verify, HasKey, RebillTaken, PlansAgree, KeysUnique, EntriesMatch, Provenance, Registrations, RebillsUnique,
      AppliedOnce, AllBought;
  }

  /**
   An account that has lost its plan gets one back only from the operator, or
   from a verified payment in the ledger that had not been turned into a plan
   before it lost it. A payment already applied never restores anything.
   */
  lemma {:induction false} PlanReturnsOnlyByUnappliedPayment(
      cfg: Config, w: World, steps: seq<Step>, u: UserId) returns (i: nat)
    requires Sound(w) && u in w.db.users && w.db.users[u] == UNSUBSCRIBED_PLAN
    ensures u in After(cfg, w, steps).db.users
    ensures After(cfg, w, steps).db.users[u] != UNSUBSCRIBED_PLAN ==>
              i < |steps| && PutsOnPlan(After(cfg, w, steps[..i]), steps[i], u, w.applied)
    decreases |steps|
  {
    i := 0;
    if steps != [] {
      var w1 := Next(cfg, w, steps[0]);
      OnlyThesePutOnPlan(cfg, w, steps[0], u);
      NextKeepsSound(cfg, w, steps[0]);
      NextGrows(cfg, w, steps[0]);
      hide Sound, Next;
      assert steps[..0] == [];
      if w1.db.users[u] != UNSUBSCRIBED_PLAN {
        UserStays(cfg, w1, steps[1..], u);
      } else {
        var j := PlanReturnsOnlyByUnappliedPayment(cfg, w1, steps[1..], u);
        i := j + 1;
        if j < |steps[1..]| {
          assert steps[..i][0] == steps[0] && steps[..i][1..] == steps[1..][..j];
          assert After(cfg, w, steps[..i]) == After(cfg, w1, steps[1..][..j]);
        }
      }
    }
  }

  /** Only signing up makes an account: a plan written for an unknown one is refused by the foreign key. */
  lemma OnlySigningUpAddsAccounts(cfg: Config, w: World, s: Step)
    ensures Next(cfg, w, s).db.users.Keys == w.db.users.Keys + if s.NewUser? then {s.user} else {}
  {
    hide Verify, HasKey, HasId, RebillTaken;
  }

  lemma {:induction false} UserStays(cfg: Config, w: World, steps: seq<Step>, u: UserId)
    requires u in w.db.users
    ensures u in After(cfg, w, steps).db.users
    decreases |steps|
  {
    if steps != [] {
      assert u in Next(cfg, w, steps[0]).db.users by {
        hide Verify, HasKey, RebillTaken;
      }
      hide Next;
      UserStays(cfg, Next(cfg, w, steps[0]), steps[1..], u);
    }
  }

  /**
   A record is never removed, keeps its account, plan and price, and its
   registration, first payment and cancellation are written once.
   */
  lemma {:induction false} TermsNeverChange(cfg: Config, w: World, steps: seq<Step>)
    requires Sound(w)
    ensures TermsKept(w.db.records, After(cfg, w, steps).db.records)
    decreases |steps|
  {
    if steps != [] {
      var w1 := Next(cfg, w, steps[0]);
      TermsAreKept(cfg, w, steps[0]);
      NextKeepsSound(cfg, w, steps[0]);
      hide Sound, Next;
      TermsNeverChange(cfg, w1, steps[1..]);
    }
  }

  // ---- records that never cost anything -----------------------------------------

  /** A record whose registration failed is never activated and never paid for. */
  lemma FailedRegistrationStaysUnpaid(cfg: Config, w: World, steps: seq<Step>, b: BillingId)
    requires Sound(w) && b in w.db.records && w.db.records[b].status.RegistrationFailed?
    ensures var w' := After(cfg, w, steps);
            && b in w'.db.records && w'.db.records[b].activatedAt == None && !HasPaid(w'.db.ledger, b)
  {
    UnregisteredStays(cfg, w, steps, b);
    RunKeepsSound(cfg, w, steps);
  }

  lemma {:induction false} UnregisteredStays(cfg: Config, w: World, steps: seq<Step>, b: BillingId)
    requires Sound(w) && Unregistered(w, b)
    ensures Unregistered(After(cfg, w, steps), b)
    decreases |steps|
  {
    if steps != [] {
      NextKeepsSound(cfg, w, steps[0]);
      NextUnregistered(cfg, w, steps[0], b);
      hide Sound, Next, Unregistered;
      UnregisteredStays(cfg, Next(cfg, w, steps[0]), steps[1..], b);
    }
  }

  lemma NextUnregistered(cfg: Config, w: World, s: Step, b: BillingId)
    requires Sound(w) && Unregistered(w, b)
    ensures Unregistered(Next(cfg, w, s), b)
  {
    hide Verify, HasKey, RebillTaken, PlansAgree, KeysUnique, EntriesMatch, Provenance, Registrations, RebillsUnique,
      AppliedOnce, InFlight;
  }

  // ---- conservation ---------------------------------------------------------------

  /** All-time revenue: every paid ledger row. */
  function AllTime(ledger: seq<Entry>): int
    decreases |ledger|
  {
    if ledger == [] then 0
    else
      var e := ledger[|ledger| - 1];
      AllTime(ledger[..|ledger| - 1]) + if e.payState == PAID then e.amount else 0
  }

  /** The distinct payments of one record. */
  function PaidKeys(ledger: seq<Entry>, b: BillingId): set<string>
  {
    set i | 0 <= i < |ledger| && ledger[i].billing == b && ledger[i].payState == PAID :: ledger[i].key
  }

  /** What each record brought in: its stored amount, once per payment. */
  function Takings(records: map<BillingId, Record>, ledger: seq<Entry>): map<BillingId, int>
  {
    map b | b in records :: records[b].amount * |PaidKeys(ledger, b)|
  }

  predicate EntriesOf(records: map<BillingId, Record>, ledger: seq<Entry>)
  {
    forall i :: 0 <= i < |ledger| ==> ledger[i].billing in records && ledger[i].amount == records[ledger[i].billing].amount
  }

  lemma {:induction false} TakingsAddUp(records: map<BillingId, Record>, ledger: seq<Entry>)
    requires EntriesOf(records, ledger) && KeysUnique(ledger)
    ensures AllTime(ledger) == SumMap(Takings(records, ledger))
    decreases |ledger|
  {
    if ledger == [] {
      forall b | b in records ensures Takings(records, ledger)[b] == 0 {
        assert PaidKeys(ledger, b) == {};
      }
      SumMapZero(Takings(records, ledger));
    } else {
      var n := |ledger| - 1;
      var before, e := ledger[..n], ledger[n];
      TakingsAddUp(records, before);
      TakingsGrow(records, ledger);
      SumMapUpdate(Takings(records, before), e.billing, Takings(records, ledger)[e.billing]);
    }
  }

  /** One more ledger row adds its amount to its record's takings if it is a payment, and nothing elsewhere. */
  lemma TakingsGrow(records: map<BillingId, Record>, ledger: seq<Entry>)
    requires ledger != [] && EntriesOf(records, ledger) && KeysUnique(ledger)
    ensures var n := |ledger| - 1;
            var (before, after, e) := (Takings(records, ledger[..n]), Takings(records, ledger), ledger[n]);
            && e.billing in before
            && after[e.billing] == before[e.billing] + (if e.payState == PAID then e.amount else 0)
            && after == before[e.billing := after[e.billing]]
  {
    hide PaidKeys, KeysUnique;
    var n := |ledger| - 1;
    forall b | b in records
      ensures Takings(records, ledger)[b] == Takings(records, ledger[..n])[b]
                + if b == ledger[n].billing && ledger[n].payState == PAID then ledger[n].amount else 0
    {
      TakingGrows(records[b].amount, ledger, b);
    }
  }

  lemma TakingGrows(amount: int, ledger: seq<Entry>, b: BillingId)
    requires ledger != [] && KeysUnique(ledger)
    ensures var n := |ledger| - 1;
            amount * |PaidKeys(ledger, b)| == amount * |PaidKeys(ledger[..n], b)|
              + if b == ledger[n].billing && ledger[n].payState == PAID then amount else 0
  {
    var before, e := ledger[..|ledger| - 1], ledger[|ledger| - 1];
    LastPayment(ledger, b);
    assert e.key !in PaidKeys(before, b);
    hide PaidKeys;
    OneMore(amount, |PaidKeys(before, b)|);
  }

  lemma OneMore(amount: int, n: nat)
    ensures amount * (n + 1) == amount * n + amount
  {
  }

  lemma LastPayment(ledger: seq<Entry>, b: BillingId)
    requires ledger != []
    ensures var n := |ledger| - 1;
            PaidKeys(ledger, b) == PaidKeys(ledger[..n], b)
              + if b == ledger[n].billing && ledger[n].payState == PAID then {ledger[n].key} else {}
  {
    var n := |ledger| - 1;
    forall k | k in PaidKeys(ledger[..n], b) ensures k in PaidKeys(ledger, b) {
      var i :| 0 <= i < n && ledger[..n][i].billing == b && ledger[..n][i].payState == PAID && ledger[..n][i].key == k;
      assert ledger[i].billing == b && ledger[i].payState == PAID && ledger[i].key == k;
    }
    forall k | k in PaidKeys(ledger, b)
      ensures k in PaidKeys(ledger[..n], b) || (b == ledger[n].billing && ledger[n].payState == PAID && k == ledger[n].key)
    {
      var i :| 0 <= i <= n && ledger[i].billing == b && ledger[i].payState == PAID && ledger[i].key == k;
      if i < n {
        assert ledger[..n][i] == ledger[i];
      }
    }
  }

  /**
   All-time revenue of any reachable ledger is the stored amount of each record
   times the number of distinct payments in it, and only activated records count.
   */
  lemma RevenueIsConserved(cfg: Config, sellable: set<PlanId>, steps: seq<Step>)
    ensures var db := After(cfg, Start(sellable), steps).db;
            && AllTime(db.ledger) == SumMap(Takings(db.records, db.ledger))
            && forall b :: b in db.records ==> (PaidKeys(db.ledger, b) != {} <==> db.records[b].activatedAt.Some?)
  {
    EveryRunIsSound(cfg, sellable, steps);
    var db := After(cfg, Start(sellable), steps).db;
    hide After;
    assert Provenance(db) && EntriesMatch(db) && KeysUnique(db.ledger);
    hide Sound, Provenance;
    TakingsAddUp(db.records, db.ledger);
    forall b | b in db.records ensures PaidKeys(db.ledger, b) != {} <==> HasPaid(db.ledger, b) {
      if i :| 0 <= i < |db.ledger| && db.ledger[i].billing == b && db.ledger[i].payState == PAID {
        assert db.ledger[i].key in PaidKeys(db.ledger, b);
      }
    }
  }
}
