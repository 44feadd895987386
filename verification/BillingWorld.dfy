/**
 Billing over every interleaving of checkouts, notifications, cancellations and
 operator changes. One notification is three steps here (check, note, grant),
 and a run may stop between any two of them.
 */
module BillingWorld {
  import opened Common
  import opened Billing

  /** A notification on its way through: verified, or verified and in the ledger. */
  datatype Handler = Checked(p: Payment) | Noted(p: Payment)

  /**
   `registering` are the checkouts waiting for the provider's answer. `applied`
   lists the event keys whose payment was turned into a plan; it records
   history only.
   */
  datatype World = World(
    db: Db, registering: set<BillingId>, handlers: map<HandlerId, Handler>, applied: seq<string>)

  datatype Step =
    | NewUser(user: UserId, plan: PlanId, active: bool)
    | Open(billing: BillingId, user: UserId, plan: PlanId, amount: int)
    | Attach(billing: BillingId, rebill: string)
    | RegistrationFails(billing: BillingId)
    | Check(handler: HandlerId, form: Form)
    | Note(handler: HandlerId, id: int, now: int)
    | Grant(handler: HandlerId)
    | Drop(handler: HandlerId)
    | Cancel(billing: BillingId, now: int)
    | SetPlan(user: UserId, plan: PlanId, active: bool)

  /** Ledger rows get fresh ids. */
  predicate HasId(ledger: seq<Entry>, id: int)
  {
    exists i :: 0 <= i < |ledger| && ledger[i].id == id
  }

  /** The provider's number is unique among records. */
  predicate RebillTaken(records: map<BillingId, Record>, rebill: string)
  {
    exists b :: b in records && records[b].rebill == Some(rebill)
  }

  function FailRegistration(w: World, b: BillingId): World
    requires b in w.db.records
  {
    w.(db := w.db.(records := w.db.records[b := w.db.records[b].(status := RegistrationFailed)]),
       registering := w.registering - {b})
  }

  /** A step that is not enabled leaves the world alone. */
  function Next(cfg: Config, w: World, s: Step): World
  {
    match s
    case NewUser(u, plan, active) =>
      if u in w.db.users then w
      else w.(db := w.db.(users := w.db.users[u := plan], subs := w.db.subs[u := Subscription(plan, active)]))
    case Open(b, u, plan, amount) =>
      if b in w.db.records || u !in w.db.users || plan !in w.db.sellable then w
      else w.(db := w.db.(records := w.db.records[b := Record(u, plan, None, Pending, amount, None, None)]),
              registering := w.registering + {b})
    case Attach(b, rebill) =>
      if b !in w.registering || b !in w.db.records then w
      else if RebillTaken(w.db.records, rebill) then FailRegistration(w, b)
      else w.(db := w.db.(records := w.db.records[b := w.db.records[b].(rebill := Some(rebill))]),
              registering := w.registering - {b})
    case RegistrationFails(b) =>
      if b !in w.registering || b !in w.db.records then w else FailRegistration(w, b)
    case Check(h, form) =>
      if h in w.handlers then w
      else (match Verify(cfg, w.db, form)
            case Refused(_) => w
            case Genuine(p) => w.(handlers := w.handlers[h := Checked(p)]))
    case Note(h, id, now) =>
      if h !in w.handlers || !w.handlers[h].Checked? || HasId(w.db.ledger, id) then w
      else
        var p := w.handlers[h].p;
        var (db, first) := RecordPayment(w.db, p, id, now);
        w.(db := db, handlers := if first && p.payState == PAID then w.handlers[h := Noted(p)] else w.handlers - {h})
    case Grant(h) =>
      if h !in w.handlers || !w.handlers[h].Noted? then w
      else
        var p := w.handlers[h].p;
        var (db, ok) := Activate(w.db, p.user, p.plan);
        World(db, w.registering, w.handlers - {h}, if ok then w.applied + [p.key] else w.applied)
    case Drop(h) => w.(handlers := w.handlers - {h})
    case Cancel(b, now) =>
      if b !in w.db.records then w else w.(db := CancelAndRevoke(w.db, b, now).0)
    case SetPlan(u, plan, active) => w.(db := WritePlan(w.db, u, plan, active))
  }

  function After(cfg: Config, w: World, steps: seq<Step>): World
    decreases |steps|
  {
    if steps == [] then w else After(cfg, Next(cfg, w, steps[0]), steps[1..])
  }

  function Start(sellable: set<PlanId>): World
  {
    World(Db(sellable, map[], map[], map[], []), {}, map[], [])
  }

  // ---- the invariant --------------------------------------------------------

  predicate PlansAgree(db: Db)
  {
    db.subs.Keys == db.users.Keys && forall u :: u in db.users ==> db.subs[u].plan == db.users[u]
  }

  /** The foreign key from a record to its account. */
  predicate OwnersExist(db: Db)
  {
    forall b :: b in db.records ==> db.records[b].user in db.users
  }

  predicate KeysUnique(ledger: seq<Entry>)
  {
    forall i, j :: 0 <= i < j < |ledger| ==> ledger[i].key != ledger[j].key
  }

  predicate IdsUnique(ledger: seq<Entry>)
  {
    forall i, j :: 0 <= i < j < |ledger| ==> ledger[i].id != ledger[j].id
  }

  /** Every ledger row is about a record we opened, its account and its stored amount. */
  predicate EntriesMatch(db: Db)
  {
    forall i :: 0 <= i < |db.ledger| ==>
      && db.ledger[i].billing in db.records
      && db.ledger[i].amount == db.records[db.ledger[i].billing].amount
      && db.ledger[i].user == db.records[db.ledger[i].billing].user
  }

  predicate Provenance(db: Db)
  {
    forall b :: b in db.records ==> (db.records[b].activatedAt.Some? <==> HasPaid(db.ledger, b))
  }

  /** The provider has nothing under this record: it cannot be paid for. */
  predicate Unregistered(w: World, b: BillingId)
  {
    && b in w.db.records && b !in w.registering
    && w.db.records[b].rebill == None && w.db.records[b].activatedAt == None
  }

  predicate Registrations(w: World)
  {
    && (forall b :: b in w.registering ==> b in w.db.records && w.db.records[b].rebill == None)
    && (forall b :: b in w.db.records && w.db.records[b].rebill == None ==> w.db.records[b].activatedAt == None)
    && (forall b :: b in w.db.records && w.db.records[b].status.RegistrationFailed? ==> Unregistered(w, b))
  }

  /** One provider registration belongs to one record. */
  predicate RebillsUnique(records: map<BillingId, Record>)
  {
    forall b, c :: b in records && c in records && b != c && records[b].rebill.Some? ==>
      records[b].rebill != records[c].rebill
  }

  predicate Bought(db: Db, p: Payment)
  {
    && p.billing in db.records
    && var record := db.records[p.billing];
    && record.rebill.Some? && record.user == p.user && record.plan == p.plan && record.amount == p.amount
  }

  predicate PaidUnder(ledger: seq<Entry>, key: string, b: BillingId)
  {
    exists i :: 0 <= i < |ledger| && ledger[i].key == key && ledger[i].billing == b && ledger[i].payState == PAID
  }

  /** Every payment in flight is for a record as it stands. */
  predicate AllBought(w: World)
  {
    forall h :: h in w.handlers ==> Bought(w.db, w.handlers[h].p)
  }

  /** Payments in the ledger and not yet a plan: none is on its way twice or already applied. */
  predicate InFlight(w: World)
  {
    && (forall h :: h in w.handlers && w.handlers[h].Noted? ==>
          && w.handlers[h].p.payState == PAID
          && PaidUnder(w.db.ledger, w.handlers[h].p.key, w.handlers[h].p.billing)
          && w.handlers[h].p.key !in w.applied)
    && (forall h, g :: h in w.handlers && g in w.handlers && h != g && w.handlers[h].Noted? && w.handlers[g].Noted? ==>
          w.handlers[h].p.key != w.handlers[g].p.key)
  }

  /** Every applied payment is a paid ledger row, and was applied once. */
  predicate AppliedOnce(w: World)
  {
    && (forall i :: 0 <= i < |w.applied| ==> HasKey(w.db.ledger, w.applied[i]))
    && (forall i, j :: 0 <= i < j < |w.applied| ==> w.applied[i] != w.applied[j])
  }

  predicate Sound(w: World)
  {
    && PlansAgree(w.db) && OwnersExist(w.db) && KeysUnique(w.db.ledger) && IdsUnique(w.db.ledger)
    && EntriesMatch(w.db) && Provenance(w.db)
    && Registrations(w) && RebillsUnique(w.db.records)
    && AllBought(w) && InFlight(w) && AppliedOnce(w)
  }

  /** The records of `a` with their terms, in `b`; a registration number and a date are only ever filled in. */
  predicate TermsKept(a: map<BillingId, Record>, b: map<BillingId, Record>)
  {
    forall k :: k in a ==> k in b && SameDeal(a[k], b[k])
  }

  predicate SameDeal(a: Record, b: Record)
  {
    && b.user == a.user && b.plan == a.plan && b.amount == a.amount
    && (a.rebill.Some? ==> b.rebill == a.rebill)
    && (a.activatedAt.Some? ==> b.activatedAt == a.activatedAt)
    && (a.cancelledAt.Some? ==> b.cancelledAt == a.cancelledAt)
  }

  lemma DealKept(cfg: Config, w: World, s: Step, k: BillingId)
    requires k in w.db.records && (k in w.registering ==> w.db.records[k].rebill == None)
    ensures k in Next(cfg, w, s).db.records && SameDeal(w.db.records[k], Next(cfg, w, s).db.records[k])
  {
    hide Verify, HasKey, RebillTaken;
  }

  lemma TermsAreKept(cfg: Config, w: World, s: Step)
    requires Registrations(w)
    ensures TermsKept(w.db.records, Next(cfg, w, s).db.records)
  {
    hide Next, SameDeal;
    forall k | k in w.db.records
      ensures k in Next(cfg, w, s).db.records && SameDeal(w.db.records[k], Next(cfg, w, s).db.records[k])
    {
      DealKept(cfg, w, s, k);
    }
  }

  lemma LedgerAppended(ledger: seq<Entry>, e: Entry)
    ensures forall b :: HasPaid(ledger + [e], b) <==> HasPaid(ledger, b) || (e.billing == b && e.payState == PAID)
    ensures forall key :: HasKey(ledger + [e], key) <==> HasKey(ledger, key) || e.key == key
    ensures forall key, b :: PaidUnder(ledger, key, b) ==> PaidUnder(ledger + [e], key, b)
    ensures e.payState == PAID ==> PaidUnder(ledger + [e], e.key, e.billing)
  {
    var longer := ledger + [e];
    assert longer[|ledger|] == e;
    forall b | HasPaid(ledger, b) ensures HasPaid(longer, b) {
      var i :| 0 <= i < |ledger| && ledger[i].billing == b && ledger[i].payState == PAID;
      assert longer[i] == ledger[i];
    }
    forall key | HasKey(ledger, key) ensures HasKey(longer, key) {
      var i :| 0 <= i < |ledger| && ledger[i].key == key;
      assert longer[i] == ledger[i];
    }
    forall key, b | PaidUnder(ledger, key, b) ensures PaidUnder(longer, key, b) {
      var i :| 0 <= i < |ledger| && ledger[i].key == key && ledger[i].billing == b && ledger[i].payState == PAID;
      assert longer[i] == ledger[i];
    }
  }

  lemma PlansKept(cfg: Config, w: World, s: Step)
    requires PlansAgree(w.db)
    ensures PlansAgree(Next(cfg, w, s).db)
  {
    hide Verify;
  }

  lemma OwnersKept(cfg: Config, w: World, s: Step)
    requires OwnersExist(w.db)
    ensures OwnersExist(Next(cfg, w, s).db)
  {
    hide Verify, HasKey, RebillTaken;
  }

  lemma LedgerKept(cfg: Config, w: World, s: Step)
    requires KeysUnique(w.db.ledger) && EntriesMatch(w.db) && AllBought(w)
    ensures KeysUnique(Next(cfg, w, s).db.ledger) && EntriesMatch(Next(cfg, w, s).db)
  {
    hide Verify;
    match s
    case Note(h, id, now) =>
      hide PaidUnder;
    case _ =>
  }

  lemma ProvenanceKept(cfg: Config, w: World, s: Step)
    requires Provenance(w.db) && EntriesMatch(w.db) && AllBought(w)
    ensures Provenance(Next(cfg, w, s).db)
  {
    hide Verify;
    match s
    case Note(h, id, now) =>
      if h in w.handlers {
        var p := w.handlers[h].p;
        LedgerAppended(w.db.ledger, Entry(id, p.key, p.billing, p.user, p.payState, p.amount, now));
      }
    case _ =>
  }

  lemma RegistrationKept(cfg: Config, w: World, s: Step, b: BillingId)
    requires Registrations(w) && AllBought(w)
    ensures var w' := Next(cfg, w, s);
            && (b in w'.registering ==> b in w'.db.records && w'.db.records[b].rebill == None)
            && (b in w'.db.records && w'.db.records[b].rebill == None ==> w'.db.records[b].activatedAt == None)
            && (b in w'.db.records && w'.db.records[b].status.RegistrationFailed? ==> Unregistered(w', b))
  {
    hide Verify, HasKey, RebillTaken;
    match s
    case Note(h, _, _) =>
      assert h in w.handlers ==> Bought(w.db, w.handlers[h].p);
      hide AllBought;
    case _ =>
      hide AllBought;
  }

  lemma RegistrationsKept(cfg: Config, w: World, s: Step)
    requires Registrations(w) && AllBought(w)
    ensures Registrations(Next(cfg, w, s))
  {
    hide Next, AllBought;
    var w' := Next(cfg, w, s);
    forall b | b in w'.registering ensures b in w'.db.records && w'.db.records[b].rebill == None {
      RegistrationKept(cfg, w, s, b);
    }
    forall b | b in w'.db.records
      ensures w'.db.records[b].rebill == None ==> w'.db.records[b].activatedAt == None
      ensures w'.db.records[b].status.RegistrationFailed? ==> Unregistered(w', b)
    {
      RegistrationKept(cfg, w, s, b);
    }
    hide Unregistered;
  }

  /** A record's number is the one it had, or none, or one just attached that no record had. */
  lemma RebillMoves(cfg: Config, w: World, s: Step, k: BillingId)
    requires k in Next(cfg, w, s).db.records
    ensures var (records, records') := (w.db.records, Next(cfg, w, s).db.records);
            || records'[k].rebill == None
            || (k in records && records'[k].rebill == records[k].rebill)
            || (s.Attach? && s.billing == k && records'[k].rebill == Some(s.rebill) && !RebillTaken(records, s.rebill))
  {
    hide Verify, HasKey, RebillTaken, HasId;
  }

  lemma RebillsKept(cfg: Config, w: World, s: Step)
    requires RebillsUnique(w.db.records)
    ensures RebillsUnique(Next(cfg, w, s).db.records)
  {
    var records' := Next(cfg, w, s).db.records;
    forall b, c | b in records' && c in records' && b != c && records'[b].rebill.Some?
      ensures records'[b].rebill != records'[c].rebill
    {
      RebillMoves(cfg, w, s, b);
      RebillMoves(cfg, w, s, c);
      hide Next;
    }
  }

  lemma IdsKept(cfg: Config, w: World, s: Step)
    requires IdsUnique(w.db.ledger)
    ensures IdsUnique(Next(cfg, w, s).db.ledger)
  {
    hide Verify, HasKey, RebillTaken;
  }

  lemma NoteInFlight(cfg: Config, w: World, h: HandlerId, id: int, now: int)
    requires InFlight(w) && AppliedOnce(w) && h in w.handlers && w.handlers[h].Checked?
    requires !HasKey(w.db.ledger, w.handlers[h].p.key)
    ensures InFlight(Next(cfg, w, Note(h, id, now)))
  {
    var p, w' := w.handlers[h].p, Next(cfg, w, Note(h, id, now));
    var e := Entry(id, p.key, p.billing, p.user, p.payState, p.amount, now);
    LedgerAppended(w.db.ledger, e);
    hide HasPaid;
    forall g | g in w.handlers && w.handlers[g].Noted? ensures w.handlers[g].p.key != p.key {
      assert PaidUnder(w.db.ledger, w.handlers[g].p.key, w.handlers[g].p.billing);
    }
    assert p.key !in w.applied;
  }

  lemma InFlightKept(cfg: Config, w: World, s: Step)
    requires InFlight(w) && AppliedOnce(w)
    ensures InFlight(Next(cfg, w, s))
  {
    if s.Note? && s.handler in w.handlers && w.handlers[s.handler].Checked?
      && !HasKey(w.db.ledger, w.handlers[s.handler].p.key) {
      NoteInFlight(cfg, w, s.handler, s.id, s.now);
    } else {
      HandlersMove(cfg, w, s);
    }
  }

  lemma HandlersMove(cfg: Config, w: World, s: Step)
    requires InFlight(w)
    requires s.Note? && s.handler in w.handlers && w.handlers[s.handler].Checked? ==>
               HasKey(w.db.ledger, w.handlers[s.handler].p.key)
    ensures InFlight(Next(cfg, w, s))
  {
    hide PaidUnder, HasKey, RebillTaken, Verify;
    assert Next(cfg, w, s).db.ledger == w.db.ledger;
  }

  lemma BoughtKept(cfg: Config, w: World, s: Step)
    requires AllBought(w) && Registrations(w)
    ensures AllBought(Next(cfg, w, s))
  {
    var w' := Next(cfg, w, s);
    TermsAreKept(cfg, w, s);
    forall h | h in w'.handlers ensures Bought(w'.db, w'.handlers[h].p) {
      PaymentMoves(cfg, w, s, h);
      hide Next;
    }
  }

  /** A handler's payment is the one it had, or was verified just now. */
  lemma PaymentMoves(cfg: Config, w: World, s: Step, h: HandlerId)
    requires h in Next(cfg, w, s).handlers
    ensures var w' := Next(cfg, w, s);
            && (h in w.handlers ==> w'.handlers[h].p == w.handlers[h].p)
            && (h !in w.handlers ==> Bought(w'.db, w'.handlers[h].p))
  {
    hide HasKey, RebillTaken, EventKey, Price, Field;
  }

  lemma AppliedKept(cfg: Config, w: World, s: Step)
    requires AppliedOnce(w) && InFlight(w)
    ensures AppliedOnce(Next(cfg, w, s))
  {
    hide Verify;
    match s
    case Note(h, id, now) =>
      if h in w.handlers {
        var p := w.handlers[h].p;
        LedgerAppended(w.db.ledger, Entry(id, p.key, p.billing, p.user, p.payState, p.amount, now));
      }
    case Grant(h) =>
      if h in w.handlers && w.handlers[h].Noted? {
        assert HasKey(w.db.ledger, w.handlers[h].p.key);
      }
    case _ =>
  }

  lemma NextKeepsSound(cfg: Config, w: World, s: Step)
    requires Sound(w)
    ensures Sound(Next(cfg, w, s))
  {
    hide Next, PlansAgree, OwnersExist, KeysUnique, IdsUnique, EntriesMatch, Provenance, Registrations, RebillsUnique,
      AllBought, InFlight, AppliedOnce;
    PlansKept(cfg, w, s);
    OwnersKept(cfg, w, s);
    LedgerKept(cfg, w, s);
    IdsKept(cfg, w, s);
    ProvenanceKept(cfg, w, s);
    RegistrationsKept(cfg, w, s);
    RebillsKept(cfg, w, s);
    BoughtKept(cfg, w, s);
    InFlightKept(cfg, w, s);
    AppliedKept(cfg, w, s);
  }
}
