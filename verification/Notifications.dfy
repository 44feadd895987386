/** What one notification is answered, and where every row of the ledger came from. */
module Notifications {
  import opened Common
  import opened Text
  import opened Billing
  import opened BillingWorld
  import opened BillingLaws

  /** Sent by someone who knows all three credentials. */
  predicate Authentic(cfg: Config, form: Form)
  {
    Field(form, "userid") == cfg.userid && Field(form, "linkkey") == cfg.linkkey && Field(form, "linkval") == cfg.linkval
  }

  /** About this record, at its price, under the registration attached to it. */
  predicate About(db: Db, form: Form, b: BillingId)
  {
    && b == Field(form, "var1") && b in db.records
    && Price(form) == db.records[b].amount
    && db.records[b].rebill == Some(Field(form, "rebill_no"))
  }

  /** The row a notification leaves in the ledger. */
  function EntryFor(db: Db, form: Form, b: BillingId, id: int, now: int): Entry
    requires b in db.records
  {
    Entry(id, EventKey(form), b, db.records[b].user, Field(form, "pay_state"), db.records[b].amount, now)
  }

  /** The states in which the provider says money came back out. */
  const REVERSALS: set<string> := {"9", "64", "70", "71"}

  /** The status the row leaves its record with. */
  predicate StatusFollows(before: Record, after: Record, payState: string, now: int)
  {
    && after.user == before.user && after.plan == before.plan && after.rebill == before.rebill
    && after.amount == before.amount && after.cancelledAt == before.cancelledAt
    && (payState == "4" ==> after.status.Active? && after.activatedAt == Some(if before.activatedAt.Some? then before.activatedAt.value else now))
    && (payState != "4" ==> after.activatedAt == before.activatedAt)
    && (payState in REVERSALS ==> after.status.PaymentFailed?)
    && (payState != "4" && payState !in REVERSALS ==> after == before)
  }

  /**
   Which refusal is given: the one for the first thing that is wrong. A
   notification that is refused so, or whose key is known, changes nothing.
   */
  lemma RefusedAtTheFirstFault(cfg: Config, db: Db, form: Form, id: int, now: int, writes: bool)
    ensures var (db', outcome) := HandleFeedback(cfg, db, form, id, now, writes);
            var b := Field(form, "var1");
            && (outcome == Rejected(BadCredentials) <==> !Authentic(cfg, form))
            && (outcome == Rejected(UnknownOrder) <==> Authentic(cfg, form) && b !in db.records)
            && (outcome == Rejected(WrongAmount) <==>
                 Authentic(cfg, form) && b in db.records && Price(form) != db.records[b].amount)
            && (outcome == Rejected(WrongRegistration) <==>
                 && Authentic(cfg, form) && b in db.records && Price(form) == db.records[b].amount
                 && db.records[b].rebill != Some(Field(form, "rebill_no")))
            && (outcome == AlreadyHandled <==> Authentic(cfg, form) && About(db, form, b) && HasKey(db.ledger, EventKey(form)))
            && (db' != db <==> Authentic(cfg, form) && About(db, form, b) && !HasKey(db.ledger, EventKey(form)))
  {
    hide Field, Price, EventKey;
    if Verify(cfg, db, form).Genuine? && !HasKey(db.ledger, EventKey(form)) {
      var p := Verify(cfg, db, form).payment;
      assert RecordPayment(db, p, id, now).0.ledger != db.ledger;
    }
  }

  /**
   What an accepted one does: one row in the ledger, the status of its own record,
   and the record's plan exactly if it is a payment, the plan is sold, and the
   second transaction gets through.
   */
  lemma AcceptedChangesExactly(cfg: Config, db: Db, form: Form, id: int, now: int, writes: bool)
    requires var b := Field(form, "var1");
             Authentic(cfg, form) && About(db, form, b) && !HasKey(db.ledger, EventKey(form))
    ensures var (db', outcome) := HandleFeedback(cfg, db, form, id, now, writes);
            var b := Field(form, "var1");
            var (u, plan, paid) := (db.records[b].user, db.records[b].plan, Field(form, "pay_state") == "4");
            && db'.ledger == db.ledger + [EntryFor(db, form, b, id, now)]
            && b in db'.records && db'.records - {b} == db.records - {b}
            && StatusFollows(db.records[b], db'.records[b], Field(form, "pay_state"), now)
            && (outcome == Recorded <==> !paid)
            && (outcome == Activated(plan) <==> paid && writes && plan in db.sellable && u in db.users)
            && (outcome.Activated? ==> db'.users == db.users[u := plan] && db'.subs == db.subs[u := Subscription(plan, true)])
            && (!outcome.Activated? ==> db'.users == db.users && db'.subs == db.subs)
  {
    hide Field, Price, EventKey, HasKey;
  }

  // ---- keys and fields -------------------------------------------------------------

  /** A field is read without the white space around it, and reads as empty if it is not there. */
  lemma FieldsAreTrimmed(form: Form, k: string, before: string, value: string, after: string)
    requires All(before, IsSpace) && All(after, IsSpace) && Trimmed(value)
    ensures Field(form[k := before + value + after], k) == value
    ensures k !in form ==> Field(form, k) == ""
  {
    StripsTheEnds(before, value, after, IsSpace);
  }

  /** A price is read through its commas; what is no number is no price anybody stored. */
  lemma PricesAreRead(form: Form, n: nat)
    ensures Without(Field(form, "price"), ',') == Decimal(n) && n <= I64_MAX ==> Price(form) == n
    ensures ParseI64(Without(Field(form, "price"), ',')).None? ==> Price(form) == -1
  {
    NumbersReadBack(n);
  }

  predicate NoColon(s: string)
  {
    ':' !in s
  }

  /**
   When two notifications count as the same event: under the provider's numbers,
   if the numbers are equal; without any, if they are the same state of the same
   record on the same date.
   */
  lemma SameEventExactly(f: Form, g: Form)
    requires NoColon(Field(f, "var1")) && NoColon(Field(f, "pay_state")) && NoColon(Field(f, "mul_no"))
    requires NoColon(Field(g, "var1")) && NoColon(Field(g, "pay_state")) && NoColon(Field(g, "mul_no"))
    ensures EventKey(f) == EventKey(g) <==>
              if Field(f, "mul_no") != "" || Field(g, "mul_no") != "" then Field(f, "mul_no") == Field(g, "mul_no")
              else && Field(f, "var1") == Field(g, "var1") && Field(f, "pay_state") == Field(g, "pay_state")
                   && Field(f, "pay_date") == Field(g, "pay_date")
  {
    var a, b, c := Field(f, "var1"), Field(f, "pay_state"), Field(f, "pay_date");
    var x, y, z := Field(g, "var1"), Field(g, "pay_state"), Field(g, "pay_date");
    hide Field;
    assert a + ":" + b + ":" + c == a + ":" + (b + ":" + c) && x + ":" + y + ":" + z == x + ":" + (y + ":" + z);
    assert (a + ":" + b + ":" + c)[|a|] == ':' && (x + ":" + y + ":" + z)[|x|] == ':';
    if EventKey(f) == EventKey(g) && Field(f, "mul_no") == "" && Field(g, "mul_no") == "" {
      CutAtColon(a, b + ":" + c, x, y + ":" + z);
      CutAtColon(b, c, y, z);
    }
  }

  lemma CutAtColon(a: string, b: string, x: string, y: string)
    requires NoColon(a) && NoColon(x) && a + ":" + b == x + ":" + y
    ensures a == x && b == y
  {
    var s := a + ":" + b;
    assert s[|a|] == ':' && s[|x|] == ':';
    assert forall i :: 0 <= i < |a| ==> s[i] == a[i];
    assert forall i :: 0 <= i < |x| ==> s[i] == x[i];
    assert |a| == |x|;
    assert s[..|a|] == a && s[..|x|] == x && s[|a| + 1..] == b && s[|x| + 1..] == y;
  }

  // ---- where ledger rows come from ------------------------------------------------------

  /** This step received, in this state, an authentic notification of exactly what the payment says. */
  predicate Received(cfg: Config, w: World, s: Step, key: string, b: BillingId, payState: string, amount: int)
  {
    && s.Check? && Authentic(cfg, s.form) && About(w.db, s.form, b)
    && key == EventKey(s.form) && payState == Field(s.form, "pay_state") && amount == Price(s.form)
  }

  ghost predicate WasReceived(cfg: Config, w: World, steps: seq<Step>, key: string, b: BillingId, payState: string, amount: int)
  {
    exists k :: 0 <= k < |steps| && Received(cfg, After(cfg, w, steps[..k]), steps[k], key, b, payState, amount)
  }

  ghost predicate AllReceived(cfg: Config, w: World, steps: seq<Step>)
  {
    var end := After(cfg, w, steps);
    && (forall i :: 0 <= i < |end.db.ledger| ==>
          var e := end.db.ledger[i]; WasReceived(cfg, w, steps, e.key, e.billing, e.payState, e.amount))
    && (forall h :: h in end.handlers ==>
          var p := end.handlers[h].p; WasReceived(cfg, w, steps, p.key, p.billing, p.payState, p.amount))
  }

  lemma StillReceived(cfg: Config, w: World, steps: seq<Step>, s: Step, key: string, b: BillingId, payState: string, amount: int)
    requires WasReceived(cfg, w, steps, key, b, payState, amount)
    ensures WasReceived(cfg, w, steps + [s], key, b, payState, amount)
  {
    hide After, Received;
    var k :| 0 <= k < |steps| && Received(cfg, After(cfg, w, steps[..k]), steps[k], key, b, payState, amount);
    assert (steps + [s])[..k] == steps[..k] && (steps + [s])[k] == steps[k];
  }

  /** A payment on its way was on its way before, or has just been received. */
  lemma HandlersReceived(cfg: Config, w: World, s: Step, h: HandlerId)
    requires h in Next(cfg, w, s).handlers
    ensures var p := Next(cfg, w, s).handlers[h].p;
            || (h in w.handlers && p == w.handlers[h].p)
            || Received(cfg, w, s, p.key, p.billing, p.payState, p.amount)
  {
    hide HasKey, RebillTaken, EventKey, Price, Field, HasId;
  }

  /** A new row of the ledger is a payment on its way. */
  lemma RowsWereOnTheirWay(cfg: Config, w: World, s: Step, i: nat)
    requires i < |Next(cfg, w, s).db.ledger|
    ensures var e := Next(cfg, w, s).db.ledger[i];
            || (i < |w.db.ledger| && e == w.db.ledger[i])
            || exists h :: h in w.handlers && w.handlers[h].p.key == e.key && w.handlers[h].p.billing == e.billing
                           && w.handlers[h].p.payState == e.payState && w.handlers[h].p.amount == e.amount
  {
    hide HasKey, RebillTaken, Verify, HasId;
  }

  lemma AfterOneMore(cfg: Config, w: World, steps: seq<Step>, s: Step)
    ensures After(cfg, w, steps + [s]) == Next(cfg, After(cfg, w, steps), s)
  {
    RunsJoin(cfg, w, steps, [s]);
    OneStepThen(cfg, After(cfg, w, steps), s, []);
    assert [s] + [] == [s];
    hide Next;
  }

  lemma HandlerReceived(cfg: Config, w: World, steps: seq<Step>, s: Step, h: HandlerId)
    requires AllReceived(cfg, w, steps) && h in After(cfg, w, steps + [s]).handlers
    ensures var p := After(cfg, w, steps + [s]).handlers[h].p;
            WasReceived(cfg, w, steps + [s], p.key, p.billing, p.payState, p.amount)
  {
    var before := After(cfg, w, steps);
    var p := After(cfg, w, steps + [s]).handlers[h].p;
    AfterOneMore(cfg, w, steps, s);
    hide After, Next, Received;
    HandlersReceived(cfg, before, s, h);
    if h in before.handlers && p == before.handlers[h].p {
      StillReceived(cfg, w, steps, s, p.key, p.billing, p.payState, p.amount);
    } else {
      assert (steps + [s])[..|steps|] == steps && (steps + [s])[|steps|] == s;
    }
  }

  lemma RowReceived(cfg: Config, w: World, steps: seq<Step>, s: Step, i: nat)
    requires AllReceived(cfg, w, steps) && i < |After(cfg, w, steps + [s]).db.ledger|
    ensures var e := After(cfg, w, steps + [s]).db.ledger[i];
            WasReceived(cfg, w, steps + [s], e.key, e.billing, e.payState, e.amount)
  {
    var e := After(cfg, w, steps + [s]).db.ledger[i];
    AfterOneMore(cfg, w, steps, s);
    hide After, Next, WasReceived;
    RowsWereOnTheirWay(cfg, After(cfg, w, steps), s, i);
    StillReceived(cfg, w, steps, s, e.key, e.billing, e.payState, e.amount);
  }

  lemma OneMoreReceived(cfg: Config, w: World, steps: seq<Step>, s: Step)
    requires AllReceived(cfg, w, steps)
    ensures AllReceived(cfg, w, steps + [s])
  {
    hide After, WasReceived;
    var end := After(cfg, w, steps + [s]);
    forall h | h in end.handlers
      ensures var p := end.handlers[h].p; WasReceived(cfg, w, steps + [s], p.key, p.billing, p.payState, p.amount)
    {
      HandlerReceived(cfg, w, steps, s, h);
    }
    forall i | 0 <= i < |end.db.ledger|
      ensures var e := end.db.ledger[i]; WasReceived(cfg, w, steps + [s], e.key, e.billing, e.payState, e.amount)
    {
      RowReceived(cfg, w, steps, s, i);
    }
  }

  /**
   In every run every row of the ledger was received: at some moment of it a
   notification with all three credentials named the record, its price, its
   registration and the state, under the row's key.
   */
  lemma {:induction false} LedgerRowsWereReceived(cfg: Config, sellable: set<PlanId>, steps: seq<Step>)
    ensures AllReceived(cfg, Start(sellable), steps)
    decreases |steps|
  {
    if steps != [] {
      var n := |steps| - 1;
      LedgerRowsWereReceived(cfg, sellable, steps[..n]);
      assert steps[..n] + [steps[n]] == steps;
      hide AllReceived;
      OneMoreReceived(cfg, Start(sellable), steps[..n], steps[n]);
    }
  }
}
