/** The revenue report: the payment ledger, grouped and split by first and later payments. */
module Revenue {
  import opened Common
  import opened Billing
  import opened BillingWorld
  import opened BillingLaws

  /** 0 is Sunday, as SQLite counts; 1 January 1970 was a Thursday. */
  function Weekday(day: int): int
  {
    (day + 4) % 7
  }

  /** `'weekday 1', '-7 days'`: forward to a Monday, if it is not one already, then back a week. */
  function WeekLabel(day: int): int
  {
    day + (1 - Weekday(day)) % 7 - 7
  }

  /** The Monday on or before a day. */
  function MondayOf(day: int): int
  {
    day - (Weekday(day) - 1) % 7
  }

  /**
   The weekly label is meant to be the Monday of that week. It is, except on
   Mondays: a payment made on a Monday is booked under the week before. The
   label is always a Monday at most a week back.
   */
  lemma WeekLabelExactly(day: int)
    ensures WeekLabel(day) == MondayOf(day) <==> Weekday(day) != 1
    ensures Weekday(day) == 1 ==> WeekLabel(day) == day - 7 && MondayOf(day) == day
    ensures Weekday(WeekLabel(day)) == 1 && day - 7 <= WeekLabel(day) < day
    ensures Weekday(MondayOf(day)) == 1 && day - 7 < MondayOf(day) <= day
  {
  }

  /** Sunday is 0 and follows Saturday; the first day counted was a Thursday. */
  lemma WeekdaysFollow(day: int)
    ensures Weekday(0) == 4 && Weekday(day + 1) == if Weekday(day) == 6 then 0 else Weekday(day) + 1
  {
  }

  /** What a report groups by; `month` numbers the months of the calendar. */
  datatype Grouping = Daily | Weekly | Monthly(month: int -> int) | ByPlan | ByRecord

  datatype Group = Period(start: int) | OfPlan(plan: PlanId) | PlanUnknown | OfRecord(billing: BillingId)

  function GroupOf(g: Grouping, records: map<BillingId, Record>, e: Entry): Group
  {
    match g
    case Daily => Period(LocalDay(e.processedAt))
    case Weekly => Period(WeekLabel(LocalDay(e.processedAt)))
    case Monthly(month) => Period(month(LocalDay(e.processedAt)))
    case ByPlan => if e.billing in records then OfPlan(records[e.billing].plan) else PlanUnknown
    case ByRecord => OfRecord(e.billing)
  }

  predicate PaymentOf(e: Entry, b: BillingId)
  {
    e.billing == b && e.payState == PAID
  }

  predicate Before(e: Entry, f: Entry)
  {
    e.processedAt < f.processedAt || (e.processedAt == f.processedAt && e.id < f.id)
  }

  /** `ORDER BY processed_at, id LIMIT 1` over the payments of one record. */
  function FirstPayment(ledger: seq<Entry>, b: BillingId): Option<Entry>
    decreases |ledger|
  {
    if ledger == [] then None
    else
      var e := ledger[|ledger| - 1];
      var first := FirstPayment(ledger[..|ledger| - 1], b);
      if PaymentOf(e, b) && (first.None? || Before(e, first.value)) then Some(e) else first
  }

  predicate IsFirst(ledger: seq<Entry>, e: Entry)
  {
    var first := FirstPayment(ledger, e.billing);
    first.Some? && first.value.id == e.id
  }

  datatype Measure = Krw | Payments | NewKrw | RenewalKrw | NewPayments

  function Weigh(m: Measure, ledger: seq<Entry>, e: Entry): int
  {
    match m
    case Krw => e.amount
    case Payments => 1
    case NewKrw => if IsFirst(ledger, e) then e.amount else 0
    case RenewalKrw => if IsFirst(ledger, e) then 0 else e.amount
    case NewPayments => if IsFirst(ledger, e) then 1 else 0
  }

  /** The paid rows of a range of days, both ends included. */
  function PaidIn(ledger: seq<Entry>, from: int, to: int): seq<Entry>
    decreases |ledger|
  {
    if ledger == [] then []
    else
      var e := ledger[|ledger| - 1];
      PaidIn(ledger[..|ledger| - 1], from, to)
        + if e.payState == PAID && from <= LocalDay(e.processedAt) <= to then [e] else []
  }

  function Total(m: Measure, ledger: seq<Entry>, rows: seq<Entry>): int
    decreases |rows|
  {
    if rows == [] then 0
    else Total(m, ledger, rows[..|rows| - 1]) + Weigh(m, ledger, rows[|rows| - 1])
  }

  function GroupTotal(m: Measure, db: Db, rows: seq<Entry>, g: Grouping, k: Group): int
    decreases |rows|
  {
    if rows == [] then 0
    else
      var e := rows[|rows| - 1];
      GroupTotal(m, db, rows[..|rows| - 1], g, k)
        + if GroupOf(g, db.records, e) == k then Weigh(m, db.ledger, e) else 0
  }

  function Groups(db: Db, rows: seq<Entry>, g: Grouping): set<Group>
  {
    set i | 0 <= i < |rows| :: GroupOf(g, db.records, rows[i])
  }

  /** One column of the report: a total per group that has rows. */
  function Column(m: Measure, db: Db, rows: seq<Entry>, g: Grouping): map<Group, int>
  {
    map k | k in Groups(db, rows, g) :: GroupTotal(m, db, rows, g, k)
  }

  datatype Bucket = Bucket(krw: int, payments: int, newKrw: int, renewalKrw: int)

  function RevenueReport(db: Db, from: int, to: int, g: Grouping): map<Group, Bucket>
  {
    var rows := PaidIn(db.ledger, from, to);
    map k | k in Groups(db, rows, g) ::
      Bucket(
        GroupTotal(Krw, db, rows, g, k),
        GroupTotal(Payments, db, rows, g, k),
        GroupTotal(NewKrw, db, rows, g, k),
        GroupTotal(RenewalKrw, db, rows, g, k))
  }

  /** The range total, read by its own query. */
  function PaidBetween(ledger: seq<Entry>, from: int, to: int): int
    decreases |ledger|
  {
    if ledger == [] then 0
    else
      var e := ledger[|ledger| - 1];
      PaidBetween(ledger[..|ledger| - 1], from, to)
        + if e.payState == PAID && from <= LocalDay(e.processedAt) <= to then e.amount else 0
  }

  // ---- grouping loses nothing ---------------------------------------------------

  lemma GroupsGrow(db: Db, rows: seq<Entry>, g: Grouping)
    requires rows != []
    ensures var n := |rows| - 1;
            Groups(db, rows, g) == Groups(db, rows[..n], g) + {GroupOf(g, db.records, rows[n])}
  {
    var n := |rows| - 1;
    forall k | k in Groups(db, rows, g)
      ensures k in Groups(db, rows[..n], g) || k == GroupOf(g, db.records, rows[n])
    {
      var i :| 0 <= i <= n && GroupOf(g, db.records, rows[i]) == k;
      if i < n {
        assert rows[..n][i] == rows[i];
      }
    }
    forall k | k in Groups(db, rows[..n], g) ensures k in Groups(db, rows, g) {
      var i :| 0 <= i < n && GroupOf(g, db.records, rows[..n][i]) == k;
      assert rows[i] == rows[..n][i];
    }
  }

  lemma {:induction false} NoRowsNoTotal(m: Measure, db: Db, rows: seq<Entry>, g: Grouping, k: Group)
    requires k !in Groups(db, rows, g)
    ensures GroupTotal(m, db, rows, g, k) == 0
    decreases |rows|
  {
    if rows != [] {
      GroupsGrow(db, rows, g);
      hide Groups;
      NoRowsNoTotal(m, db, rows[..|rows| - 1], g, k);
    }
  }

  lemma GroupTotalGrows(m: Measure, db: Db, rows: seq<Entry>, last: Entry, g: Grouping, k: Group)
    ensures GroupTotal(m, db, rows + [last], g, k) ==
              GroupTotal(m, db, rows, g, k) + if GroupOf(g, db.records, last) == k then Weigh(m, db.ledger, last) else 0
  {
    hide Weigh, GroupOf;
    assert (rows + [last])[..|rows|] == rows;
  }

  /** One more row changes the total of its own group, by its weight. */
  lemma ColumnGrows(m: Measure, db: Db, rows: seq<Entry>, last: Entry, g: Grouping, k: Group)
    requires k == GroupOf(g, db.records, last)
    ensures k in Column(m, db, rows + [last], g)
    ensures Column(m, db, rows + [last], g) ==
              Column(m, db, rows, g)[k := Lookup(Column(m, db, rows, g), k, 0) + Weigh(m, db.ledger, last)]
  {
    hide Weigh, GroupOf, GroupTotal, Groups;
    var longer := rows + [last];
    assert longer[..|longer| - 1] == rows && longer[|longer| - 1] == last;
    GroupsGrow(db, longer, g);
    assert Groups(db, longer, g) == Groups(db, rows, g) + {k};
    if k !in Groups(db, rows, g) {
      NoRowsNoTotal(m, db, rows, g, k);
    }
    forall c | c in Groups(db, longer, g)
      ensures Column(m, db, longer, g)[c] == if c == k then Lookup(Column(m, db, rows, g), k, 0) + Weigh(m, db.ledger, last)
                                             else Column(m, db, rows, g)[c]
    {
      GroupTotalGrows(m, db, rows, last, g, c);
    }
  }

  /** Whatever the grouping and the measure, the groups add up to the whole. */
  lemma {:induction false} GroupsAddUp(m: Measure, db: Db, rows: seq<Entry>, g: Grouping)
    ensures SumMap(Column(m, db, rows, g)) == Total(m, db.ledger, rows)
    decreases |rows|
  {
    if rows == [] {
      assert Column(m, db, rows, g) == map[];
    } else {
      var n := |rows| - 1;
      var k := GroupOf(g, db.records, rows[n]);
      GroupsAddUp(m, db, rows[..n], g);
      ColumnGrows(m, db, rows[..n], rows[n], g, k);
      assert rows[..n] + [rows[n]] == rows;
      hide Column, Weigh, GroupOf;
      SumMapUpdate(Column(m, db, rows[..n], g), k, Column(m, db, rows, g)[k]);
    }
  }

  lemma {:induction false} RangeTotal(ledger: seq<Entry>, all: seq<Entry>, from: int, to: int)
    ensures Total(Krw, all, PaidIn(ledger, from, to)) == PaidBetween(ledger, from, to)
    decreases |ledger|
  {
    if ledger != [] {
      var n := |ledger| - 1;
      RangeTotal(ledger[..n], all, from, to);
      var rest := PaidIn(ledger[..n], from, to);
      assert (rest + [ledger[n]])[..|rest|] == rest;
      assert rest + [] == rest;
    }
  }

  lemma {:induction false} CountsAreLengths(ledger: seq<Entry>, rows: seq<Entry>)
    ensures Total(Payments, ledger, rows) == |rows|
    decreases |rows|
  {
    if rows != [] {
      CountsAreLengths(ledger, rows[..|rows| - 1]);
    }
  }

  lemma {:induction false} NewPlusRenewal(db: Db, rows: seq<Entry>, g: Grouping, k: Group)
    ensures GroupTotal(Krw, db, rows, g, k) == GroupTotal(NewKrw, db, rows, g, k) + GroupTotal(RenewalKrw, db, rows, g, k)
    decreases |rows|
  {
    if rows != [] {
      NewPlusRenewal(db, rows[..|rows| - 1], g, k);
    }
  }

  /** The won column of a report, and its payment count. */
  function KrwOf(report: map<Group, Bucket>): map<Group, int>
  {
    map k | k in report :: report[k].krw
  }

  function PaymentsOf(report: map<Group, Bucket>): map<Group, int>
  {
    map k | k in report :: report[k].payments
  }

  /**
   For any ledger, range and grouping, by period or by plan, the buckets add up
   to the total of the range and to its number of payments, and every bucket is
   its new money plus its renewals.
   */
  lemma ReportConservesRevenue(db: Db, from: int, to: int, g: Grouping)
    ensures var report := RevenueReport(db, from, to, g);
            && SumMap(KrwOf(report)) == PaidBetween(db.ledger, from, to)
            && SumMap(PaymentsOf(report)) == |PaidIn(db.ledger, from, to)|
            && forall k :: k in report ==> report[k].krw == report[k].newKrw + report[k].renewalKrw
  {
    var rows := PaidIn(db.ledger, from, to);
    var report := RevenueReport(db, from, to, g);
    assert KrwOf(report) == Column(Krw, db, rows, g);
    assert PaymentsOf(report) == Column(Payments, db, rows, g);
    GroupsAddUp(Krw, db, rows, g);
    GroupsAddUp(Payments, db, rows, g);
    RangeTotal(db.ledger, db.ledger, from, to);
    CountsAreLengths(db.ledger, rows);
    forall k | k in report ensures report[k].krw == report[k].newKrw + report[k].renewalKrw {
      NewPlusRenewal(db, rows, g, k);
    }
  }

  /** Adjacent ranges add up, so daily, monthly and yearly totals of the same days agree. */
  lemma {:induction false} RangesJoin(ledger: seq<Entry>, from: int, mid: int, to: int)
    requires from <= mid <= to
    ensures PaidBetween(ledger, from, to) == PaidBetween(ledger, from, mid) + PaidBetween(ledger, mid + 1, to)
    decreases |ledger|
  {
    if ledger != [] {
      RangesJoin(ledger[..|ledger| - 1], from, mid, to);
    }
  }

  // ---- what one bucket holds ---------------------------------------------------------

  function Min(a: int, b: int): int
  {
    if a < b then a else b
  }

  /** What a grouping by time calls the group of one day. */
  function NameOf(g: Grouping, day: int): int
    requires g.Daily? || g.Weekly? || g.Monthly?
  {
    match g
    case Daily => day
    case Weekly => WeekLabel(day)
    case Monthly(month) => month(day)
  }

  lemma {:induction false} PeriodTotal(db: Db, ledger: seq<Entry>, from: int, to: int, g: Grouping, name: int, a: int, b: int)
    requires g.Daily? || g.Weekly? || g.Monthly?
    requires forall day :: NameOf(g, day) == name <==> a <= day <= b
    ensures GroupTotal(Krw, db, PaidIn(ledger, from, to), g, Period(name)) == PaidBetween(ledger, Max(from, a), Min(to, b))
    ensures GroupTotal(Payments, db, PaidIn(ledger, from, to), g, Period(name)) == |PaidIn(ledger, Max(from, a), Min(to, b))|
    ensures Period(name) in Groups(db, PaidIn(ledger, from, to), g) <==> PaidIn(ledger, Max(from, a), Min(to, b)) != []
    decreases |ledger|
  {
    if ledger != [] {
      var n := |ledger| - 1;
      var e, before := ledger[n], PaidIn(ledger[..n], from, to);
      PeriodTotal(db, ledger[..n], from, to, g, name, a, b);
      assert NameOf(g, LocalDay(e.processedAt)) == name <==> a <= LocalDay(e.processedAt) <= b;
      OneMorePaid(db, before, e, g, name);
      OneMoreInRange(ledger, from, to);
      OneMoreInRange(ledger, Max(from, a), Min(to, b));
      hide GroupTotal, Groups, NameOf, LocalDay, PaidIn, PaidBetween;
    }
  }

  /** The last row of a ledger, in a range or not. */
  lemma OneMoreInRange(ledger: seq<Entry>, from: int, to: int)
    requires ledger != []
    ensures var (n, e) := (|ledger| - 1, ledger[|ledger| - 1]);
            var counts := e.payState == PAID && from <= LocalDay(e.processedAt) <= to;
            && PaidIn(ledger, from, to) == (if counts then PaidIn(ledger[..n], from, to) + [e] else PaidIn(ledger[..n], from, to))
            && PaidBetween(ledger, from, to) == PaidBetween(ledger[..n], from, to) + if counts then e.amount else 0
  {
  }

  lemma OneMorePaid(db: Db, rows: seq<Entry>, e: Entry, g: Grouping, name: int)
    requires g.Daily? || g.Weekly? || g.Monthly?
    ensures var mine := NameOf(g, LocalDay(e.processedAt)) == name;
            && GroupTotal(Krw, db, rows + [e], g, Period(name)) == GroupTotal(Krw, db, rows, g, Period(name)) + (if mine then e.amount else 0)
            && GroupTotal(Payments, db, rows + [e], g, Period(name)) == GroupTotal(Payments, db, rows, g, Period(name)) + (if mine then 1 else 0)
            && (Period(name) in Groups(db, rows + [e], g) <==> Period(name) in Groups(db, rows, g) || mine)
  {
    GroupTotalGrows(Krw, db, rows, e, g, Period(name));
    GroupTotalGrows(Payments, db, rows, e, g, Period(name));
    GroupsGrow(db, rows + [e], g);
    assert (rows + [e])[..|rows|] == rows;
    hide GroupTotal, Groups, LocalDay, WeekLabel;
  }

  /**
   A bucket of the report holds exactly the payments of its days that are in the
   range: its own day, the month's, and for a week the seven after the day it is called by.
   */
  lemma BucketHoldsItsDays(db: Db, from: int, to: int, g: Grouping, name: int, a: int, b: int)
    requires g.Daily? || g.Weekly? || g.Monthly?
    requires match g
             case Daily => a == name == b
             case Weekly => Weekday(name) == 1 && a == name + 1 && b == name + 7
             case Monthly(month) => forall day :: month(day) == name <==> a <= day <= b
    ensures var report := RevenueReport(db, from, to, g);
            var (first, last) := (Max(from, a), Min(to, b));
            && (Period(name) in report <==> PaidIn(db.ledger, first, last) != [])
            && (Period(name) in report ==>
                 && report[Period(name)].krw == PaidBetween(db.ledger, first, last)
                 && report[Period(name)].payments == |PaidIn(db.ledger, first, last)|)
  {
    forall day ensures NameOf(g, day) == name <==> a <= day <= b {
      if g.Weekly? {
        WeekOfMonday(day, name);
      }
    }
    PeriodTotal(db, db.ledger, from, to, g, name, a, b);
  }

  lemma WeekOfMonday(day: int, monday: int)
    requires Weekday(monday) == 1
    ensures WeekLabel(day) == monday <==> monday < day <= monday + 7
  {
    WeekLabelExactly(day);
    if monday < day <= monday + 7 {
      var d := WeekLabel(day) - monday;
      assert -7 < d < 7 && (WeekLabel(day) + 4) % 7 == (monday + 4) % 7;
      SameDayOfWeek(WeekLabel(day), monday);
    }
  }

  lemma SameDayOfWeek(x: int, y: int)
    requires (x + 4) % 7 == (y + 4) % 7 && -7 < x - y < 7
    ensures x == y
  {
  }

  /** The totals by record, of the records of one plan. */
  function RecordsOfPlan(m: Measure, db: Db, rows: seq<Entry>, p: PlanId): map<BillingId, int>
  {
    map b | b in db.records && db.records[b].plan == p :: GroupTotal(m, db, rows, ByRecord, OfRecord(b))
  }

  lemma RecordsOfPlanGrow(m: Measure, db: Db, rows: seq<Entry>, e: Entry, p: PlanId)
    ensures SumMap(RecordsOfPlan(m, db, rows + [e], p)) == SumMap(RecordsOfPlan(m, db, rows, p))
      + if e.billing in db.records && db.records[e.billing].plan == p then Weigh(m, db.ledger, e) else 0
  {
    forall b ensures GroupTotal(m, db, rows + [e], ByRecord, OfRecord(b)) ==
        GroupTotal(m, db, rows, ByRecord, OfRecord(b)) + if b == e.billing then Weigh(m, db.ledger, e) else 0
    {
      GroupTotalGrows(m, db, rows, e, ByRecord, OfRecord(b));
    }
    hide GroupTotal, Weigh;
    var was, now := RecordsOfPlan(m, db, rows, p), RecordsOfPlan(m, db, rows + [e], p);
    if e.billing in was {
      assert now == was[e.billing := now[e.billing]];
      SumMapUpdate(was, e.billing, now[e.billing]);
    } else {
      assert now == was;
    }
  }

  /** A plan's total is the sum over the records that bought it. */
  lemma {:induction false} PlanIsItsRecords(m: Measure, db: Db, rows: seq<Entry>, p: PlanId)
    ensures GroupTotal(m, db, rows, ByPlan, OfPlan(p)) == SumMap(RecordsOfPlan(m, db, rows, p))
    decreases |rows|
  {
    if rows == [] {
      SumMapZero(RecordsOfPlan(m, db, rows, p));
    } else {
      var n := |rows| - 1;
      PlanIsItsRecords(m, db, rows[..n], p);
      hide RecordsOfPlan, Weigh;
      assert rows[..n] + [rows[n]] == rows;
      GroupTotalGrows(m, db, rows[..n], rows[n], ByPlan, OfPlan(p));
      RecordsOfPlanGrow(m, db, rows[..n], rows[n], p);
      hide GroupTotal;
    }
  }

  // ---- first payments --------------------------------------------------------------

  lemma {:induction false} FirstPaymentIsEarliest(ledger: seq<Entry>, b: BillingId)
    ensures FirstPayment(ledger, b).Some? <==> HasPaid(ledger, b)
    ensures FirstPayment(ledger, b).Some? ==>
              && FirstPayment(ledger, b).value in ledger && PaymentOf(FirstPayment(ledger, b).value, b)
              && forall i :: 0 <= i < |ledger| && PaymentOf(ledger[i], b) ==>
                   var first := FirstPayment(ledger, b).value;
                   first.processedAt < ledger[i].processedAt || (first.processedAt == ledger[i].processedAt && first.id <= ledger[i].id)
    decreases |ledger|
  {
    if ledger != [] {
      var n := |ledger| - 1;
      FirstPaymentIsEarliest(ledger[..n], b);
      LedgerAppended(ledger[..n], ledger[n]);
      assert ledger == ledger[..n] + [ledger[n]];
      forall i | 0 <= i < n && PaymentOf(ledger[i], b) ensures PaymentOf(ledger[..n][i], b) && ledger[..n][i] == ledger[i] {
      }
    }
  }

  function AllPaid(ledger: seq<Entry>): seq<Entry>
    decreases |ledger|
  {
    if ledger == [] then []
    else
      var e := ledger[|ledger| - 1];
      AllPaid(ledger[..|ledger| - 1]) + if e.payState == PAID then [e] else []
  }

  /** A range that covers the ledger reports all of it. */
  lemma {:induction false} WholeRange(ledger: seq<Entry>, from: int, to: int)
    requires forall i :: 0 <= i < |ledger| ==> from <= LocalDay(ledger[i].processedAt) <= to
    ensures PaidIn(ledger, from, to) == AllPaid(ledger)
    ensures PaidBetween(ledger, from, to) == AllTime(ledger)
    decreases |ledger|
  {
    if ledger != [] {
      WholeRange(ledger[..|ledger| - 1], from, to);
    }
  }

  /** Among the rows up to `n`, a record has one first payment if its first payment, row `i`, is among them. */
  lemma {:induction false} OneFirstEach(db: Db, n: nat, b: BillingId, i: nat)
    requires n <= |db.ledger| && i < |db.ledger| && IdsUnique(db.ledger)
    requires FirstPayment(db.ledger, b) == Some(db.ledger[i])
    ensures GroupTotal(NewPayments, db, AllPaid(db.ledger[..n]), ByRecord, OfRecord(b)) == (if i < n then 1 else 0)
    ensures GroupTotal(NewKrw, db, AllPaid(db.ledger[..n]), ByRecord, OfRecord(b)) ==
              (if i < n then db.ledger[i].amount else 0)
    decreases n
  {
    hide AllPaid, IdsUnique, FirstPayment, Weigh, GroupOf, GroupTotal;
    if n == 0 {
      NothingPaid(NewPayments, db, db.ledger[..n], ByRecord, OfRecord(b));
      NothingPaid(NewKrw, db, db.ledger[..n], ByRecord, OfRecord(b));
    } else {
      OneFirstEach(db, n - 1, b, i);
      RowWeighs(db, b, i, n - 1);
      PaidGroupGrows(NewPayments, db, n, ByRecord, OfRecord(b));
      PaidGroupGrows(NewKrw, db, n, ByRecord, OfRecord(b));
    }
  }

  lemma NothingPaid(m: Measure, db: Db, none: seq<Entry>, g: Grouping, k: Group)
    requires none == []
    ensures GroupTotal(m, db, AllPaid(none), g, k) == 0
  {
  }

  /** One more ledger row adds its weight to its group if it is a payment. */
  lemma PaidGroupGrows(m: Measure, db: Db, n: nat, g: Grouping, k: Group)
    requires 0 < n <= |db.ledger|
    ensures var e := db.ledger[n - 1];
            GroupTotal(m, db, AllPaid(db.ledger[..n]), g, k) ==
            GroupTotal(m, db, AllPaid(db.ledger[..n - 1]), g, k)
              + if e.payState == PAID && GroupOf(g, db.records, e) == k then Weigh(m, db.ledger, e) else 0
  {
    hide Weigh, GroupOf;
    var upTo, e := db.ledger[..n], db.ledger[n - 1];
    assert upTo[..n - 1] == db.ledger[..n - 1] && upTo[n - 1] == e;
    AllPaidGrows(upTo);
    var rest := AllPaid(db.ledger[..n - 1]);
    hide AllPaid;
    if e.payState == PAID {
      GroupTotalGrows(m, db, rest, e, g, k);
    } else {
      assert rest + [] == rest;
    }
  }

  /** A row counts as its record's first payment exactly when it is that payment. */
  lemma RowWeighs(db: Db, b: BillingId, i: nat, j: nat)
    requires i < |db.ledger| && j < |db.ledger| && IdsUnique(db.ledger)
    requires FirstPayment(db.ledger, b) == Some(db.ledger[i])
    ensures i == j ==> db.ledger[j].payState == PAID && GroupOf(ByRecord, db.records, db.ledger[j]) == OfRecord(b)
    ensures GroupOf(ByRecord, db.records, db.ledger[j]) == OfRecord(b) ==>
              && Weigh(NewPayments, db.ledger, db.ledger[j]) == (if i == j then 1 else 0)
              && Weigh(NewKrw, db.ledger, db.ledger[j]) == (if i == j then db.ledger[j].amount else 0)
  {
    FirstPaymentIsEarliest(db.ledger, b);
    hide FirstPayment, HasPaid;
  }

  /** The records that were ever activated. */
  function Activated(db: Db): set<BillingId>
  {
    set b | b in db.records && db.records[b].activatedAt.Some?
  }

  /** What the activated records were first charged. */
  function FirstCharges(db: Db): map<BillingId, int>
  {
    map b | b in Activated(db) :: db.records[b].amount
  }

  lemma AllPaidGrows(ledger: seq<Entry>)
    requires ledger != []
    ensures var n := |ledger| - 1;
            AllPaid(ledger) == AllPaid(ledger[..n]) + if ledger[n].payState == PAID then [ledger[n]] else []
  {
  }

  lemma GroupsAppend(db: Db, rows: seq<Entry>, e: Entry, g: Grouping)
    ensures Groups(db, rows + [e], g) == Groups(db, rows, g) + {GroupOf(g, db.records, e)}
  {
    assert (rows + [e])[..|rows|] == rows;
    GroupsGrow(db, rows + [e], g);
    hide Groups, GroupOf;
  }

  /** One more payment adds its record to the groups; any other row adds none. */
  lemma PaidGroupsGrow(db: Db, before: seq<Entry>, e: Entry)
    ensures Groups(db, AllPaid(before + [e]), ByRecord) ==
              Groups(db, AllPaid(before), ByRecord) + if e.payState == PAID then {OfRecord(e.billing)} else {}
  {
    hide Groups;
    assert (before + [e])[..|before|] == before;
    AllPaidGrows(before + [e]);
    hide AllPaid;
    if e.payState == PAID {
      GroupsAppend(db, AllPaid(before), e, ByRecord);
    } else {
      assert AllPaid(before) + [] == AllPaid(before);
    }
  }

  lemma {:induction false} PaidGroups(db: Db, ledger: seq<Entry>, k: Group)
    ensures k in Groups(db, AllPaid(ledger), ByRecord) <==> k.OfRecord? && HasPaid(ledger, k.billing)
    decreases |ledger|
  {
    if ledger == [] {
      assert AllPaid(ledger) == [];
    } else {
      hide AllPaid, HasPaid, Groups;
      var before, e := ledger[..|ledger| - 1], ledger[|ledger| - 1];
      assert ledger == before + [e];
      PaidGroups(db, before, k);
      PaidGroupsGrow(db, before, e);
      LedgerAppended(before, e);
    }
  }

  lemma RecordGroup(db: Db, b: BillingId)
    requires Provenance(db) && EntriesMatch(db) && IdsUnique(db.ledger) && b in Activated(db)
    ensures GroupTotal(NewPayments, db, AllPaid(db.ledger), ByRecord, OfRecord(b)) == 1
    ensures GroupTotal(NewKrw, db, AllPaid(db.ledger), ByRecord, OfRecord(b)) == db.records[b].amount
  {
    FirstPaymentIsEarliest(db.ledger, b);
    var i :| 0 <= i < |db.ledger| && db.ledger[i] == FirstPayment(db.ledger, b).value;
    OneFirstEach(db, |db.ledger|, b, i);
    assert db.ledger[..|db.ledger|] == db.ledger;
  }

  /**
   Over all time, the "first" payments are one per record ever activated, and
   the new money is what those records were first charged.
   */
  lemma FirstsAreActivations(db: Db)
    requires Provenance(db) && EntriesMatch(db) && IdsUnique(db.ledger)
    ensures Total(NewPayments, db.ledger, AllPaid(db.ledger)) == |Activated(db)|
    ensures Total(NewKrw, db.ledger, AllPaid(db.ledger)) == SumMap(FirstCharges(db))
  {
    var rows := AllPaid(db.ledger);
    GroupsAddUp(NewPayments, db, rows, ByRecord);
    GroupsAddUp(NewKrw, db, rows, ByRecord);
    var ones := map b | b in Activated(db) :: 1;
    forall k ensures k in Groups(db, rows, ByRecord) <==> k.OfRecord? && k.billing in Activated(db) {
      PaidGroups(db, db.ledger, k);
      if k in Groups(db, rows, ByRecord) {
        PaidIsRecorded(db, k.billing);
      }
    }
    forall b | b in Activated(db)
      ensures Column(NewPayments, db, rows, ByRecord)[OfRecord(b)] == 1
      ensures Column(NewKrw, db, rows, ByRecord)[OfRecord(b)] == db.records[b].amount
    {
      RecordGroup(db, b);
    }
    hide Groups, GroupTotal, Provenance, EntriesMatch, IdsUnique, Total;
    assert ones.Keys == Activated(db);
    SumMapOnes(ones);
    SumMapRename(ones, Column(NewPayments, db, rows, ByRecord), b => OfRecord(b));
    SumMapRename(FirstCharges(db), Column(NewKrw, db, rows, ByRecord), b => OfRecord(b));
  }

  lemma PaidIsRecorded(db: Db, b: BillingId)
    requires Provenance(db) && EntriesMatch(db) && HasPaid(db.ledger, b)
    ensures b in Activated(db)
  {
  }

  function NewKrwOf(report: map<Group, Bucket>): map<Group, int>
  {
    map k | k in report :: report[k].newKrw
  }

  /**
   A report over everything: its new money is the first charge of each activated
   record, and the rest of all-time revenue is renewals, whatever it groups by.
   */
  lemma WholeReport(db: Db, from: int, to: int, g: Grouping)
    requires Provenance(db) && EntriesMatch(db) && IdsUnique(db.ledger)
    requires forall i :: 0 <= i < |db.ledger| ==> from <= LocalDay(db.ledger[i].processedAt) <= to
    ensures SumMap(KrwOf(RevenueReport(db, from, to, g))) == AllTime(db.ledger)
    ensures SumMap(NewKrwOf(RevenueReport(db, from, to, g))) == SumMap(FirstCharges(db))
  {
    WholeRange(db.ledger, from, to);
    ReportConservesRevenue(db, from, to, g);
    FirstsAreActivations(db);
    var rows := AllPaid(db.ledger);
    GroupsAddUp(NewKrw, db, rows, g);
    assert NewKrwOf(RevenueReport(db, from, to, g)) == Column(NewKrw, db, rows, g);
  }

  /** So it is for every ledger the service can reach. */
  lemma ReachableReport(cfg: Config, sellable: set<PlanId>, steps: seq<Step>, from: int, to: int, g: Grouping)
    requires var ledger := After(cfg, Start(sellable), steps).db.ledger;
             forall i :: 0 <= i < |ledger| ==> from <= LocalDay(ledger[i].processedAt) <= to
    ensures var db := After(cfg, Start(sellable), steps).db;
            && SumMap(KrwOf(RevenueReport(db, from, to, g))) == AllTime(db.ledger) == SumMap(Takings(db.records, db.ledger))
            && SumMap(NewKrwOf(RevenueReport(db, from, to, g))) == SumMap(FirstCharges(db))
            && Total(NewPayments, db.ledger, PaidIn(db.ledger, from, to)) == |Activated(db)|
  {
    EveryRunIsSound(cfg, sellable, steps);
    RevenueIsConserved(cfg, sellable, steps);
    var db := After(cfg, Start(sellable), steps).db;
    hide After;
    assert Provenance(db) && EntriesMatch(db) && IdsUnique(db.ledger);
    hide Sound, Provenance, EntriesMatch, IdsUnique;
    WholeReport(db, from, to, g);
    WholeRange(db.ledger, from, to);
    FirstsAreActivations(db);
  }
}
