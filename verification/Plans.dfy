/**
 What an account may do: the plan it pays for, the grants an operator handed
 out, and which of them applies.
 */
module Plans {
  import opened Common

  type UserId = string
  type PlanId = string
  type LimitKey = string

  const MAX_CONCURRENT_STREAMS: LimitKey := "max_concurrent_streams"
  const MAX_STORAGE_BYTES: LimitKey := "max_storage_bytes"
  const MAX_UPLOAD_BYTES: LimitKey := "max_upload_bytes"

  datatype Plan = Plan(id: PlanId, limits: map<LimitKey, int>, monthlyPrice: int) {
    /** A limit the plan does not mention is zero. */
    function Limit(k: LimitKey): int {
      Lookup(limits, k, 0)
    }

    function Streams(): int {
      Limit(MAX_CONCURRENT_STREAMS)
    }

    predicate CanBroadcast() {
      Streams() > 0
    }
  }

  type Catalogue = map<PlanId, Plan>

  /** `plan_rank`, compared left to right. */
  function Rank(p: Plan): seq<int>
  {
    [if p.CanBroadcast() then 1 else 0, p.Streams(), p.Limit(MAX_STORAGE_BYTES), p.Limit(MAX_UPLOAD_BYTES), p.monthlyPrice]
  }

  predicate Below(a: seq<int>, b: seq<int>)
    requires |a| == |b|
  {
    a != [] && (a[0] < b[0] || (a[0] == b[0] && Below(a[1..], b[1..])))
  }

  predicate Stronger(p: Plan, q: Plan)
  {
    Below(Rank(q), Rank(p))
  }

  lemma {:induction false} BelowIsATotalOrder(a: seq<int>, b: seq<int>, c: seq<int>)
    requires |a| == |b| == |c|
    ensures !(Below(a, b) && Below(b, a))
    ensures Below(a, b) || Below(b, a) || a == b
    ensures !Below(a, a)
    ensures Below(a, b) && Below(b, c) ==> Below(a, c)
  {
    if a != [] {
      BelowIsATotalOrder(a[1..], b[1..], c[1..]);
      assert a == [a[0]] + a[1..] && b == [b[0]] + b[1..];
    }
  }

  /** The first of these to differ decides: can it broadcast, how many at once, storage, upload size, price. */
  lemma FirstDifferenceDecides(p: Plan, q: Plan)
    ensures p.CanBroadcast() <==> "max_concurrent_streams" in p.limits && p.limits["max_concurrent_streams"] > 0
    ensures forall k :: p.Limit(k) == if k in p.limits then p.limits[k] else 0
    ensures Stronger(p, q) <==>
      if p.CanBroadcast() != q.CanBroadcast() then p.CanBroadcast()
      else if p.Streams() != q.Streams() then p.Streams() > q.Streams()
      else if p.Limit("max_storage_bytes") != q.Limit("max_storage_bytes")
           then p.Limit("max_storage_bytes") > q.Limit("max_storage_bytes")
      else if p.Limit("max_upload_bytes") != q.Limit("max_upload_bytes")
           then p.Limit("max_upload_bytes") > q.Limit("max_upload_bytes")
      else p.monthlyPrice > q.monthlyPrice
  {
    var x, y := Rank(p), Rank(q);
    BelowAt(y, x, 0);
    BelowAt(y, x, 1);
    BelowAt(y, x, 2);
    BelowAt(y, x, 3);
    BelowAt(y, x, 4);
    hide Below;
    assert y[0..] == y && x[0..] == x;
  }

  lemma BelowAt(a: seq<int>, b: seq<int>, k: nat)
    requires k < |a| == |b|
    ensures Below(a[k..], b[k..]) <==> a[k] < b[k] || (a[k] == b[k] && k + 1 < |a| && Below(a[k + 1..], b[k + 1..]))
  {
    assert a[k..][1..] == a[k + 1..] && b[k..][1..] == b[k + 1..];
  }

  // ---- grants -----------------------------------------------------------------

  type GrantId = nat

  /** A row of `admin_grants`; times are seconds. */
  datatype Grant = Grant(
    user: UserId, plan: PlanId, start: int, end: int, revokedAt: Option<int>, supersededBy: Option<GrantId>, batch: nat)
  {
    predicate Covers(t: int) {
      revokedAt.None? && start <= t < end
    }
  }

  /** Rows in the order they were written; a row's id is its place. */
  type Grants = seq<Grant>

  /** The plans of this account's live grants that the catalogue still knows, in row order. */
  function LivePlans(rows: Grants, plans: Catalogue, u: UserId, now: int): seq<Plan>
    decreases |rows|
  {
    if rows == [] then []
    else
      var g := rows[|rows| - 1];
      LivePlans(rows[..|rows| - 1], plans, u, now)
        + if g.user == u && g.Covers(now) && g.plan in plans then [plans[g.plan]] else []
  }

  /** A later plan replaces the best so far only when it is strictly stronger. */
  function Best(candidates: seq<Plan>): Option<Plan>
    decreases |candidates|
  {
    if candidates == [] then None
    else
      var p := candidates[|candidates| - 1];
      match Best(candidates[..|candidates| - 1])
      case None => Some(p)
      case Some(best) => if Stronger(p, best) then Some(p) else Some(best)
  }

  /** The best of the candidates is one of them, and none is stronger. */
  lemma {:induction false} BestIsStrongest(candidates: seq<Plan>)
    ensures Best(candidates).None? <==> candidates == []
    ensures Best(candidates).Some? ==>
              && Best(candidates).value in candidates
              && forall p :: p in candidates ==> !Stronger(p, Best(candidates).value)
    decreases |candidates|
  {
    if candidates != [] {
      var n := |candidates| - 1;
      var p, before := candidates[n], candidates[..n];
      BestIsStrongest(before);
      assert candidates == before + [p];
      var best := Best(candidates).value;
      forall q | q in candidates ensures !Stronger(q, best) {
        if before != [] {
          BelowIsATotalOrder(Rank(best), Rank(Best(before).value), Rank(q));
          BelowIsATotalOrder(Rank(best), Rank(q), Rank(Best(before).value));
          BelowIsATotalOrder(Rank(Best(before).value), Rank(best), Rank(q));
        }
        BelowIsATotalOrder(Rank(q), Rank(q), Rank(q));
      }
    }
  }

  /** Which rows come first, and how often, does not matter: equal sets of plans have equally strong bests. */
  lemma BestIgnoresOrder(a: seq<Plan>, b: seq<Plan>)
    requires forall p :: p in a <==> p in b
    ensures Best(a).Some? <==> Best(b).Some?
    ensures Best(a).Some? ==> Rank(Best(a).value) == Rank(Best(b).value)
  {
    BestIsStrongest(a);
    BestIsStrongest(b);
    assert a == [] <==> b == [] by {
      if a != [] { assert a[0] in b; }
      if b != [] { assert b[0] in a; }
    }
    if a != [] {
      BelowIsATotalOrder(Rank(Best(a).value), Rank(Best(b).value), Rank(Best(a).value));
    }
  }

  /** The tables an entitlement is read from. */
  class PlanStore {
    const plans: Catalogue
    var grants: Grants

    constructor (plans: Catalogue)
      ensures this.plans == plans && grants == []
    {
      this.plans := plans;
      grants := [];
    }

    /** The strongest live grant of an account, by one pass over its rows. */
    method ActiveGrantPlan(u: UserId, now: int) returns (best: Option<Plan>)
      ensures best == Best(LivePlans(grants, plans, u, now))
    {
      best := None;
      var i := 0;
      while i < |grants|
        invariant 0 <= i <= |grants|
        invariant best == Best(LivePlans(grants[..i], plans, u, now))
      {
        var g := grants[i];
        assert grants[..i + 1][..i] == grants[..i];
        ghost var before := LivePlans(grants[..i], plans, u, now);
        if g.user == u && g.Covers(now) && g.plan in plans {
          var p := plans[g.plan];
          assert (before + [p])[..|before|] == before;
          if best.None? || Stronger(p, best.value) {
            best := Some(p);
          }
        } else {
          assert before + [] == before;
        }
        i := i + 1;
      }
      assert grants[..i] == grants;
    }
  }

  // ---- the plan in force --------------------------------------------------------

  /** `subscription`: the plan reported, and whether the account may broadcast. */
  datatype Entitlement = Entitlement(plan: Plan, active: bool)

  function SubscriptionOf(paid: Plan, statusActive: bool, granted: Option<Plan>): Entitlement
  {
    var paidActive := statusActive && paid.CanBroadcast();
    if granted.Some? && (!paidActive || Stronger(granted.value, paid))
    then Entitlement(granted.value, granted.value.CanBroadcast())
    else Entitlement(paid, paidActive)
  }

  /** `effective_plan`: the plan whose limits apply; it does not read the status. */
  function EffectivePlan(paid: Plan, granted: Option<Plan>): Plan
  {
    if granted.Some? && Stronger(granted.value, paid) then granted.value else paid
  }

  /** The sources that entitle an account: what it pays for while that is active, and every live grant. */
  function Sources(paid: Plan, statusActive: bool, live: seq<Plan>): seq<Plan>
  {
    (if statusActive && paid.CanBroadcast() then [paid] else []) + live
  }

  function MaxStreams(sources: seq<Plan>): int
  {
    if sources == [] then 0
    else
      var rest := MaxStreams(sources[1..]);
      if sources[0].Streams() > rest then sources[0].Streams() else rest
  }

  predicate CanAnyBroadcast(sources: seq<Plan>)
  {
    exists i :: 0 <= i < |sources| && sources[i].CanBroadcast()
  }

  lemma {:induction false} MaxStreamsIsReached(sources: seq<Plan>, p: Plan)
    requires p in sources && p.Streams() >= 0
    requires forall q :: q in sources ==> q.Streams() <= p.Streams() || !q.CanBroadcast()
    ensures MaxStreams(sources) == p.Streams()
  {
    if sources[0] == p {
      MaxStreamsAtMost(sources[1..], p.Streams());
    } else {
      MaxStreamsIsReached(sources[1..], p);
    }
  }

  lemma {:induction false} MaxStreamsAtMost(sources: seq<Plan>, bound: int)
    requires bound >= 0 && forall q :: q in sources ==> q.Streams() <= bound || !q.CanBroadcast()
    ensures 0 <= MaxStreams(sources) <= bound
  {
    if sources != [] {
      MaxStreamsAtMost(sources[1..], bound);
    }
  }

  /** Rank decides concurrency first: a plan that is not stronger allows no more streams. */
  lemma WeakerStreamsLess(p: Plan, q: Plan)
    requires !Stronger(q, p)
    ensures q.Streams() <= p.Streams()
  {
    var x, y := Rank(p), Rank(q);
    if q.CanBroadcast() == p.CanBroadcast() {
      assert !Below(x, y) && x[0] == y[0];
      assert !Below(x[1..], y[1..]);
      assert x[1..][0] == p.Streams() && y[1..][0] == q.Streams();
    }
  }

  /**
   The number of broadcasts an account may run, as its subscription reports it,
   is the largest any source in force allows, although the plan is picked by a
   five-part rank; and it is active exactly when some source can broadcast.
   */
  lemma AllowanceIsTheLargest(paid: Plan, statusActive: bool, live: seq<Plan>)
    ensures var s := SubscriptionOf(paid, statusActive, Best(live));
            && (s.active <==> CanAnyBroadcast(Sources(paid, statusActive, live)))
            && (if s.active then s.plan.Streams() else 0) == MaxStreams(Sources(paid, statusActive, live))
  {
    BestIsStrongest(live);
    var sources := Sources(paid, statusActive, live);
    var s := SubscriptionOf(paid, statusActive, Best(live));
    forall q | q in sources ensures q.CanBroadcast() ==> s.active && q.Streams() <= s.plan.Streams() {
      if q.CanBroadcast() {
        NoSourceAllowsMore(paid, statusActive, live, q);
      }
    }
    if s.active {
      assert s.plan in sources;
      MaxStreamsIsReached(sources, s.plan);
    } else {
      MaxStreamsAtMost(sources, 0);
    }
  }

  lemma NoSourceAllowsMore(paid: Plan, statusActive: bool, live: seq<Plan>, q: Plan)
    requires q in Sources(paid, statusActive, live) && q.CanBroadcast()
    ensures var s := SubscriptionOf(paid, statusActive, Best(live)); s.active && q.Streams() <= s.plan.Streams()
  {
    BestIsStrongest(live);
    if live != [] {
      var best := Best(live).value;
      if q in live {
        WeakerStreamsLess(best, q);
      }
      if !Stronger(best, paid) {
        WeakerStreamsLess(paid, best);
      }
      BelowIsATotalOrder(Rank(best), Rank(paid), Rank(best));
      if Stronger(best, paid) {
        WeakerStreamsLess(best, paid);
      }
    }
  }

  /**
   Slots are counted against the plan the subscription reports; every other limit
   against `effective_plan`, which does not read the status. The two plans differ
   exactly when a live grant stands in for a plan whose subscription has lapsed
   or cannot broadcast, and that plan is at least as strong as the grant and not
   the same one.
   */
  lemma ReportedAndEnforcedDifferExactly(paid: Plan, statusActive: bool, live: seq<Plan>)
    ensures SubscriptionOf(paid, statusActive, Best(live)).plan != EffectivePlan(paid, Best(live)) <==>
      && live != []
      && !(statusActive && paid.CanBroadcast())
      && !Stronger(Best(live).value, paid)
      && Best(live).value != paid
  {
    BestIsStrongest(live);
  }

  // ---- can a grant lower anything? -----------------------------------------------

  /** In this catalogue a stronger plan never has less of this limit. */
  ghost predicate RankFollows(plans: set<Plan>, k: LimitKey)
  {
    forall p, q :: p in plans && q in plans && Stronger(q, p) ==> q.Limit(k) >= p.Limit(k)
  }

  /** Whatever is paid for and whatever is granted, the limit enforced is at least the one paid for. */
  ghost predicate NothingLowered(plans: set<Plan>, k: LimitKey)
  {
    forall p, live :: p in plans && (forall q :: q in live ==> q in plans) ==>
      EffectivePlan(p, Best(live)).Limit(k) >= p.Limit(k)
  }

  /**
   "A grant cannot lower anything" holds for a limit exactly when the rank of
   every pair of plans in the catalogue agrees with that limit.
   */
  lemma NothingIsLoweredExactly(plans: set<Plan>, k: LimitKey)
    ensures NothingLowered(plans, k) <==> RankFollows(plans, k)
  {
    if RankFollows(plans, k) {
      forall p, live: seq<Plan> | p in plans && (forall q :: q in live ==> q in plans)
        ensures EffectivePlan(p, Best(live)).Limit(k) >= p.Limit(k)
      {
        BestIsStrongest(live);
      }
    } else {
      var p, q :| p in plans && q in plans && Stronger(q, p) && q.Limit(k) < p.Limit(k);
      assert Best([q]) == Some(q) by {
        assert [q][..0] == [];
      }
      assert EffectivePlan(p, Best([q])).Limit(k) < p.Limit(k);
    }
  }

  /** For concurrent streams, and for being able to broadcast at all, it holds in every catalogue. */
  lemma StreamsAreNeverLowered(plans: set<Plan>)
    ensures NothingLowered(plans, MAX_CONCURRENT_STREAMS)
  {
    forall p, q | p in plans && q in plans && Stronger(q, p)
      ensures q.Limit(MAX_CONCURRENT_STREAMS) >= p.Limit(MAX_CONCURRENT_STREAMS)
    {
      BelowIsATotalOrder(Rank(p), Rank(q), Rank(p));
      WeakerStreamsLess(q, p);
    }
    NothingIsLoweredExactly(plans, MAX_CONCURRENT_STREAMS);
  }

  lemma MoreStreamsOutrank(p: Plan, q: Plan)
    requires p.Streams() > q.Streams() > 0
    ensures Stronger(p, q)
  {
    assert Rank(p)[1..][0] == p.Streams() && Rank(q)[1..][0] == q.Streams();
    assert Below(Rank(q)[1..], Rank(p)[1..]);
  }

  /** For any other limit there is a catalogue in which it fails: one more stream outranks any amount of the other. */
  lemma OtherLimitsCanBeLowered(k: LimitKey) returns (plans: set<Plan>)
    requires k != MAX_CONCURRENT_STREAMS
    ensures !NothingLowered(plans, k)
  {
    var roomy := Plan("roomy", map[MAX_CONCURRENT_STREAMS := 1, k := 500], 10);
    var wide := Plan("wide", map[MAX_CONCURRENT_STREAMS := 2, k := 100], 10);
    plans := {roomy, wide};
    assert roomy.limits[k] == 500 && wide.limits[k] == 100;
    assert roomy.Streams() == 1 && wide.Streams() == 2;
    MoreStreamsOutrank(wide, roomy);
    hide Stronger;
    NothingIsLoweredExactly(plans, k);
  }

  /** The promise that a grant lowers nothing is one about streams: it holds in every catalogue for that limit only. */
  lemma OnlyStreamsAreSafe(k: LimitKey)
    ensures (forall plans :: NothingLowered(plans, k)) <==> k == MAX_CONCURRENT_STREAMS
  {
    if k == MAX_CONCURRENT_STREAMS {
      forall plans ensures NothingLowered(plans, k) {
        StreamsAreNeverLowered(plans);
      }
    } else {
      var plans := OtherLimitsCanBeLowered(k);
    }
  }
}
