/** What extending, resetting and replacing grants does to coverage and to history. */
module GrantLaws {
  import opened Common
  import opened Text
  import opened Plans
  import opened GrantHistory

  // ---- one batch, one outcome per account ---------------------------------------

  predicate NoDuplicates(us: seq<UserId>)
  {
    forall i, j :: 0 <= i < j < |us| ==> us[i] != us[j]
  }

  lemma {:induction false} TargetsAreDistinct(disabled: map<UserId, bool>, ids: seq<UserId>, seen: set<UserId>)
    ensures Targets(disabled, ids, seen).Ok? <==>
              forall i :: 0 <= i < |ids| && ids[i] !in seen ==> ids[i] in disabled && !disabled[ids[i]]
    ensures Targets(disabled, ids, seen).Ok? ==>
              var us := Targets(disabled, ids, seen).value;
              NoDuplicates(us) && forall u :: u in us <==> u in ids && u !in seen
    decreases |ids|
  {
    if ids != [] {
      var rest := ids[1..];
      assert forall u :: u in ids <==> u == ids[0] || u in rest;
      assert forall i :: 0 <= i < |rest| ==> rest[i] == ids[i + 1];
      if ids[0] in seen {
        TargetsAreDistinct(disabled, rest, seen);
      } else {
        TargetsAreDistinct(disabled, rest, seen + {ids[0]});
      }
    }
  }

  lemma {:induction false} OneOutcomeEach(rows: Grants, us: seq<UserId>, plan: PlanId, w: Window, mode: OnExisting, now: int, batch: nat)
    ensures var outcomes := GrantEach(rows, us, plan, w, mode, now, batch).1;
            |outcomes| == |us| && forall i :: 0 <= i < |us| ==> outcomes[i].user == us[i]
    decreases |us|
  {
    if us != [] {
      var (rows', first) := GrantOne(rows, us[0], plan, w, mode, now, batch);
      OneOutcomeEach(rows', us[1..], plan, w, mode, now, batch);
    }
  }

  /**
   A batch goes through exactly when the request is well formed and every account
   named exists and is enabled; then it yields one outcome per distinct account.
   */
  lemma BatchIsAllOrNothing(plans: Catalogue, disabled: map<UserId, bool>, rows: Grants, q: Request, now: int, batch: nat)
    ensures BatchOf(plans, disabled, rows, q, now, batch).Ok? <==>
              && 1 <= |q.ids| <= 100
              && q.plan in plans && plans[q.plan].CanBroadcast() && Trim(q.reason) != ""
              && (forall u :: u in q.ids ==> u in disabled && !disabled[u])
              && ResolveTerm(now, q.term).Ok?
    ensures BatchOf(plans, disabled, rows, q, now, batch).Ok? ==>
              var outcomes := BatchOf(plans, disabled, rows, q, now, batch).value.1;
              && (forall i, j :: 0 <= i < j < |outcomes| ==> outcomes[i].user != outcomes[j].user)
              && (forall u :: u in q.ids <==> exists i :: 0 <= i < |outcomes| && outcomes[i].user == u)
  {
    TargetsAreDistinct(disabled, q.ids, {});
    var resolved := Targets(disabled, q.ids, {});
    if resolved.Ok? && ResolveTerm(now, q.term).Ok? {
      var us := resolved.value;
      OneOutcomeEach(rows, us, q.plan, ResolveTerm(now, q.term).value, q.mode, now, batch);
    }
    hide GrantEach, ResolveTerm, Trim;
  }

  // ---- coverage ---------------------------------------------------------------------

  /** Some live grant of this account covers the instant. */
  predicate Covered(rows: Grants, u: UserId, t: int)
  {
    exists i :: 0 <= i < |rows| && rows[i].user == u && rows[i].Covers(t)
  }

  /** Covered by a row other than `i`. */
  predicate CoveredBesides(rows: Grants, i: GrantId, u: UserId, t: int)
  {
    exists j :: 0 <= j < |rows| && j != i && rows[j].user == u && rows[j].Covers(t)
  }

  /** Replacing row `i` by `g` covers what `g` covers, and what other rows did; nothing else. */
  lemma SupersedeCovers(rows: Grants, i: GrantId, g: Grant, now: int, u: UserId, t: int)
    requires i < |rows|
    ensures Covered(Supersede(rows, i, g, now), u, t) <==> CoveredBesides(rows, i, u, t) || (g.user == u && g.Covers(t))
  {
    var rows' := Supersede(rows, i, g, now);
    assert rows'[|rows|] == g;
    if CoveredBesides(rows, i, u, t) {
      var j :| 0 <= j < |rows| && j != i && rows[j].user == u && rows[j].Covers(t);
      assert rows'[j] == rows[j];
    }
    if j :| 0 <= j < |rows'| && rows'[j].user == u && rows'[j].Covers(t) {
      assert j < |rows| ==> rows[j] == rows'[j] && j != i;
    }
  }

  lemma AppendCovers(rows: Grants, g: Grant, u: UserId, t: int)
    ensures Covered(rows + [g], u, t) <==> Covered(rows, u, t) || (g.user == u && g.Covers(t))
  {
    assert (rows + [g])[|rows|] == g;
    if j :| 0 <= j < |rows| && rows[j].user == u && rows[j].Covers(t) {
      assert (rows + [g])[j] == rows[j];
    }
  }

  lemma CoveredSplits(rows: Grants, i: GrantId, u: UserId, t: int)
    requires i < |rows|
    ensures Covered(rows, u, t) <==> CoveredBesides(rows, i, u, t) || (rows[i].user == u && rows[i].Covers(t))
  {
  }

  /**
   What one account of a batch is covered for afterwards, at every instant.
   Extending an existing grant adds the new term after its old end and loses
   nothing; resetting keeps only the new term and what other rows cover.
   */
  lemma GrantOneCovers(rows: Grants, u: UserId, plan: PlanId, w: Window, mode: OnExisting, now: int, batch: nat, v: UserId, t: int)
    requires w.start < w.end
    ensures var rows' := GrantOne(rows, u, plan, w, mode, now, batch).0;
            match Existing(rows, u, now)
            case None => Covered(rows', v, t) <==> Covered(rows, v, t) || (v == u && w.start <= t < w.end)
            case Some(i) =>
              match mode
              case Skip => rows' == rows
              case Extend =>
                Covered(rows', v, t) <==>
                Covered(rows, v, t) || (v == u && rows[i].end <= t < rows[i].end + (w.end - w.start))
              case Reset =>
                Covered(rows', v, t) <==> CoveredBesides(rows, i, v, t) || (v == u && w.start <= t < w.end)
  {
    match Existing(rows, u, now)
    case None => AppendCovers(rows, Grant(u, plan, w.start, w.end, None, None, batch), v, t);
    case Some(i) =>
      match mode
      case Skip =>
      case Extend =>
        SupersedeCovers(rows, i, Grant(u, plan, rows[i].start, rows[i].end + (w.end - w.start), None, None, batch), now, v, t);
        CoveredSplits(rows, i, v, t);
      case Reset => SupersedeCovers(rows, i, Grant(u, plan, w.start, w.end, None, None, batch), now, v, t);
  }

  /** A batch of extensions never takes coverage from anyone, at any instant. */
  lemma {:induction false} ExtendingLosesNothing(
      rows: Grants, us: seq<UserId>, plan: PlanId, w: Window, now: int, batch: nat, v: UserId, t: int)
    requires w.start < w.end && Covered(rows, v, t)
    ensures Covered(GrantEach(rows, us, plan, w, Extend, now, batch).0, v, t)
    decreases |us|
  {
    if us != [] {
      GrantOneCovers(rows, us[0], plan, w, Extend, now, batch, v, t);
      hide GrantOne, Covered;
      ExtendingLosesNothing(GrantOne(rows, us[0], plan, w, Extend, now, batch).0, us[1..], plan, w, now, batch, v, t);
    }
  }

  /**
   After a batch of extensions every account that held a live grant is covered
   at every instant from now to that grant's old end plus the added term, though
   the row it held was revoked in the same step.
   */
  lemma {:induction false} ExtensionHasNoGap(
      rows: Grants, us: seq<UserId>, plan: PlanId, w: Window, now: int, batch: nat, u: UserId, t: int)
    requires w.start < w.end && NoDuplicates(us) && u in us && Existing(rows, u, now).Some?
    requires now <= t < rows[Existing(rows, u, now).value].end + (w.end - w.start)
    ensures Covered(GrantEach(rows, us, plan, w, Extend, now, batch).0, u, t)
    decreases |us|
  {
    var i := Existing(rows, u, now).value;
    var rows' := GrantOne(rows, us[0], plan, w, Extend, now, batch).0;
    assert forall j :: 0 <= j < |us[1..]| ==> us[1..][j] == us[j + 1];
    if us[0] == u {
      assert rows[i].user == u && rows[i].Covers(now);
      assert Covered(rows, u, t) || rows[i].end <= t;
      GrantOneCovers(rows, u, plan, w, Extend, now, batch, u, t);
      ExtendingLosesNothing(rows', us[1..], plan, w, now, batch, u, t);
    } else {
      OthersKeepTheirs(rows, us[0], plan, w, now, batch, u);
      ExtensionHasNoGap(rows', us[1..], plan, w, now, batch, u, t);
    }
  }

  /** Granting to one account leaves the row another account's extension would find. */
  lemma OthersKeepTheirs(rows: Grants, u: UserId, plan: PlanId, w: Window, now: int, batch: nat, v: UserId)
    requires u != v
    ensures var rows' := GrantOne(rows, u, plan, w, Extend, now, batch).0;
            && Existing(rows', v, now) == Existing(rows, v, now)
            && (Existing(rows, v, now).Some? ==> rows'[Existing(rows, v, now).value] == rows[Existing(rows, v, now).value])
  {
    var rows' := GrantOne(rows, u, plan, w, Extend, now, batch).0;
    match Existing(rows, u, now)
    case None =>
      assert rows'[..|rows|] == rows;
    case Some(i) =>
      var changed := rows'[..|rows|];
      SameExisting(rows, changed, v, now, i);
      hide Existing;
      ExistingSkips(changed, rows'[|rows|], v, now);
      assert changed + [rows'[|rows|]] == rows';
  }

  lemma ExistingSkips(rows: Grants, g: Grant, v: UserId, now: int)
    requires g.user != v
    ensures Existing(rows + [g], v, now) == Existing(rows, v, now)
  {
    assert (rows + [g])[..|rows|] == rows;
  }

  lemma {:induction false} SameExisting(rows: Grants, other: Grants, v: UserId, now: int, i: GrantId)
    requires |rows| == |other| && (forall j :: 0 <= j < |rows| && j != i ==> rows[j] == other[j])
    requires i < |rows| ==> rows[i].user != v && other[i].user != v
    ensures Existing(rows, v, now) == Existing(other, v, now)
    decreases |rows|
  {
    if rows != [] {
      var n := |rows| - 1;
      SameExisting(rows[..n], other[..n], v, now, i);
    }
  }

  /** Extending one grant: covered from its start to its old end plus the days, and no one loses anything. */
  lemma SingleExtensionHasNoGap(rows: Grants, i: GrantId, days: int, reason: string, now: int, v: UserId, t: int)
    requires ExtensionOf(rows, i, days, reason, now).Ok?
    ensures var rows' := ExtensionOf(rows, i, days, reason, now).value;
            Covered(rows', v, t) <==>
              || Covered(rows, v, t)
              || (v == rows[i].user && rows[i].start <= t && rows[i].end <= t < rows[i].end + days * DAY)
  {
    var g := Grant(rows[i].user, rows[i].plan, rows[i].start, rows[i].end + days * DAY, None, None, rows[i].batch);
    SupersedeCovers(rows, i, g, now, v, t);
    CoveredSplits(rows, i, v, t);
    hide Covered, CoveredBesides, Trim;
  }

  /** Moving a grant to another plan keeps every account's coverage as it was. */
  lemma PlanChangeKeepsCoverage(
      plans: Catalogue, rows: Grants, i: GrantId, plan: PlanId, reason: string, now: int, v: UserId, t: int)
    requires PlanChangeOf(plans, rows, i, plan, reason, now).Ok?
    ensures Covered(PlanChangeOf(plans, rows, i, plan, reason, now).value, v, t) <==> Covered(rows, v, t)
  {
    var g := Grant(rows[i].user, plan, rows[i].start, rows[i].end, None, None, rows[i].batch);
    assert rows[i].end + 0 * DAY == rows[i].end;
    SupersedeCovers(rows, i, g, now, v, t);
    CoveredSplits(rows, i, v, t);
    hide Covered, CoveredBesides, Trim;
  }

  // ---- taking back, extending and moving one grant ---------------------------------------

  /** Every row but `i` is as it was, and `i` keeps its account, plan, term and batch and is revoked now. */
  predicate RetiredNow(rows: Grants, rows': Grants, i: GrantId, now: int)
    requires i < |rows|
  {
    && |rows| <= |rows'|
    && (forall j :: 0 <= j < |rows| && j != i ==> rows'[j] == rows[j])
    && rows'[i].user == rows[i].user && rows'[i].plan == rows[i].plan && rows'[i].batch == rows[i].batch
    && rows'[i].start == rows[i].start && rows'[i].end == rows[i].end
    && rows'[i].revokedAt == Some(now)
  }

  /**
   A grant is taken back exactly with a reason, if it exists and was not taken back
   before. Its row stays, and what is covered afterwards, and by which plans, is
   what the other rows cover.
   */
  lemma RevocationTakesExactly(plans: Catalogue, rows: Grants, i: GrantId, reason: string, now: int, v: UserId, t: int)
    ensures var r := RevocationOf(rows, i, reason, now);
            && (r == Err(NoReason) <==> Trim(reason) == "")
            && (r == Err(UnknownGrant) <==> Trim(reason) != "" && i >= |rows|)
            && (r == Err(AlreadyRevoked) <==> Trim(reason) != "" && i < |rows| && rows[i].revokedAt.Some?)
            && (r.Ok? <==> Trim(reason) != "" && i < |rows| && rows[i].revokedAt.None?)
            && (r.Ok? ==>
                 && |r.value| == |rows| && RetiredNow(rows, r.value, i, now)
                 && r.value[i].supersededBy == rows[i].supersededBy
                 && (Covered(r.value, v, t) <==> CoveredBesides(rows, i, v, t))
                 && LivePlans(r.value, plans, v, t) == OtherLivePlans(rows, i, plans, v, t))
  {
    var r := RevocationOf(rows, i, reason, now);
    if r.Ok? {
      var gone := rows[i].(revokedAt := Some(now));
      assert r.value == rows[i := gone];
      LivePlansAround(rows, i, gone, plans, v, t);
      LivePlansOfOne(gone, plans, v, t);
      assert LivePlans(rows[..i], plans, v, t) + [] == LivePlans(rows[..i], plans, v, t);
      hide LivePlans, Trim;
      if j :| 0 <= j < |rows| && j != i && rows[j].user == v && rows[j].Covers(t) {
        assert r.value[j] == rows[j];
      }
      if j :| 0 <= j < |rows| && r.value[j].user == v && r.value[j].Covers(t) {
        assert j != i && r.value[j] == rows[j];
      }
    }
  }

  /** The row that replaces row `i`: the same account, start and batch, in force. */
  predicate Replaces(rows: Grants, rows': Grants, i: GrantId, plan: PlanId, end: int, now: int)
    requires i < |rows|
  {
    && |rows'| == |rows| + 1 && RetiredNow(rows, rows', i, now) && rows'[i].supersededBy == Some(|rows|)
    && rows'[|rows|] == Grant(rows[i].user, plan, rows[i].start, end, None, None, rows[i].batch)
  }

  /** Extending and moving: what refuses them, in order, and the row they write. */
  lemma ReplacementsAreExact(
      plans: Catalogue, rows: Grants, i: GrantId, days: int, plan: PlanId, reason: string, now: int)
    ensures match ExtensionOf(rows, i, days, reason, now)
            case Ok(rows') =>
              && 1 <= days <= 400 && i < |rows| && rows[i].revokedAt.None? && Trim(reason) != ""
              && Replaces(rows, rows', i, rows[i].plan, rows[i].end + 86400 * days, now)
            case Err(e) =>
              if !(1 <= days <= 400) then e == BadTerm
              else if i >= |rows| then e == UnknownGrant
              else if rows[i].revokedAt.Some? then e == AlreadyRevoked
              else e == NoReason && Trim(reason) == ""
    ensures match PlanChangeOf(plans, rows, i, plan, reason, now)
            case Ok(rows') =>
              && i < |rows| && rows[i].revokedAt.None? && plan in plans && plans[plan].Streams() > 0 && Trim(reason) != ""
              && Replaces(rows, rows', i, plan, rows[i].end, now)
            case Err(e) =>
              if i >= |rows| then e == UnknownGrant
              else if rows[i].revokedAt.Some? then e == AlreadyRevoked
              else if plan !in plans then e == UnknownPlan
              else if plans[plan].Streams() <= 0 then e == CannotBroadcast
              else e == NoReason && Trim(reason) == ""
  {
    hide Trim;
  }

  /** A move takes effect at once: the plan counts for the account in place of the old one. */
  lemma PlanChangeMoves(
      plans: Catalogue, rows: Grants, i: GrantId, plan: PlanId, reason: string, now: int, u: UserId, t: int, p: Plan)
    requires PlanChangeOf(plans, rows, i, plan, reason, now).Ok? && rows[i].user == u && rows[i].Covers(t)
    ensures p in LivePlans(PlanChangeOf(plans, rows, i, plan, reason, now).value, plans, u, t) <==>
              p in OtherLivePlans(rows, i, plans, u, t) || p == plans[plan]
  {
    ReplacementsAreExact(plans, rows, i, 1, plan, reason, now);
    var rows' := PlanChangeOf(plans, rows, i, plan, reason, now).value;
    var g, retired := rows'[|rows|], rows'[i];
    assert rows' == rows[i := retired] + [g];
    hide PlanChangeOf, Trim;
    LivePlansOfOne(retired, plans, u, t);
    LivePlansOfOne(g, plans, u, t);
    LivePlansAround(rows, i, retired, plans, u, t);
    LivePlansJoin(rows[i := retired], [g], plans, u, t);
    hide LivePlans;
  }

  // ---- rank -------------------------------------------------------------------------

  lemma {:induction false} LivePlansJoin(a: Grants, b: Grants, plans: Catalogue, u: UserId, now: int)
    ensures LivePlans(a + b, plans, u, now) == LivePlans(a, plans, u, now) + LivePlans(b, plans, u, now)
    decreases |b|
  {
    if b == [] {
      assert a + b == a;
    } else {
      var n := |b| - 1;
      assert (a + b)[..|a| + n] == a + b[..n] && (a + b)[|a| + n] == b[n];
      LivePlansJoin(a, b[..n], plans, u, now);
    }
  }

  lemma LivePlansOfOne(g: Grant, plans: Catalogue, u: UserId, now: int)
    ensures LivePlans([g], plans, u, now) ==
              if g.user == u && g.Covers(now) && g.plan in plans then [plans[g.plan]] else []
  {
    assert [g][..0] == [];
  }

  /** The plans of every live row of this account but row `i`. */
  function OtherLivePlans(rows: Grants, i: GrantId, plans: Catalogue, u: UserId, now: int): seq<Plan>
    requires i < |rows|
  {
    LivePlans(rows[..i], plans, u, now) + LivePlans(rows[i + 1..], plans, u, now)
  }

  lemma LivePlansAround(rows: Grants, i: GrantId, row: Grant, plans: Catalogue, u: UserId, now: int)
    requires i < |rows|
    ensures LivePlans(rows[i := row], plans, u, now) ==
              LivePlans(rows[..i], plans, u, now) + LivePlans([row], plans, u, now) + LivePlans(rows[i + 1..], plans, u, now)
  {
    assert rows[i := row] == rows[..i] + [row] + rows[i + 1..];
    LivePlansJoin(rows[..i], [row], plans, u, now);
    LivePlansJoin(rows[..i] + [row], rows[i + 1..], plans, u, now);
  }

  /** Row `i`, live, contributes its plan. */
  lemma LivePlansWith(rows: Grants, i: GrantId, plans: Catalogue, u: UserId, now: int, p: Plan)
    requires i < |rows| && rows[i].user == u && rows[i].Covers(now) && rows[i].plan in plans
    ensures p in LivePlans(rows, plans, u, now) <==>
              p in OtherLivePlans(rows, i, plans, u, now) || p == plans[rows[i].plan]
  {
    assert rows[i := rows[i]] == rows;
    LivePlansOfOne(rows[i], plans, u, now);
    hide LivePlans;
    LivePlansAround(rows, i, rows[i], plans, u, now);
  }

  /** A row that replaces it contributes its own plan instead. */
  lemma LivePlansWithout(rows: Grants, i: GrantId, g: Grant, plans: Catalogue, u: UserId, now: int, p: Plan)
    requires i < |rows| && g.user == u && g.Covers(now) && g.plan in plans
    ensures p in LivePlans(Supersede(rows, i, g, now), plans, u, now) <==>
              p in OtherLivePlans(rows, i, plans, u, now) || p == plans[g.plan]
  {
    var retired := rows[i].(revokedAt := Some(now), supersededBy := Some(|rows|));
    LivePlansOfOne(retired, plans, u, now);
    LivePlansOfOne(g, plans, u, now);
    hide LivePlans;
    LivePlansAround(rows, i, retired, plans, u, now);
    LivePlansJoin(rows[i := retired], [g], plans, u, now);
  }

  /** A plan loses strength when its candidates trade one for another exactly if the one was strictly the best. */
  lemma BestWeakensExactly(before: seq<Plan>, after: seq<Plan>, others: seq<Plan>, was: Plan, now: Plan)
    requires forall p :: p in before <==> p in others || p == was
    requires forall p :: p in after <==> p in others || p == now
    ensures Best(before).Some? && Best(after).Some?
    ensures Stronger(Best(before).value, Best(after).value) <==>
              Stronger(was, now) && forall p :: p in others ==> Stronger(was, p)
  {
    BestIsStrongest(before);
    BestIsStrongest(after);
    assert was in before && now in after;
    var b, a := Best(before).value, Best(after).value;
    BelowIsATotalOrder(Rank(a), Rank(b), Rank(was));
    BelowIsATotalOrder(Rank(b), Rank(was), Rank(a));
    BelowIsATotalOrder(Rank(now), Rank(a), Rank(b));
    BelowIsATotalOrder(Rank(now), Rank(was), Rank(a));
    BelowIsATotalOrder(Rank(a), Rank(was), Rank(b));
    if Stronger(b, a) {
      forall p | p in others + [now] ensures Stronger(was, p) {
        assert p in after;
        BelowIsATotalOrder(Rank(p), Rank(a), Rank(b));
        BelowIsATotalOrder(Rank(a), Rank(p), Rank(b));
        assert b == was;
      }
    }
  }

  /**
   Extension keeps coverage, not strength. An account whose grant is extended
   under a batch's plan ends with a weaker plan from its grants exactly when the
   extended grant's plan was stronger than the batch's and than every other live
   grant's, whatever else it holds.
   */
  lemma ExtendingWeakensExactly(
      plans: Catalogue, rows: Grants, u: UserId, plan: PlanId, w: Window, now: int, batch: nat, i: GrantId)
    requires Existing(rows, u, now) == Some(i) && w.start < w.end
    requires plan in plans && rows[i].plan in plans
    ensures var rows' := GrantOne(rows, u, plan, w, Extend, now, batch).0;
            var (before, after) := (Best(LivePlans(rows, plans, u, now)), Best(LivePlans(rows', plans, u, now)));
            && before.Some? && after.Some?
            && (Stronger(before.value, after.value) <==>
                 && Stronger(plans[rows[i].plan], plans[plan])
                 && forall p :: p in OtherLivePlans(rows, i, plans, u, now) ==> Stronger(plans[rows[i].plan], p))
  {
    var g := Grant(u, plan, rows[i].start, rows[i].end + (w.end - w.start), None, None, batch);
    var rows' := GrantOne(rows, u, plan, w, Extend, now, batch).0;
    assert rows' == Supersede(rows, i, g, now);
    forall p
      ensures p in LivePlans(rows, plans, u, now) <==> p in OtherLivePlans(rows, i, plans, u, now) || p == plans[rows[i].plan]
      ensures p in LivePlans(rows', plans, u, now) <==> p in OtherLivePlans(rows, i, plans, u, now) || p == plans[plan]
    {
      LivePlansWith(rows, i, plans, u, now, p);
      LivePlansWithout(rows, i, g, plans, u, now, p);
    }
    hide LivePlans, OtherLivePlans, GrantOne, Supersede;
    BestWeakensExactly(LivePlans(rows, plans, u, now), LivePlans(rows', plans, u, now),
      OtherLivePlans(rows, i, plans, u, now), plans[rows[i].plan], plans[plan]);
  }

  /** Row `j` is a live grant of this account, of a plan that is still sold. */
  predicate LiveGrant(rows: Grants, plans: Catalogue, u: UserId, now: int, j: int)
  {
    0 <= j < |rows| && rows[j].user == u && rows[j].Covers(now) && rows[j].plan in plans
  }

  lemma {:induction false} LivePlansAre(rows: Grants, plans: Catalogue, u: UserId, now: int, p: Plan)
    ensures p in LivePlans(rows, plans, u, now) <==> exists j :: LiveGrant(rows, plans, u, now, j) && p == plans[rows[j].plan]
    decreases |rows|
  {
    if rows != [] {
      var n := |rows| - 1;
      var before := rows[..n];
      LivePlansAre(before, plans, u, now, p);
      if j :| LiveGrant(rows, plans, u, now, j) && p == plans[rows[j].plan] && j < n {
        assert LiveGrant(before, plans, u, now, j);
      }
      if j :| LiveGrant(before, plans, u, now, j) && p == plans[before[j].plan] {
        assert LiveGrant(rows, plans, u, now, j);
      }
      if LiveGrant(rows, plans, u, now, n) && p == plans[rows[n].plan] {
        assert p in LivePlans(rows, plans, u, now);
      }
    }
  }

  /**
   The grant an extension is about is weaker than the plan the account's grants
   give it exactly when another live grant, which ends no later, is on a plan that
   outranks its own.
   */
  lemma StrongestIsPassedOverExactly(rows: Grants, plans: Catalogue, u: UserId, now: int, i: GrantId)
    requires Existing(rows, u, now) == Some(i) && rows[i].plan in plans
    ensures Best(LivePlans(rows, plans, u, now)).Some?
    ensures Stronger(Best(LivePlans(rows, plans, u, now)).value, plans[rows[i].plan]) <==>
              exists j :: LiveGrant(rows, plans, u, now, j) && rows[j].end <= rows[i].end
                          && Stronger(plans[rows[j].plan], plans[rows[i].plan])
  {
    var live, own := LivePlans(rows, plans, u, now), plans[rows[i].plan];
    assert LiveGrant(rows, plans, u, now, i);
    LivePlansAre(rows, plans, u, now, own);
    BestIsStrongest(live);
    var best := Best(live).value;
    LivePlansAre(rows, plans, u, now, best);
    hide LivePlans, Best, Existing, Stronger, Below, Rank;
    if j :| LiveGrant(rows, plans, u, now, j) && rows[j].end <= rows[i].end && Stronger(plans[rows[j].plan], own) {
      LivePlansAre(rows, plans, u, now, plans[rows[j].plan]);
      OutrankedIsBeaten(best, plans[rows[j].plan], own);
    }
  }

  lemma OutrankedIsBeaten(best: Plan, p: Plan, own: Plan)
    requires !Stronger(p, best) && Stronger(p, own)
    ensures Stronger(best, own)
  {
    BelowIsATotalOrder(Rank(own), Rank(p), Rank(best));
    BelowIsATotalOrder(Rank(p), Rank(best), Rank(own));
  }

  /** A strong grant that ends sooner than a weak one: the weak one is extended. */
  lemma WeakerGrantIsExtended(
      plans: Catalogue, u: UserId, strong: PlanId, weak: PlanId, start: int, now: int, soon: int, late: int)
    requires strong in plans && weak in plans && Stronger(plans[strong], plans[weak])
    requires start <= now < soon < late
    ensures var rows := [Grant(u, strong, start, soon, None, None, 0), Grant(u, weak, start, late, None, None, 0)];
            && Existing(rows, u, now) == Some(1)
            && Best(LivePlans(rows, plans, u, now)) == Some(plans[strong])
  {
    var g, h := Grant(u, strong, start, soon, None, None, 0), Grant(u, weak, start, late, None, None, 0);
    assert [g, h] == [g] + [h] && [g, h][..1] == [g] && [g][..0] == [];
    assert Existing([g], u, now) == Some(0);
    LivePlansJoin([g], [h], plans, u, now);
    LivePlansOfOne(g, plans, u, now);
    LivePlansOfOne(h, plans, u, now);
    BestIsStrongest([plans[strong], plans[weak]]);
  }

  // ---- history ----------------------------------------------------------------------

  /** A replaced row is revoked and points to a later row of the same account. */
  predicate WellFounded(rows: Grants)
  {
    forall i :: 0 <= i < |rows| && rows[i].supersededBy.Some? ==>
      && rows[i].revokedAt.Some?
      && i < rows[i].supersededBy.value < |rows|
      && rows[rows[i].supersededBy.value].user == rows[i].user
  }

  /** Rows are only added; an old row keeps its account, plan, term and batch, and once revoked stays so. */
  predicate Grown(a: Grants, b: Grants)
  {
    && |a| <= |b|
    && forall i :: 0 <= i < |a| ==>
         && b[i].user == a[i].user && b[i].plan == a[i].plan && b[i].start == a[i].start && b[i].end == a[i].end
         && b[i].batch == a[i].batch
         && (a[i].revokedAt.Some? ==> b[i].revokedAt.Some?)
         && (a[i].supersededBy.Some? ==> b[i].supersededBy.Some?)
  }

  type OpId = nat

  /** A change to one grant that has read its row and not yet written. */
  datatype Change = Change(grant: GrantId, was: Grant, plan: PlanId, addDays: int)

  datatype World = World(rows: Grants, changes: map<OpId, Change>)

  datatype Step =
    | ReadExtend(op: OpId, grant: GrantId, days: int)
    | ReadPlanChange(op: OpId, grant: GrantId, plan: PlanId)
    | Commit(op: OpId, now: int)
    | Batch(users: seq<UserId>, plan: PlanId, w: Window, mode: OnExisting, now: int, batch: nat)
    | Revoke(grant: GrantId, now: int)

  predicate CanRead(w: World, op: OpId, i: GrantId)
  {
    op !in w.changes && i < |w.rows| && w.rows[i].revokedAt.None?
  }

  /** A step that is not enabled leaves the world alone. */
  function Next(w: World, s: Step): World
  {
    match s
    case ReadExtend(op, i, days) =>
      if CanRead(w, op, i) && 1 <= days <= MAX_GRANT_DAYS
      then w.(changes := w.changes[op := Change(i, w.rows[i], w.rows[i].plan, days)])
      else w
    case ReadPlanChange(op, i, plan) =>
      if CanRead(w, op, i) then w.(changes := w.changes[op := Change(i, w.rows[i], plan, 0)]) else w
    case Commit(op, now) =>
      if op in w.changes && w.changes[op].grant < |w.rows| then
        var c := w.changes[op];
        World(Replace(w.rows, c.grant, c.was, c.plan, c.addDays, now), w.changes - {op})
      else w
    case Batch(us, plan, win, mode, now, batch) => w.(rows := GrantEach(w.rows, us, plan, win, mode, now, batch).0)
    case Revoke(i, now) =>
      if i < |w.rows| && w.rows[i].revokedAt.None?
      then w.(rows := w.rows[i := w.rows[i].(revokedAt := Some(now))])
      else w
  }

  /**
   The steps are the operations: one that reads and commits with nothing between
   writes what the operation writes, if it accepts, and nothing if it refuses.
   */
  lemma StepsAreTheOperations(plans: Catalogue, w: World, op: OpId, i: GrantId, days: int, plan: PlanId, reason: string, now: int)
    requires op !in w.changes && Trim(reason) != "" && plan in plans && plans[plan].CanBroadcast()
    ensures Next(w, Revoke(i, now)).rows == match RevocationOf(w.rows, i, reason, now)
              case Ok(rows) => rows
              case Err(_) => w.rows
    ensures Next(Next(w, ReadExtend(op, i, days)), Commit(op, now)).rows == match ExtensionOf(w.rows, i, days, reason, now)
              case Ok(rows) => rows
              case Err(_) => w.rows
    ensures Next(Next(w, ReadPlanChange(op, i, plan)), Commit(op, now)).rows ==
              match PlanChangeOf(plans, w.rows, i, plan, reason, now)
              case Ok(rows) => rows
              case Err(_) => w.rows
    ensures Next(Next(w, ReadExtend(op, i, days)), Commit(op, now)).changes == w.changes
    ensures Next(Next(w, ReadPlanChange(op, i, plan)), Commit(op, now)).changes == w.changes
  {
    hide Trim, GrantEach;
  }

  /** And so is a batch. */
  lemma BatchStepIsTheBatch(
      plans: Catalogue, disabled: map<UserId, bool>, w: World, q: Request, us: seq<UserId>, win: Window, now: int, batch: nat)
    requires BatchOf(plans, disabled, w.rows, q, now, batch).Ok?
    requires Targets(disabled, q.ids, {}) == Ok(us) && ResolveTerm(now, q.term) == Ok(win)
    ensures Next(w, Batch(us, q.plan, win, q.mode, now, batch)).rows == BatchOf(plans, disabled, w.rows, q, now, batch).value.0
  {
    hide Trim, GrantEach, Targets, ResolveTerm;
  }

  function After(w: World, steps: seq<Step>): World
    decreases |steps|
  {
    if steps == [] then w else After(Next(w, steps[0]), steps[1..])
  }

  /** A change in progress read a row that is still there, with the same account and term, and only adds to it. */
  predicate ChangesMatch(w: World)
  {
    forall op :: op in w.changes ==>
      && w.changes[op].grant < |w.rows| && w.changes[op].addDays >= 0
      && var (was, row) := (w.changes[op].was, w.rows[w.changes[op].grant]);
         was.user == row.user && was.start == row.start && was.end == row.end
  }

  lemma SupersedeGrows(rows: Grants, i: GrantId, g: Grant, now: int)
    requires WellFounded(rows) && i < |rows| && g.user == rows[i].user && g.supersededBy.None?
    ensures WellFounded(Supersede(rows, i, g, now)) && Grown(rows, Supersede(rows, i, g, now))
  {
  }

  lemma {:induction false} BatchGrows(rows: Grants, us: seq<UserId>, plan: PlanId, w: Window, mode: OnExisting, now: int, batch: nat)
    requires WellFounded(rows)
    ensures var rows' := GrantEach(rows, us, plan, w, mode, now, batch).0; WellFounded(rows') && Grown(rows, rows')
    decreases |us|
  {
    if us != [] {
      var rows' := GrantOne(rows, us[0], plan, w, mode, now, batch).0;
      assert WellFounded(rows') && Grown(rows, rows') by {
        OneGrows(rows, us[0], plan, w, mode, now, batch);
      }
      BatchGrows(rows', us[1..], plan, w, mode, now, batch);
      GrownChains(rows, rows', GrantEach(rows', us[1..], plan, w, mode, now, batch).0);
      hide Grown, WellFounded;
    }
  }

  lemma AppendGrows(rows: Grants, g: Grant)
    requires WellFounded(rows) && g.supersededBy.None?
    ensures WellFounded(rows + [g]) && Grown(rows, rows + [g])
  {
  }

  lemma OneGrows(rows: Grants, u: UserId, plan: PlanId, w: Window, mode: OnExisting, now: int, batch: nat)
    requires WellFounded(rows)
    ensures var rows' := GrantOne(rows, u, plan, w, mode, now, batch).0; WellFounded(rows') && Grown(rows, rows')
  {
    hide Supersede, WellFounded;
    match Existing(rows, u, now)
    case None =>
      AppendGrows(rows, Grant(u, plan, w.start, w.end, None, None, batch));
      hide Grown;
    case Some(i) =>
      match mode
      case Skip =>
      case Extend =>
        SupersedeGrows(rows, i, Grant(u, plan, rows[i].start, rows[i].end + (w.end - w.start), None, None, batch), now);
        hide Grown;
      case Reset =>
        SupersedeGrows(rows, i, Grant(u, plan, w.start, w.end, None, None, batch), now);
        hide Grown;
  }

  /** What a batch reports for one account is the row it wrote for it. */
  predicate Reports(rows: Grants, rows': Grants, plan: PlanId, batch: nat, o: GrantOutcome)
  {
    && (o.action.Skipped? <==> o.grant.None?)
    && (o.grant.Some? ==>
         && |rows| <= o.grant.value < |rows'|
         && var g := rows'[o.grant.value];
            g.user == o.user && g.plan == plan && Some(g.end) == o.end && g.batch == batch)
  }

  lemma {:induction false} OutcomesNameTheirRows(
      rows: Grants, us: seq<UserId>, plan: PlanId, w: Window, mode: OnExisting, now: int, batch: nat)
    requires WellFounded(rows)
    ensures var (rows', outcomes) := GrantEach(rows, us, plan, w, mode, now, batch);
            forall i :: 0 <= i < |outcomes| ==> Reports(rows, rows', plan, batch, outcomes[i])
    decreases |us|
  {
    if us != [] {
      var (one, first) := GrantOne(rows, us[0], plan, w, mode, now, batch);
      assert Reports(rows, one, plan, batch, first);
      OneGrows(rows, us[0], plan, w, mode, now, batch);
      hide GrantOne;
      OutcomesNameTheirRows(one, us[1..], plan, w, mode, now, batch);
      BatchGrows(one, us[1..], plan, w, mode, now, batch);
      hide WellFounded;
      var (rows', rest) := GrantEach(one, us[1..], plan, w, mode, now, batch);
      assert forall i :: 0 <= i < |rest| ==> Reports(rows, rows', plan, batch, rest[i]);
      assert Reports(rows, rows', plan, batch, first);
    }
  }

  lemma GrownChains(a: Grants, b: Grants, c: Grants)
    requires Grown(a, b) && Grown(b, c)
    ensures Grown(a, c)
  {
  }

  lemma RowsGrow(w: World, s: Step)
    requires WellFounded(w.rows) && ChangesMatch(w)
    ensures var w' := Next(w, s); WellFounded(w'.rows) && Grown(w.rows, w'.rows)
  {
    match s
    case Commit(op, now) =>
      if op in w.changes {
        var c := w.changes[op];
        var g := Grant(c.was.user, c.plan, c.was.start, c.was.end + c.addDays * DAY, None, None, c.was.batch);
        assert Next(w, s).rows == Supersede(w.rows, c.grant, g, now);
        SupersedeGrows(w.rows, c.grant, g, now);
        hide Supersede;
      }
    case Batch(us, plan, win, mode, now, batch) =>
      BatchGrows(w.rows, us, plan, win, mode, now, batch);
      hide GrantEach, WellFounded, Grown;
    case _ =>
      hide GrantEach;
  }

  lemma NextGrows(w: World, s: Step)
    requires WellFounded(w.rows) && ChangesMatch(w)
    ensures var w' := Next(w, s); WellFounded(w'.rows) && ChangesMatch(w') && Grown(w.rows, w'.rows)
  {
    RowsGrow(w, s);
    hide GrantEach, Replace, WellFounded;
  }

  /**
   Whatever operators do, in whatever order, history is only added to: every
   replaced row is revoked and points to a later row of the same account, and
   the account, plan and term of a written row never change.
   */
  lemma {:induction false} HistoryIsAppendOnly(w: World, steps: seq<Step>)
    requires WellFounded(w.rows) && ChangesMatch(w)
    ensures WellFounded(After(w, steps).rows) && ChangesMatch(After(w, steps)) && Grown(w.rows, After(w, steps).rows)
    decreases |steps|
  {
    if steps != [] {
      NextGrows(w, steps[0]);
      hide Next, WellFounded, ChangesMatch;
      HistoryIsAppendOnly(Next(w, steps[0]), steps[1..]);
      GrownChains(w.rows, Next(w, steps[0]).rows, After(w, steps).rows);
      hide Grown;
    }
  }

  /** The end of a chain of replacements. */
  function Follow(rows: Grants, i: GrantId): (r: GrantId)
    requires WellFounded(rows) && i < |rows|
    ensures i <= r < |rows| && rows[r].supersededBy.None? && rows[r].user == rows[i].user
    ensures rows[i].supersededBy.Some? ==> i < r
    decreases |rows| - i
  {
    if rows[i].supersededBy.None? then i else Follow(rows, rows[i].supersededBy.value)
  }

  // ---- changes that work from a stale read --------------------------------------------

  /**
   A change writes its new row from what it read, without looking again. A grant
   revoked in between therefore comes back, for the whole of its term and the
   days added to it.
   */
  lemma RevokedGrantComesBack(w: World, op: OpId, revokedAt: int, now: int, t: int)
    requires op in w.changes && w.changes[op].grant < |w.rows|
    requires w.rows[w.changes[op].grant] == w.changes[op].was && w.changes[op].was.revokedAt.None?
    requires w.changes[op].was.start <= t < w.changes[op].was.end + w.changes[op].addDays * DAY
    ensures var revoked := Next(w, Revoke(w.changes[op].grant, revokedAt));
            && revoked.rows[w.changes[op].grant].revokedAt.Some?
            && Covered(Next(revoked, Commit(op, now)).rows, w.changes[op].was.user, t)
  {
    var c := w.changes[op];
    var revoked := Next(w, Revoke(c.grant, revokedAt));
    var g := Grant(c.was.user, c.plan, c.was.start, c.was.end + c.addDays * DAY, None, None, c.was.batch);
    SupersedeCovers(revoked.rows, c.grant, g, now, c.was.user, t);
  }

  predicate Pending(w: World, i: GrantId)
  {
    exists op :: op in w.changes && w.changes[op].grant == i
  }

  lemma RevokedRests(w: World, s: Step, i: GrantId)
    requires i < |w.rows| && w.rows[i].revokedAt.Some? && !Pending(w, i)
    ensures var w' := Next(w, s); i < |w'.rows| && w'.rows[i] == w.rows[i] && !Pending(w', i)
  {
    match s
    case Batch(us, plan, win, mode, now, batch) =>
      BatchLeavesRevoked(w.rows, us, plan, win, mode, now, batch, i);
      hide GrantEach;
    case Commit(op, now) =>
      assert op in w.changes ==> w.changes[op].grant != i;
    case _ =>
      hide GrantEach;
  }

  lemma {:induction false} BatchLeavesRevoked(
      rows: Grants, us: seq<UserId>, plan: PlanId, w: Window, mode: OnExisting, now: int, batch: nat, i: GrantId)
    requires i < |rows| && rows[i].revokedAt.Some?
    ensures var rows' := GrantEach(rows, us, plan, w, mode, now, batch).0; i < |rows'| && rows'[i] == rows[i]
    decreases |us|
  {
    if us != [] {
      var one := GrantOne(rows, us[0], plan, w, mode, now, batch).0;
      assert i < |one| && one[i] == rows[i];
      hide GrantOne;
      BatchLeavesRevoked(one, us[1..], plan, w, mode, now, batch, i);
    }
  }

  lemma {:induction false} RevokedRestsForGood(w: World, steps: seq<Step>, i: GrantId)
    requires i < |w.rows| && w.rows[i].revokedAt.Some? && !Pending(w, i)
    ensures var w' := After(w, steps); i < |w'.rows| && w'.rows[i] == w.rows[i] && !Pending(w', i)
    decreases |steps|
  {
    if steps != [] {
      RevokedRests(w, steps[0], i);
      hide Next, Pending;
      RevokedRestsForGood(Next(w, steps[0]), steps[1..], i);
    }
  }

  /** After some run the grant has been replaced, by a row that restores its term. */
  predicate BroughtBack(w: World, end: World, i: GrantId)
    requires i < |w.rows|
  {
    && i < |end.rows| && w.rows[i].supersededBy.None? && end.rows[i].supersededBy.Some?
    && end.rows[i].supersededBy.value < |end.rows|
    && var g := end.rows[end.rows[i].supersededBy.value];
       g.user == w.rows[i].user && g.revokedAt.None? && g.start == w.rows[i].start && g.end >= w.rows[i].end
  }

  /**
   A revoked grant comes back in some run exactly when a change to it was in
   progress as it was revoked; otherwise its row never changes again.
   */
  lemma RevocationHoldsExactly(w: World, i: GrantId, revokedAt: int)
    requires ChangesMatch(w) && WellFounded(w.rows) && i < |w.rows| && w.rows[i].revokedAt.None?
    ensures (exists steps :: BroughtBack(w, After(Next(w, Revoke(i, revokedAt)), steps), i)) <==> Pending(w, i)
    ensures !Pending(w, i) ==>
              forall steps :: var end := After(Next(w, Revoke(i, revokedAt)), steps);
                i < |end.rows| && end.rows[i] == w.rows[i].(revokedAt := Some(revokedAt))
  {
    var revoked := Next(w, Revoke(i, revokedAt));
    if Pending(w, i) {
      var op :| op in w.changes && w.changes[op].grant == i;
      var end := Next(revoked, Commit(op, revokedAt));
      assert After(revoked, [Commit(op, revokedAt)]) == After(end, []) == end;
      assert w.changes[op].addDays * DAY >= 0;
      assert BroughtBack(w, After(revoked, [Commit(op, revokedAt)]), i);
    } else {
      assert !Pending(revoked, i);
      forall steps ensures var end := After(revoked, steps);
          i < |end.rows| && end.rows[i] == w.rows[i].(revokedAt := Some(revokedAt))
      {
        RevokedRestsForGood(revoked, steps, i);
      }
    }
  }

  /** Two extensions that read the same grant do not add up: the account ends with the longer of the two. */
  lemma ParallelExtensionsDoNotAdd(w: World, a: OpId, b: OpId, now: int, later: int, u: UserId, t: int)
    requires a in w.changes && b in w.changes && a != b
    requires w.changes[a].grant == w.changes[b].grant < |w.rows|
    requires w.changes[a].was == w.changes[b].was == w.rows[w.changes[a].grant]
    requires w.changes[a].was.user == u && w.changes[a].was.revokedAt.None?
    requires w.changes[a].addDays >= w.changes[b].addDays >= 0
    ensures var rows' := Next(Next(w, Commit(a, now)), Commit(b, later)).rows;
            Covered(rows', u, t) <==>
              || CoveredBesides(w.rows, w.changes[a].grant, u, t)
              || w.changes[a].was.start <= t < w.changes[a].was.end + w.changes[a].addDays * DAY
  {
    var ca, cb := w.changes[a], w.changes[b];
    var i := ca.grant;
    var ga := Grant(u, ca.plan, ca.was.start, ca.was.end + ca.addDays * DAY, None, None, ca.was.batch);
    var gb := Grant(u, cb.plan, cb.was.start, cb.was.end + cb.addDays * DAY, None, None, cb.was.batch);
    var one := Supersede(w.rows, i, ga, now);
    var two := Supersede(one, i, gb, later);
    assert Next(w, Commit(a, now)).rows == one;
    assert Next(Next(w, Commit(a, now)), Commit(b, later)).rows == two;
    SupersedeCovers(w.rows, i, ga, now, u, t);
    SupersedeCovers(one, i, gb, later, u, t);
    CoveredSplits(one, i, u, t);
    assert one[i].revokedAt.Some?;
    assert cb.addDays * DAY <= ca.addDays * DAY;
    hide Covered, CoveredBesides, Next, Supersede;
  }
}
