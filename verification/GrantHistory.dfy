/**
 Grants as an operator writes them: one at a time or a cohort at once, extended,
 moved to another plan, taken back. Rows are replaced and never deleted.
 */
module GrantHistory {
  import opened Common
  import opened Text
  import opened Plans

  const DAY: int := 86400
  const MAX_GRANT_DAYS: int := 400
  const MAX_BULK_TARGETS: int := 100

  datatype GrantError =
    | NoTargets | TooManyTargets | UnknownPlan | CannotBroadcast | NoReason
    | UnknownUser(user: UserId) | DisabledUser(user: UserId)
    | BadTerm | UnknownGrant | AlreadyRevoked

  /** Days from now, or two dates in Seoul, both included; `None` is a date that does not exist. */
  datatype Term = Days(n: int) | Between(from: Option<int>, to: Option<int>)

  datatype Window = Window(start: int, end: int)

  /** Seoul is nine hours ahead, so its day begins nine hours earlier. */
  function SeoulMidnight(day: int): int
  {
    day * DAY - 9 * 3600
  }

  function ResolveTerm(now: int, term: Term): (r: Result<Window, GrantError>)
  {
    match term
    case Days(n) =>
      if n <= 0 || n > MAX_GRANT_DAYS then Err(BadTerm) else Ok(Window(now, now + n * DAY))
    case Between(from, to) =>
      if from.None? || to.None? then Err(BadTerm)
      else
        var w := Window(SeoulMidnight(from.value), SeoulMidnight(to.value + 1));
        if w.end <= w.start || w.end - w.start > MAX_GRANT_DAYS * DAY then Err(BadTerm) else Ok(w)
  }

  /**
   Which terms are accepted, and that every one is a whole number of days, one to
   four hundred: from now on, or every instant of the days named, as Seoul counts them.
   */
  lemma TermsAreWholeDays(now: int, term: Term, t: int)
    ensures ResolveTerm(now, term).Ok? ==>
              var w := ResolveTerm(now, term).value;
              exists days {:trigger days * DAY} :: 1 <= days <= MAX_GRANT_DAYS && w.end - w.start == days * DAY
    ensures ResolveTerm(now, term).Ok? <==>
              match term
              case Days(n) => 1 <= n <= MAX_GRANT_DAYS
              case Between(from, to) => from.Some? && to.Some? && from.value <= to.value < from.value + MAX_GRANT_DAYS
    ensures ResolveTerm(now, term).Ok? ==>
              var w := ResolveTerm(now, term).value;
              w.start <= t < w.end <==>
                match term
                case Days(n) => now <= t < now + 86400 * n
                case Between(from, to) => from.value <= LocalDay(t) <= to.value
    ensures ResolveTerm(now, term).Err? ==> ResolveTerm(now, term) == Err(BadTerm)
  {
    match term
    case Days(n) =>
      if ResolveTerm(now, term).Ok? {
        assert ResolveTerm(now, term).value.end - ResolveTerm(now, term).value.start == n * DAY;
      }
    case Between(from, to) =>
      if from.Some? && to.Some? {
        assert SeoulMidnight(to.value + 1) - SeoulMidnight(from.value) == (to.value + 1 - from.value) * DAY;
        DaysBeginAtThree(LocalDay(t), t);
      }
  }

  datatype OnExisting = Extend | Reset | Skip

  datatype Action = Created | Extended | Replaced | Skipped

  datatype GrantOutcome = GrantOutcome(user: UserId, action: Action, grant: Option<GrantId>, end: Option<int>)

  /** The live row of this account that ends last. */
  function Existing(rows: Grants, u: UserId, now: int): (r: Option<GrantId>)
    ensures r.Some? ==> r.value < |rows| && rows[r.value].user == u && rows[r.value].Covers(now)
    ensures forall j :: 0 <= j < |rows| && rows[j].user == u && rows[j].Covers(now) ==>
              r.Some? && rows[j].end <= rows[r.value].end
    decreases |rows|
  {
    if rows == [] then None
    else
      var n := |rows| - 1;
      var best := Existing(rows[..n], u, now);
      if rows[n].user == u && rows[n].Covers(now) && (best.None? || rows[n].end > rows[best.value].end)
      then Some(n) else best
  }

  /** Write a new row; retire row `i` in its favour. */
  function Supersede(rows: Grants, i: GrantId, g: Grant, now: int): Grants
    requires i < |rows|
  {
    rows[i := rows[i].(revokedAt := Some(now), supersededBy := Some(|rows|))] + [g]
  }

  function GrantOne(rows: Grants, u: UserId, plan: PlanId, w: Window, mode: OnExisting, now: int, batch: nat)
    : (Grants, GrantOutcome)
  {
    match Existing(rows, u, now)
    case None =>
      (rows + [Grant(u, plan, w.start, w.end, None, None, batch)],
       GrantOutcome(u, Created, Some(|rows|), Some(w.end)))
    case Some(i) =>
      match mode
      case Skip => (rows, GrantOutcome(u, Skipped, None, None))
      case Extend =>
        var end := rows[i].end + (w.end - w.start);
        (Supersede(rows, i, Grant(u, plan, rows[i].start, end, None, None, batch), now),
         GrantOutcome(u, Extended, Some(|rows|), Some(end)))
      case Reset =>
        (Supersede(rows, i, Grant(u, plan, w.start, w.end, None, None, batch), now),
         GrantOutcome(u, Replaced, Some(|rows|), Some(w.end)))
  }

  function GrantEach(rows: Grants, us: seq<UserId>, plan: PlanId, w: Window, mode: OnExisting, now: int, batch: nat)
    : (Grants, seq<GrantOutcome>)
    decreases |us|
  {
    if us == [] then (rows, [])
    else
      var (rows', first) := GrantOne(rows, us[0], plan, w, mode, now, batch);
      var (rows'', rest) := GrantEach(rows', us[1..], plan, w, mode, now, batch);
      (rows'', [first] + rest)
  }

  /** The accounts asked for, once each, in order; the first bad one refuses the list. */
  function Targets(disabled: map<UserId, bool>, ids: seq<UserId>, seen: set<UserId>): Result<seq<UserId>, GrantError>
    decreases |ids|
  {
    if ids == [] then Ok([])
    else if ids[0] in seen then Targets(disabled, ids[1..], seen)
    else if ids[0] !in disabled then Err(UnknownUser(ids[0]))
    else if disabled[ids[0]] then Err(DisabledUser(ids[0]))
    else
      match Targets(disabled, ids[1..], seen + {ids[0]})
      case Err(e) => Err(e)
      case Ok(rest) => Ok([ids[0]] + rest)
  }

  /** What an operator asks for. */
  datatype Request = Request(ids: seq<UserId>, plan: PlanId, term: Term, reason: string, mode: OnExisting)

  function BatchOf(plans: Catalogue, disabled: map<UserId, bool>, rows: Grants, q: Request, now: int, batch: nat)
    : Result<(Grants, seq<GrantOutcome>), GrantError>
  {
    if q.ids == [] then Err(NoTargets)
    else if |q.ids| > MAX_BULK_TARGETS then Err(TooManyTargets)
    else if q.plan !in plans then Err(UnknownPlan)
    else if !plans[q.plan].CanBroadcast() then Err(CannotBroadcast)
    else if Trim(q.reason) == "" then Err(NoReason)
    else
      match Targets(disabled, q.ids, {})
      case Err(e) => Err(e)
      case Ok(us) =>
        match ResolveTerm(now, q.term)
        case Err(e) => Err(e)
        case Ok(w) => Ok(GrantEach(rows, us, q.plan, w, q.mode, now, batch))
  }

  /** `supersede`: works from the row as it was read, and does not look at it again. */
  function Replace(rows: Grants, i: GrantId, was: Grant, plan: PlanId, addDays: int, now: int): Grants
    requires i < |rows|
  {
    Supersede(rows, i, Grant(was.user, plan, was.start, was.end + addDays * DAY, None, None, was.batch), now)
  }

  function ExtensionOf(rows: Grants, i: GrantId, days: int, reason: string, now: int): Result<Grants, GrantError>
  {
    if days <= 0 || days > MAX_GRANT_DAYS then Err(BadTerm)
    else if i >= |rows| then Err(UnknownGrant)
    else if rows[i].revokedAt.Some? then Err(AlreadyRevoked)
    else if Trim(reason) == "" then Err(NoReason)
    else Ok(Replace(rows, i, rows[i], rows[i].plan, days, now))
  }

  function PlanChangeOf(plans: Catalogue, rows: Grants, i: GrantId, plan: PlanId, reason: string, now: int)
    : Result<Grants, GrantError>
  {
    if i >= |rows| then Err(UnknownGrant)
    else if rows[i].revokedAt.Some? then Err(AlreadyRevoked)
    else if plan !in plans then Err(UnknownPlan)
    else if !plans[plan].CanBroadcast() then Err(CannotBroadcast)
    else if Trim(reason) == "" then Err(NoReason)
    else Ok(Replace(rows, i, rows[i], plan, 0, now))
  }

  function RevocationOf(rows: Grants, i: GrantId, reason: string, now: int): Result<Grants, GrantError>
  {
    if Trim(reason) == "" then Err(NoReason)
    else if i >= |rows| then Err(UnknownGrant)
    else if rows[i].revokedAt.Some? then Err(AlreadyRevoked)
    else Ok(rows[i := rows[i].(revokedAt := Some(now))])
  }

  /** The `admin_grants` table and the statements made against it. */
  class GrantStore {
    const plans: Catalogue
    var disabled: map<UserId, bool>
    var rows: Grants

    constructor (plans: Catalogue, disabled: map<UserId, bool>)
      ensures this.plans == plans && this.disabled == disabled && rows == []
    {
      this.plans := plans;
      this.disabled := disabled;
      rows := [];
    }

    /** The list of targets, checked before anything is written. */
    method ResolveTargets(ids: seq<UserId>) returns (r: Result<seq<UserId>, GrantError>)
      ensures r == Targets(disabled, ids, {})
    {
      var targets: seq<UserId> := [];
      var seen: set<UserId> := {};
      var i := 0;
      assert ids[0..] == ids && forall rest: seq<UserId> :: targets + rest == rest;
      while i < |ids|
        invariant 0 <= i <= |ids|
        invariant Targets(disabled, ids, {}) ==
          match Targets(disabled, ids[i..], seen)
          case Err(e) => Err(e)
          case Ok(rest) => Ok(targets + rest)
      {
        var id := ids[i];
        assert ids[i..][0] == id && ids[i..][1..] == ids[i + 1..];
        if id !in seen {
          if id !in disabled {
            return Err(UnknownUser(id));
          }
          if disabled[id] {
            return Err(DisabledUser(id));
          }
          ghost var before := targets;
          targets := targets + [id];
          seen := seen + {id};
          assert forall rest :: before + ([id] + rest) == targets + rest;
        }
        i := i + 1;
      }
      assert targets + [] == targets;
      r := Ok(targets);
    }

    method CreateGrants(q: Request, now: int, batch: nat) returns (r: Result<seq<GrantOutcome>, GrantError>)
      modifies this`rows
      ensures match BatchOf(plans, disabled, old(rows), q, now, batch)
              case Err(e) => r == Err(e) && rows == old(rows)
              case Ok(done) => r == Ok(done.1) && rows == done.0
    {
      if q.ids == [] {
        return Err(NoTargets);
      }
      if |q.ids| > MAX_BULK_TARGETS {
        return Err(TooManyTargets);
      }
      if q.plan !in plans {
        return Err(UnknownPlan);
      }
      if !plans[q.plan].CanBroadcast() {
        return Err(CannotBroadcast);
      }
      if Trim(q.reason) == "" {
        return Err(NoReason);
      }
      var resolved := ResolveTargets(q.ids);
      if resolved.Err? {
        return Err(resolved.error);
      }
      var term := ResolveTerm(now, q.term);
      if term.Err? {
        return Err(term.error);
      }
      var outcomes := WriteAll(resolved.value, q.plan, term.value, q.mode, now, batch);
      r := Ok(outcomes);
    }

    /** The body of the transaction: a row for every target, in order. */
    method WriteAll(targets: seq<UserId>, plan: PlanId, w: Window, mode: OnExisting, now: int, batch: nat)
      returns (outcomes: seq<GrantOutcome>)
      modifies this`rows
      ensures (rows, outcomes) == GrantEach(old(rows), targets, plan, w, mode, now, batch)
    {
      outcomes := [];
      var i := 0;
      assert targets[0..] == targets && forall rest: seq<GrantOutcome> :: outcomes + rest == rest;
      while i < |targets|
        invariant 0 <= i <= |targets|
        invariant GrantEach(old(rows), targets, plan, w, mode, now, batch) ==
          var (end, rest) := GrantEach(rows, targets[i..], plan, w, mode, now, batch); (end, outcomes + rest)
      {
        var u := targets[i];
        assert targets[i..][0] == u && targets[i..][1..] == targets[i + 1..];
        ghost var (rows', first) := GrantOne(rows, u, plan, w, mode, now, batch);
        ghost var before := outcomes;
        var outcome := WriteOne(u, plan, w, mode, now, batch);
        outcomes := outcomes + [outcome];
        assert forall rest :: before + ([outcome] + rest) == outcomes + rest;
        i := i + 1;
      }
      assert outcomes + [] == outcomes;
    }

    method WriteOne(u: UserId, plan: PlanId, w: Window, mode: OnExisting, now: int, batch: nat)
      returns (outcome: GrantOutcome)
      modifies this`rows
      ensures (rows, outcome) == GrantOne(old(rows), u, plan, w, mode, now, batch)
    {
      var existing := Existing(rows, u, now);
      var action, start, end := Created, w.start, w.end;
      if existing.Some? {
        if mode == Skip {
          return GrantOutcome(u, Skipped, None, None);
        } else if mode == Extend {
          action, start, end := Extended, rows[existing.value].start, rows[existing.value].end + (w.end - w.start);
        } else {
          action := Replaced;
        }
      }
      var id := |rows|;
      rows := rows + [Grant(u, plan, start, end, None, None, batch)];
      if existing.Some? {
        var i := existing.value;
        rows := rows[i := rows[i].(revokedAt := Some(now), supersededBy := Some(id))];
        assert rows == Supersede(old(rows), i, Grant(u, plan, start, end, None, None, batch), now);
      }
      outcome := GrantOutcome(u, action, Some(id), Some(end));
    }

    method ExtendGrant(i: GrantId, days: int, reason: string, now: int) returns (error: Option<GrantError>)
      modifies this`rows
      ensures match ExtensionOf(old(rows), i, days, reason, now)
              case Err(e) => error == Some(e) && rows == old(rows)
              case Ok(rows') => error == None && rows == rows'
    {
      if days <= 0 || days > MAX_GRANT_DAYS {
        return Some(BadTerm);
      }
      if i >= |rows| {
        return Some(UnknownGrant);
      }
      if rows[i].revokedAt.Some? {
        return Some(AlreadyRevoked);
      }
      error := SupersedeRow(i, rows[i], rows[i].plan, days, reason, now);
    }

    method ChangeGrantPlan(i: GrantId, plan: PlanId, reason: string, now: int) returns (error: Option<GrantError>)
      modifies this`rows
      ensures match PlanChangeOf(plans, old(rows), i, plan, reason, now)
              case Err(e) => error == Some(e) && rows == old(rows)
              case Ok(rows') => error == None && rows == rows'
    {
      if i >= |rows| {
        return Some(UnknownGrant);
      }
      if rows[i].revokedAt.Some? {
        return Some(AlreadyRevoked);
      }
      if plan !in plans {
        return Some(UnknownPlan);
      }
      if !plans[plan].CanBroadcast() {
        return Some(CannotBroadcast);
      }
      error := SupersedeRow(i, rows[i], plan, 0, reason, now);
    }

    method SupersedeRow(i: GrantId, was: Grant, plan: PlanId, addDays: int, reason: string, now: int)
      returns (error: Option<GrantError>)
      requires i < |rows|
      modifies this`rows
      ensures if Trim(reason) == "" then error == Some(NoReason) && rows == old(rows)
              else error == None && rows == Replace(old(rows), i, was, plan, addDays, now)
    {
      if Trim(reason) == "" {
        return Some(NoReason);
      }
      var id := |rows|;
      rows := rows + [Grant(was.user, plan, was.start, was.end + addDays * DAY, None, None, was.batch)];
      rows := rows[i := rows[i].(revokedAt := Some(now), supersededBy := Some(id))];
      error := None;
    }

    method RevokeGrant(i: GrantId, reason: string, now: int) returns (error: Option<GrantError>)
      modifies this`rows
      ensures match RevocationOf(old(rows), i, reason, now)
              case Err(e) => error == Some(e) && rows == old(rows)
              case Ok(rows') => error == None && rows == rows'
    {
      if Trim(reason) == "" {
        return Some(NoReason);
      }
      if i >= |rows| {
        return Some(UnknownGrant);
      }
      if rows[i].revokedAt.Some? {
        return Some(AlreadyRevoked);
      }
      rows := rows[i := rows[i].(revokedAt := Some(now))];
      error := None;
    }
  }
}
