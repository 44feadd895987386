/**
 Broadcast slots: who may run how many broadcasts at once.

 A start reads the account's plan first and claims a slot afterwards, in one
 transaction. Between the two, any other request may run. The ceilings below
 are stated over every interleaving of those steps.
 */
module Slots {
  import opened Common
  import opened Text

  type UserId = string
  type BroadcastId = string
  type RequestId = nat

  datatype RuntimeState = Created | Preparing | Starting | Running | Reconnecting | Stopping | Stopped | Failed {
    predicate OccupiesASlot() {
      Preparing? || Starting? || Running? || Reconnecting?
    }
  }

  /** The columns of a broadcast row that decide who holds a slot. */
  datatype Broadcast = Broadcast(
    owner: UserId, wanted: bool, runtime: RuntimeState, heldBack: bool, cctvUrl: string)
  {
    /** `desired_state='running' AND held_back_at IS NULL`. */
    predicate Holds() {
      wanted && !heldBack
    }

    /** `COALESCE(TRIM(cctv_url), '') <> ''`; SQLite trims spaces. */
    predicate Encodes() {
      exists i :: 0 <= i < |cctvUrl| && cctvUrl[i] != ' '
    }
  }

  type Table = map<BroadcastId, Broadcast>

  datatype ClaimResult =
    | Granted
    | AlreadyHeld
    | NoSuchBroadcast
    | NotYours
    | ConcurrencyReached(used: nat, allowed: int)
    | EncoderBusy(running: nat, budget: nat)

  /** The rows counted against one account's plan. */
  function Holders(t: Table, u: UserId): set<BroadcastId>
  {
    set b | b in t && t[b].owner == u && t[b].Holds()
  }

  /** The rows counted against the machine's encoders, whoever owns them. */
  function Encoders(t: Table): set<BroadcastId>
  {
    set b | b in t && t[b].Holds() && t[b].Encodes()
  }

  function Claim(t: Table, u: UserId, b: BroadcastId, allowed: int, budget: nat): (Table, ClaimResult)
  {
    if b !in t then (t, NoSuchBroadcast)
    else if t[b].owner != u then (t, NotYours)
    else if t[b].Holds() then (t, AlreadyHeld)
    else if |Holders(t, u)| >= allowed then (t, ConcurrencyReached(|Holders(t, u)|, allowed))
    else if t[b].Encodes() && |Encoders(t)| >= budget then (t, EncoderBusy(|Encoders(t)|, budget))
    else (t[b := t[b].(wanted := true, runtime := Preparing, heldBack := false)], Granted)
  }

  function Release(t: Table, u: UserId, b: BroadcastId): (Table, bool)
  {
    if b in t && t[b].owner == u then (t[b := t[b].(wanted := false, runtime := Stopping)], true) else (t, false)
  }

  function HoldBack(t: Table, b: BroadcastId): Table
  {
    if b in t then t[b := t[b].(heldBack := true)] else t
  }

  function GiveUp(t: Table, b: BroadcastId): Table
  {
    if b in t then t[b := t[b].(wanted := false, runtime := Failed)] else t
  }

  function Delete(t: Table, u: UserId, b: BroadcastId): (Table, bool)
  {
    if b in t && t[b].owner == u then (t - {b}, true) else (t, false)
  }

  /** The address is stored trimmed. */
  function SetUrl(t: Table, b: BroadcastId, url: string): Table
  {
    if b in t then t[b := t[b].(cctvUrl := Trim(url))] else t
  }

  /** The `broadcasts` table and the writes made to it. */
  class BroadcastStore {
    var rows: Table

    constructor ()
      ensures rows == map[]
    {
      rows := map[];
    }

    /** Take a slot, or refuse; one transaction. */
    method ClaimStreamSlotWithin(user: UserId, id: BroadcastId, allowed: int, budget: nat) returns (r: ClaimResult)
      modifies this
      ensures (rows, r) == Claim(old(rows), user, id, allowed, budget)
    {
      if id !in rows {
        return NoSuchBroadcast;
      }
      var row := rows[id];
      if row.owner != user {
        return NotYours;
      }
      if row.wanted && !row.heldBack {
        return AlreadyHeld;
      }
      var used := |Holders(rows, user)|;
      if used >= allowed {
        return ConcurrencyReached(used, allowed);
      }
      if row.Encodes() {
        var running := |Encoders(rows)|;
        if running >= budget {
          return EncoderBusy(running, budget);
        }
      }
      rows := rows[id := row.(wanted := true, runtime := Preparing, heldBack := false)];
      r := Granted;
    }

    method ReleaseStreamSlot(user: UserId, id: BroadcastId) returns (found: bool)
      modifies this
      ensures (rows, found) == Release(old(rows), user, id)
    {
      found := id in rows && rows[id].owner == user;
      if found {
        rows := rows[id := rows[id].(wanted := false, runtime := Stopping)];
      }
    }

    method HoldBackRow(id: BroadcastId)
      modifies this
      ensures rows == HoldBack(old(rows), id)
    {
      if id in rows {
        rows := rows[id := rows[id].(heldBack := true)];
      }
    }

    method GiveUpRow(id: BroadcastId)
      modifies this
      ensures rows == GiveUp(old(rows), id)
    {
      if id in rows {
        rows := rows[id := rows[id].(wanted := false, runtime := Failed)];
      }
    }

    method DeleteBroadcastOwned(user: UserId, id: BroadcastId) returns (found: bool)
      modifies this
      ensures (rows, found) == Delete(old(rows), user, id)
    {
      found := id in rows && rows[id].owner == user;
      if found {
        rows := rows - {id};
      }
    }
  }

  // ---- what one claim does ------------------------------------------------

  /** Writing a row moves one id in or out of a count, and no other. */
  lemma CountsAfterWrite(t: Table, b: BroadcastId, row: Broadcast, u: UserId)
    ensures var t' := t[b := row];
            && Holders(t', u) == (if row.owner == u && row.Holds() then Holders(t, u) + {b} else Holders(t, u) - {b})
            && Encoders(t') == (if row.Holds() && row.Encodes() then Encoders(t) + {b} else Encoders(t) - {b})
  {
  }

  /**
   A granted claim raises its account's count by exactly one and stays within
   the plan it was given; it raises the encoder count exactly when the
   broadcast encodes, and then stays within the budget; every other account's
   count is what it was. Any other answer changes nothing.
   */
  lemma ClaimTakesOneSlot(t: Table, u: UserId, b: BroadcastId, allowed: int, budget: nat, other: UserId)
    ensures var (t', r) := Claim(t, u, b, allowed, budget);
            && (r == Granted ==>
                 && |Holders(t', u)| == |Holders(t, u)| + 1 <= allowed
                 && |Encoders(t')| == |Encoders(t)| + (if t[b].Encodes() then 1 else 0)
                 && (t[b].Encodes() ==> |Encoders(t')| <= budget)
                 && (other != u ==> Holders(t', other) == Holders(t, other))
                 && t' - {b} == t - {b}
                 && t'[b].owner == u && t'[b].cctvUrl == t[b].cctvUrl && t'[b].Holds()
                 && t'[b].runtime.Preparing?)
            && (r != Granted ==> t' == t)
  {
    var (t', r) := Claim(t, u, b, allowed, budget);
    if r == Granted {
      var row := t[b].(wanted := true, runtime := Preparing, heldBack := false);
      GrantedExactly(t, u, b, allowed, budget);
      hide Claim;
      OneMoreHolder(t, u, b, row);
      OthersKeepTheirs(t, u, b, row, other);
    }
  }

  lemma GrantedExactly(t: Table, u: UserId, b: BroadcastId, allowed: int, budget: nat)
    ensures Claim(t, u, b, allowed, budget).1 == Granted <==>
              && b in t && t[b].owner == u && !t[b].Holds() && |Holders(t, u)| < allowed
              && (t[b].Encodes() ==> |Encoders(t)| < budget)
    ensures Claim(t, u, b, allowed, budget).0 ==
              if Claim(t, u, b, allowed, budget).1 == Granted
              then t[b := t[b].(wanted := true, runtime := Preparing, heldBack := false)] else t
  {
    hide Holders, Encoders;
  }

  lemma OneMoreHolder(t: Table, u: UserId, b: BroadcastId, row: Broadcast)
    requires b in t && t[b].owner == row.owner == u && !t[b].Holds() && row.Holds() && row.Encodes() == t[b].Encodes()
    ensures |Holders(t[b := row], u)| == |Holders(t, u)| + 1
    ensures |Encoders(t[b := row])| == |Encoders(t)| + if row.Encodes() then 1 else 0
  {
    CountsAfterWrite(t, b, row, u);
    assert b !in Holders(t, u) && b !in Encoders(t);
    hide Holders, Encoders;
  }

  lemma OthersKeepTheirs(t: Table, u: UserId, b: BroadcastId, row: Broadcast, other: UserId)
    requires b in t && t[b].owner == row.owner == u
    ensures other != u ==> Holders(t[b := row], other) == Holders(t, other)
    ensures t[b := row] - {b} == t - {b}
  {
    CountsAfterWrite(t, b, row, other);
  }

  /** An address of spaces is no camera, and any other is. */
  lemma EncodesExactly(row: Broadcast)
    ensures row.Encodes() <==> SqlTrim(row.cctvUrl) != ""
    ensures row.Encodes() <==> row.cctvUrl != seq(|row.cctvUrl|, _ => ' ')
  {
    SpacesAre(' ', row.cctvUrl);
  }

  /** The rows of these that are meant to run and are not held back, by account and by camera. */
  function Occupying(t: Table, u: UserId): set<BroadcastId>
  {
    set b | b in t && t[b].owner == u && t[b].wanted && !t[b].heldBack
  }

  function Sending(t: Table): set<BroadcastId>
  {
    set b | b in t && t[b].wanted && !t[b].heldBack && SqlTrim(t[b].cctvUrl) != ""
  }

  /**
   Every answer, in the order the checks are made. A camera's broadcast is refused
   when as many camera broadcasts run as the machine has encoders for, whoever
   owns them; one without an address is not.
   */
  lemma ClaimAnswersExactly(t: Table, u: UserId, b: BroadcastId, allowed: int, budget: nat)
    ensures var r := Claim(t, u, b, allowed, budget).1;
            && (b !in t ==> r == NoSuchBroadcast)
            && (b in t ==>
                 if t[b].owner != u then r == NotYours
                 else if b in Occupying(t, u) then r == AlreadyHeld
                 else if |Occupying(t, u)| >= allowed then r == ConcurrencyReached(|Occupying(t, u)|, allowed)
                 else if SqlTrim(t[b].cctvUrl) != "" && |Sending(t)| >= budget then r == EncoderBusy(|Sending(t)|, budget)
                 else r == Granted)
  {
    forall k | k in t ensures t[k].Encodes() <==> SqlTrim(t[k].cctvUrl) != "" {
      EncodesExactly(t[k]);
    }
    hide Stripped;
    assert Occupying(t, u) == Holders(t, u);
    assert Sending(t) == Encoders(t);
  }

  // ---- giving a slot back ---------------------------------------------------------

  /** This row no longer counts against anything, and no other row has changed. */
  ghost predicate Freed(t: Table, t': Table, b: BroadcastId)
    requires b in t
  {
    && t'.Keys == t.Keys && t' - {b} == t - {b}
    && t'[b].owner == t[b].owner && t'[b].cctvUrl == t[b].cctvUrl
    && (forall v :: Holders(t', v) == Holders(t, v) - {b})
    && Encoders(t') == Encoders(t) - {b}
  }

  lemma FreedByWrite(t: Table, b: BroadcastId, row: Broadcast)
    requires b in t && row.owner == t[b].owner && row.cctvUrl == t[b].cctvUrl && (!row.wanted || row.heldBack)
    ensures Freed(t, t[b := row], b)
  {
    forall v ensures Holders(t[b := row], v) == Holders(t, v) - {b} {
      CountsAfterWrite(t, b, row, v);
    }
    CountsAfterWrite(t, b, row, "");
  }

  /**
   Stopping succeeds exactly for the owner's row, which then counts neither for
   its account nor as an encoder nor on the dashboard; otherwise nothing changes.
   */
  lemma ReleaseFreesExactly(t: Table, u: UserId, b: BroadcastId)
    ensures var (t', found) := Release(t, u, b);
            && (found <==> b in t && t[b].owner == u)
            && (found ==> Freed(t, t', b) && b !in ActiveStreams(t', u) && t'[b].heldBack == t[b].heldBack)
            && (!found ==> t' == t)
  {
    var (t', found) := Release(t, u, b);
    if found {
      FreedByWrite(t, b, t'[b]);
    }
  }

  /** Giving up frees the row whoever owns it, and holding back parks it: it still wants to run. */
  lemma ParkingFrees(t: Table, b: BroadcastId)
    requires b in t
    ensures Freed(t, GiveUp(t, b), b) && b !in ActiveStreams(GiveUp(t, b), t[b].owner)
    ensures GiveUp(t, b)[b].heldBack == t[b].heldBack
    ensures Freed(t, HoldBack(t, b), b) && (b in Parked(HoldBack(t, b), t[b].owner) <==> t[b].wanted)
    ensures HoldBack(t, b)[b].runtime == t[b].runtime
  {
    FreedByWrite(t, b, GiveUp(t, b)[b]);
    FreedByWrite(t, b, HoldBack(t, b)[b]);
  }

  /** Deleting succeeds exactly for the owner's row, takes it out of every count and leaves the others. */
  lemma DeleteFreesExactly(t: Table, u: UserId, b: BroadcastId, v: UserId)
    ensures var (t', found) := Delete(t, u, b);
            && (found <==> b in t && t[b].owner == u)
            && t' == (if found then t - {b} else t)
            && (found ==> Holders(t', v) == Holders(t, v) - {b} && Encoders(t') == Encoders(t) - {b})
  {
  }

  /** A claim refused because the plan is full goes through once one of the account's slots is given back. */
  lemma ReleasedSlotCanBeClaimed(t: Table, u: UserId, b: BroadcastId, c: BroadcastId, allowed: nat, budget: nat)
    requires Claim(t, u, b, allowed, budget).1 == ConcurrencyReached(allowed, allowed)
    requires c in Holders(t, u) && (t[b].Encodes() ==> |Encoders(t)| < budget)
    ensures Claim(Release(t, u, c).0, u, b, allowed, budget).1 == Granted
  {
    var t' := Release(t, u, c).0;
    ReleaseFreesExactly(t, u, c);
    SubsetCount(Encoders(t'), Encoders(t));
    hide Holders, Encoders;
  }

  /** And one refused for the encoders goes through once any camera's broadcast is given back. */
  lemma ReleasedEncoderCanBeClaimed(t: Table, u: UserId, b: BroadcastId, c: BroadcastId, allowed: nat, budget: nat)
    requires Claim(t, u, b, allowed, budget).1 == EncoderBusy(budget, budget) && c in Encoders(t)
    ensures Claim(Release(t, t[c].owner, c).0, u, b, allowed, budget).1 == Granted
  {
    var t' := Release(t, t[c].owner, c).0;
    ReleaseFreesExactly(t, t[c].owner, c);
    SubsetCount(Holders(t', u), Holders(t, u));
    hide Holders, Encoders;
  }

  /** Which claims are granted: an owner's, of a row without a slot, with room twice over. */
  lemma ClaimGrantedExactly(t: Table, u: UserId, b: BroadcastId, allowed: int, budget: nat)
    ensures Claim(t, u, b, allowed, budget).1 == Granted <==>
      && b in t && t[b].owner == u && !t[b].Holds()
      && |Holders(t, u) + {b}| <= allowed
      && (t[b].Encodes() ==> |Encoders(t) + {b}| <= budget)
  {
    if b in t && !t[b].Holds() {
      assert b !in Holders(t, u) && b !in Encoders(t);
    }
  }

  /** Pressing start twice takes one slot, whatever ceilings the second press reads. */
  lemma ClaimTwiceIsOnce(t: Table, u: UserId, b: BroadcastId, allowed: int, budget: nat, allowed2: int, budget2: nat)
    requires Claim(t, u, b, allowed, budget).1 == Granted
    ensures var t' := Claim(t, u, b, allowed, budget).0;
            Claim(t', u, b, allowed2, budget2) == (t', AlreadyHeld)
  {
  }

  // ---- what the dashboard counts ------------------------------------------

  /** `active_stream_count`: intent or a live runtime state. */
  function ActiveStreams(t: Table, u: UserId): set<BroadcastId>
  {
    set b | b in t && t[b].owner == u && (t[b].wanted || t[b].runtime.OccupiesASlot())
  }

  /** Rows parked by recovery: they intend to run and hold nothing. */
  function Parked(t: Table, u: UserId): set<BroadcastId>
  {
    set b | b in t && t[b].owner == u && t[b].wanted && t[b].heldBack
  }

  /** Rows nobody wants that still report a live runtime state. */
  function Lingering(t: Table, u: UserId): set<BroadcastId>
  {
    set b | b in t && t[b].owner == u && !t[b].wanted && t[b].runtime.OccupiesASlot()
  }

  /**
   The count of broadcasts "holding a slot right now" is not the count a claim
   makes: it is larger by the parked and the lingering rows, so the two agree
   exactly when the account has neither.
   */
  lemma DashboardCountsMore(t: Table, u: UserId)
    ensures |ActiveStreams(t, u)| == |Holders(t, u)| + |Parked(t, u)| + |Lingering(t, u)|
    ensures |ActiveStreams(t, u)| == |Holders(t, u)| <==> Parked(t, u) == {} && Lingering(t, u) == {}
    ensures forall b :: b in Lingering(t, u) <==>
              && b in t && t[b].owner == u && !t[b].wanted
              && t[b].runtime != Created && t[b].runtime != Stopping && t[b].runtime != Stopped && t[b].runtime != Failed
  {
    assert ActiveStreams(t, u) == Holders(t, u) + Parked(t, u) + Lingering(t, u);
    assert Holders(t, u) !! Parked(t, u) && Holders(t, u) + Parked(t, u) !! Lingering(t, u);
  }

  // ---- every interleaving -------------------------------------------------

  /** A start that has read its plan and not yet claimed. */
  datatype Request = Request(user: UserId, broadcast: BroadcastId, allowed: int)

  /**
   The table, the plan ceiling each account would read now, and the starts in
   progress. `read` is the largest ceiling any start of an account has read,
   and `switched` how often an edit put an encoder on a broadcast already
   holding a slot; both only record history.
   */
  datatype World = World(
    rows: Table,
    plan: map<UserId, int>,
    budget: nat,
    starts: map<RequestId, Request>,
    read: map<UserId, int>,
    switched: nat)

  datatype Step =
    | ReadPlan(request: RequestId, user: UserId, broadcast: BroadcastId)
    | Commit(request: RequestId)
    | Stop(user: UserId, broadcast: BroadcastId)
    | Park(broadcast: BroadcastId)
    | Abandon(broadcast: BroadcastId)
    | Remove(user: UserId, broadcast: BroadcastId)
    | Create(user: UserId, broadcast: BroadcastId)
    | Edit(broadcast: BroadcastId, url: string)
    | ChangePlan(user: UserId, allowed: int)

  /** A start with no plan in force is refused before it gets as far as a claim. */
  function PlanOf(w: World, u: UserId): int
  {
    Lookup(w.plan, u, 0)
  }

  function Read(w: World, u: UserId): int
  {
    Lookup(w.read, u, 0)
  }

  predicate SwitchesOn(t: Table, b: BroadcastId, url: string)
  {
    b in t && t[b].Holds() && !t[b].Encodes() && t[b].(cctvUrl := Trim(url)).Encodes()
  }

  /** A step that is not enabled leaves the world alone. */
  function Next(w: World, s: Step): World
  {
    match s
    case ReadPlan(r, u, b) =>
      if r in w.starts || PlanOf(w, u) <= 0 then w
      else w.(starts := w.starts[r := Request(u, b, PlanOf(w, u))], read := w.read[u := Max(Read(w, u), PlanOf(w, u))])
    case Commit(r) =>
      if r !in w.starts then w
      else
        var q := w.starts[r];
        w.(rows := Claim(w.rows, q.user, q.broadcast, q.allowed, w.budget).0, starts := w.starts - {r})
    case Stop(u, b) => w.(rows := Release(w.rows, u, b).0)
    case Park(b) => w.(rows := HoldBack(w.rows, b))
    case Abandon(b) => w.(rows := GiveUp(w.rows, b))
    case Remove(u, b) => w.(rows := Delete(w.rows, u, b).0)
    case Create(u, b) =>
      if b in w.rows then w else w.(rows := w.rows[b := Broadcast(u, false, Created, false, "")])
    case Edit(b, url) =>
      w.(rows := SetUrl(w.rows, b, url), switched := w.switched + if SwitchesOn(w.rows, b, url) then 1 else 0)
    case ChangePlan(u, allowed) => w.(plan := w.plan[u := allowed])
  }

  function RunSteps(w: World, steps: seq<Step>): World
    decreases |steps|
  {
    if steps == [] then w else RunSteps(Next(w, steps[0]), steps[1..])
  }

  /** Nobody is over the largest ceiling a start of theirs was shown, and the encoders over budget are the edited ones. */
  ghost predicate Inv(w: World)
  {
    && (forall u :: |Holders(w.rows, u)| <= Max(0, Read(w, u)))
    && |Encoders(w.rows)| <= w.budget + w.switched
    && (forall r :: r in w.starts ==> w.starts[r].allowed <= Read(w, w.starts[r].user))
  }

  /** The steps that write rows without claiming only ever take rows out of the counts, but for an edit. */
  lemma OtherWritesShrink(w: World, s: Step)
    requires s.Stop? || s.Park? || s.Abandon? || s.Remove? || s.Create? || s.Edit?
    ensures var w' := Next(w, s);
            && (forall u :: Holders(w'.rows, u) <= Holders(w.rows, u))
            && |Encoders(w'.rows)| - w'.switched <= |Encoders(w.rows)| - w.switched
  {
    if s.Edit? {
      if s.broadcast in w.rows {
        EditRaisesEncodersExactly(w.rows, s.broadcast, s.url);
      }
    } else {
      SubsetCount(Encoders(Next(w, s).rows), Encoders(w.rows));
    }
  }

  lemma CommitKeepsInv(w: World, r: RequestId)
    requires Inv(w) && r in w.starts
    ensures Inv(Next(w, Commit(r)))
  {
    var w', q := Next(w, Commit(r)), w.starts[r];
    forall v ensures |Holders(w'.rows, v)| <= Max(0, Read(w', v)) {
      ClaimTakesOneSlot(w.rows, q.user, q.broadcast, q.allowed, w.budget, v);
    }
    ClaimTakesOneSlot(w.rows, q.user, q.broadcast, q.allowed, w.budget, q.user);
  }

  lemma ReadKeepsInv(w: World, s: Step)
    requires Inv(w) && s.ReadPlan?
    ensures Inv(Next(w, s))
  {
    var w' := Next(w, s);
    forall v ensures Read(w', v) >= Read(w, v) {
    }
    forall v ensures |Holders(w'.rows, v)| <= Max(0, Read(w', v)) {
      assert Read(w', v) >= Read(w, v);
    }
  }

  lemma NextKeepsInv(w: World, s: Step)
    requires Inv(w)
    ensures Inv(Next(w, s))
  {
    match s
    case ReadPlan(_, _, _) => ReadKeepsInv(w, s);
    case Commit(r) =>
      if r in w.starts {
        CommitKeepsInv(w, r);
      }
    case ChangePlan(_, _) =>
    case _ =>
      OtherWritesShrink(w, s);
      forall u ensures |Holders(Next(w, s).rows, u)| <= |Holders(w.rows, u)| {
        SubsetCount(Holders(Next(w, s).rows, u), Holders(w.rows, u));
      }
  }

  /**
   The ceilings, over every run of every interleaving, plan changes and edits
   included. No account is ever over the largest ceiling one of its own starts
   was shown, and the encoders never exceed the budget by more than the number
   of edits that gave a running broadcast a camera without claiming for it.
   */
  lemma {:induction false} CeilingsHold(w: World, steps: seq<Step>)
    requires Inv(w)
    ensures var end := RunSteps(w, steps);
            && Inv(end)
            && (forall u :: |Holders(end.rows, u)| <= Max(0, Read(end, u)))
            && |Encoders(end.rows)| <= end.budget + end.switched
    decreases |steps|
  {
    if steps != [] {
      NextKeepsInv(w, steps[0]);
      CeilingsHold(Next(w, steps[0]), steps[1..]);
    }
  }

  /**
   The edit the encoder ceiling does not cover: it raises the count, by one and
   whatever the budget, exactly when it gives a camera to a broadcast that holds
   a slot and had none.
   */
  lemma EditRaisesEncodersExactly(t: Table, b: BroadcastId, url: string)
    ensures |Encoders(SetUrl(t, b, url))| > |Encoders(t)| <==> SwitchesOn(t, b, url)
    ensures |Encoders(SetUrl(t, b, url))| <= |Encoders(t)| + 1
  {
    if b in t {
      var row := t[b].(cctvUrl := Trim(url));
      CountsAfterWrite(t, b, row, t[b].owner);
      if SwitchesOn(t, b, url) {
        assert b !in Encoders(t);
      } else {
        SubsetCount(Encoders(SetUrl(t, b, url)), Encoders(t));
      }
    }
  }

  /** A start that nothing interrupts is a claim under the plan of its account, if that allows anything. */
  lemma UninterruptedStart(w: World, r: RequestId, u: UserId, b: BroadcastId)
    requires r !in w.starts
    ensures var done := Next(Next(w, ReadPlan(r, u, b)), Commit(r));
            && done.starts == w.starts && done.plan == w.plan
            && done.rows == if u in w.plan && w.plan[u] > 0 then Claim(w.rows, u, b, w.plan[u], w.budget).0 else w.rows
  {
    hide Claim;
    assert w.starts[r := Request(u, b, PlanOf(w, u))] - {r} == w.starts;
  }

  /** Every other step is its own write, and an edit is counted if it raises the encoders. */
  lemma StepsAreTheOperations(w: World, u: UserId, b: BroadcastId, url: string, allowed: int, v: UserId)
    ensures Next(w, Stop(u, b)).rows == Release(w.rows, u, b).0
    ensures Next(w, Park(b)).rows == HoldBack(w.rows, b) && Next(w, Abandon(b)).rows == GiveUp(w.rows, b)
    ensures Next(w, Remove(u, b)).rows == Delete(w.rows, u, b).0
    ensures var made := Next(w, Create(u, b)).rows;
            && made.Keys == w.rows.Keys + {b} && made - {b} == w.rows - {b}
            && made[b] == if b in w.rows then w.rows[b] else Broadcast(u, false, Created, false, "")
    ensures var edited := Next(w, Edit(b, url));
            && edited.rows.Keys == w.rows.Keys && edited.rows - {b} == w.rows - {b}
            && (b in w.rows ==> edited.rows[b] == w.rows[b].(cctvUrl := Trim(url)))
            && edited.switched == w.switched + if |Encoders(edited.rows)| > |Encoders(w.rows)| then 1 else 0
    ensures var changed := Next(w, ChangePlan(u, allowed));
            changed.rows == w.rows && PlanOf(changed, v) == if v == u then allowed else PlanOf(w, v)
  {
    EditRaisesEncodersExactly(w.rows, b, url);
    hide Claim, Encoders, SwitchesOn, Trim;
  }

  /** No plan changes, and no edit switches an encoder on under a running broadcast. */
  predicate Steady(w: World, steps: seq<Step>)
    decreases |steps|
  {
    steps != [] ==>
      && !steps[0].ChangePlan?
      && (steps[0].Edit? ==> !SwitchesOn(w.rows, steps[0].broadcast, steps[0].url))
      && Steady(Next(w, steps[0]), steps[1..])
  }

  /** A moment with nothing running above its ceiling and no start under way. */
  ghost predicate Quiet(w: World)
  {
    && w.starts == map[]
    && (forall u :: |Holders(w.rows, u)| <= Max(0, PlanOf(w, u)))
    && |Encoders(w.rows)| <= w.budget
  }

  ghost predicate ReadsWithinPlan(w: World)
  {
    forall u :: Read(w, u) <= Max(0, PlanOf(w, u))
  }

  lemma SteadyStep(w: World, s: Step)
    requires ReadsWithinPlan(w) && !s.ChangePlan?
    requires s.Edit? ==> !SwitchesOn(w.rows, s.broadcast, s.url)
    ensures var w' := Next(w, s);
            ReadsWithinPlan(w') && w'.plan == w.plan && w'.budget == w.budget && w'.switched == w.switched
  {
    var w' := Next(w, s);
    forall u ensures Read(w', u) <= Max(0, PlanOf(w', u)) {
      assert Read(w, u) <= Max(0, PlanOf(w, u));
    }
  }

  lemma {:induction false} SteadyKeepsHistory(w: World, steps: seq<Step>)
    requires Steady(w, steps) && ReadsWithinPlan(w)
    ensures var end := RunSteps(w, steps);
            ReadsWithinPlan(end) && end.plan == w.plan && end.budget == w.budget && end.switched == w.switched
    decreases |steps|
  {
    hide Next, ReadsWithinPlan;
    if steps != [] {
      SteadyStep(w, steps[0]);
      SteadyKeepsHistory(Next(w, steps[0]), steps[1..]);
    }
  }

  /**
   With the plans fixed and no camera put under a running broadcast, every
   interleaving of starts, stops, hold-backs, give-ups, deletions and other
   edits keeps every account within its plan and the machine within its budget.
   */
  lemma PlanAndBudgetHold(w: World, steps: seq<Step>, u: UserId)
    requires Quiet(w) && Steady(w, steps)
    ensures var end := RunSteps(w, steps);
            && |Holders(end.rows, u)| <= Max(0, PlanOf(w, u))
            && |Encoders(end.rows)| <= w.budget
  {
    // The history is bookkeeping: start it as if every account had read its own plan.
    var from := w.(read := w.plan, switched := 0);
    assert Inv(from);
    SameRows(w, from, steps);
    CeilingsHold(from, steps);
    SteadyKeepsHistory(from, steps);
  }

  predicate SameButHistory(a: World, b: World)
  {
    a.rows == b.rows && a.plan == b.plan && a.budget == b.budget && a.starts == b.starts
  }

  lemma SameStep(a: World, b: World, s: Step)
    requires SameButHistory(a, b)
    ensures SameButHistory(Next(a, s), Next(b, s))
  {
  }

  /** What the history records never changes what happens to the rows. */
  lemma {:induction false} SameRows(a: World, b: World, steps: seq<Step>)
    requires SameButHistory(a, b)
    ensures SameButHistory(RunSteps(a, steps), RunSteps(b, steps))
    ensures Steady(a, steps) == Steady(b, steps)
    decreases |steps|
  {
    hide Next;
    if steps != [] {
      SameStep(a, b, steps[0]);
      SameRows(Next(a, steps[0]), Next(b, steps[0]), steps[1..]);
    }
  }

  /**
   Of two starts that race for an account's last slot, encoding or not, the one
   that commits first gets it and the other is refused for its plan.
   */
  lemma LastSlotGoesOnce(t: Table, u: UserId, a: BroadcastId, b: BroadcastId, allowed: nat, budget: nat)
    requires a != b && a in t && b in t && t[a].owner == u && t[b].owner == u
    requires !t[a].Holds() && !t[b].Holds() && (t[a].Encodes() ==> |Encoders(t)| < budget)
    requires |Holders(t, u)| + 1 == allowed
    ensures var (t1, r1) := Claim(t, u, a, allowed, budget);
            r1 == Granted && Claim(t1, u, b, allowed, budget) == (t1, ConcurrencyReached(allowed, allowed))
  {
    ClaimTakesOneSlot(t, u, a, allowed, budget, u);
  }

  /**
   Of two starts that race for the machine's last encoder, of whatever accounts,
   the one that commits first gets it; the other is refused, for the encoders
   unless its own plan is already full.
   */
  lemma LastEncoderGoesOnce(
      t: Table, u: UserId, a: BroadcastId, allowed: nat, v: UserId, b: BroadcastId, allowedToo: nat, budget: nat)
    requires a != b && a in t && b in t && t[a].owner == u && t[b].owner == v
    requires !t[a].Holds() && !t[b].Holds() && t[a].Encodes() && t[b].Encodes()
    requires |Holders(t, u)| < allowed && |Encoders(t)| + 1 == budget
    ensures var (t1, r1) := Claim(t, u, a, allowed, budget);
            && r1 == Granted
            && Claim(t1, v, b, allowedToo, budget) ==
                 (t1, if |Holders(t1, v)| >= allowedToo then ConcurrencyReached(|Holders(t1, v)|, allowedToo)
                      else EncoderBusy(budget, budget))
  {
    ClaimTakesOneSlot(t, u, a, allowed, budget, v);
  }
}
