/** Media pinned while somebody is preparing them: which end native, and which are left with nobody at work. */
module InFlight {
  import opened Common
  import opened Media
  import opened Playlists
  import opened Preparation
  import opened PreparationInv
  import opened PreparationLaws
  import opened Convergence

  /** Nothing is working on this media, waiting to, or about to report on it. */
  predicate Idle(w: World, m: MediaId)
  {
    forall t :: t in w.threads ==>
      match w.threads[t]
      case Uploading(_, _) => true
      case Deleting(_, _) => true
      case Unlinking(_, _) => true
      case other => other.m != m
  }

  /** What a mixed playlist does to one of its media before asking for a preparation. */
  function PinAndMark(w: World, m: MediaId): World
  {
    Next(Next(w, Pin(m)), MarkPreparing(m))
  }

  /** A media somebody is preparing takes no second preparation. */
  lemma PinnedWhileBusy(w: World, m: MediaId, u: ThreadId)
    requires m in w.st.rows && m in w.busy
    ensures PinAndMark(w, m) == w.(st := w.st.(rows := w.st.rows[m := Pinned(w.st.rows[m])]))
    ensures Next(PinAndMark(w, m), StartPrepare(u, m)) == PinAndMark(w, m)
  {
    var pinned := Next(w, Pin(m));
    assert pinned.st.rows == w.st.rows[m := w.st.rows[m].(pinned := true)];
    assert Next(pinned, MarkPreparing(m)).st.rows == w.st.rows[m := Pinned(w.st.rows[m])];
  }

  // ---- which preparations in flight end native -------------------------------------------

  predicate EndsNative(st: Store, m: MediaId, stage: Stage)
    requires m in st.rows
  {
    match stage
    case Planned(_, pinned) => !pinned
    case Filed(_, mode) => mode != CANONICAL
    case Shaped(_) => st.rows[m].ModeRead() != CANONICAL
    case WrittenOff(_) => st.rows[m].ModeRead() != CANONICAL
    case _ => false
  }

  /** A worker on this media is past the point where it would see a pin, on its way to a native end. */
  predicate NativeUnderWay(w: World, m: MediaId)
    requires m in w.st.rows
  {
    exists t :: t in w.threads && w.threads[t].Working? && w.threads[t].m == m && EndsNative(w.st, m, w.threads[t].stage)
  }

  predicate ReadyAndNative(st: Store, m: MediaId)
  {
    m in st.rows && st.rows[m].state == Ready && st.rows[m].ModeRead() != CANONICAL
  }

  /** Pinned, not ready as a native media, and nothing under way to become so. */
  predicate Tamed(w: World, m: MediaId)
    requires m in w.st.rows
  {
    w.st.rows[m].pinned && !ReadyAndNative(w.st, m) && !NativeUnderWay(w, m)
  }

  lemma ActTames(st: Store, m: MediaId, stage: Stage, a: Action)
    requires m in st.rows && st.rows[m].pinned && !ReadyAndNative(st, m) && !EndsNative(st, m, stage)
    requires a != RecordShape(false)
    ensures var (st', stage') := Act(st, m, stage, a);
            && m in st'.rows && st'.rows[m].pinned && !ReadyAndNative(st', m) && !EndsNative(st', m, stage')
  {
  }

  lemma WorkTames(w: World, t: ThreadId, a: Action, m: MediaId)
    requires ClaimsHeld(w) && m in w.st.rows && Tamed(w, m) && a != RecordShape(false)
    ensures m in Next(w, Work(t, a)).st.rows && Tamed(Next(w, Work(t, a)), m)
  {
    if AtWork(w, t) {
      var n, stage := w.threads[t].m, w.threads[t].stage;
      if n == m {
        assert !EndsNative(w.st, m, stage);
        ActTames(w.st, m, stage, a);
        forall u | u in w.threads && u != t && w.threads[u].Working? ensures w.threads[u].m != m {
          assert Claims(w.threads, u) != Claims(w.threads, t);
        }
      } else {
        ActLeavesOthers(w.st, n, stage, a, m);
        var st' := Next(w, Work(t, a)).st;
        forall u | u in w.threads && w.threads[u].Working? && w.threads[u].m == m
          ensures !EndsNative(st', m, w.threads[u].stage)
        {
          assert !EndsNative(w.st, m, w.threads[u].stage);
        }
      }
    }
    hide Act, ClaimsHeld;
  }

  lemma TamedStays(w: World, s: Step, m: MediaId)
    requires ClaimsHeld(w) && m in w.st.rows && m in w.st.known && Tamed(w, m)
    requires !(s.Work? && s.action == RecordShape(false))
    ensures m in Next(w, s).st.rows ==> Tamed(Next(w, s), m)
  {
    if s.Work? {
      WorkTames(w, s.t, s.action, m);
    } else {
      OthersTame(w, s, m);
    }
  }

  lemma OthersTame(w: World, s: Step, m: MediaId)
    requires m in w.st.rows && m in w.st.known && Tamed(w, m) && !s.Work?
    ensures m in Next(w, s).st.rows ==> Tamed(Next(w, s), m)
  {
    var w' := Next(w, s);
    if m in w'.st.rows {
      forall u | u in w'.threads && w'.threads[u].Working? && w'.threads[u].m == m
        ensures !EndsNative(w'.st, m, w'.threads[u].stage)
      {
        assert u in w.threads && w.threads[u].Working? && w.threads[u] == w'.threads[u] ==>
          !EndsNative(w.st, m, w.threads[u].stage);
        hide Act, InProgress, Unreferenced;
      }
    }
    hide Act, InProgress, Unreferenced;
  }

  lemma {:induction false} TamedForGood(w: World, steps: seq<Step>, m: MediaId)
    requires Inv(w) && m in w.st.rows && Tamed(w, m) && AllRead(steps)
    ensures !ReadyAndNative(After(w, steps).st, m)
    decreases |steps|
  {
    if steps != [] {
      var w1, rest := Next(w, steps[0]), steps[1..];
      assert PointerSound(w.st, m);
      TamedStays(w, steps[0], m);
      NextKeepsInv(w, steps[0]);
      assert forall i :: 0 <= i < |rest| ==> rest[i] == steps[i + 1];
      if m !in w1.st.rows {
        StaysDeleted(w1, rest, m, w, steps[0]);
      } else {
        hide Inv, Next, Tamed, ReadyAndNative;
        TamedForGood(w1, rest, m);
      }
    }
  }

  /** Some run in which every output is read ends with the media ready and native. */
  ghost predicate CanEndNative(w: World, m: MediaId)
  {
    exists steps :: AllRead(steps) && ReadyAndNative(After(w, steps).st, m)
  }

  lemma StepTowardsNative(w: World, s: Step, m: MediaId)
    requires !(s.Work? && s.action == RecordShape(false)) && CanEndNative(Next(w, s), m)
    ensures CanEndNative(w, m)
  {
    hide Next, ReadyAndNative;
    var steps :| AllRead(steps) && ReadyAndNative(After(Next(w, s), steps).st, m);
    assert ([s] + steps)[1..] == steps;
    assert AllRead([s] + steps) && After(w, [s] + steps) == After(Next(w, s), steps);
  }

  /** How far a stage is from the end. */
  function Left(stage: Stage): nat
  {
    match stage
    case Entered => 8
    case Loaded(_) => 7
    case Marked(_) => 6
    case Probed(_) => 5
    case Planned(_, _) => 4
    case Filed(_, _) => 3
    case Shaped(_) => 2
    case WrittenOff(_) => 1
    case Done(_) => 0
  }

  /** The step that brings such a worker on. */
  function Homeward(stage: Stage): Action
  {
    match stage
    case Planned(_, _) => UseSource
    case Filed(_, _) => RecordShape(true)
    case Shaped(_) => WriteOff
    case _ => RecordPrepared
  }

  lemma HomewardGoesOn(st: Store, m: MediaId, stage: Stage)
    requires m in st.rows && st.rows[m].storage in st.disk && WorkSound(st, m, stage) && EndsNative(st, m, stage)
    ensures var (st', stage') := Act(st, m, stage, Homeward(stage));
            && m in st'.rows
            && (stage.WrittenOff? ==> ReadyAndNative(st', m))
            && (!stage.WrittenOff? ==> EndsNative(st', m, stage') && Left(stage') < Left(stage))
  {
  }

  /** Left to itself such a worker gets there. */
  lemma {:induction false} NativeWorkerEndsNative(w: World, t: ThreadId, m: MediaId, stage: Stage)
    requires Inv(w) && m in w.st.rows && t in w.threads && w.threads[t] == Working(m, stage)
    requires EndsNative(w.st, m, stage)
    ensures CanEndNative(w, m)
    decreases Left(stage)
  {
    assert ThreadSound(w.st, w.threads[t]) && PointerSound(w.st, m);
    HomewardGoesOn(w.st, m, stage);
    var s := Work(t, Homeward(stage));
    var w' := Next(w, s);
    NextKeepsInv(w, s);
    assert Homeward(stage) != RecordShape(false);
    hide Inv, Act, Homeward, ReadyAndNative, WorkSound;
    if stage.WrittenOff? {
      assert After(w', []) == w' && AllRead([]);
    } else {
      hide EndsNative;
      NativeWorkerEndsNative(w', t, m, w'.threads[t].stage);
    }
    StepTowardsNative(w, s, m);
  }

  lemma PinnedAs(w: World, m: MediaId)
    requires m in w.st.rows
    ensures PinAndMark(w, m) == w.(st := w.st.(rows := w.st.rows[m := Pinned(w.st.rows[m])]))
  {
    var pinned := Next(w, Pin(m));
    assert pinned.st.rows == w.st.rows[m := w.st.rows[m].(pinned := true)];
    assert Next(pinned, MarkPreparing(m)).st.rows == w.st.rows[m := Pinned(w.st.rows[m])];
  }

  /**
   A pin is overtaken exactly by a worker that has read its target before it: one
   with an unpinned plan or a native output, or one whose native shape is already
   recorded. Then some run ends with the media ready and native; otherwise no run
   does in which every output can be read. Up to the probe a worker still sees it.
   */
  lemma PinIsOvertakenExactly(w: World, m: MediaId)
    requires Inv(w) && m in w.st.rows
    ensures CanEndNative(PinAndMark(w, m), m) <==> NativeUnderWay(w, m)
  {
    var p := PinAndMark(w, m);
    NextKeepsInv(w, Pin(m));
    NextKeepsInv(Next(w, Pin(m)), MarkPreparing(m));
    PinnedAs(w, m);
    hide Inv, PinAndMark, Next;
    assert forall stage :: EndsNative(p.st, m, stage) <==> EndsNative(w.st, m, stage);
    if NativeUnderWay(w, m) {
      var t :| t in w.threads && w.threads[t].Working? && w.threads[t].m == m && EndsNative(w.st, m, w.threads[t].stage);
      NativeWorkerEndsNative(p, t, m, w.threads[t].stage);
    } else {
      assert Tamed(p, m);
      forall steps | AllRead(steps) ensures !ReadyAndNative(After(p, steps).st, m) {
        TamedForGood(p, steps, m);
      }
    }
  }

  // ---- which leave nobody preparing --------------------------------------------------------

  /** Some run in which nobody asks for this media again makes it ready. */
  ghost predicate CanBecomeReady(w: World, m: MediaId)
  {
    exists steps :: NoStart(steps, m) && IsReady(After(w, steps).st.rows, m)
  }

  predicate NoStart(steps: seq<Step>, m: MediaId)
  {
    forall i :: 0 <= i < |steps| ==> !(steps[i].StartPrepare? && steps[i].m == m)
  }

  lemma StepTowardsReady(w: World, s: Step, m: MediaId)
    requires !(s.StartPrepare? && s.m == m) && CanBecomeReady(Next(w, s), m)
    ensures CanBecomeReady(w, m)
  {
    hide Next, IsReady;
    var steps :| NoStart(steps, m) && IsReady(After(Next(w, s), steps).st.rows, m);
    assert ([s] + steps)[1..] == steps;
    assert NoStart([s] + steps, m) && After(w, [s] + steps) == After(Next(w, s), steps);
  }

  /** The step that brings a worker on, if the outside world plays along. */
  function Onward(stage: Stage, spare: Key): Action
  {
    match stage
    case Entered => Load
    case Loaded(_) => MarkAnalysing
    case Marked(_) => RecordAnalysis
    case Probed(_) => ReadTarget
    case Planned(_, _) => FileOutput(spare, CANONICAL, "")
    case Filed(_, _) => RecordShape(true)
    case Shaped(_) => WriteOff
    case WrittenOff(_) => RecordPrepared
    case Done(_) => Fail
  }

  lemma OnwardGoesOn(st: Store, m: MediaId, stage: Stage, spare: Key)
    requires m in st.rows && st.rows[m].storage in st.disk && WorkSound(st, m, stage) && !stage.Done?
    requires Left(stage) < 4 || spare !in st.issued
    ensures var (st', stage') := Act(st, m, stage, Onward(stage, spare));
            && m in st'.rows
            && (stage.WrittenOff? ==> IsReady(st'.rows, m))
            && (!stage.WrittenOff? ==> !stage'.Done? && Left(stage') == Left(stage) - 1)
            && (Left(stage') < 4 || spare !in st'.issued)
  {
  }

  lemma {:induction false} WorkerCanFinish(w: World, t: ThreadId, m: MediaId, stage: Stage, spare: Key)
    requires Inv(w) && m in w.st.rows && t in w.threads && w.threads[t] == Working(m, stage) && !stage.Done?
    requires Left(stage) < 4 || spare !in w.st.issued
    ensures CanBecomeReady(w, m)
    decreases Left(stage)
  {
    assert ThreadSound(w.st, w.threads[t]) && PointerSound(w.st, m);
    OnwardGoesOn(w.st, m, stage, spare);
    var s := Work(t, Onward(stage, spare));
    var w' := Next(w, s);
    NextKeepsInv(w, s);
    hide Inv, Act, Onward, IsReady, WorkSound;
    if stage.WrittenOff? {
      assert After(w', []) == w' && NoStart([], m);
    } else {
      WorkerCanFinish(w', t, m, w'.threads[t].stage, spare);
    }
    StepTowardsReady(w, s, m);
  }

  lemma WaiterCanFinish(w: World, t: ThreadId, m: MediaId, spare: Key)
    requires Inv(w) && m in w.st.rows && t in w.threads && w.threads[t] == Waiting(m) && spare !in w.st.issued
    ensures CanBecomeReady(w, m)
  {
    if w.free > 0 {
      var w' := Next(w, TakeSlot(t));
      NextKeepsInv(w, TakeSlot(t));
      assert w'.threads[t] == Working(m, Entered);
      WorkerCanFinish(w', t, m, Entered, spare);
      StepTowardsReady(w, TakeSlot(t), m);
    } else {
      var h := SlotHolder(w);
      var s := if w.threads[h].Working? then Panic(h) else ReturnSlot(h);
      var w' := Next(w, s);
      NextKeepsInv(w, s);
      assert w'.free > 0 && w'.threads[t] == Waiting(m) && w'.st == w.st;
      NextKeepsInv(w', TakeSlot(t));
      var w'' := Next(w', TakeSlot(t));
      assert w''.threads[t] == Working(m, Entered) && w''.st == w.st;
      WorkerCanFinish(w'', t, m, Entered, spare);
      StepTowardsReady(w', TakeSlot(t), m);
      StepTowardsReady(w, s, m);
    }
  }

  lemma SlotHolder(w: World) returns (h: ThreadId)
    requires Slots(w) && w.free == 0
    ensures h in w.threads && w.threads[h].HoldsSlot()
  {
    var holders := SlotHolders(w.threads);
    assert holders != {};
    h :| h in holders;
  }

  /** Whoever holds the claim on this media is past recording a result: leaving, or unwinding from a panic. */
  predicate HolderLeaves(w: World, m: MediaId)
  {
    exists t :: t in w.threads && w.threads[t].HoldsClaim() && w.threads[t].m == m && Leaves(w.threads[t])
  }

  predicate Leaves(pc: Thread)
  {
    pc.Unwinding? || (pc.Working? && pc.stage.Done?)
  }

  /** Not ready, and every claim on it is about to go. */
  predicate Spent(w: World, m: MediaId)
  {
    && (m in w.st.rows ==> w.st.rows[m].state != Ready)
    && forall t :: t in w.threads && w.threads[t].HoldsClaim() && w.threads[t].m == m ==> Leaves(w.threads[t])
  }

  lemma SpentStays(w: World, s: Step, m: MediaId)
    requires Spent(w, m) && !(s.StartPrepare? && s.m == m)
    ensures Spent(Next(w, s), m)
  {
    if s.Work? && AtWork(w, s.t) && w.threads[s.t].m != m && m in w.st.rows {
      ActLeavesOthers(w.st, w.threads[s.t].m, w.threads[s.t].stage, s.action, m);
    }
    if s.Work? {
      SpentWork(w, s.t, s.action, m);
    } else {
      hide Act, InProgress, Unreferenced;
    }
  }

  lemma SpentWork(w: World, t: ThreadId, a: Action, m: MediaId)
    requires Spent(w, m)
    ensures Spent(Next(w, Work(t, a)), m)
  {
    if AtWork(w, t) && w.threads[t].m != m {
      var n, stage := w.threads[t].m, w.threads[t].stage;
      if m in w.st.rows {
        ActLeavesOthers(w.st, n, stage, a, m);
      }
      ActInsertsNothing(w.st, n, stage, a);
      hide Act;
    }
  }

  lemma ActInsertsNothing(st: Store, n: MediaId, stage: Stage, a: Action)
    ensures Act(st, n, stage, a).0.rows.Keys == st.rows.Keys
  {
  }

  lemma {:induction false} SpentForGood(w: World, steps: seq<Step>, m: MediaId)
    requires Spent(w, m) && NoStart(steps, m)
    ensures !IsReady(After(w, steps).st.rows, m)
    decreases |steps|
  {
    if steps != [] {
      SpentStays(w, steps[0], m);
      assert forall i :: 0 <= i < |steps[1..]| ==> steps[1..][i] == steps[i + 1];
      hide Next, Spent;
      SpentForGood(Next(w, steps[0]), steps[1..], m);
    }
  }

  /**
   Queueing a media asks for a preparation once. It is then never ready again
   unless somebody asks anew, exactly when the claim on it was held by a thread
   already past recording its result; in every other case some run makes it ready.
   */
  lemma QueuedInVainExactly(w: World, u: ThreadId, m: MediaId, spare: Key)
    requires Inv(w) && m in w.st.rows && u !in w.threads && spare !in w.st.issued
    ensures CanBecomeReady(Next(PinAndMark(w, m), StartPrepare(u, m)), m) <==> !HolderLeaves(w, m)
  {
    var p := PinAndMark(w, m);
    NextKeepsInv(w, Pin(m));
    NextKeepsInv(Next(w, Pin(m)), MarkPreparing(m));
    NextKeepsInv(p, StartPrepare(u, m));
    PinnedAs(w, m);
    var q := Next(p, StartPrepare(u, m));
    if m !in w.busy {
      assert q.threads[u] == Waiting(m) && q.st == p.st;
      assert !HolderLeaves(w, m) by {
        assert forall t :: t in w.threads && w.threads[t].HoldsClaim() ==> Claims(w.threads, t) == Some(w.threads[t].m);
      }
      hide Next, PinAndMark;
      WaiterCanFinish(q, u, m, spare);
    } else {
      assert q == p;
      var t :| Claims(w.threads, t) == Some(m);
      forall v | v in w.threads && w.threads[v].HoldsClaim() && w.threads[v].m == m ensures v == t {
        assert Claims(w.threads, v) == Claims(w.threads, t);
      }
      hide Next, PinAndMark;
      HeldInVain(w, p, t, m, spare);
    }
  }

  lemma HeldInVain(w: World, p: World, t: ThreadId, m: MediaId, spare: Key)
    requires Inv(p) && m in w.st.rows && spare !in w.st.issued
    requires p == w.(st := w.st.(rows := w.st.rows[m := Pinned(w.st.rows[m])]))
    requires t in w.threads && w.threads[t].HoldsClaim() && w.threads[t].m == m
    requires forall v :: v in w.threads && w.threads[v].HoldsClaim() && w.threads[v].m == m ==> v == t
    ensures CanBecomeReady(p, m) <==> !HolderLeaves(w, m)
  {
    if Leaves(w.threads[t]) {
      assert Spent(p, m);
      forall steps | NoStart(steps, m) ensures !IsReady(After(p, steps).st.rows, m) {
        SpentForGood(p, steps, m);
      }
    } else if w.threads[t].Waiting? {
      WaiterCanFinish(p, t, m, spare);
    } else {
      WorkerCanFinish(p, t, m, w.threads[t].stage, spare);
    }
  }

  // ---- the row such a queue leaves ---------------------------------------------------------

  /** The queued preparation gives way to `t`, which has recorded its result and is on its way out. */
  function GiveWay(w: World, t: ThreadId, u: ThreadId, m: MediaId): World
  {
    Next(Next(Next(PinAndMark(w, m), StartPrepare(u, m)), ReturnClaim(t)), ReturnSlot(t))
  }

  /**
   One that had just recorded its result when the media was queued leaves the row
   marked as preparing with nobody preparing it, and so it stays until someone
   asks for a preparation again.
   */
  lemma StuckPreparing(w: World, t: ThreadId, u: ThreadId, m: MediaId)
    requires Inv(w) && AtWork(w, t) && w.threads[t] == Working(m, Done(false)) && m in w.st.rows
    requires forall v :: v in w.threads && v != t ==> !w.threads[v].Returned? && !w.threads[v].Reporting?
    ensures var end := GiveWay(w, t, u, m);
            m in end.st.rows && end.st.rows[m].state == Preparing && Idle(end, m)
  {
    assert Claims(w.threads, t) == Some(m);
    forall v | v in w.threads && v != t && w.threads[v].HoldsClaim() ensures w.threads[v].m != m {
      assert Claims(w.threads, v) != Claims(w.threads, t);
    }
    hide Inv;
    PinnedWhileBusy(w, m, u);
    hide PinAndMark;
    var returned := Next(PinAndMark(w, m), ReturnClaim(t));
    var end := Next(returned, ReturnSlot(t));
    assert end.threads == w.threads - {t};
  }

  lemma WorkLeavesIdle(w: World, t: ThreadId, a: Action, m: MediaId)
    requires Idle(w, m) && m in w.st.rows
    ensures Idle(Next(w, Work(t, a)), m)
    ensures var st := Next(w, Work(t, a)).st; m in st.rows && st.rows[m] == w.st.rows[m]
  {
    if AtWork(w, t) {
      ActLeavesOthers(w.st, w.threads[t].m, w.threads[t].stage, a, m);
    }
    hide Act;
  }

  lemma IdleStays(w: World, s: Step, m: MediaId)
    requires Idle(w, m) && m in w.st.rows && m in w.st.known && w.st.rows[m].state == Preparing && !(s.StartPrepare? && s.m == m)
    ensures Idle(Next(w, s), m)
    ensures m in Next(w, s).st.rows ==> Next(w, s).st.rows[m].state == Preparing
  {
    if s.Work? {
      WorkLeavesIdle(w, s.t, s.action, m);
    } else {
      hide Act, InProgress, Unreferenced;
    }
  }

  lemma {:induction false} StuckForGood(w: World, steps: seq<Step>, m: MediaId)
    requires Inv(w) && Idle(w, m) && m in w.st.rows && w.st.rows[m].state == Preparing
    requires forall i :: 0 <= i < |steps| ==> !(steps[i].StartPrepare? && steps[i].m == m)
    ensures m in After(w, steps).st.rows ==> After(w, steps).st.rows[m].state == Preparing
    decreases |steps|
  {
    if steps != [] {
      assert PointerSound(w.st, m);
      IdleStays(w, steps[0], m);
      NextKeepsInv(w, steps[0]);
      if m !in Next(w, steps[0]).st.rows {
        StaysDeleted(Next(w, steps[0]), steps[1..], m, w, steps[0]);
      } else {
        hide Inv, Next, Idle;
        StuckForGood(Next(w, steps[0]), steps[1..], m);
      }
    }
  }
}
