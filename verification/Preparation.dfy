/**
 Preparing uploads for broadcast: threads, one encoder slot, a set of claims,
 rows and files. A thread may stop between any two of its steps, by a panic or
 with the whole process.
 */
module Preparation {
  import opened Common
  import opened Media

  const MAX_PREPARING_AT_ONCE: nat := 1

  type ThreadId = nat

  /** How far `prepare_now` has got. `out` is the file about to become the pointer. */
  datatype Stage =
    | Entered
    | Loaded(key: Key)
    | Marked(key: Key)
    | Probed(key: Key)
    | Planned(key: Key, pinned: bool)
    | Filed(out: Key, mode: string)
    | Shaped(out: Key)
    | WrittenOff(out: Key)
    | Done(failed: bool)

  datatype Thread =
    | Uploading(owner: UserId, key: Key)
    | Waiting(m: MediaId)
    | Working(m: MediaId, stage: Stage)
    | Returned(m: MediaId, failed: bool)
    | Reporting(m: MediaId)
    | Unwinding(m: MediaId)
    | Deleting(m: MediaId, keys: set<Key>)
    | Unlinking(m: MediaId, keys: set<Key>)
  {
    predicate HoldsClaim() {
      Waiting? || Working? || Unwinding?
    }

    predicate HoldsSlot() {
      Working? || Returned?
    }
  }

  /**
   Rows, files and the list of files written off. `known` and `issued` are the
   media ids and object keys ever handed out, `owner` the media a key was stored
   for, `unread` the media whose last output could not be probed. Those four only
   record history.
   */
  datatype Store = Store(
    rows: map<MediaId, Media>, disk: map<Key, File>, trash: set<Key>,
    known: set<MediaId>, issued: set<Key>, owner: map<Key, MediaId>, unread: set<MediaId>)

  datatype World = World(st: Store, busy: set<MediaId>, free: nat, threads: map<ThreadId, Thread>)

  /** One step of `prepare_now`; the arguments are what the outside world answers. */
  datatype Action =
    | Load
    | MarkAnalysing
    | RecordAnalysis
    | ReadTarget
    | UseSource
    | FileOutput(key: Key, mode: string, signature: string)
    | RecordShape(probed: bool)
    | WriteOff
    | RecordPrepared
    | Fail

  datatype Step =
    | Upload(t: ThreadId, user: UserId, key: Key, signature: string)
    | CreateRow(t: ThreadId, m: MediaId)
    | StartPrepare(t: ThreadId, m: MediaId)
    | TakeSlot(t: ThreadId)
    | Work(t: ThreadId, action: Action)
    | ReturnClaim(t: ThreadId)
    | ReturnSlot(t: ThreadId)
    | ReportFailure(t: ThreadId)
    | Panic(t: ThreadId)
    | Unwind(t: ThreadId)
    | Pin(m: MediaId)
    | MarkPreparing(m: MediaId)
    | ReadForDelete(t: ThreadId, m: MediaId)
    | DeleteRow(t: ThreadId)
    | Unlink(t: ThreadId, key: Key)
    | Sweep(keys: set<Key>)
    | Crash

  // ---- statements and file operations ---------------------------------------------

  /** `put_file` under a fresh key. */
  function PutFile(st: Store, k: Key, f: File): Store
  {
    st.(disk := st.disk[k := f], issued := st.issued + {k})
  }

  function InsertRow(st: Store, m: MediaId, owner: UserId, k: Key): Store
  {
    st.(rows := st.rows[m := Media(owner, k, None, Uploaded, None, None, false)],
        known := st.known + {m}, owner := st.owner[k := m])
  }

  function SetState(st: Store, m: MediaId, s: MediaState): Store
  {
    if m in st.rows then st.(rows := st.rows[m := st.rows[m].(state := s)]) else st
  }

  function SetPinned(st: Store, m: MediaId): Store
  {
    if m in st.rows then st.(rows := st.rows[m := st.rows[m].(pinned := true)]) else st
  }

  /** Record what the prepared file turned out to be. */
  function RecordSignature(st: Store, m: MediaId, mode: string, signature: string): Store
  {
    if m in st.rows
    then st.(rows := st.rows[m := st.rows[m].(mode := Some(mode), signature := Some(signature))], unread := st.unread - {m})
    else st
  }

  /** The output could not be probed: the row keeps what it said, right or wrong. */
  function KeepShape(st: Store, m: MediaId): Store
  {
    st.(unread := st.unread + {m})
  }

  /** `retire_replaced_prepared`: what the pointer named before, unless it is the source or unchanged. */
  function Replaced(st: Store, m: MediaId, out: Key): set<Key>
  {
    if m in st.rows && st.rows[m].prepared.Some?
       && st.rows[m].prepared.value != out && st.rows[m].prepared.value != st.rows[m].storage
    then {st.rows[m].prepared.value} else {}
  }

  function MovePointer(st: Store, m: MediaId, out: Key): Store
  {
    if m in st.rows then st.(rows := st.rows[m := st.rows[m].(state := Ready, prepared := Some(out))]) else st
  }

  /** What one step of `prepare_now` does to the store, and where it leaves its thread. */
  function Act(st: Store, m: MediaId, stage: Stage, a: Action): (Store, Stage)
  {
    match (stage, a)
    case (Entered, Load) => (st, if m in st.rows then Loaded(st.rows[m].storage) else Done(true))
    case (Loaded(key), MarkAnalysing) => (SetState(st, m, Analysing), Marked(key))
    case (Marked(key), RecordAnalysis) =>
      if key in st.disk then (SetState(st, m, Preparing), Probed(key)) else (st, stage)
    case (Probed(key), ReadTarget) => (st, Planned(key, m in st.rows && st.rows[m].pinned))
    case (Planned(key, pinned), UseSource) =>
      if pinned || key !in st.disk then (st, stage)
      else (RecordSignature(st, m, DIRECT, st.disk[key].signature), Shaped(key))
    case (Planned(_, pinned), FileOutput(k, mode, sig)) =>
      if k in st.issued || (pinned && mode != CANONICAL) then (st, stage)
      else (PutFile(st, k, File(mode == CANONICAL, sig)).(owner := st.owner[k := m]), Filed(k, mode))
    case (Filed(out, mode), RecordShape(probed)) =>
      if !probed then (KeepShape(st, m), Shaped(out))
      else if out !in st.disk then (st, stage)
      else (RecordSignature(st, m, mode, st.disk[out].signature), Shaped(out))
    case (Shaped(out), WriteOff) => (st.(trash := st.trash + Replaced(st, m, out)), WrittenOff(out))
    case (WrittenOff(out), RecordPrepared) => (MovePointer(st, m, out), Done(false))
    case (_, Fail) => (st, if stage.Done? then stage else Done(true))
    case _ => (st, stage)
  }

  predicate AtWork(w: World, t: ThreadId)
  {
    t in w.threads && w.threads[t].Working?
  }

  /** No row points at the file. */
  predicate Unreferenced(st: Store, k: Key)
  {
    forall m :: m in st.rows ==> !st.rows[m].PointsAt(k)
  }

  /** The thread is about to make this file some row's pointer. */
  predicate Producing(st: Store, pc: Thread, k: Key)
  {
    match pc
    case Uploading(_, key) => key == k
    case Working(m, stage) =>
      m in st.rows && (stage.Filed? || stage.Shaped? || stage.WrittenOff?) && stage.out == k
    case _ => false
  }

  predicate InProgress(w: World, k: Key)
  {
    exists t :: t in w.threads && Producing(w.st, w.threads[t], k)
  }

  function KeysOf(row: Media): set<Key>
  {
    {row.storage} + if row.prepared.Some? then {row.prepared.value} else {}
  }

  /** A step that is not enabled leaves the world alone. */
  function Next(w: World, s: Step): World
  {
    match s
    case Upload(t, u, k, sig) =>
      if t in w.threads || k in w.st.issued then w
      else w.(st := PutFile(w.st, k, File(false, sig)), threads := w.threads[t := Uploading(u, k)])
    case CreateRow(t, m) =>
      if t !in w.threads || !w.threads[t].Uploading? || m in w.st.known then w
      else w.(st := InsertRow(w.st, m, w.threads[t].owner, w.threads[t].key), threads := w.threads - {t})
    case StartPrepare(t, m) =>
      if t in w.threads || m in w.busy then w
      else w.(busy := w.busy + {m}, threads := w.threads[t := Waiting(m)])
    case TakeSlot(t) =>
      if t !in w.threads || !w.threads[t].Waiting? || w.free == 0 then w
      else w.(free := w.free - 1, threads := w.threads[t := Working(w.threads[t].m, Entered)])
    case Work(t, a) =>
      if !AtWork(w, t) then w
      else
        var (st, stage) := Act(w.st, w.threads[t].m, w.threads[t].stage, a);
        w.(st := st, threads := w.threads[t := Working(w.threads[t].m, stage)])
    case ReturnClaim(t) =>
      if !AtWork(w, t) || !w.threads[t].stage.Done? then w
      else
        var (m, failed) := (w.threads[t].m, w.threads[t].stage.failed);
        w.(busy := w.busy - {m}, threads := w.threads[t := Returned(m, failed)])
    case ReturnSlot(t) =>
      if t !in w.threads || !w.threads[t].Returned? then w
      else
        var pc := w.threads[t];
        w.(free := w.free + 1, threads := if pc.failed then w.threads[t := Reporting(pc.m)] else w.threads - {t})
    case ReportFailure(t) =>
      if t !in w.threads || !w.threads[t].Reporting? then w
      else w.(st := SetState(w.st, w.threads[t].m, Failed), threads := w.threads - {t})
    case Panic(t) =>
      if !AtWork(w, t) then w
      else w.(free := w.free + 1, threads := w.threads[t := Unwinding(w.threads[t].m)])
    case Unwind(t) =>
      if t !in w.threads || !w.threads[t].Unwinding? then w
      else w.(busy := w.busy - {w.threads[t].m}, threads := w.threads - {t})
    case Pin(m) => w.(st := SetPinned(w.st, m))
    case MarkPreparing(m) => w.(st := SetState(w.st, m, Preparing))
    case ReadForDelete(t, m) =>
      if t in w.threads || m !in w.st.rows then w
      else w.(threads := w.threads[t := Deleting(m, KeysOf(w.st.rows[m]))])
    case DeleteRow(t) =>
      if t !in w.threads || !w.threads[t].Deleting? then w
      else
        var pc := w.threads[t];
        w.(st := w.st.(rows := w.st.rows - {pc.m}), threads := w.threads[t := Unlinking(pc.m, pc.keys)])
    case Unlink(t, k) =>
      if t !in w.threads || !w.threads[t].Unlinking? || k !in w.threads[t].keys then w
      else w.(st := w.st.(disk := w.st.disk - {k}))
    case Sweep(keys) =>
      if forall k :: k in keys ==> Unreferenced(w.st, k) && !InProgress(w, k)
      then w.(st := w.st.(disk := w.st.disk - keys)) else w
    case Crash => w.(busy := {}, free := MAX_PREPARING_AT_ONCE, threads := map[])
  }

  function After(w: World, steps: seq<Step>): World
    decreases |steps|
  {
    if steps == [] then w else After(Next(w, steps[0]), steps[1..])
  }

  function Start(): World
  {
    World(Store(map[], map[], {}, {}, {}, map[], {}), {}, MAX_PREPARING_AT_ONCE, map[])
  }

  // ---- the invariant ------------------------------------------------------------

  /** Does this thread hold a slot, and does it hold a claim, on what? */
  function HasSlot(threads: map<ThreadId, Thread>, t: ThreadId): bool
  {
    t in threads && threads[t].HoldsSlot()
  }

  function Claims(threads: map<ThreadId, Thread>, t: ThreadId): Option<MediaId>
  {
    if t in threads && threads[t].HoldsClaim() then Some(threads[t].m) else None
  }

  function SlotHolders(threads: map<ThreadId, Thread>): set<ThreadId>
  {
    set t | t in threads && HasSlot(threads, t)
  }

  /** Every slot is free or held by one thread. */
  predicate Slots(w: World)
  {
    w.free + |SlotHolders(w.threads)| == MAX_PREPARING_AT_ONCE
  }

  /** Every claim in the set is one thread's, and no two threads claim the same media. */
  ghost predicate ClaimsHeld(w: World)
  {
    && (forall t :: Claims(w.threads, t).Some? ==> Claims(w.threads, t).value in w.busy)
    && (forall m :: m in w.busy ==> exists t :: Claims(w.threads, t) == Some(m))
    && (forall t, u :: t != u && Claims(w.threads, t).Some? ==> Claims(w.threads, t) != Claims(w.threads, u))
  }

  predicate OwnedBy(st: Store, k: Key, m: MediaId)
  {
    k in st.owner && st.owner[k] == m
  }

  predicate PointerSound(st: Store, m: MediaId)
    requires m in st.rows
  {
    && m in st.known
    && st.rows[m].storage in st.disk && OwnedBy(st, st.rows[m].storage, m) && !st.disk[st.rows[m].storage].canonical
    && (st.rows[m].prepared.Some? ==> st.rows[m].prepared.value in st.disk && OwnedBy(st, st.rows[m].prepared.value, m))
  }

  /** Every pointer names a file that exists and was stored for that media. */
  predicate Pointers(st: Store)
  {
    forall m :: m in st.rows ==> PointerSound(st, m)
  }

  predicate KeysIssued(st: Store)
  {
    st.disk.Keys <= st.issued && st.owner.Keys <= st.issued
  }

  /** Mode and signature are recorded together; a ready row has a pointer, and describes the file it names if that was read. */
  predicate ReadySound(st: Store, m: MediaId)
    requires m in st.rows
  {
    && (st.rows[m].mode.Some? <==> st.rows[m].signature.Some?)
    && (st.rows[m].state == Ready ==>
         && st.rows[m].prepared.Some? && st.rows[m].prepared.value in st.disk
         && (m !in st.unread ==> st.rows[m].Describes(st.disk[st.rows[m].prepared.value])))
  }

  predicate ReadyRows(st: Store)
  {
    forall m :: m in st.rows ==> ReadySound(st, m)
  }

  /** The output is stored and, if it was read, the row already says what it is. */
  predicate ShapeKnown(st: Store, m: MediaId, out: Key)
    requires m in st.rows
  {
    && out in st.disk && OwnedBy(st, out, m) && st.rows[m].state != Ready
    && (m !in st.unread ==> st.rows[m].Describes(st.disk[out]))
  }

  /** What a working thread knows about its row is still so, as long as the row is there. */
  predicate WorkSound(st: Store, m: MediaId, stage: Stage)
  {
    && (stage.Entered? || stage.Done? || m in st.known)
    && (m in st.rows ==>
          var row := st.rows[m];
          match stage
          case Entered => true
          case Loaded(key) => key == row.storage
          case Marked(key) => key == row.storage && row.state != Ready
          case Probed(key) => key == row.storage && row.state != Ready
          case Planned(key, _) => key == row.storage && row.state != Ready
          case Filed(out, mode) =>
            && out in st.disk && OwnedBy(st, out, m) && row.state != Ready
            && (st.disk[out].canonical <==> mode == CANONICAL)
          case Shaped(out) => ShapeKnown(st, m, out)
          case WrittenOff(out) => ShapeKnown(st, m, out)
          case Done(_) => true)
  }

  /**
   What a thread relies on: a worker, its row; an upload, a file nobody owns; a
   deletion, that its files belong to a media whose row does not come back.
   */
  predicate ThreadSound(st: Store, pc: Thread)
  {
    match pc
    case Uploading(_, key) => key in st.disk && !st.disk[key].canonical && key !in st.owner
    case Working(m, stage) => WorkSound(st, m, stage)
    case Deleting(m, keys) => m in st.known && forall k :: k in keys ==> OwnedBy(st, k, m)
    case Unlinking(m, keys) => m in st.known && m !in st.rows && forall k :: k in keys ==> OwnedBy(st, k, m)
    case _ => true
  }

  predicate ThreadsSound(w: World)
  {
    && (forall t :: t in w.threads ==> ThreadSound(w.st, w.threads[t]))
    && (forall t, u :: t in w.threads && u in w.threads && t != u && w.threads[t].Uploading? && w.threads[u].Uploading? ==>
          w.threads[t].key != w.threads[u].key)
  }

  ghost predicate Inv(w: World)
  {
    Slots(w) && ClaimsHeld(w) && KeysIssued(w.st) && Pointers(w.st) && ReadyRows(w.st) && ThreadsSound(w)
  }
}
