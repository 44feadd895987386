/** Every step of every thread, and a crash between any two, keeps the store sound. */
module PreparationInv {
  import opened Common
  import opened Media
  import opened Preparation

  // ---- turns -----------------------------------------------------------------------

  /** The thread a step is taken by. */
  function Mover(s: Step): Option<ThreadId>
  {
    match s
    case Pin(_) => None
    case MarkPreparing(_) => None
    case Sweep(_) => None
    case Crash => None
    case _ => Some(s.t)
  }

  /** A thread other than the one that moves stays as it is, unless the process ends. */
  lemma OthersStay(w: World, s: Step, u: ThreadId)
    requires Mover(s) != Some(u) && !s.Crash?
    ensures var w' := Next(w, s);
            && (u in w'.threads <==> u in w.threads)
            && (u in w.threads ==> w'.threads[u] == w.threads[u])
  {
    hide Act;
  }

  /** Taking and giving back are the only steps that change who holds a slot. */
  lemma SlotStays(w: World, s: Step, u: ThreadId)
    requires !s.TakeSlot? && !s.ReturnSlot? && !s.Panic? && !s.Crash?
    ensures HasSlot(Next(w, s).threads, u) == HasSlot(w.threads, u) && Next(w, s).free == w.free
  {
    hide Act;
  }

  lemma SlotTaken(w: World, t: ThreadId)
    requires Slots(w)
    ensures Slots(Next(w, TakeSlot(t)))
  {
    var before, after := SlotHolders(w.threads), SlotHolders(Next(w, TakeSlot(t)).threads);
    if t in w.threads && w.threads[t].Waiting? && w.free > 0 {
      assert t !in before && after == before + {t};
    }
  }

  lemma SlotGivenBack(w: World, t: ThreadId)
    requires Slots(w)
    ensures Slots(Next(w, ReturnSlot(t))) && Slots(Next(w, Panic(t)))
  {
    var before := SlotHolders(w.threads);
    if t in w.threads && w.threads[t].Returned? {
      assert t in before && SlotHolders(Next(w, ReturnSlot(t)).threads) == before - {t};
    }
    if AtWork(w, t) {
      assert t in before && SlotHolders(Next(w, Panic(t)).threads) == before - {t};
    }
  }

  lemma SlotsKept(w: World, s: Step)
    requires Slots(w)
    ensures Slots(Next(w, s))
  {
    match s
    case TakeSlot(t) => SlotTaken(w, t);
    case ReturnSlot(t) => SlotGivenBack(w, t);
    case Panic(t) => SlotGivenBack(w, t);
    case Crash => assert SlotHolders(Next(w, s).threads) == {};
    case _ =>
      hide Next, HasSlot;
      forall u ensures HasSlot(Next(w, s).threads, u) == HasSlot(w.threads, u) {
        SlotStays(w, s, u);
      }
      SlotStays(w, s, 0);
      SameHolders(w.threads, Next(w, s).threads);
  }

  lemma SameHolders(a: map<ThreadId, Thread>, b: map<ThreadId, Thread>)
    requires forall u :: HasSlot(a, u) == HasSlot(b, u)
    ensures SlotHolders(a) == SlotHolders(b)
  {
    assert forall u :: u in SlotHolders(a) <==> HasSlot(a, u);
    assert forall u :: u in SlotHolders(b) <==> HasSlot(b, u);
  }

  lemma ClaimStays(w: World, s: Step, u: ThreadId)
    requires !s.StartPrepare? && !s.ReturnClaim? && !s.Unwind? && !s.Crash?
    ensures Claims(Next(w, s).threads, u) == Claims(w.threads, u) && Next(w, s).busy == w.busy
  {
    hide Act;
  }

  lemma ClaimsKept(w: World, s: Step)
    requires ClaimsHeld(w)
    ensures ClaimsHeld(Next(w, s))
  {
    match s
    case StartPrepare(t, m) => ClaimTaken(w, t, m);
    case ReturnClaim(t) => ClaimGivenBack(w, t, Next(w, s));
    case Unwind(t) => ClaimGivenBack(w, t, Next(w, s));
    case Crash => assert forall u :: Claims(Next(w, s).threads, u) == None;
    case _ =>
      hide Next, Claims;
      forall u ensures Claims(Next(w, s).threads, u) == Claims(w.threads, u) {
        ClaimStays(w, s, u);
      }
      ClaimStays(w, s, 0);
  }

  lemma ClaimTaken(w: World, t: ThreadId, m: MediaId)
    requires ClaimsHeld(w)
    ensures ClaimsHeld(Next(w, StartPrepare(t, m)))
  {
    var w' := Next(w, StartPrepare(t, m));
    if w' != w {
      forall u ensures Claims(w'.threads, u) == if u == t then Some(m) else Claims(w.threads, u) {
      }
      assert Claims(w.threads, t) == None;
      hide Claims, Next;
    }
  }

  lemma ClaimGivenBack(w: World, t: ThreadId, w': World)
    requires ClaimsHeld(w)
    requires w' == w || (
               && Claims(w.threads, t).Some? && w'.busy == w.busy - {Claims(w.threads, t).value}
               && forall u :: Claims(w'.threads, u) == if u == t then None else Claims(w.threads, u))
    ensures ClaimsHeld(w')
  {
    hide Claims;
  }

  // ---- what a step does to the store --------------------------------------------------

  /** Ids and keys are never handed out twice, owners never change, and a file that stays is the same file. */
  ghost predicate StoreMoves(a: Store, b: Store)
  {
    && a.known <= b.known && a.issued <= b.issued
    && (forall k :: k in a.owner ==> k in b.owner && b.owner[k] == a.owner[k])
    && (forall k :: k in a.disk && k in b.disk ==> b.disk[k] == a.disk[k])
    && (forall m :: m in b.rows ==> m in a.rows || m !in a.known)
  }

  /** The row is as it was, except that it may have stopped being ready or been pinned. */
  ghost predicate RowQuiet(a: Store, b: Store, m: MediaId)
  {
    && (m in a.unread <==> m in b.unread)
    && (m in b.rows && m in a.rows ==>
         && b.rows[m].storage == a.rows[m].storage && b.rows[m].prepared == a.rows[m].prepared
         && b.rows[m].mode == a.rows[m].mode && b.rows[m].signature == a.rows[m].signature
         && (b.rows[m].state == Ready ==> a.rows[m].state == Ready))
  }

  lemma ActMoves(st: Store, m: MediaId, stage: Stage, a: Action)
    requires KeysIssued(st)
    ensures var st' := Act(st, m, stage, a).0;
            && StoreMoves(st, st') && st'.rows.Keys == st.rows.Keys && st'.disk.Keys >= st.disk.Keys
            && (forall j :: j != m ==> RowQuiet(st, st', j))
  {
  }

  lemma NextMoves(w: World, s: Step)
    requires KeysIssued(w.st) && (forall t :: t in w.threads ==> ThreadSound(w.st, w.threads[t]))
    ensures StoreMoves(w.st, Next(w, s).st)
  {
    match s
    case Work(t, a) =>
      if AtWork(w, t) {
        ActMoves(w.st, w.threads[t].m, w.threads[t].stage, a);
      }
      hide Act;
    case _ => hide InProgress, Unreferenced;
  }

  lemma RowIsQuiet(w: World, s: Step, m: MediaId)
    requires KeysIssued(w.st) && m in w.st.known
    requires s.Work? && AtWork(w, s.t) ==> w.threads[s.t].m != m
    ensures RowQuiet(w.st, Next(w, s).st, m)
  {
    match s
    case Work(t, a) =>
      if AtWork(w, t) {
        ActMoves(w.st, w.threads[t].m, w.threads[t].stage, a);
      }
      hide Act;
    case _ => hide InProgress, Unreferenced;
  }

  // ---- the working thread's own step ---------------------------------------------------

  /** The work of one thread keeps its media's pointers and shape sound, and knows where it stands. */
  lemma ActSound(st: Store, m: MediaId, stage: Stage, a: Action)
    requires KeysIssued(st) && Pointers(st) && ReadyRows(st) && WorkSound(st, m, stage)
    ensures var (st', stage') := Act(st, m, stage, a);
            && KeysIssued(st') && WorkSound(st', m, stage')
            && (m in st'.rows ==> PointerSound(st', m) && ReadySound(st', m))
  {
    assert m in st.rows ==> PointerSound(st, m) && ReadySound(st, m);
  }

  // ---- files that are needed stay --------------------------------------------------------

  /** Some row or thread needs the file: it is a row's pointer, an upload's, or an output for a row that is there. */
  ghost predicate Needed(w: World, k: Key)
  {
    || (exists m :: m in w.st.rows && w.st.rows[m].PointsAt(k) && OwnedBy(w.st, k, m))
    || (InProgress(w, k) && (k in w.st.owner ==> w.st.owner[k] in w.st.rows))
  }

  lemma NeededFilesStay(w: World, s: Step, k: Key)
    requires KeysIssued(w.st) && (forall t :: t in w.threads ==> ThreadSound(w.st, w.threads[t]))
    requires k in w.st.disk && Needed(w, k)
    ensures k in Next(w, s).st.disk
  {
    match s
    case Work(t, a) =>
      if AtWork(w, t) {
        ActMoves(w.st, w.threads[t].m, w.threads[t].stage, a);
      }
      hide Act;
    case Unlink(t, gone) =>
      if t in w.threads && w.threads[t].Unlinking? && gone in w.threads[t].keys {
        assert ThreadSound(w.st, w.threads[t]);
        assert OwnedBy(w.st, gone, w.threads[t].m);
        hide InProgress;
      }
    case Sweep(keys) =>
      hide InProgress;
    case _ => hide InProgress, Unreferenced;
  }

  lemma PointersKept(w: World, s: Step)
    requires KeysIssued(w.st) && Pointers(w.st) && ReadyRows(w.st)
    requires forall t :: t in w.threads ==> ThreadSound(w.st, w.threads[t])
    ensures KeysIssued(Next(w, s).st) && Pointers(Next(w, s).st) && ReadyRows(Next(w, s).st)
  {
    var st' := Next(w, s).st;
    forall m | m in st'.rows ensures PointerSound(st', m) && ReadySound(st', m) {
      RowSoundKept(w, s, m);
    }
    KeysKept(w, s);
    hide Next, PointerSound, ReadySound;
  }

  lemma KeysKept(w: World, s: Step)
    requires KeysIssued(w.st) && Pointers(w.st) && ReadyRows(w.st)
    requires forall t :: t in w.threads ==> ThreadSound(w.st, w.threads[t])
    ensures KeysIssued(Next(w, s).st)
  {
    match s
    case Work(t, a) =>
      if AtWork(w, t) {
        assert ThreadSound(w.st, w.threads[t]);
        ActSound(w.st, w.threads[t].m, w.threads[t].stage, a);
      }
      hide Act;
    case CreateRow(t, _) =>
      assert t in w.threads ==> ThreadSound(w.st, w.threads[t]);
    case _ => hide InProgress, Unreferenced;
  }

  lemma RowSoundKept(w: World, s: Step, m: MediaId)
    requires KeysIssued(w.st) && Pointers(w.st) && ReadyRows(w.st)
    requires forall t :: t in w.threads ==> ThreadSound(w.st, w.threads[t])
    requires m in Next(w, s).st.rows
    ensures PointerSound(Next(w, s).st, m) && ReadySound(Next(w, s).st, m)
  {
    if s.Work? && AtWork(w, s.t) && w.threads[s.t].m == m {
      assert ThreadSound(w.st, w.threads[s.t]);
      ActSound(w.st, m, w.threads[s.t].stage, s.action);
      hide Act;
    } else if m !in w.st.rows {
      NewRowSound(w, s, m);
      hide Next;
    } else {
      assert PointerSound(w.st, m) && ReadySound(w.st, m);
      RowIsQuiet(w, s, m);
      NextMoves(w, s);
      var row := w.st.rows[m];
      assert row.PointsAt(row.storage);
      NeededFilesStay(w, s, row.storage);
      if row.prepared.Some? {
        assert row.PointsAt(row.prepared.value);
        NeededFilesStay(w, s, row.prepared.value);
      }
      hide Next, Needed, ThreadSound, InProgress, KeysIssued;
    }
  }

  /** A row appears only where an upload becomes one. */
  lemma NewRowSound(w: World, s: Step, m: MediaId)
    requires KeysIssued(w.st) && m !in w.st.rows && m in Next(w, s).st.rows
    requires forall t :: t in w.threads ==> ThreadSound(w.st, w.threads[t])
    ensures PointerSound(Next(w, s).st, m) && ReadySound(Next(w, s).st, m)
  {
    match s
    case CreateRow(t, n) =>
      assert ThreadSound(w.st, w.threads[t]);
    case Work(t, a) =>
      ActMoves(w.st, w.threads[t].m, w.threads[t].stage, a);
      hide Act;
    case _ => hide InProgress, Unreferenced;
  }

  // ---- what threads rely on ---------------------------------------------------------------

  ghost predicate Sound(w: World)
  {
    KeysIssued(w.st) && Pointers(w.st) && ReadyRows(w.st) && forall t :: t in w.threads ==> ThreadSound(w.st, w.threads[t])
  }

  /** The thread that takes the step. */
  lemma MoverSound(w: World, s: Step, u: ThreadId)
    requires Sound(w) && Mover(s) == Some(u) && u in Next(w, s).threads
    ensures ThreadSound(Next(w, s).st, Next(w, s).threads[u])
  {
    assert u in w.threads ==> ThreadSound(w.st, w.threads[u]);
    match s
    case Work(t, a) =>
      if AtWork(w, t) {
        ActSound(w.st, w.threads[t].m, w.threads[t].stage, a);
      }
      hide Act;
    case Upload(_, _, _, _) =>
    case ReadForDelete(_, m) =>
      assert m in w.st.rows ==> PointerSound(w.st, m);
    case _ =>
  }

  /** A worker on another media loses nothing it knows. */
  lemma WorkStays(a: Store, b: Store, m: MediaId, stage: Stage)
    requires WorkSound(a, m, stage) && StoreMoves(a, b)
    requires m in a.known ==> RowQuiet(a, b, m)
    requires m in a.rows && m in b.rows && (stage.Filed? || stage.Shaped? || stage.WrittenOff?) ==> stage.out in b.disk
    ensures WorkSound(b, m, stage)
  {
  }

  lemma BystanderSound(w: World, s: Step, u: ThreadId)
    requires Sound(w) && ClaimsHeld(w) && ThreadsSound(w)
    requires u in w.threads && u in Next(w, s).threads && Next(w, s).threads[u] == w.threads[u] && Mover(s) != Some(u)
    ensures ThreadSound(Next(w, s).st, w.threads[u])
  {
    var pc, st' := w.threads[u], Next(w, s).st;
    assert ThreadSound(w.st, pc);
    NextMoves(w, s);
    match pc
    case Working(m, stage) =>
      if s.Work? && AtWork(w, s.t) {
        assert Claims(w.threads, s.t) != Claims(w.threads, u);
      }
      if m in w.st.known {
        RowIsQuiet(w, s, m);
      }
      if m in w.st.rows && (stage.Filed? || stage.Shaped? || stage.WrittenOff?) {
        assert Producing(w.st, pc, stage.out);
        NeededFilesStay(w, s, stage.out);
      }
      hide Next;
      WorkStays(w.st, st', m, stage);
    case Uploading(_, key) =>
      assert Producing(w.st, pc, key);
      NeededFilesStay(w, s, key);
      UploadUnowned(w, s, u);
      hide Next;
    case Unlinking(m, keys) =>
      hide Next;
    case Deleting(m, keys) =>
      hide Next;
    case _ => hide Next;
  }

  /** An upload in progress is nobody's yet, and stays so until its own row is written. */
  lemma UploadUnowned(w: World, s: Step, u: ThreadId)
    requires Sound(w) && u in w.threads && w.threads[u].Uploading? && Mover(s) != Some(u)
    requires forall t :: t in w.threads && t != u && w.threads[t].Uploading? ==> w.threads[t].key != w.threads[u].key
    ensures w.threads[u].key !in Next(w, s).st.owner
  {
    assert ThreadSound(w.st, w.threads[u]);
    match s
    case Work(t, a) =>
    case _ => hide InProgress, Unreferenced;
  }

  lemma ThreadsKept(w: World, s: Step)
    requires Sound(w) && ClaimsHeld(w) && ThreadsSound(w)
    ensures ThreadsSound(Next(w, s))
  {
    var w' := Next(w, s);
    forall u | u in w'.threads ensures ThreadSound(w'.st, w'.threads[u]) {
      if Mover(s) == Some(u) {
        MoverSound(w, s, u);
      } else {
        OthersStay(w, s, u);
        BystanderSound(w, s, u);
      }
      hide Next, ThreadSound, Sound, ClaimsHeld, ThreadsSound;
    }
    UploadsDiffer(w, s);
    hide Next, ThreadSound, Sound, ClaimsHeld;
  }

  lemma UploadsDiffer(w: World, s: Step)
    requires Sound(w) && ThreadsSound(w)
    ensures var threads := Next(w, s).threads;
            forall t, u :: t in threads && u in threads && t != u && threads[t].Uploading? && threads[u].Uploading? ==>
              threads[t].key != threads[u].key
  {
    assert forall t :: t in w.threads && w.threads[t].Uploading? ==> w.threads[t].key in w.st.issued;
    match s
    case Work(t, a) =>
      hide Act;
    case _ => hide InProgress, Unreferenced;
  }

  lemma NextKeepsInv(w: World, s: Step)
    requires Inv(w)
    ensures Inv(Next(w, s))
  {
    SlotsKept(w, s);
    ClaimsKept(w, s);
    PointersKept(w, s);
    ThreadsKept(w, s);
    hide Next, Slots, ClaimsHeld, KeysIssued, Pointers, ReadyRows, ThreadsSound;
  }
}
