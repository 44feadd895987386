/** Crash safety, what may be deleted, and what a ready row can be trusted to say. */
module PreparationLaws {
  import opened Common
  import opened Media
  import opened Preparation
  import opened PreparationInv

  lemma {:induction false} RunKeepsInv(w: World, steps: seq<Step>)
    requires Inv(w)
    ensures Inv(After(w, steps))
    decreases |steps|
  {
    hide Inv, Next;
    if steps != [] {
      NextKeepsInv(w, steps[0]);
      RunKeepsInv(Next(w, steps[0]), steps[1..]);
    }
  }

  lemma StartIsSound()
    ensures Inv(Start())
  {
    assert SlotHolders(Start().threads) == {};
  }

  // ---- pointers, slots, shapes -------------------------------------------------------

  predicate PointersExist(st: Store)
  {
    forall m :: m in st.rows ==>
      st.rows[m].storage in st.disk && (st.rows[m].prepared.Some? ==> st.rows[m].prepared.value in st.disk)
  }

  /**
   After any interleaving of uploads, preparations, deletions and clean-ups, with
   panics and crashes between any two steps, every pointer names a file that
   exists, and no two media share one.
   */
  lemma PointersAlwaysExist(steps: seq<Step>)
    ensures var st := After(Start(), steps).st;
            && PointersExist(st)
            && forall m, n, k :: m in st.rows && n in st.rows && st.rows[m].PointsAt(k) && st.rows[n].PointsAt(k) ==> m == n
  {
    StartIsSound();
    RunKeepsInv(Start(), steps);
    var st := After(Start(), steps).st;
    hide After;
    assert forall m :: m in st.rows ==> PointerSound(st, m);
    hide Inv;
  }

  /**
   At every moment the free slots and the held ones are `MAX_PREPARING_AT_ONCE`,
   no two threads prepare one media, and once no thread is left, however they
   ended, every slot is free and nothing is claimed.
   */
  lemma EveryTurnIsReturned(steps: seq<Step>, t: ThreadId, u: ThreadId)
    ensures var w := After(Start(), steps);
            && w.free + |SlotHolders(w.threads)| == MAX_PREPARING_AT_ONCE
            && (t in w.threads && u in w.threads && w.threads[t].Working? && w.threads[u].Working? ==> t == u)
            && (Claims(w.threads, t).Some? && Claims(w.threads, t) == Claims(w.threads, u) ==> t == u)
            && (w.threads == map[] ==> w.free == MAX_PREPARING_AT_ONCE && w.busy == {})
  {
    StartIsSound();
    RunKeepsInv(Start(), steps);
    var w := After(Start(), steps);
    hide After;
    var holders := SlotHolders(w.threads);
    if t in w.threads && u in w.threads && w.threads[t].Working? && w.threads[u].Working? && t != u {
      assert {t, u} <= holders;
      SubsetCount({t, u}, holders);
      assert false;
    }
    if w.threads == map[] {
      assert holders == {};
      assert forall v :: Claims(w.threads, v) == None;
    }
  }

  /** No output of the run could not be probed. */
  predicate AllRead(steps: seq<Step>)
  {
    forall i :: 0 <= i < |steps| ==> !(steps[i].Work? && steps[i].action == RecordShape(false))
  }

  lemma {:induction false} NothingGoesUnread(w: World, steps: seq<Step>)
    requires AllRead(steps)
    ensures After(w, steps).st.unread <= w.st.unread
    decreases |steps|
  {
    if steps != [] {
      assert Next(w, steps[0]).st.unread <= w.st.unread by {
        hide InProgress, Unreferenced;
      }
      assert forall i :: 0 <= i < |steps[1..]| ==> steps[1..][i] == steps[i + 1];
      hide Next;
      NothingGoesUnread(Next(w, steps[0]), steps[1..]);
    }
  }

  /**
   A ready media's recorded mode and signature are those of the file its pointer
   names, in every reachable store, unless its last output could not be probed;
   so for all media where no output went unread.
   */
  lemma ReadyRowsAreDescribed(steps: seq<Step>, m: MediaId)
    ensures var st := After(Start(), steps).st;
            m in st.rows && st.rows[m].state == Ready ==>
              && st.rows[m].prepared.Some? && st.rows[m].prepared.value in st.disk
              && (m !in st.unread || AllRead(steps) ==> st.rows[m].Describes(st.disk[st.rows[m].prepared.value]))
  {
    StartIsSound();
    RunKeepsInv(Start(), steps);
    if AllRead(steps) {
      NothingGoesUnread(Start(), steps);
    }
    var st := After(Start(), steps).st;
    hide After, AllRead;
    assert m in st.rows ==> ReadySound(st, m);
    hide Inv;
  }

  /** What three steps make of a filed output that cannot be probed. */
  function PublishUnread(st: Store, m: MediaId, out: Key, mode: string): Store
  {
    var kept := Act(st, m, Filed(out, mode), RecordShape(false)).0;
    var noted := Act(kept, m, Shaped(out), WriteOff).0;
    Act(noted, m, WrittenOff(out), RecordPrepared).0
  }

  /**
   An output that cannot be probed is published all the same. The ready row then
   describes it exactly in these cases: a first output, if it was planned
   canonical, because a row without a mode reads as canonical; a later one, if it
   is canonical or native as the row already said and has the signature recorded
   for the one before.
   */
  lemma UnreadOutputIsDescribedExactly(st: Store, m: MediaId, out: Key, mode: string)
    requires m in st.rows && ReadySound(st, m) && WorkSound(st, m, Filed(out, mode))
    ensures var st' := PublishUnread(st, m, out, mode);
            && m in st'.rows && out in st'.disk && m in st'.unread
            && st'.rows[m].state == Ready && st'.rows[m].prepared == Some(out)
            && (st'.rows[m].Describes(st'.disk[out]) <==>
                 match st.rows[m].mode
                 case None => mode == CANONICAL
                 case Some(recorded) =>
                   (recorded == CANONICAL <==> mode == CANONICAL)
                   && st.rows[m].signature == Some(st.disk[out].signature))
  {
  }

  // ---- what may be deleted ----------------------------------------------------------

  function Swept(w: World, k: Key): World
  {
    w.(st := w.st.(disk := w.st.disk - {k}))
  }

  lemma WrittenOffBecomesPointer(w: World, t: ThreadId, k: Key)
    requires t in w.threads && w.threads[t].Working? && w.threads[t].stage == WrittenOff(k)
    requires w.threads[t].m in w.st.rows && k !in w.st.disk
    ensures !PointersExist(After(w, [Work(t, RecordPrepared)]).st)
  {
    var w' := Next(w, Work(t, RecordPrepared));
    assert After(w, [Work(t, RecordPrepared)]) == After(w', []);
    assert w'.st.rows[w.threads[t].m].prepared == Some(k);
  }

  lemma ShapedBecomesPointer(w: World, t: ThreadId, k: Key)
    requires t in w.threads && w.threads[t].Working? && w.threads[t].stage == Shaped(k)
    requires w.threads[t].m in w.st.rows && k !in w.st.disk
    ensures !PointersExist(After(w, [Work(t, WriteOff), Work(t, RecordPrepared)]).st)
  {
    var w' := Next(w, Work(t, WriteOff));
    assert [Work(t, WriteOff), Work(t, RecordPrepared)][1..] == [Work(t, RecordPrepared)];
    WrittenOffBecomesPointer(w', t, k);
  }

  lemma FiledBecomesPointer(w: World, t: ThreadId, k: Key)
    requires t in w.threads && w.threads[t].Working? && w.threads[t].stage.Filed? && w.threads[t].stage.out == k
    requires w.threads[t].m in w.st.rows && k !in w.st.disk
    ensures !PointersExist(After(w, [Work(t, RecordShape(false)), Work(t, WriteOff), Work(t, RecordPrepared)]).st)
  {
    var w' := Next(w, Work(t, RecordShape(false)));
    assert [Work(t, RecordShape(false)), Work(t, WriteOff), Work(t, RecordPrepared)][1..]
        == [Work(t, WriteOff), Work(t, RecordPrepared)];
    ShapedBecomesPointer(w', t, k);
  }

  lemma UploadBecomesPointer(w: World, t: ThreadId, k: Key, spare: MediaId)
    requires t in w.threads && w.threads[t].Uploading? && w.threads[t].key == k
    requires spare !in w.st.known && k !in w.st.disk
    ensures !PointersExist(After(w, [CreateRow(t, spare)]).st)
  {
    var w' := Next(w, CreateRow(t, spare));
    assert After(w, [CreateRow(t, spare)]) == After(w', []);
    assert w'.st.rows[spare].storage == k;
  }

  lemma InProgressBecomesPointer(w: World, k: Key, spare: MediaId) returns (steps: seq<Step>)
    requires InProgress(w, k) && spare !in w.st.known && k !in w.st.disk
    ensures !PointersExist(After(w, steps).st)
  {
    var t :| t in w.threads && Producing(w.st, w.threads[t], k);
    match w.threads[t] {
      case Uploading(_, _) =>
        steps := [CreateRow(t, spare)];
        UploadBecomesPointer(w, t, k, spare);
      case Working(_, stage) =>
        if stage.Filed? {
          steps := [Work(t, RecordShape(false)), Work(t, WriteOff), Work(t, RecordPrepared)];
          FiledBecomesPointer(w, t, k);
        } else if stage.Shaped? {
          steps := [Work(t, WriteOff), Work(t, RecordPrepared)];
          ShapedBecomesPointer(w, t, k);
        } else {
          steps := [Work(t, RecordPrepared)];
          WrittenOffBecomesPointer(w, t, k);
        }
    }
  }

  /**
   A file no row points at may be deleted without ever leaving a row pointing at
   nothing exactly when no upload or preparation is about to point at it. The
   audit does not look for those: a file just stored and not yet recorded reads
   as an orphan and, not being open, as safe to delete.
   */
  lemma DeletingIsSafeExactly(w: World, k: Key, spare: MediaId)
    requires Inv(w) && Unreferenced(w.st, k) && spare !in w.st.known
    ensures (forall steps :: PointersExist(After(Swept(w, k), steps).st)) <==> !InProgress(w, k)
  {
    if InProgress(w, k) {
      assert InProgress(Swept(w, k), k) by {
        var t :| t in w.threads && Producing(w.st, w.threads[t], k);
        assert Producing(Swept(w, k).st, Swept(w, k).threads[t], k);
      }
      var steps := InProgressBecomesPointer(Swept(w, k), k, spare);
    } else {
      assert Next(w, Sweep({k})) == Swept(w, k);
      NextKeepsInv(w, Sweep({k}));
      forall steps ensures PointersExist(After(Swept(w, k), steps).st) {
        RunKeepsInv(Swept(w, k), steps);
        SoundPointersExist(After(Swept(w, k), steps));
      }
    }
  }

  lemma SoundPointersExist(w: World)
    requires Inv(w)
    ensures PointersExist(w.st)
  {
    assert forall m :: m in w.st.rows ==> PointerSound(w.st, m);
  }

  /** Deletable for good: stored once, pointed at by nothing, and on its way to nothing. */
  ghost predicate Abandoned(w: World, k: Key)
  {
    k in w.st.issued && Unreferenced(w.st, k) && !InProgress(w, k)
  }

  lemma ActAbandons(st: Store, m: MediaId, stage: Stage, a: Action, k: Key)
    requires KeysIssued(st) && k in st.issued && Unreferenced(st, k) && WorkSound(st, m, stage)
    requires !Producing(st, Working(m, stage), k)
    ensures var (st', stage') := Act(st, m, stage, a);
            && k in st'.issued && Unreferenced(st', k) && !Producing(st', Working(m, stage'), k)
  {
  }

  lemma WorkAbandons(w: World, t: ThreadId, a: Action, k: Key)
    requires Inv(w) && Abandoned(w, k) && AtWork(w, t)
    ensures Abandoned(Next(w, Work(t, a)), k)
  {
    var w' := Next(w, Work(t, a));
    assert ThreadSound(w.st, w.threads[t]);
    assert !Producing(w.st, w.threads[t], k);
    ActAbandons(w.st, w.threads[t].m, w.threads[t].stage, a, k);
    ActMoves(w.st, w.threads[t].m, w.threads[t].stage, a);
    hide Act, Inv;
    forall u | u in w'.threads ensures !Producing(w'.st, w'.threads[u], k) {
      assert u != t ==> !Producing(w.st, w.threads[u], k);
    }
  }

  /** Any other step starts nothing on a file that is there already. */
  lemma OtherStepsAbandon(w: World, s: Step, k: Key)
    requires Abandoned(w, k) && !s.Work? && !s.CreateRow?
    ensures Abandoned(Next(w, s), k)
  {
    var w' := Next(w, s);
    forall u | u in w'.threads ensures !Producing(w'.st, w'.threads[u], k) {
      assert u in w.threads ==> !Producing(w.st, w.threads[u], k);
    }
    hide InProgress;
  }

  lemma AbandonedStays(w: World, s: Step, k: Key)
    requires Inv(w) && Abandoned(w, k)
    ensures Abandoned(Next(w, s), k)
  {
    if s.Work? {
      if AtWork(w, s.t) {
        WorkAbandons(w, s.t, s.action, k);
      }
    } else if s.CreateRow? {
      CreationAbandons(w, s.t, s.m, k);
    } else {
      OtherStepsAbandon(w, s, k);
    }
    hide Act, Abandoned, Inv;
  }

  /** A new row does not bring back an output made for a media that was deleted. */
  lemma CreationAbandons(w: World, t: ThreadId, m: MediaId, k: Key)
    requires Inv(w) && Abandoned(w, k)
    ensures Abandoned(Next(w, CreateRow(t, m)), k)
  {
    var w' := Next(w, CreateRow(t, m));
    if w' != w {
      assert !Producing(w.st, w.threads[t], k);
      forall u | u in w'.threads ensures !Producing(w'.st, w'.threads[u], k) {
        assert ThreadSound(w.st, w.threads[u]) && !Producing(w.st, w.threads[u], k);
      }
    }
  }

  /**
   An audit may be old by the time someone acts on it. A file that was nobody's
   and on its way to nobody when it was read still is, whatever ran since, and
   deleting it then never breaks a pointer.
   */
  lemma {:induction false} AnOldAuditStaysRight(w: World, steps: seq<Step>, later: seq<Step>, k: Key)
    requires Inv(w) && Abandoned(w, k)
    ensures var at := After(w, steps);
            Abandoned(at, k) && PointersExist(After(Next(at, Sweep({k})), later).st)
    decreases |steps|
  {
    if steps == [] {
      NextKeepsInv(w, Sweep({k}));
      RunKeepsInv(Next(w, Sweep({k})), later);
      SoundPointersExist(After(Next(w, Sweep({k})), later));
    } else {
      AbandonedStays(w, steps[0], k);
      NextKeepsInv(w, steps[0]);
      hide Inv, Next, Abandoned;
      AnOldAuditStaysRight(Next(w, steps[0]), steps[1..], later, k);
    }
  }

  /**
   The window in which a file is both written off and still pointed at: if the
   process stops there, the row goes on naming a file that exists, and the file
   is not deletable although it is on the list of files written off.
   */
  lemma WrittenOffIsNotYetDeletable(w: World, t: ThreadId, was: Key)
    requires Inv(w) && AtWork(w, t) && w.threads[t].stage.Shaped? && w.threads[t].m in w.st.rows
    requires w.st.rows[w.threads[t].m].prepared == Some(was)
    requires was != w.threads[t].stage.out && was != w.st.rows[w.threads[t].m].storage
    ensures var w' := Next(Next(w, Work(t, WriteOff)), Crash);
            && was in w'.st.trash && was in w'.st.disk && !Unreferenced(w'.st, was)
            && w'.st.rows[w.threads[t].m].prepared == Some(was)
  {
    assert PointerSound(w.st, w.threads[t].m);
    hide Inv;
    assert w.st.rows[w.threads[t].m].PointsAt(was);
  }

  // ---- how a preparation and a deletion end --------------------------------------------

  /** The store with one row's state set, and nothing else changed. */
  predicate OnlyState(st: Store, st': Store, m: MediaId, state: MediaState)
  {
    && st'.rows == (if m in st.rows then st.rows[m := st.rows[m].(state := state)] else st.rows)
    && st' == st.(rows := st'.rows)
  }

  /**
   A preparation that fails, at whatever stage, gives its claim and its slot back,
   leaves files and pointers alone and says so in its row; one of a media that is
   not there fails. A panic gives both back too, and says nothing.
   */
  lemma FailureIsReported(w: World, t: ThreadId)
    requires AtWork(w, t)
    ensures var m := w.threads[t].m;
            var end := Next(Next(Next(Next(w, Work(t, Fail)), ReturnClaim(t)), ReturnSlot(t)), ReportFailure(t));
            if w.threads[t].stage.Done? then Next(w, Work(t, Fail)) == w else
            && OnlyState(w.st, end.st, m, Failed)
            && end.busy == w.busy - {m} && end.free == w.free + 1 && end.threads == w.threads - {t}
    ensures w.threads[t].stage.Entered? && w.threads[t].m !in w.st.rows ==> Next(w, Work(t, Load)) == Next(w, Work(t, Fail))
    ensures Next(Next(w, Panic(t)), Unwind(t)) ==
              w.(busy := w.busy - {w.threads[t].m}, free := w.free + 1, threads := w.threads - {t})
  {
    var m := w.threads[t].m;
    var failed := Next(w, Work(t, Fail));
    assert w.threads[t] == Working(m, w.threads[t].stage);
    if w.threads[t].stage.Done? {
      assert failed.threads == w.threads && failed == w;
    } else {
      assert failed == w.(threads := w.threads[t := Working(m, Done(true))]);
      hide Act;
      var returned := Next(failed, ReturnClaim(t));
      assert returned.threads == w.threads[t := Returned(m, true)];
      var reporting := Next(returned, ReturnSlot(t));
      assert reporting.threads == w.threads[t := Reporting(m)];
      assert Next(reporting, ReportFailure(t)).threads == w.threads - {t};
    }
    assert Next(w, Panic(t)).threads == w.threads[t := Unwinding(m)];
    assert w.threads[t := Unwinding(m)] - {t} == w.threads - {t};
  }

  /** What is written off is the file the row pointed at, unless that is the source or the new one; the output's shape is recorded or known to be unread. */
  lemma WriteOffSparesTheSource(w: World, t: ThreadId, out: Key, mode: string)
    requires AtWork(w, t) && w.threads[t].m in w.st.rows
    ensures var row := w.st.rows[w.threads[t].m];
            w.threads[t].stage == Shaped(out) ==>
              var off := Next(w, Work(t, WriteOff));
              && off.st == w.st.(trash := off.st.trash) && w.st.trash <= off.st.trash
              && forall k :: k in off.st.trash <==>
                   k in w.st.trash || (row.prepared == Some(k) && k != row.storage && k != out)
    ensures w.threads[t].stage == Filed(out, mode) && out in w.st.disk ==>
              && w.threads[t].m !in Next(w, Work(t, RecordShape(true))).st.unread
              && w.threads[t].m in Next(w, Work(t, RecordShape(false))).st.unread
  {
  }

  /** A source that is played as it is becomes its own prepared file: none is made, and it is not written off. */
  lemma SourcePlayedAsItIs(st: Store, m: MediaId, key: Key)
    requires m in st.rows && key == st.rows[m].storage && key in st.disk
    ensures var (used, shaped) := Act(st, m, Planned(key, false), UseSource);
            var (off, left) := Act(used, m, shaped, WriteOff);
            var end := Act(off, m, left, RecordPrepared).0;
            && end.disk == st.disk && key !in end.trash - st.trash
            && end.rows == st.rows[m := st.rows[m].(
                 state := Ready, prepared := Some(key), mode := Some("direct"), signature := Some(st.disk[key].signature))]
    ensures Act(st, m, Planned(key, true), UseSource) == (st, Planned(key, true))
  {
  }

  /** A deletion nothing interrupts takes the row and every file it named, and no other. */
  lemma DeletionTakesBoth(w: World, t: ThreadId, m: MediaId)
    requires t !in w.threads && m in w.st.rows
    ensures var row := w.st.rows[m];
            var gone := Next(Next(Next(w, ReadForDelete(t, m)), DeleteRow(t)), Unlink(t, row.storage));
            var end := if row.prepared.Some? then Next(gone, Unlink(t, row.prepared.value)) else gone;
            && end.st.rows == w.st.rows - {m}
            && forall k :: k in end.st.disk <==> k in w.st.disk && !row.PointsAt(k)
  {
    var row := w.st.rows[m];
    var reading := Next(w, ReadForDelete(t, m));
    assert reading.threads[t] == Deleting(m, KeysOf(row));
    var deleted := Next(reading, DeleteRow(t));
    assert deleted.threads[t] == Unlinking(m, KeysOf(row)) && deleted.st.disk == w.st.disk;
    var gone := Next(deleted, Unlink(t, row.storage));
    assert gone.st.disk == w.st.disk - {row.storage} && gone.threads == deleted.threads;
    hide Act;
  }
}
