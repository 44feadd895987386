/** From a mixed playlist to one that can be joined, whatever else the service does meanwhile. */
module Convergence {
  import opened Common
  import opened Media
  import opened Playlists
  import opened Preparation
  import opened PreparationInv
  import opened PreparationLaws

  /**
   A broadcast that starts by both gates, after any run in which every output
   could be probed, plays files that can be joined.
   */
  lemma StartedPlaylistsCanBeJoined(steps: seq<Step>, items: seq<Item>, fallback: MediaId)
    requires AllRead(steps)
    requires var st := After(Start(), steps).st;
             && Joinable(Shapes(st.rows, Judged(items, fallback)))
             && PreparedItems(st.rows, items, fallback).Ok?
    ensures var st := After(Start(), steps).st;
            var out := PreparedItems(st.rows, items, fallback).value;
            && out != []
            && (forall j :: 0 <= j < |out| ==> out[j].key in st.disk)
            && ((forall j :: 0 <= j < |out| ==> st.disk[out[j].key].canonical) ||
                (forall j :: 0 <= j < |out| ==> st.disk[out[j].key].signature == st.disk[out[0].key].signature))
  {
    var st := After(Start(), steps).st;
    forall m | m in st.rows && st.rows[m].state == Ready
      ensures st.rows[m].prepared.Some? && st.rows[m].prepared.value in st.disk
           && st.rows[m].Describes(st.disk[st.rows[m].prepared.value])
    {
      ReadyRowsAreDescribed(steps, m);
    }
    hide After, AllRead;
    BothGatesMakeOneShape(st.rows, items, fallback, st.disk);
  }

  // ---- pinning lasts -------------------------------------------------------------------

  /** No plan in flight for this media can end in anything but the canonical profile. */
  predicate PlansCanonical(w: World, m: MediaId)
  {
    forall t :: t in w.threads && w.threads[t].Working? && w.threads[t].m == m ==>
      match w.threads[t].stage
      case Planned(_, pinned) => pinned
      case Filed(_, mode) => mode == CANONICAL
      case _ => true
  }

  /** Pinned, recorded as canonical, and nothing under way would change that. */
  predicate Settled(w: World, m: MediaId)
  {
    m in w.st.rows && w.st.rows[m].pinned && w.st.rows[m].ModeRead() == CANONICAL && PlansCanonical(w, m)
  }

  lemma ActSettles(st: Store, m: MediaId, stage: Stage, a: Action)
    requires m in st.rows && st.rows[m].pinned && st.rows[m].ModeRead() == CANONICAL
    requires stage.Planned? ==> stage.pinned
    requires stage.Filed? ==> stage.mode == CANONICAL
    ensures var (st', stage') := Act(st, m, stage, a);
            && m in st'.rows && st'.rows[m].pinned && st'.rows[m].ModeRead() == CANONICAL
            && (stage'.Planned? ==> stage'.pinned)
            && (stage'.Filed? ==> stage'.mode == CANONICAL)
  {
  }

  lemma ActLeavesOthers(st: Store, n: MediaId, stage: Stage, a: Action, m: MediaId)
    requires m != n && m in st.rows
    ensures m in Act(st, n, stage, a).0.rows && Act(st, n, stage, a).0.rows[m] == st.rows[m]
  {
  }

  /** Pinning is one way: once settled, a media stays canonical as long as its row exists. */
  lemma SettledStays(w: World, s: Step, m: MediaId)
    requires Settled(w, m) && m in w.st.known
    ensures m in Next(w, s).st.rows ==> Settled(Next(w, s), m)
  {
    if s.Work? {
      WorkKeepsSettled(w, s.t, s.action, m);
    } else {
      hide Act, InProgress, Unreferenced;
    }
  }

  lemma WorkKeepsSettled(w: World, t: ThreadId, a: Action, m: MediaId)
    requires Settled(w, m)
    ensures Settled(Next(w, Work(t, a)), m)
  {
    if AtWork(w, t) {
      if w.threads[t].m == m {
        ActSettles(w.st, m, w.threads[t].stage, a);
      } else {
        ActLeavesOthers(w.st, w.threads[t].m, w.threads[t].stage, a, m);
      }
    }
    hide Act;
  }

  lemma {:induction false} SettledForGood(w: World, steps: seq<Step>, m: MediaId)
    requires Inv(w) && Settled(w, m)
    ensures m in After(w, steps).st.rows ==> Settled(After(w, steps), m)
    decreases |steps|
  {
    if steps != [] {
      assert PointerSound(w.st, m);
      SettledStays(w, steps[0], m);
      NextKeepsInv(w, steps[0]);
      if m !in Next(w, steps[0]).st.rows {
        StaysDeleted(Next(w, steps[0]), steps[1..], m, w, steps[0]);
      } else {
        hide Inv, Next, Settled;
        SettledForGood(Next(w, steps[0]), steps[1..], m);
      }
    }
  }

  lemma {:induction false} GoneForGood(w: World, steps: seq<Step>, m: MediaId)
    requires Inv(w) && m in w.st.known && m !in w.st.rows
    ensures m !in After(w, steps).st.rows
    decreases |steps|
  {
    if steps != [] {
      NextMoves(w, steps[0]);
      NextKeepsInv(w, steps[0]);
      hide Inv, Next;
      GoneForGood(Next(w, steps[0]), steps[1..], m);
    }
  }

  lemma StaysDeleted(w': World, rest: seq<Step>, m: MediaId, w: World, s: Step)
    requires Inv(w) && Inv(w') && w' == Next(w, s) && m in w.st.rows && m !in w'.st.rows
    ensures m !in After(w', rest).st.rows
  {
    assert PointerSound(w.st, m);
    NextMoves(w, s);
    hide Next, Inv;
    GoneForGood(w', rest, m);
  }

  // ---- in every interleaving ---------------------------------------------------------------

  /** Pinned, with nothing under way that could end native. */
  predicate Bound(w: World, m: MediaId)
  {
    m in w.st.rows && w.st.rows[m].pinned && PlansCanonical(w, m)
  }

  lemma ActBinds(st: Store, m: MediaId, stage: Stage, a: Action)
    requires m in st.rows && st.rows[m].pinned
    requires stage.Planned? ==> stage.pinned
    requires stage.Filed? ==> stage.mode == CANONICAL
    ensures var (st', stage') := Act(st, m, stage, a);
            && m in st'.rows && st'.rows[m].pinned
            && (stage'.Planned? ==> stage'.pinned)
            && (stage'.Filed? ==> stage'.mode == CANONICAL)
  {
  }

  lemma WorkKeepsBound(w: World, t: ThreadId, a: Action, m: MediaId)
    requires Bound(w, m)
    ensures Bound(Next(w, Work(t, a)), m)
  {
    if AtWork(w, t) {
      if w.threads[t].m == m {
        ActBinds(w.st, m, w.threads[t].stage, a);
      } else {
        ActLeavesOthers(w.st, w.threads[t].m, w.threads[t].stage, a, m);
      }
    }
    hide Act;
  }

  lemma BoundStays(w: World, s: Step, m: MediaId)
    requires Bound(w, m) && m in w.st.known
    ensures m in Next(w, s).st.rows ==> Bound(Next(w, s), m)
  {
    if s.Work? {
      WorkKeepsBound(w, s.t, s.action, m);
    } else {
      hide Act, InProgress, Unreferenced;
    }
  }

  /** The step that records the shape of an output made for this media. */
  predicate Succeeds(w: World, s: Step, m: MediaId)
  {
    && s.Work? && s.action == RecordShape(true)
    && AtWork(w, s.t) && w.threads[s.t].m == m && w.threads[s.t].stage.Filed?
    && w.threads[s.t].stage.out in w.st.disk
  }

  lemma SuccessSettles(w: World, s: Step, m: MediaId)
    requires Bound(w, m) && Succeeds(w, s, m)
    ensures Settled(Next(w, s), m)
  {
    WorkKeepsBound(w, s.t, s.action, m);
  }

  /**
   A pinned media with no native plan in flight is settled from the moment one
   preparation of it succeeds, in every run, whatever happens before, in between
   and after, as long as its row exists.
   */
  lemma {:induction false} PinnedMediaSettles(w: World, steps: seq<Step>, m: MediaId, i: nat)
    requires Inv(w) && Bound(w, m) && i < |steps| && Succeeds(After(w, steps[..i]), steps[i], m)
    ensures m in After(w, steps).st.rows ==> Settled(After(w, steps), m)
    decreases |steps|
  {
    var w1, rest := Next(w, steps[0]), steps[1..];
    NextKeepsInv(w, steps[0]);
    if i == 0 {
      SuccessSettles(w, steps[0], m);
      hide Inv, Next, Settled;
      SettledForGood(w1, rest, m);
    } else {
      assert PointerSound(w.st, m);
      BoundStays(w, steps[0], m);
      if m !in w1.st.rows {
        StaysDeleted(w1, rest, m, w, steps[0]);
      } else {
        hide Inv, Next, Bound, Settled, Succeeds;
        assert steps[..i][0] == steps[0] && steps[..i][1..] == rest[..i - 1];
        PinnedMediaSettles(w1, rest, m, i - 1);
      }
    }
  }

  predicate Converted(w: World, steps: seq<Step>, m: MediaId)
  {
    exists i :: 0 <= i < |steps| && Succeeds(After(w, steps[..i]), steps[i], m)
  }

  /** Nobody is preparing the media, and nobody starts to. */
  ghost predicate LeftAlone(w: World, steps: seq<Step>, m: MediaId)
  {
    && (forall t :: Claims(w.threads, t) != Some(m))
    && (forall i :: 0 <= i < |steps| ==> !(steps[i].StartPrepare? && steps[i].m == m))
  }

  lemma ModeRests(w: World, s: Step, m: MediaId)
    requires m in w.st.known && !(s.StartPrepare? && s.m == m)
    requires forall t :: Claims(w.threads, t) != Some(m)
    ensures m in w.st.rows && m in Next(w, s).st.rows ==> Next(w, s).st.rows[m].mode == w.st.rows[m].mode
    ensures forall t :: Claims(Next(w, s).threads, t) != Some(m)
  {
    if s.Work? && AtWork(w, s.t) {
      assert Claims(w.threads, s.t) == Some(w.threads[s.t].m);
      if m in w.st.rows {
        ActLeavesOthers(w.st, w.threads[s.t].m, w.threads[s.t].stage, s.action, m);
      }
    }
    forall t ensures Claims(Next(w, s).threads, t) != Some(m) {
      assert Claims(w.threads, t) != Some(m);
      hide Act, InProgress, Unreferenced;
    }
    hide Act, InProgress, Unreferenced;
  }

  lemma {:induction false} LeftAloneKeepsItsMode(w: World, steps: seq<Step>, m: MediaId)
    requires Inv(w) && m in w.st.rows && LeftAlone(w, steps, m)
    ensures m in After(w, steps).st.rows ==> After(w, steps).st.rows[m].mode == w.st.rows[m].mode
    decreases |steps|
  {
    if steps != [] {
      var w1, rest := Next(w, steps[0]), steps[1..];
      assert PointerSound(w.st, m);
      ModeRests(w, steps[0], m);
      NextKeepsInv(w, steps[0]);
      assert forall i :: 0 <= i < |rest| ==> rest[i] == steps[i + 1];
      if m !in w1.st.rows {
        StaysDeleted(w1, rest, m, w, steps[0]);
      } else {
        hide Inv, Next;
        LeftAloneKeepsItsMode(w1, rest, m);
      }
    }
  }

  /** What a run has to do for one item of a playlist: prepare it after its pin, or leave a canonical one as it is. */
  ghost predicate Converges(w: World, steps: seq<Step>, m: MediaId)
  {
    && m in w.st.rows
    && (|| (Bound(w, m) && Converted(w, steps, m))
        || Settled(w, m)
        || (w.st.rows[m].ModeRead() == CANONICAL && LeftAlone(w, steps, m)))
  }

  lemma ItemConverges(w: World, steps: seq<Step>, m: MediaId)
    requires Inv(w) && Converges(w, steps, m)
    ensures m in After(w, steps).st.rows ==> After(w, steps).st.rows[m].ModeRead() == CANONICAL
  {
    if Bound(w, m) && Converted(w, steps, m) {
      var i :| 0 <= i < |steps| && Succeeds(After(w, steps[..i]), steps[i], m);
      PinnedMediaSettles(w, steps, m, i);
    } else if Settled(w, m) {
      SettledForGood(w, steps, m);
    } else {
      LeftAloneKeepsItsMode(w, steps, m);
    }
    hide Inv, After, Bound, Converted;
  }

  /** The items of a playlist that converge can be joined at the end of the run, however its steps interleave. */
  lemma ItemsConverge(w: World, steps: seq<Step>, ids: seq<MediaId>)
    requires Inv(w) && forall i :: 0 <= i < |ids| ==> Converges(w, steps, ids[i])
    ensures AllCanonical(Shapes(After(w, steps).st.rows, ids)) && Joinable(Shapes(After(w, steps).st.rows, ids))
  {
    hide Inv, After, Converges;
    var rows := After(w, steps).st.rows;
    forall i | 0 <= i < |ids| ensures Shapes(rows, ids)[i].mode == CANONICAL {
      ItemConverges(w, steps, ids[i]);
    }
  }

  /** What a playlist that cannot be joined leaves in the store: its native media pinned and waiting. */
  function Queued(w: World, ids: seq<MediaId>): World
  {
    w.(st := w.st.(rows := PinAll(w.st.rows, ToQueue(Shapes(w.st.rows, ids)))))
  }

  function PinSteps(ids: seq<MediaId>): seq<Step>
  {
    if ids == [] then [] else [Pin(ids[0]), MarkPreparing(ids[0])] + PinSteps(ids[1..])
  }

  /** Pinning and marking the queue is a run of the service. */
  lemma {:induction false} PinningIsARun(w: World, ids: seq<MediaId>)
    ensures After(w, PinSteps(ids)) == w.(st := w.st.(rows := PinAll(w.st.rows, ids)))
    decreases |ids|
  {
    if ids != [] {
      var pinned := Next(w, Pin(ids[0]));
      var marked := Next(pinned, MarkPreparing(ids[0]));
      assert marked.st.rows == PinOne(w.st.rows, ids[0]);
      assert marked == w.(st := w.st.(rows := PinOne(w.st.rows, ids[0])));
      PinningIsARun(marked, ids[1..]);
      var steps := PinSteps(ids);
      assert steps[1..] == [MarkPreparing(ids[0])] + PinSteps(ids[1..]) && steps[1..][1..] == PinSteps(ids[1..]);
      assert After(w, steps) == After(marked, PinSteps(ids[1..]));
    }
  }

  /**
   A playlist that cannot be joined has its native items pinned and queued. If
   none of them had a native plan in flight when pinned, then at the end of every
   run in which each has been prepared successfully at least once and the other
   items were left alone or settled, the whole playlist is canonical.
   */
  lemma PlaylistConverges(w: World, ids: seq<MediaId>, steps: seq<Step>)
    requires Inv(w) && !Joinable(Shapes(w.st.rows, ids)) && forall m :: m in ids ==> m in w.st.rows
    requires forall m :: m in ToQueue(Shapes(w.st.rows, ids)) ==>
               PlansCanonical(w, m) && Converted(Queued(w, ids), steps, m)
    requires forall m :: m in ids && m !in ToQueue(Shapes(w.st.rows, ids)) ==> Settled(w, m) || LeftAlone(w, steps, m)
    ensures AllCanonical(Shapes(After(Queued(w, ids), steps).st.rows, ids))
    ensures Joinable(Shapes(After(Queued(w, ids), steps).st.rows, ids))
  {
    var queue, q := ToQueue(Shapes(w.st.rows, ids)), Queued(w, ids);
    PinningIsARun(w, queue);
    RunKeepsInv(w, PinSteps(queue));
    hide Inv, PinAll, ToQueue, After, Converted, Converges, Settled, LeftAlone, PlansCanonical;
    forall i | 0 <= i < |ids| ensures Converges(q, steps, ids[i]) {
      QueuedItemConverges(w, ids, steps, ids[i]);
    }
    ItemsConverge(q, steps, ids);
  }

  lemma QueuedItemConverges(w: World, ids: seq<MediaId>, steps: seq<Step>, m: MediaId)
    requires !Joinable(Shapes(w.st.rows, ids)) && m in ids && m in w.st.rows
    requires if m in ToQueue(Shapes(w.st.rows, ids)) then PlansCanonical(w, m) && Converted(Queued(w, ids), steps, m)
             else Settled(w, m) || LeftAlone(w, steps, m)
    ensures Converges(Queued(w, ids), steps, m)
  {
    var shapes := Shapes(w.st.rows, ids);
    var queue, q := ToQueue(shapes), Queued(w, ids);
    UnjoinableQueues(shapes);
    NonCanonicalExactly(shapes);
    PinAllPins(w.st.rows, queue);
    hide PinAll, ToQueue, NonCanonical, After, Converted;
    if m in queue {
      assert Bound(q, m);
    } else {
      var i :| 0 <= i < |ids| && ids[i] == m;
      assert shapes[i] == ShapeOf(w.st.rows, m);
      assert q.st.rows[m] == w.st.rows[m] && shapes[i].mode == CANONICAL;
      if Settled(w, m) {
        assert Settled(q, m);
      }
    }
  }

  // ---- one preparation, and all of them ---------------------------------------------------

  /** The rest of a preparation whose output is on the disk, uninterrupted. */
  function Finish(w: World, t: ThreadId, probed: bool): World
  {
    var shaped := Next(w, Work(t, RecordShape(probed)));
    var recorded := Next(Next(shaped, Work(t, WriteOff)), Work(t, RecordPrepared));
    Next(Next(recorded, ReturnClaim(t)), ReturnSlot(t))
  }

  function FinishedRow(row: Media, out: Key, mode: string, signature: string): Media
  {
    row.(state := Ready, mode := Some(mode), signature := Some(signature), prepared := Some(out))
  }

  lemma RecordedBy(w: World, t: ThreadId, m: MediaId, out: Key, mode: string, probed: bool) returns (recorded: World)
    requires t in w.threads && w.threads[t] == Working(m, Filed(out, mode)) && m in w.st.rows && out in w.st.disk
    ensures recorded == Next(Next(Next(w, Work(t, RecordShape(probed))), Work(t, WriteOff)), Work(t, RecordPrepared))
    ensures recorded.st.rows == w.st.rows[m :=
              if probed then FinishedRow(w.st.rows[m], out, mode, w.st.disk[out].signature)
              else w.st.rows[m].(state := Ready, prepared := Some(out))]
    ensures recorded.st.disk == w.st.disk && recorded.st.issued == w.st.issued && recorded.st.known == w.st.known
    ensures recorded.busy == w.busy && recorded.free == w.free
    ensures recorded.threads == w.threads[t := Working(m, Done(false))]
  {
    var shaped := Next(w, Work(t, RecordShape(probed)));
    assert shaped.threads == w.threads[t := Working(m, Shaped(out))];
    var off := Next(shaped, Work(t, WriteOff));
    assert off.threads == w.threads[t := Working(m, WrittenOff(out))] && off.st.rows == shaped.st.rows;
    recorded := Next(off, Work(t, RecordPrepared));
  }

  lemma FinishesAs(w: World, t: ThreadId, m: MediaId, out: Key, mode: string, probed: bool)
    requires t in w.threads && w.threads[t] == Working(m, Filed(out, mode)) && m in w.st.rows && out in w.st.disk
    ensures var w' := Finish(w, t, probed);
            && w'.st.rows == w.st.rows[m :=
                 if probed then FinishedRow(w.st.rows[m], out, mode, w.st.disk[out].signature)
                 else w.st.rows[m].(state := Ready, prepared := Some(out))]
            && w'.st.disk == w.st.disk && w'.st.issued == w.st.issued && w'.st.known == w.st.known
            && w'.busy == w.busy - {m} && w'.free == w.free + 1 && w'.threads == w.threads - {t}
  {
    var recorded := RecordedBy(w, t, m, out, mode, probed);
    hide Act;
    var returned := Next(recorded, ReturnClaim(t));
    assert returned.threads == w.threads[t := Returned(m, false)];
    assert Finish(w, t, probed) == Next(returned, ReturnSlot(t));
  }

  /** The first half: from the claim to an output on the disk. */
  function Plan(w: World, t: ThreadId, m: MediaId): World
  {
    var claimed := Next(Next(w, StartPrepare(t, m)), TakeSlot(t));
    Next(Next(Next(Next(claimed, Work(t, Load)), Work(t, MarkAnalysing)), Work(t, RecordAnalysis)), Work(t, ReadTarget))
  }

  function FileIt(w: World, t: ThreadId, m: MediaId, k: Key, mode: string, signature: string): World
  {
    Next(Plan(w, t, m), Work(t, FileOutput(k, mode, signature)))
  }

  /** A preparation of a pinned media that nothing interrupts, from its claim to its return. */
  function Prepare(w: World, t: ThreadId, m: MediaId, k: Key, signature: string): World
  {
    Finish(FileIt(w, t, m, k, CANONICAL, signature), t, true)
  }

  /** A new thread and a media nobody is preparing. */
  predicate CanStart(w: World, t: ThreadId, m: MediaId)
  {
    && t !in w.threads && m !in w.busy && w.free > 0
    && m in w.st.rows && w.st.rows[m].storage in w.st.disk
  }

  /** And the media is pinned, and the key of the file to make is fresh. */
  predicate CanPrepare(w: World, t: ThreadId, m: MediaId, k: Key)
  {
    CanStart(w, t, m) && w.st.rows[m].pinned && k !in w.st.issued
  }

  lemma PlannedAs(w: World, t: ThreadId, m: MediaId)
    requires CanStart(w, t, m)
    ensures Plan(w, t, m) == w.(
              st := w.st.(rows := w.st.rows[m := w.st.rows[m].(state := Preparing)]),
              busy := w.busy + {m}, free := w.free - 1,
              threads := w.threads[t := Working(m, Planned(w.st.rows[m].storage, w.st.rows[m].pinned))])
  {
    var claimed := Next(Next(w, StartPrepare(t, m)), TakeSlot(t));
    assert claimed == w.(busy := w.busy + {m}, free := w.free - 1, threads := w.threads[t := Working(m, Entered)]);
    var loaded := Next(claimed, Work(t, Load));
    assert loaded == claimed.(threads := w.threads[t := Working(m, Loaded(w.st.rows[m].storage))]);
    var marked := Next(loaded, Work(t, MarkAnalysing));
    var probed := Next(marked, Work(t, RecordAnalysis));
    assert probed.st.rows == w.st.rows[m := w.st.rows[m].(state := Preparing)];
  }

  lemma FiledAs(w: World, t: ThreadId, m: MediaId, k: Key, mode: string, signature: string)
    requires CanStart(w, t, m) && k !in w.st.issued && (w.st.rows[m].pinned ==> mode == CANONICAL)
    ensures var filed := FileIt(w, t, m, k, mode, signature);
            && filed.st.rows == w.st.rows[m := w.st.rows[m].(state := Preparing)]
            && filed.st.disk == w.st.disk[k := File(mode == CANONICAL, signature)]
            && filed.st.issued == w.st.issued + {k} && filed.st.known == w.st.known
            && filed.busy == w.busy + {m} && filed.free == w.free - 1
            && filed.threads == w.threads[t := Working(m, Filed(k, mode))]
  {
    PlannedAs(w, t, m);
    OutputFiled(Plan(w, t, m), t, m, k, mode, signature);
    hide Plan, Next;
  }

  lemma OutputFiled(w: World, t: ThreadId, m: MediaId, k: Key, mode: string, signature: string)
    requires t in w.threads && w.threads[t].Working? && w.threads[t].m == m && w.threads[t].stage.Planned?
    requires k !in w.st.issued && (w.threads[t].stage.pinned ==> mode == CANONICAL)
    ensures var filed := Next(w, Work(t, FileOutput(k, mode, signature)));
            && filed.st.rows == w.st.rows && filed.st.disk == w.st.disk[k := File(mode == CANONICAL, signature)]
            && filed.st.issued == w.st.issued + {k} && filed.st.known == w.st.known
            && filed.busy == w.busy && filed.free == w.free
            && filed.threads == w.threads[t := Working(m, Filed(k, mode))]
  {
  }

  /** It ends with the media ready, canonical and described, and everything else as it was. */
  lemma PreparationSucceeds(w: World, t: ThreadId, m: MediaId, k: Key, signature: string)
    requires CanPrepare(w, t, m, k)
    ensures var w' := Prepare(w, t, m, k, signature);
            && w'.st.rows == w.st.rows[m := FinishedRow(w.st.rows[m], k, CANONICAL, signature)]
            && w'.st.disk == w.st.disk[k := File(true, signature)]
            && w'.st.issued == w.st.issued + {k}
            && w'.busy == w.busy && w'.free == w.free && w'.threads == w.threads
  {
    hide Next, Finish, FileIt;
    FiledAs(w, t, m, k, CANONICAL, signature);
    FinishesAs(FileIt(w, t, m, k, CANONICAL, signature), t, m, k, CANONICAL, true);
    assert w.threads[t := Working(m, Filed(k, CANONICAL))] - {t} == w.threads;
    assert w.busy + {m} - {m} == w.busy;
  }

  datatype Job = Job(m: MediaId, key: Key, signature: string)

  function PrepareEach(w: World, t: ThreadId, jobs: seq<Job>): World
    decreases |jobs|
  {
    if jobs == [] then w else PrepareEach(Prepare(w, t, jobs[0].m, jobs[0].key, jobs[0].signature), t, jobs[1..])
  }

  /** Fresh output keys, pinned media nobody is preparing. */
  predicate Jobs(w: World, t: ThreadId, jobs: seq<Job>)
  {
    && (forall i :: 0 <= i < |jobs| ==> CanPrepare(w, t, jobs[i].m, jobs[i].key))
    && (forall i, j :: 0 <= i < j < |jobs| ==> jobs[i].key != jobs[j].key)
  }

  /** One preparation does not stand in the way of the next. */
  lemma StillPossible(w: World, t: ThreadId, first: Job, next: Job)
    requires CanPrepare(w, t, first.m, first.key) && CanPrepare(w, t, next.m, next.key) && first.key != next.key
    ensures CanPrepare(Prepare(w, t, first.m, first.key, first.signature), t, next.m, next.key)
  {
    PreparationSucceeds(w, t, first.m, first.key, first.signature);
    hide Prepare;
  }

  /** Every job ends with its media ready and canonical; no other row changes. */
  lemma {:induction false} EachIsPrepared(w: World, t: ThreadId, jobs: seq<Job>)
    requires Jobs(w, t, jobs)
    ensures var rows := PrepareEach(w, t, jobs).st.rows;
            && rows.Keys == w.st.rows.Keys
            && forall m :: m in rows ==>
                 if exists i :: 0 <= i < |jobs| && jobs[i].m == m
                 then rows[m].state == Ready && rows[m].ModeRead() == CANONICAL && rows[m].prepared.Some?
                 else rows[m] == w.st.rows[m]
    decreases |jobs|
  {
    if jobs != [] {
      var first, rest := jobs[0], jobs[1..];
      var w1 := Prepare(w, t, first.m, first.key, first.signature);
      PreparationSucceeds(w, t, first.m, first.key, first.signature);
      hide Prepare;
      forall i | 0 <= i < |rest| ensures CanPrepare(w1, t, rest[i].m, rest[i].key) {
        assert rest[i] == jobs[i + 1];
        StillPossible(w, t, first, rest[i]);
      }
      hide CanPrepare;
      EachIsPrepared(w1, t, rest);
      var rows := PrepareEach(w, t, jobs).st.rows;
      forall m | m in rows
        ensures if exists i :: 0 <= i < |jobs| && jobs[i].m == m
                then rows[m].state == Ready && rows[m].ModeRead() == CANONICAL && rows[m].prepared.Some?
                else rows[m] == w.st.rows[m]
      {
        if i :| 0 <= i < |jobs| && jobs[i].m == m && i > 0 {
          assert rest[i - 1].m == m;
        }
        assert forall i :: 0 <= i < |rest| ==> rest[i].m == jobs[i + 1].m;
      }
    }
  }

  /**
   And there is such a run: one thread that prepares what was queued, item after
   item, ends with the playlist joinable and all that was queued ready.
   */
  lemma PlaylistCanConverge(w: World, t: ThreadId, ids: seq<MediaId>, jobs: seq<Job>)
    requires Jobs(Queued(w, ids), t, jobs)
    requires forall m :: m in ToQueue(Shapes(w.st.rows, ids)) <==> exists i :: 0 <= i < |jobs| && jobs[i].m == m
    ensures var rows := PrepareEach(Queued(w, ids), t, jobs).st.rows;
            && Joinable(Shapes(rows, ids))
            && (!Joinable(Shapes(w.st.rows, ids)) ==> AllCanonical(Shapes(rows, ids)))
            && forall m :: m in ToQueue(Shapes(w.st.rows, ids)) ==> m in rows && rows[m].state == Ready
  {
    var queue := ToQueue(Shapes(w.st.rows, ids));
    var rows := PrepareEach(Queued(w, ids), t, jobs).st.rows;
    PinAllPins(w.st.rows, queue);
    EachIsPrepared(Queued(w, ids), t, jobs);
    forall m | m in queue ensures m in rows {
      var i :| 0 <= i < |jobs| && jobs[i].m == m;
      assert CanPrepare(Queued(w, ids), t, jobs[i].m, jobs[i].key);
    }
    hide PrepareEach, PinAll, ToQueue, Jobs;
    QueueSettlesIt(w.st.rows, rows, ids);
  }

  /** If what was queued became canonical and the rest kept its shape, the playlist can be joined. */
  lemma QueueSettlesIt(before: Table, after: Table, ids: seq<MediaId>)
    requires before.Keys == after.Keys
    requires var queue := ToQueue(Shapes(before, ids));
             forall m :: m in before ==>
               if m in queue then after[m].ModeRead() == CANONICAL
               else after[m].ModeRead() == before[m].ModeRead() && after[m].signature == before[m].signature
    ensures Joinable(Shapes(after, ids))
    ensures !Joinable(Shapes(before, ids)) ==> AllCanonical(Shapes(after, ids))
  {
    var shapes := Shapes(before, ids);
    NonCanonicalExactly(shapes);
    if Joinable(shapes) {
      JoinableQueuesNothing(shapes);
      assert forall i :: 0 <= i < |ids| ==> ShapeOf(after, ids[i]) == ShapeOf(before, ids[i]);
      assert Shapes(after, ids) == shapes;
    } else {
      UnjoinableQueues(shapes);
      hide ToQueue, NonCanonical;
      forall i | 0 <= i < |ids| ensures Shapes(after, ids)[i].mode == CANONICAL {
        if shapes[i].mode != CANONICAL {
          assert shapes[i].media == ids[i];
        }
      }
    }
  }

  lemma JoinableQueuesNothing(shapes: seq<Shape>)
    requires Joinable(shapes)
    ensures ToQueue(shapes) == []
  {
  }

  lemma UnjoinableQueues(shapes: seq<Shape>)
    requires !Joinable(shapes)
    ensures ToQueue(shapes) == NonCanonical(shapes)
  {
  }

  /** The measure: every preparation that ends canonical leaves fewer native items in the playlist. */
  lemma {:induction false} FewerRemain(rows: Table, ids: seq<MediaId>, m: MediaId, k: Key, signature: string)
    requires m in rows
    ensures var rows' := rows[m := FinishedRow(rows[m], k, CANONICAL, signature)];
            && |NonCanonical(Shapes(rows', ids))| <= |NonCanonical(Shapes(rows, ids))|
            && (m in NonCanonical(Shapes(rows, ids)) ==>
                 |NonCanonical(Shapes(rows', ids))| < |NonCanonical(Shapes(rows, ids))|)
    decreases |ids|
  {
    if ids != [] {
      FewerRemain(rows, ids[1..], m, k, signature);
      var rows' := rows[m := FinishedRow(rows[m], k, CANONICAL, signature)];
      assert Shapes(rows, ids)[1..] == Shapes(rows, ids[1..]);
      assert Shapes(rows', ids)[1..] == Shapes(rows', ids[1..]);
    }
  }
}
