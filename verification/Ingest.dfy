/**
 The preparation pipeline as one thread runs it, on the tables, files, claims and
 slots it changes in place. `Preparation` takes the same steps one at a time,
 with other threads and crashes in between.
 */
module Ingest {
  import opened Common
  import opened Media
  import opened Preparation

  /** A run of `prepare_now` from a stage on, with nothing in between. */
  function Acts(st: Store, m: MediaId, stage: Stage, actions: seq<Action>): (Store, Stage)
    decreases |actions|
  {
    if actions == [] then (st, stage)
    else
      var (st', stage') := Act(st, m, stage, actions[0]);
      Acts(st', m, stage', actions[1..])
  }

  /**
   What the outside world answers: whether the source can be analysed, whether it
   could be broadcast as it is and its shape be read; the signature of what a
   conversion produces, if it produces anything, under which key and mode; and
   whether that file's shape can be read.
   */
  datatype Answers = Answers(
    analysed: bool, direct: bool, sourceRead: bool, output: Option<string>, key: Key, mode: string, outputRead: bool)

  /** The planner's and the store's part: a pinned media gets the canonical profile, a new file a new key. */
  predicate Fair(st: Store, m: MediaId, a: Answers)
  {
    && a.key !in st.issued
    && (m in st.rows && st.rows[m].pinned ==> a.mode == CANONICAL && !a.direct)
  }

  /** What becomes of one call of `prepare`. */
  datatype Turn = LeftAlone | Waits | Ran(failed: bool)

  /** The store after a whole preparation that took these steps, its failure recorded if it failed. */
  predicate RanAs(st: Store, m: MediaId, did: seq<Action>, failed: bool, end: Store)
  {
    && Acts(st, m, Entered, did).1 == Done(failed)
    && end == (if failed then SetState(Acts(st, m, Entered, did).0, m, Failed) else Acts(st, m, Entered, did).0)
  }

  class Ingest {
    var rows: map<MediaId, Media>
    var disk: map<Key, File>
    var trash: set<Key>
    var busy: set<MediaId>
    var free: nat
    ghost var known: set<MediaId>
    ghost var issued: set<Key>
    ghost var owner: map<Key, MediaId>
    ghost var unread: set<MediaId>

    ghost function St(): Store
      reads this
    {
      Store(rows, disk, trash, known, issued, owner, unread)
    }

    constructor ()
      ensures St() == Start().st && busy == {} && free == MAX_PREPARING_AT_ONCE
    {
      rows, disk, trash, busy, free := map[], map[], {}, {}, MAX_PREPARING_AT_ONCE;
      known, issued, owner, unread := {}, {}, map[], {};
    }

    method SetMediaState(m: MediaId, s: MediaState)
      modifies this`rows
      ensures St() == SetState(old(St()), m, s)
    {
      if m in rows {
        rows := rows[m := rows[m].(state := s)];
      }
    }

    method RecordPreparedSignature(m: MediaId, mode: string, signature: string)
      modifies this`rows, this`unread
      ensures St() == RecordSignature(old(St()), m, mode, signature)
    {
      if m in rows {
        rows := rows[m := rows[m].(mode := Some(mode), signature := Some(signature))];
        unread := unread - {m};
      }
    }

    method PutPrepared(m: MediaId, key: Key, f: File)
      modifies this`disk, this`issued, this`owner
      ensures St() == PutFile(old(St()), key, f).(owner := old(owner)[key := m])
    {
      disk := disk[key := f];
      issued := issued + {key};
      owner := owner[key := m];
    }

    /** Write off what the pointer named before; nothing is removed. */
    method RetireReplacedPrepared(m: MediaId, out: Key)
      modifies this`trash
      ensures St() == old(St()).(trash := old(trash) + Replaced(old(St()), m, out))
    {
      if m in rows && rows[m].prepared.Some? {
        var was := rows[m].prepared.value;
        if was != out && was != rows[m].storage {
          trash := trash + {was};
        }
      }
    }

    method RecordMediaPrepared(m: MediaId, out: Key)
      modifies this`rows
      ensures St() == MovePointer(old(St()), m, out)
    {
      if m in rows {
        rows := rows[m := rows[m].(state := Ready, prepared := Some(out))];
      }
    }

    /** Read the row, probe the source, and find out what it is to become. */
    method Analyse(m: MediaId, analysed: bool) returns (key: Option<Key>, pinned: bool, ghost did: seq<Action>)
      modifies this`rows
      ensures Acts(old(St()), m, Entered, did) == (St(), if key.Some? then Planned(key.value, pinned) else Done(true))
      ensures key.Some? <==> m in old(rows) && analysed && old(rows)[m].storage in disk
      ensures key.Some? ==> m in rows && key.value in disk && pinned == old(rows)[m].pinned == rows[m].pinned
    {
      ghost var was := St();
      pinned := false;
      did := [Load];
      if m !in rows {
        Run1(was, m, Entered, Load);
        return None, pinned, did;
      }
      var source := rows[m].storage;
      SetMediaState(m, Analysing);
      ghost var marked := St();
      Run2(was, m, Entered, Load, MarkAnalysing);
      did := [Load, MarkAnalysing];
      if !analysed || source !in disk {
        Run1(marked, m, Marked(source), Fail);
        RunJoin(was, m, Entered, did, [Fail]);
        return None, pinned, did + [Fail];
      }
      SetMediaState(m, Preparing);
      pinned := rows[m].pinned;
      Run2(marked, m, Marked(source), RecordAnalysis, ReadTarget);
      RunJoin(was, m, Entered, did, [RecordAnalysis, ReadTarget]);
      return Some(source), pinned, did + [RecordAnalysis, ReadTarget];
    }

    /** The file a broadcast will read: the source itself, or a new one, with its shape recorded first. */
    method Produce(m: MediaId, key: Key, pinned: bool, a: Answers) returns (out: Option<Key>, ghost did: seq<Action>)
      requires m in rows && key in disk && rows[m].pinned == pinned && Fair(St(), m, a)
      modifies this`rows, this`disk, this`issued, this`owner, this`unread
      ensures Acts(old(St()), m, Planned(key, pinned), did) == (St(), if out.Some? then Shaped(out.value) else Done(true))
      ensures out.None? <==> a.output.None? && !(a.direct && a.sourceRead)
      ensures out.None? ==> disk == old(disk)
    {
      ghost var was := St();
      if a.direct && a.sourceRead {
        RecordPreparedSignature(m, DIRECT, disk[key].signature);
        Run1(was, m, Planned(key, pinned), UseSource);
        return Some(key), [UseSource];
      }
      if a.output.None? {
        Run1(was, m, Planned(key, pinned), Fail);
        return None, [Fail];
      }
      PutPrepared(m, a.key, File(a.mode == CANONICAL, a.output.value));
      if a.outputRead {
        RecordPreparedSignature(m, a.mode, disk[a.key].signature);
      } else {
        unread := unread + {m};
      }
      Run2(was, m, Planned(key, pinned), FileOutput(a.key, a.mode, a.output.value), RecordShape(a.outputRead));
      return Some(a.key), [FileOutput(a.key, a.mode, a.output.value), RecordShape(a.outputRead)];
    }

    /** Write the old file off, then move the pointer. */
    method Publish(m: MediaId, out: Key)
      modifies this`rows, this`trash
      ensures Acts(old(St()), m, Shaped(out), [WriteOff, RecordPrepared]) == (St(), Done(false))
    {
      Run2(St(), m, Shaped(out), WriteOff, RecordPrepared);
      RetireReplacedPrepared(m, out);
      RecordMediaPrepared(m, out);
    }

    /**
     Analyse, plan and produce, in the order that survives a crash: the file, its
     shape, the note about the old one, the pointer.
     */
    method PrepareNow(m: MediaId, a: Answers) returns (failed: bool, ghost did: seq<Action>)
      requires Fair(St(), m, a)
      modifies this`rows, this`disk, this`trash, this`issued, this`owner, this`unread
      ensures Acts(old(St()), m, Entered, did) == (St(), Done(failed))
      ensures failed <==> m !in old(rows) || !a.analysed || old(rows)[m].storage !in old(disk)
                          || (a.output.None? && !(a.direct && a.sourceRead))
      ensures failed ==> disk == old(disk) && trash == old(trash)
    {
      ghost var was := St();
      ghost var analysis, production;
      var key, pinned;
      key, pinned, analysis := Analyse(m, a.analysed);
      if key.None? {
        return true, analysis;
      }
      var out;
      out, production := Produce(m, key.value, pinned, a);
      RunJoin(was, m, Entered, analysis, production);
      if out.None? {
        return true, analysis + production;
      }
      Publish(m, out.value);
      RunJoin(was, m, Entered, analysis + production, [WriteOff, RecordPrepared]);
      return false, analysis + production + [WriteOff, RecordPrepared];
    }

    /**
     One call of `prepare`. A media somebody is preparing is left to them. When no
     slot is free the caller waits, with the claim taken and nothing else done.
     Otherwise claim and slot are back when it returns, whatever happened in
     between, and a failure has been recorded.
     */
    method Prepare(m: MediaId, a: Answers) returns (turn: Turn)
      requires Fair(St(), m, a)
      modifies this
      ensures turn == LeftAlone <==> m in old(busy)
      ensures turn == Waits <==> m !in old(busy) && old(free) == 0
      ensures turn == LeftAlone ==> busy == old(busy) && free == old(free) && St() == old(St())
      ensures turn == Waits ==> busy == old(busy) + {m} && free == 0 && St() == old(St())
      ensures turn.Ran? ==> busy == old(busy) && free == old(free)
                            && exists did :: RanAs(old(St()), m, did, turn.failed, St())
    {
      if m in busy {
        return LeftAlone;
      }
      busy := busy + {m};
      if free == 0 {
        return Waits;
      }
      ghost var before := busy - {m};
      turn := Resume(m, a);
      assert busy == before == old(busy);
    }

    /** The waiting caller's turn, once a slot is free. */
    method Resume(m: MediaId, a: Answers) returns (turn: Turn)
      requires Fair(St(), m, a) && m in busy && free > 0
      modifies this
      ensures turn.Ran? && busy == old(busy) - {m} && free == old(free)
      ensures exists did :: RanAs(old(St()), m, did, turn.failed, St())
    {
      free := free - 1;
      ghost var did;
      var failed;
      failed, did := PrepareNow(m, a);
      busy := busy - {m};
      free := free + 1;
      if failed {
        SetMediaState(m, Failed);
      }
      assert RanAs(old(St()), m, did, failed, St());
      turn := Ran(failed);
    }
  }

  lemma Run1(st: Store, m: MediaId, stage: Stage, a: Action)
    ensures Acts(st, m, stage, [a]) == Act(st, m, stage, a)
  {
    assert [a][1..] == [];
    hide Act;
  }

  lemma Run2(st: Store, m: MediaId, stage: Stage, a: Action, b: Action)
    ensures Acts(st, m, stage, [a, b]) == (var (st', stage') := Act(st, m, stage, a); Act(st', m, stage', b))
  {
    hide Act;
    assert [a, b][1..] == [b] && [b][1..] == [];
    var (st', stage') := Act(st, m, stage, a);
    Run1(st', m, stage', b);
  }

  lemma {:induction false} RunJoin(st: Store, m: MediaId, stage: Stage, a: seq<Action>, b: seq<Action>)
    ensures Acts(st, m, stage, a + b) == (var (st', stage') := Acts(st, m, stage, a); Acts(st', m, stage', b))
    decreases |a|
  {
    hide Act;
    if a == [] {
      assert a + b == b;
    } else {
      assert (a + b)[0] == a[0] && (a + b)[1..] == a[1..] + b;
      var (st', stage') := Act(st, m, stage, a[0]);
      RunJoin(st', m, stage', a[1..], b);
    }
  }

  function StepsOf(t: ThreadId, actions: seq<Action>): seq<Step>
  {
    if actions == [] then [] else [Work(t, actions[0])] + StepsOf(t, actions[1..])
  }

  /** The same work as steps of the interleaved system, when nothing comes between them. */
  lemma {:induction false} AloneIsActs(w: World, t: ThreadId, m: MediaId, stage: Stage, actions: seq<Action>)
    requires t in w.threads && w.threads[t] == Working(m, stage)
    ensures var w' := After(w, StepsOf(t, actions));
            && t in w'.threads && w'.threads[t].Working? && w'.threads[t].m == m
            && (w'.st, w'.threads[t].stage) == Acts(w.st, m, stage, actions)
            && w'.busy == w.busy && w'.free == w.free && w'.threads == w.threads[t := w'.threads[t]]
    decreases |actions|
  {
    hide Act;
    if actions != [] {
      var w1 := Next(w, Work(t, actions[0]));
      var (st', stage') := Act(w.st, m, stage, actions[0]);
      AloneIsActs(w1, t, m, stage', actions[1..]);
      assert StepsOf(t, actions)[1..] == StepsOf(t, actions[1..]);
    }
  }
}
