/** A run of the service at whose end a broadcast plays a file its row does not describe. */
module Misdescribed {
  import opened Common
  import opened Media
  import opened Playlists
  import opened Preparation
  import opened Convergence

  /** Some run of the service gets here. */
  ghost predicate Reached(w: World)
  {
    exists steps :: After(Start(), steps) == w
  }

  lemma {:induction false} OneStepMore(w: World, steps: seq<Step>, s: Step)
    ensures After(w, steps + [s]) == Next(After(w, steps), s)
    decreases |steps|
  {
    hide Next;
    if steps == [] {
      assert [] + [s] == [s] && [s][1..] == [];
    } else {
      assert (steps + [s])[1..] == steps[1..] + [s];
      OneStepMore(Next(w, steps[0]), steps[1..], s);
    }
  }

  lemma NextReached(w: World, s: Step)
    requires Reached(w)
    ensures Reached(Next(w, s))
  {
    hide Next, After;
    var steps :| After(Start(), steps) == w;
    OneStepMore(Start(), steps, s);
  }

  /** One media from its upload to the end of a preparation that nothing interrupts. */
  function Made(w: World, t: ThreadId, u: UserId, m: MediaId, src: Key, k: Key, mode: string, probed: bool): World
  {
    var created := Next(Next(w, Upload(t, u, src, "")), CreateRow(t, m));
    Finish(FileIt(created, t, m, k, mode, ""), t, probed)
  }

  lemma FinishReached(w: World, t: ThreadId, probed: bool)
    requires Reached(w)
    ensures Reached(Finish(w, t, probed))
  {
    hide Next, Reached;
    var shaped := Next(w, Work(t, RecordShape(probed)));
    var off := Next(shaped, Work(t, WriteOff));
    var recorded := Next(off, Work(t, RecordPrepared));
    NextReached(w, Work(t, RecordShape(probed)));
    NextReached(shaped, Work(t, WriteOff));
    NextReached(off, Work(t, RecordPrepared));
    NextReached(recorded, ReturnClaim(t));
    NextReached(Next(recorded, ReturnClaim(t)), ReturnSlot(t));
  }

  lemma PlanReached(w: World, t: ThreadId, m: MediaId)
    requires Reached(w)
    ensures Reached(Plan(w, t, m))
  {
    hide Next, Reached;
    var waiting := Next(w, StartPrepare(t, m));
    var claimed := Next(waiting, TakeSlot(t));
    var loaded := Next(claimed, Work(t, Load));
    var marked := Next(loaded, Work(t, MarkAnalysing));
    var probed := Next(marked, Work(t, RecordAnalysis));
    NextReached(w, StartPrepare(t, m));
    NextReached(waiting, TakeSlot(t));
    NextReached(claimed, Work(t, Load));
    NextReached(loaded, Work(t, MarkAnalysing));
    NextReached(marked, Work(t, RecordAnalysis));
    NextReached(probed, Work(t, ReadTarget));
  }

  lemma MadeReached(w: World, t: ThreadId, u: UserId, m: MediaId, src: Key, k: Key, mode: string, probed: bool)
    requires Reached(w)
    ensures Reached(Made(w, t, u, m, src, k, mode, probed))
  {
    hide Next, Reached, Plan, Finish;
    var uploaded := Next(w, Upload(t, u, src, ""));
    var created := Next(uploaded, CreateRow(t, m));
    NextReached(w, Upload(t, u, src, ""));
    NextReached(uploaded, CreateRow(t, m));
    PlanReached(created, t, m);
    NextReached(Plan(created, t, m), Work(t, FileOutput(k, mode, "")));
    FinishReached(FileIt(created, t, m, k, mode, ""), t, probed);
  }

  /** Room for one more upload and its preparation. */
  predicate Quiet(w: World)
  {
    w.threads == map[] && w.busy == {} && w.free == 1
  }

  lemma CreatedAs(w: World, t: ThreadId, u: UserId, m: MediaId, src: Key)
    requires Quiet(w) && m !in w.st.known && src !in w.st.issued
    ensures var w' := Next(Next(w, Upload(t, u, src, "")), CreateRow(t, m));
            && Quiet(w') && w'.st.issued == w.st.issued + {src} && w'.st.known == w.st.known + {m}
            && w'.st.disk == w.st.disk[src := File(false, "")]
            && w'.st.rows == w.st.rows[m := Media(u, src, None, Uploaded, None, None, false)]
  {
    var uploaded := Next(w, Upload(t, u, src, ""));
    assert uploaded.threads == map[t := Uploading(u, src)];
    assert Next(uploaded, CreateRow(t, m)).threads == map[];
  }

  lemma AlonePreparedAs(w: World, t: ThreadId, m: MediaId, k: Key, mode: string, probed: bool)
    requires Quiet(w) && CanStart(w, t, m) && !w.st.rows[m].pinned && k !in w.st.issued
    ensures var w' := Finish(FileIt(w, t, m, k, mode, ""), t, probed);
            && Quiet(w') && w'.st.issued == w.st.issued + {k} && w'.st.known == w.st.known
            && w'.st.disk == w.st.disk[k := File(mode == CANONICAL, "")]
            && w'.st.rows == w.st.rows[m :=
                 if probed then FinishedRow(w.st.rows[m], k, mode, "") else w.st.rows[m].(state := Ready, prepared := Some(k))]
  {
    hide Next, FileIt, Finish;
    FiledAs(w, t, m, k, mode, "");
    FinishesAs(FileIt(w, t, m, k, mode, ""), t, m, k, mode, probed);
  }

  /** What is left: a ready row over the new file, with the mode recorded if the output was probed. */
  lemma MadeAs(w: World, t: ThreadId, u: UserId, m: MediaId, src: Key, k: Key, mode: string, probed: bool)
    requires Quiet(w) && m !in w.st.known && src !in w.st.issued && k !in w.st.issued && src != k
    ensures var w' := Made(w, t, u, m, src, k, mode, probed);
            && Quiet(w') && w'.st.issued == w.st.issued + {src, k} && w'.st.known == w.st.known + {m}
            && w'.st.disk == w.st.disk[src := File(false, "")][k := File(mode == CANONICAL, "")]
            && w'.st.rows == w.st.rows[m := Media(u, src, Some(k), Ready,
                 if probed then Some(mode) else None, if probed then Some("") else None, false)]
  {
    var created := Next(Next(w, Upload(t, u, src, "")), CreateRow(t, m));
    CreatedAs(w, t, u, m, src);
    hide Next, FileIt, Finish;
    AlonePreparedAs(created, t, m, k, mode, probed);
  }

  /**
   A video prepared without a conversion whose output could not be probed, and
   another prepared canonical: a playlist of the two passes both gates, and its
   first file is native.
   */
  lemma MisdescribedIsPlayed(
      t: ThreadId, u: UserId, wrong: MediaId, right: MediaId, keys: seq<Key>, native: string) returns (w: World)
    requires wrong != right && native != CANONICAL
    requires |keys| == 4 && forall i, j :: 0 <= i < j < 4 ==> keys[i] != keys[j]
    ensures Reached(w)
    ensures var items := [Item(wrong, true, 1), Item(right, true, 1)];
            var made := PreparedItems(w.st.rows, items, wrong);
            && Joinable(Shapes(w.st.rows, Judged(items, wrong)))
            && made == Ok([Prepared(wrong, keys[1]), Prepared(right, keys[3])])
            && keys[1] in w.st.disk && !w.st.disk[keys[1]].canonical
            && keys[3] in w.st.disk && w.st.disk[keys[3]].canonical
  {
    var start := Start();
    assert After(start, []) == start;
    var one := Made(start, t, u, wrong, keys[0], keys[1], native, false);
    w := Made(one, t, u, right, keys[2], keys[3], CANONICAL, true);
    hide Made, Reached;
    MadeReached(start, t, u, wrong, keys[0], keys[1], native, false);
    MadeReached(one, t, u, right, keys[2], keys[3], CANONICAL, true);
    MadeAs(start, t, u, wrong, keys[0], keys[1], native, false);
    MadeAs(one, t, u, right, keys[2], keys[3], CANONICAL, true);
    MisdescribedPassesBothGates(w.st.rows, w.st.disk, wrong, right);
  }
}
