/**
 Deleting what the storage audit called safe. The audit reads the rows first and
 walks the disk afterwards, and somebody acts on its answer later still; between
 the three the service goes on.
 */
module AuditedDeletion {
  import opened Common
  import opened Media
  import opened Preparation
  import opened PreparationInv
  import opened PreparationLaws
  import opened MediaAudit

  /** The audit called this key safe, from the rows it read and the files it found. */
  predicate CalledSafe(rows: seq<MediaRef>, uses: Uses, files: seq<Object>, k: Key)
  {
    exists i :: 0 <= i < |files| && files[i].key == k && Classify(ByKey(rows), uses, files[i]).safeToDelete
  }

  function SweptAll(w: World, keys: set<Key>): World
  {
    w.(st := w.st.(disk := w.st.disk - keys))
  }

  lemma {:induction false} AbandonedForGood(w: World, steps: seq<Step>, k: Key)
    requires Inv(w) && Abandoned(w, k)
    ensures Abandoned(After(w, steps), k)
    decreases |steps|
  {
    if steps != [] {
      AbandonedStays(w, steps[0], k);
      NextKeepsInv(w, steps[0]);
      hide Inv, Next, Abandoned;
      AbandonedForGood(Next(w, steps[0]), steps[1..], k);
    }
  }

  /**
   Rows read at `w`, files found after `walk`, deletion after `wait`: deleting any
   set of files the audit called safe never breaks a pointer, then or later, if
   each of them had been stored when the rows were read and was not just then on
   its way to becoming a pointer.
   */
  lemma SafeFilesMayGo(
      w: World, walk: seq<Step>, wait: seq<Step>, later: seq<Step>,
      rows: seq<MediaRef>, uses: Uses, files: seq<Object>, keys: set<Key>)
    requires Inv(w) && ReadsAll(w.st, rows)
    requires forall k :: k in keys ==>
               CalledSafe(rows, uses, files, k) && k in w.st.issued && !InProgress(w, k)
    ensures PointersExist(After(SweptAll(After(After(w, walk), wait), keys), later).st)
  {
    var found := After(w, walk);
    var at := After(found, wait);
    RunKeepsInv(w, walk);
    RunKeepsInv(found, wait);
    forall k | k in keys ensures Abandoned(at, k) {
      var i :| 0 <= i < |files| && files[i].key == k && Classify(ByKey(rows), uses, files[i]).safeToDelete;
      SafeIsUnreferenced(w.st, rows, uses, files[i]);
      AbandonedForGood(w, walk, k);
      AbandonedForGood(found, wait, k);
    }
    hide Inv, After, ReadsAll, CalledSafe, InProgress, Unreferenced;
    assert Next(at, Sweep(keys)) == SweptAll(at, keys);
    NextKeepsInv(at, Sweep(keys));
    RunKeepsInv(SweptAll(at, keys), later);
    SoundPointersExist(After(SweptAll(at, keys), later));
  }

  /**
   Where that fails without the condition: a file uploaded and recorded while the
   audit was between its rows and its walk has no row in the list it read, so it
   is an orphan there, and a row points at it.
   */
  lemma UploadedDuringTheWalk(w: World, t: ThreadId, m: MediaId, user: UserId, k: Key, rows: seq<MediaRef>, uses: Uses)
    requires t !in w.threads && m !in w.st.known && k !in w.st.issued
    requires !Named(rows, k) && uses.open.Some? && k !in uses.manifests && k !in uses.open.value
    ensures var found := After(w, [Upload(t, user, k, ""), CreateRow(t, m)]);
            && k in found.st.disk && m in found.st.rows && found.st.rows[m].PointsAt(k)
            && (forall bytes :: Classify(ByKey(rows), uses, Object(k, bytes)).safeToDelete)
            && !PointersExist(Swept(found, k).st)
  {
    var steps := [Upload(t, user, k, ""), CreateRow(t, m)];
    var up := Next(w, steps[0]);
    var found := Next(up, CreateRow(t, m));
    assert steps[1..] == [CreateRow(t, m)] && steps[1..][1..] == [];
    assert After(w, steps) == After(up, [CreateRow(t, m)]) == found;
    assert found.st.rows[m].storage == k;
    forall bytes ensures Classify(ByKey(rows), uses, Object(k, bytes)).safeToDelete {
      SafeExactly(rows, uses, Object(k, bytes));
    }
    hide Classify;
  }

  /** Whenever the file is found and deleted after this moment, no row is ever left pointing at nothing. */
  ghost predicate AlwaysSafeLater(w: World, k: Key)
  {
    forall walk, later :: k in After(w, walk).st.disk ==> PointersExist(After(Swept(After(w, walk), k), later).st)
  }

  /**
   A key that no row names as the rows are read is safe to delete at every later
   moment exactly when it had been stored by then and was not on its way to
   becoming a pointer. The audit asks for neither.
   */
  lemma AuditIsRightExactly(w: World, k: Key, t: ThreadId, m: MediaId)
    requires Inv(w) && Unreferenced(w.st, k) && t !in w.threads && m !in w.st.known
    ensures AlwaysSafeLater(w, k) <==> k in w.st.issued && !InProgress(w, k)
  {
    if k !in w.st.issued {
      StoredLater(w, k, t, m);
    } else if InProgress(w, k) {
      DeletingIsSafeExactly(w, k, m);
      var later :| !PointersExist(After(Swept(w, k), later).st);
      InProgressIsStored(w, k);
      assert After(w, []) == w;
      assert k in After(w, []).st.disk && !PointersExist(After(Swept(After(w, []), k), later).st);
    } else {
      forall walk, later ensures PointersExist(After(Swept(After(w, walk), k), later).st) {
        AnOldAuditStaysRight(w, walk, later, k);
        var at := After(w, walk);
        hide After, Inv;
        assert Next(at, Sweep({k})) == Swept(at, k);
      }
    }
  }

  lemma StoredLater(w: World, k: Key, t: ThreadId, m: MediaId)
    requires t !in w.threads && m !in w.st.known && k !in w.st.issued
    ensures !AlwaysSafeLater(w, k)
  {
    var steps := [Upload(t, "", k, ""), CreateRow(t, m)];
    UploadedDuringTheWalk(w, t, m, "", k, [], Uses({}, Some({}), {}));
    var found := After(w, steps);
    assert After(Swept(found, k), []) == Swept(found, k);
    assert k in After(w, steps).st.disk && !PointersExist(After(Swept(After(w, steps), k), []).st);
  }

  lemma InProgressIsStored(w: World, k: Key)
    requires Inv(w) && InProgress(w, k)
    ensures k in w.st.disk
  {
    var t :| t in w.threads && Producing(w.st, w.threads[t], k);
    assert ThreadSound(w.st, w.threads[t]);
  }
}
