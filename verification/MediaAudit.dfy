/** The storage audit: every file on the disk, what it is to the database, and whether it may go. */
module MediaAudit {
  import opened Common
  import opened Media
  import Preparation

  /** A media row as the audit reads it. */
  datatype MediaRef = MediaRef(id: MediaId, storage: Key, prepared: Option<Key>, sizeBytes: int) {
    predicate Names(k: Key) {
      storage == k || prepared == Some(k)
    }

    predicate Direct() {
      prepared == Some(storage)
    }
  }

  datatype Role = SourceDirect | Source | PreparedCopy | Retired | Orphan

  datatype Object = Object(key: Key, bytes: nat)

  datatype ObjectRow = ObjectRow(
    key: Key, bytes: nat, role: Role, media: Option<MediaId>,
    referenced: bool, inManifest: bool, openNow: bool, safeToDelete: bool)

  datatype Totals = Totals(
    files: nat, bytes: nat, sourceBytes: nat, preparedBytes: nat,
    orphanFiles: nat, orphanBytes: nat, retiredFiles: nat, retiredBytes: nat,
    reclaimableFiles: nat, reclaimableBytes: nat)

  /** What else is known about the files: written off, open if that can be told, named by a manifest. */
  datatype Uses = Uses(retired: set<Key>, open: Option<set<Key>>, manifests: set<Key>)

  type Index = map<Key, (MediaId, Role)>

  function AddRow(index: Index, m: MediaRef): Index
  {
    var sourced := index[m.storage := (m.id, if m.Direct() then SourceDirect else Source)];
    if m.prepared.Some? && !m.Direct() then sourced[m.prepared.value := (m.id, PreparedCopy)] else sourced
  }

  /** Which row, if any, each key belongs to; of two rows naming one key, the later. */
  function ByKey(rows: seq<MediaRef>): Index
    decreases |rows|
  {
    if rows == [] then map[] else AddRow(ByKey(rows[..|rows| - 1]), rows[|rows| - 1])
  }

  function Classify(index: Index, uses: Uses, f: Object): ObjectRow
  {
    var hit := f.key in index;
    var role := if hit then index[f.key].1 else if f.key in uses.retired then Retired else Orphan;
    var openNow := uses.open.Some? && f.key in uses.open.value;
    var inManifest := f.key in uses.manifests;
    ObjectRow(f.key, f.bytes, role, if hit then Some(index[f.key].0) else None, hit, inManifest, openNow,
              uses.open.Some? && !hit && !inManifest && !openNow && (role.Orphan? || role.Retired?))
  }

  function Tally(t: Totals, o: ObjectRow): Totals
  {
    var all := t.(files := t.files + 1, bytes := t.bytes + o.bytes);
    var byRole :=
      match o.role
      case SourceDirect => all.(sourceBytes := all.sourceBytes + o.bytes)
      case Source => all.(sourceBytes := all.sourceBytes + o.bytes)
      case PreparedCopy => all.(preparedBytes := all.preparedBytes + o.bytes)
      case Retired => all.(retiredFiles := all.retiredFiles + 1, retiredBytes := all.retiredBytes + o.bytes)
      case Orphan => all.(orphanFiles := all.orphanFiles + 1, orphanBytes := all.orphanBytes + o.bytes);
    if o.safeToDelete
    then byRole.(reclaimableFiles := byRole.reclaimableFiles + 1, reclaimableBytes := byRole.reclaimableBytes + o.bytes)
    else byRole
  }

  const NOTHING: Totals := Totals(0, 0, 0, 0, 0, 0, 0, 0, 0, 0)

  function TotalsOf(objects: seq<ObjectRow>): Totals
    decreases |objects|
  {
    if objects == [] then NOTHING else Tally(TotalsOf(objects[..|objects| - 1]), objects[|objects| - 1])
  }

  method Audit(rows: seq<MediaRef>, uses: Uses, files: seq<Object>) returns (objects: seq<ObjectRow>, totals: Totals)
    ensures |objects| == |files|
    ensures forall i :: 0 <= i < |files| ==> objects[i] == Classify(ByKey(rows), uses, files[i])
    ensures totals == TotalsOf(objects)
  {
    var index: Index := map[];
    var n := 0;
    while n < |rows|
      invariant 0 <= n <= |rows|
      invariant index == ByKey(rows[..n])
    {
      var m := rows[n];
      assert rows[..n + 1][..n] == rows[..n];
      index := index[m.storage := (m.id, if m.Direct() then SourceDirect else Source)];
      if m.prepared.Some? && !m.Direct() {
        index := index[m.prepared.value := (m.id, PreparedCopy)];
      }
      n := n + 1;
    }
    assert rows[..n] == rows;

    objects := [];
    totals := NOTHING;
    var i := 0;
    while i < |files|
      invariant 0 <= i <= |files| && |objects| == i
      invariant forall j :: 0 <= j < i ==> objects[j] == Classify(ByKey(rows), uses, files[j])
      invariant totals == TotalsOf(objects)
    {
      var o := Classify(index, uses, files[i]);
      totals := Tally(totals, o);
      assert (objects + [o])[..i] == objects;
      objects := objects + [o];
      i := i + 1;
    }
  }

  // ---- what the audit's answers mean -----------------------------------------------

  predicate Named(rows: seq<MediaRef>, k: Key)
  {
    exists i :: 0 <= i < |rows| && rows[i].Names(k)
  }

  /** The index knows a key exactly when some row names it, as its source or as its copy. */
  lemma {:induction false} IndexedExactly(rows: seq<MediaRef>, k: Key)
    ensures k in ByKey(rows) <==> Named(rows, k)
    ensures k in ByKey(rows) ==> !ByKey(rows)[k].1.Retired? && !ByKey(rows)[k].1.Orphan?
    decreases |rows|
  {
    if rows != [] {
      var n := |rows| - 1;
      IndexedExactly(rows[..n], k);
      if i :| 0 <= i < |rows| && rows[i].Names(k) && i < n {
        assert rows[..n][i] == rows[i];
      }
      if Named(rows[..n], k) {
        var i :| 0 <= i < n && rows[..n][i].Names(k);
        assert rows[i].Names(k);
      }
    }
  }

  /**
   A file is called safe to delete exactly when open files could be listed and no
   row, no manifest and no open file names it; what it is on paper, an orphan or
   written off, does not matter. A written-off file some row still names is safe
   in neither sense.
   */
  lemma SafeExactly(rows: seq<MediaRef>, uses: Uses, f: Object)
    ensures var o := Classify(ByKey(rows), uses, f);
            && (o.safeToDelete <==>
                 uses.open.Some? && !Named(rows, f.key) && f.key !in uses.manifests && f.key !in uses.open.value)
            && (o.role.Retired? <==> f.key in uses.retired && !Named(rows, f.key))
            && (o.referenced <==> Named(rows, f.key))
  {
    IndexedExactly(rows, f.key);
  }

  /** The last row to name a key. */
  predicate LastToName(rows: seq<MediaRef>, i: int, k: Key)
  {
    0 <= i < |rows| && rows[i].Names(k) && forall j :: i < j < |rows| ==> !rows[j].Names(k)
  }

  lemma {:induction false} EntryOfTheLast(rows: seq<MediaRef>, k: Key, i: int)
    requires LastToName(rows, i, k)
    ensures k in ByKey(rows) && ByKey(rows)[k] ==
              (rows[i].id,
               if rows[i].storage == k then (if rows[i].prepared == Some(k) then SourceDirect else Source) else PreparedCopy)
    decreases |rows|
  {
    var n := |rows| - 1;
    if i < n {
      assert !rows[n].Names(k) && rows[..n][i] == rows[i];
      EntryOfTheLast(rows[..n], k, i);
    }
  }

  /**
   What a file is called: by the last row that names it, the source, the source
   played as it is, or the copy; without one, written off or an orphan.
   */
  lemma RolesExactly(rows: seq<MediaRef>, uses: Uses, f: Object, i: int)
    requires LastToName(rows, i, f.key) || !Named(rows, f.key)
    ensures var o := Classify(ByKey(rows), uses, f);
            && o.key == f.key && o.bytes == f.bytes
            && (o.inManifest <==> f.key in uses.manifests)
            && (o.openNow <==> uses.open.Some? && f.key in uses.open.value)
            && (if Named(rows, f.key) then
                  && o.media == Some(rows[i].id)
                  && (o.role == SourceDirect <==> rows[i].storage == f.key && rows[i].prepared == Some(f.key))
                  && (o.role == Source <==> rows[i].storage == f.key && rows[i].prepared != Some(f.key))
                  && (o.role == PreparedCopy <==> rows[i].storage != f.key)
                else
                  && o.media == None
                  && (o.role == Retired <==> f.key in uses.retired)
                  && (o.role == Orphan <==> f.key !in uses.retired))
  {
    IndexedExactly(rows, f.key);
    if LastToName(rows, i, f.key) {
      EntryOfTheLast(rows, f.key, i);
    }
  }

  /** The audit read every row of this store. */
  predicate ReadsAll(st: Preparation.Store, rows: seq<MediaRef>)
  {
    forall m :: m in st.rows ==>
      exists i :: 0 <= i < |rows| && rows[i].storage == st.rows[m].storage && rows[i].prepared == st.rows[m].prepared
  }

  /** It calls nothing safe that a row pointed at when the rows were read. */
  lemma SafeIsUnreferenced(st: Preparation.Store, rows: seq<MediaRef>, uses: Uses, f: Object)
    requires ReadsAll(st, rows) && Classify(ByKey(rows), uses, f).safeToDelete
    ensures Preparation.Unreferenced(st, f.key)
  {
    SafeExactly(rows, uses, f);
    forall m | m in st.rows ensures !st.rows[m].PointsAt(f.key) {
      var i :| 0 <= i < |rows| && rows[i].storage == st.rows[m].storage && rows[i].prepared == st.rows[m].prepared;
      assert !rows[i].Names(f.key);
    }
  }

  function Bytes(files: seq<Object>): nat
    decreases |files|
  {
    if files == [] then 0 else Bytes(files[..|files| - 1]) + files[|files| - 1].bytes
  }

  /** The files of these roles: how many, and their bytes. */
  function FilesWith(objects: seq<ObjectRow>, roles: set<Role>): nat
    decreases |objects|
  {
    if objects == [] then 0 else FilesWith(objects[1..], roles) + if objects[0].role in roles then 1 else 0
  }

  function BytesWith(objects: seq<ObjectRow>, roles: set<Role>): nat
    decreases |objects|
  {
    if objects == [] then 0 else BytesWith(objects[1..], roles) + if objects[0].role in roles then objects[0].bytes else 0
  }

  /** The files called safe. */
  function SafeOnes(objects: seq<ObjectRow>): seq<ObjectRow>
    decreases |objects|
  {
    if objects == [] then [] else (if objects[0].safeToDelete then [objects[0]] else []) + SafeOnes(objects[1..])
  }

  const ALL: set<Role> := {SourceDirect, Source, PreparedCopy, Retired, Orphan}

  /** Each total is that of its own roles; what can be reclaimed are the files called safe. */
  predicate TotalsAre(t: Totals, objects: seq<ObjectRow>)
  {
    && t.files == |objects| && t.bytes == BytesWith(objects, ALL)
    && t.sourceBytes == BytesWith(objects, {SourceDirect, Source})
    && t.preparedBytes == BytesWith(objects, {PreparedCopy})
    && t.retiredFiles == FilesWith(objects, {Retired}) && t.retiredBytes == BytesWith(objects, {Retired})
    && t.orphanFiles == FilesWith(objects, {Orphan}) && t.orphanBytes == BytesWith(objects, {Orphan})
    && t.reclaimableFiles == |SafeOnes(objects)| && t.reclaimableBytes == BytesWith(SafeOnes(objects), ALL)
  }

  lemma {:induction false} OneMoreFile(objects: seq<ObjectRow>, o: ObjectRow, roles: set<Role>)
    ensures FilesWith(objects + [o], roles) == FilesWith(objects, roles) + if o.role in roles then 1 else 0
    ensures BytesWith(objects + [o], roles) == BytesWith(objects, roles) + if o.role in roles then o.bytes else 0
    ensures SafeOnes(objects + [o]) == SafeOnes(objects) + if o.safeToDelete then [o] else []
    decreases |objects|
  {
    var longer := objects + [o];
    if objects == [] {
      assert longer == [o] && [o][1..] == [];
    } else {
      assert longer[0] == objects[0] && longer[1..] == objects[1..] + [o];
      OneMoreFile(objects[1..], o, roles);
    }
  }

  lemma TallyKeepsTotals(t: Totals, objects: seq<ObjectRow>, o: ObjectRow)
    requires TotalsAre(t, objects)
    ensures TotalsAre(Tally(t, o), objects + [o])
  {
    hide FilesWith, BytesWith, SafeOnes;
    OneMoreFile(objects, o, ALL);
    OneMoreFile(objects, o, {SourceDirect, Source});
    OneMoreFile(objects, o, {PreparedCopy});
    OneMoreFile(objects, o, {Retired});
    OneMoreFile(objects, o, {Orphan});
    OneMoreFile(SafeOnes(objects), o, ALL);
    assert SafeOnes(objects) + [] == SafeOnes(objects);
    assert o.role == SourceDirect || o.role == Source || o.role == PreparedCopy || o.role == Retired || o.role == Orphan;
    assert o.role in {SourceDirect, Source, PreparedCopy, Retired, Orphan};
  }

  /** The totals are those of the files, role by role. */
  lemma {:induction false} TotalsByRole(objects: seq<ObjectRow>)
    ensures TotalsAre(TotalsOf(objects), objects)
    decreases |objects|
  {
    hide Tally;
    if objects != [] {
      var n := |objects| - 1;
      TotalsByRole(objects[..n]);
      hide TotalsAre;
      TallyKeepsTotals(TotalsOf(objects[..n]), objects[..n], objects[n]);
      assert objects[..n] + [objects[n]] == objects;
    }
  }

  /** Every byte is under one role, and what is reclaimable is retired or orphaned. */
  predicate Balanced(t: Totals)
  {
    && t.bytes == t.sourceBytes + t.preparedBytes + t.retiredBytes + t.orphanBytes
    && t.reclaimableFiles <= t.retiredFiles + t.orphanFiles
    && t.reclaimableBytes <= t.retiredBytes + t.orphanBytes
  }

  lemma TallyBalances(t: Totals, o: ObjectRow)
    requires Balanced(t) && (o.safeToDelete ==> o.role.Retired? || o.role.Orphan?)
    ensures Balanced(Tally(t, o)) && Tally(t, o).files == t.files + 1 && Tally(t, o).bytes == t.bytes + o.bytes
  {
  }

  /** The totals account for every file found, each byte under exactly one role. */
  lemma {:induction false} TotalsConserve(rows: seq<MediaRef>, uses: Uses, files: seq<Object>, objects: seq<ObjectRow>)
    requires |objects| == |files|
    requires forall i :: 0 <= i < |files| ==> objects[i] == Classify(ByKey(rows), uses, files[i])
    ensures TotalsOf(objects).files == |files| && TotalsOf(objects).bytes == Bytes(files)
    ensures Balanced(TotalsOf(objects))
    decreases |files|
  {
    hide Tally, Balanced, Classify, ByKey;
    if files == [] {
      NothingBalances();
    } else {
      var n := |files| - 1;
      TotalsConserve(rows, uses, files[..n], objects[..n]);
      SafeMeansGone(ByKey(rows), uses, files[n]);
      TallyBalances(TotalsOf(objects[..n]), objects[n]);
    }
  }

  lemma NothingBalances()
    ensures Balanced(NOTHING)
  {
  }

  lemma SafeMeansGone(index: Index, uses: Uses, f: Object)
    ensures var o := Classify(index, uses, f);
            o.bytes == f.bytes && (o.safeToDelete ==> o.role.Retired? || o.role.Orphan?)
  {
  }
}
