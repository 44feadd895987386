/** The camera catalogue: importing an operator's list, refreshing addresses, removing copies. */
module Cameras {
  import opened Common
  import opened Text

  type SourceId = string
  type BroadcastId = string

  /** What a camera is: a name an authority publishes. */
  datatype Camera = Camera(region: string, provider: string, name: string)

  datatype Check = Unchecked | Checked(at: int, ok: bool)

  /** A catalogue row. */
  datatype Source = Source(id: SourceId, camera: Camera, url: string, active: bool, check: Check, addedAt: int)

  /** Rows in insertion order. */
  type Catalogue = seq<Source>

  /** One line of a list: refused by the address and name rules, or what they made of it. */
  datatype Line = Refused | Accepted(camera: Camera, url: string)

  /** A line as it is imported, with the id and time a new row would get. */
  datatype Import = Import(line: Line, id: SourceId, now: int)

  predicate Newer(rows: Catalogue, i: nat, j: nat)
    requires i < |rows| && j < |rows|
  {
    rows[i].addedAt > rows[j].addedAt || (rows[i].addedAt == rows[j].addedAt && i > j)
  }

  /** The row with this address; addresses are unique. */
  function ByUrl(rows: Catalogue, url: string): (r: Option<nat>)
    ensures r.Some? ==> r.value < |rows| && rows[r.value].url == url
    ensures r.None? ==> forall i :: 0 <= i < |rows| ==> rows[i].url != url
    decreases |rows|
  {
    if rows == [] then None
    else if rows[|rows| - 1].url == url then Some(|rows| - 1)
    else ByUrl(rows[..|rows| - 1], url)
  }

  /** The newest row of this camera. */
  function ByCamera(rows: Catalogue, c: Camera): (r: Option<nat>)
    ensures r.Some? ==> r.value < |rows| && rows[r.value].camera == c
    ensures r.Some? ==> forall i :: 0 <= i < |rows| && rows[i].camera == c && i != r.value ==> Newer(rows, r.value, i)
    ensures r.None? ==> forall i :: 0 <= i < |rows| ==> rows[i].camera != c
    decreases |rows|
  {
    if rows == [] then None
    else
      var n := |rows| - 1;
      var best := ByCamera(rows[..n], c);
      if rows[n].camera == c && (best.None? || rows[n].addedAt >= rows[best.value].addedAt) then Some(n) else best
  }

  /** The address first, then the name. */
  function Existing(rows: Catalogue, c: Camera, url: string): Option<nat>
  {
    if ByUrl(rows, url).Some? then ByUrl(rows, url) else ByCamera(rows, c)
  }

  function ImportOne(rows: Catalogue, im: Import): Catalogue
  {
    match im.line
    case Refused => rows
    case Accepted(c, url) =>
      match Existing(rows, c, url)
      case Some(i) => rows[i := rows[i].(camera := c, url := url, active := true, check := Unchecked)]
      case None => rows + [Source(im.id, c, url, true, Unchecked, im.now)]
  }

  function ImportAll(rows: Catalogue, ims: seq<Import>): Catalogue
    decreases |ims|
  {
    if ims == [] then rows else ImportAll(ImportOne(rows, ims[0]), ims[1..])
  }

  const MAX_IMPORT_ROWS: nat := 2000

  /** No other row of this camera is newer. */
  predicate Newest(rows: Catalogue, i: nat)
    requires i < |rows|
  {
    forall j :: 0 <= j < |rows| && j != i && rows[j].camera == rows[i].camera ==> Newer(rows, i, j)
  }

  /** The rows among the first `n` that are the newest of their camera in the whole table. */
  function KeepNewest(rows: Catalogue, n: nat): Catalogue
    requires n <= |rows|
  {
    if n == 0 then []
    else KeepNewest(rows, n - 1) + if Newest(rows, n - 1) then [rows[n - 1]] else []
  }

  function Deduped(rows: Catalogue): Catalogue
  {
    KeepNewest(rows, |rows|)
  }

  /** The `cctv_sources` table. */
  class CameraTable {
    var rows: Catalogue

    constructor ()
      ensures rows == []
    {
      rows := [];
    }

    method ImportRow(im: Import)
      modifies this
      ensures rows == ImportOne(old(rows), im)
    {
      var line := im.line;
      if line.Refused? {
        return;
      }
      var existing := ByUrl(rows, line.url);
      if existing.None? {
        existing := ByCamera(rows, line.camera);
      }
      if existing.Some? {
        var i := existing.value;
        rows := rows[i := rows[i].(camera := line.camera, url := line.url, active := true, check := Unchecked)];
      } else {
        rows := rows + [Source(im.id, line.camera, line.url, true, Unchecked, im.now)];
      }
    }

    /** One bad line refuses itself only; a list that is too long is refused whole. */
    method ImportList(ims: seq<Import>) returns (accepted: bool)
      modifies this
      ensures accepted <==> |ims| <= 2000
      ensures rows == if accepted then ImportAll(old(rows), ims) else old(rows)
    {
      accepted := |ims| <= MAX_IMPORT_ROWS;
      if accepted {
        var i := 0;
        assert ims[0..] == ims;
        while i < |ims|
          invariant 0 <= i <= |ims|
          invariant ImportAll(rows, ims[i..]) == ImportAll(old(rows), ims)
        {
          assert ims[i..][0] == ims[i] && ims[i..][1..] == ims[i + 1..];
          ImportRow(ims[i]);
          i := i + 1;
        }
      }
    }

    /** Remove the older copies of every camera; how many went. */
    method Dedupe() returns (removed: nat)
      modifies this
      ensures rows == Deduped(old(rows)) && removed == |old(rows)| - |rows|
    {
      KeepsAtMost(rows, |rows|);
      var kept := Deduped(rows);
      removed := |rows| - |kept|;
      rows := kept;
    }
  }

  lemma {:induction false} KeepsAtMost(rows: Catalogue, n: nat)
    requires n <= |rows|
    ensures |KeepNewest(rows, n)| <= n
  {
    if n > 0 {
      KeepsAtMost(rows, n - 1);
    }
  }

  // ---- importing --------------------------------------------------------------------

  predicate UrlsUnique(rows: Catalogue)
  {
    forall i, j :: 0 <= i < j < |rows| ==> rows[i].url != rows[j].url
  }

  /** Importing any list keeps every address in one row, so the table's unique index is never hit. */
  lemma {:induction false} ImportKeepsUrlsUnique(rows: Catalogue, ims: seq<Import>)
    requires UrlsUnique(rows)
    ensures UrlsUnique(ImportAll(rows, ims))
    decreases |ims|
  {
    if ims != [] {
      ImportKeepsUrlsUnique(ImportOne(rows, ims[0]), ims[1..]);
    }
  }

  predicate HasUrl(rows: Catalogue, url: string)
  {
    exists i :: 0 <= i < |rows| && rows[i].url == url
  }

  predicate HasCamera(rows: Catalogue, c: Camera)
  {
    exists i :: 0 <= i < |rows| && rows[i].camera == c
  }

  /** Is either the line's address or its camera already there? */
  predicate Known(rows: Catalogue, line: Line)
  {
    line.Refused? || HasUrl(rows, line.url) || HasCamera(rows, line.camera)
  }

  /** A line is in the catalogue afterwards, unchecked, and adds a row exactly when it was not known. */
  lemma ImportInsertsExactly(rows: Catalogue, im: Import)
    ensures |ImportOne(rows, im)| == if Known(rows, im.line) then |rows| else |rows| + 1
    ensures im.line.Accepted? ==>
              exists i :: 0 <= i < |ImportOne(rows, im)| &&
                var row := ImportOne(rows, im)[i];
                row.camera == im.line.camera && row.url == im.line.url && row.active && row.check == Unchecked
  {
    if im.line.Accepted? {
      var rows' := ImportOne(rows, im);
      match Existing(rows, im.line.camera, im.line.url)
      case Some(i) => assert rows'[i].url == im.line.url;
      case None => assert rows'[|rows|].url == im.line.url;
    }
  }

  /** The row as a line leaves it: an old one keeps its id and its age. */
  function Written(row: Source, c: Camera, url: string): Source
  {
    Source(row.id, c, url, true, Unchecked, row.addedAt)
  }

  /**
   Which row a line writes: the one at its address, or else the newest of its
   camera, or else a new one with the id and time given; and no other row changes.
   */
  lemma ImportWritesOneRow(rows: Catalogue, im: Import)
    ensures im.line.Refused? ==> ImportOne(rows, im) == rows
    ensures im.line.Accepted? ==>
              var (c, url) := (im.line.camera, im.line.url);
              if HasUrl(rows, url) then
                exists i :: 0 <= i < |rows| && rows[i].url == url && ImportOne(rows, im) == rows[i := Written(rows[i], c, url)]
              else if HasCamera(rows, c) then
                exists i :: 0 <= i < |rows| && rows[i].camera == c && Newest(rows, i)
                            && ImportOne(rows, im) == rows[i := Written(rows[i], c, url)]
              else ImportOne(rows, im) == rows + [Source(im.id, c, url, true, Unchecked, im.now)]
  {
    if im.line.Accepted? && Existing(rows, im.line.camera, im.line.url).Some? {
      var i := Existing(rows, im.line.camera, im.line.url).value;
      assert rows[i].(camera := im.line.camera, url := im.line.url, active := true, check := Unchecked)
          == Written(rows[i], im.line.camera, im.line.url);
      assert HasUrl(rows, im.line.url) <==> ByUrl(rows, im.line.url).Some?;
      assert HasCamera(rows, im.line.camera) <==> ByCamera(rows, im.line.camera).Some?;
    }
  }

  lemma {:induction false} ImportAllJoins(rows: Catalogue, a: seq<Import>, b: seq<Import>)
    ensures ImportAll(rows, a + b) == ImportAll(ImportAll(rows, a), b)
    decreases |a|
  {
    if a == [] {
      assert a + b == b;
    } else {
      assert (a + b)[0] == a[0] && (a + b)[1..] == a[1..] + b;
      ImportAllJoins(ImportOne(rows, a[0]), a[1..], b);
    }
  }

  // ---- importing the same list again ----------------------------------------------------

  /** No camera is named at two addresses. */
  predicate OneAddressEach(ims: seq<Import>)
  {
    forall i, j :: 0 <= i < |ims| && 0 <= j < |ims| && ims[i].line.Accepted? && ims[j].line.Accepted? ==>
      ims[i].line.camera == ims[j].line.camera ==> ims[i].line.url == ims[j].line.url
  }

  /** No address is named under two cameras. */
  predicate OneCameraEach(ims: seq<Import>)
  {
    forall i, j :: 0 <= i < |ims| && 0 <= j < |ims| && ims[i].line.Accepted? && ims[j].line.Accepted? ==>
      ims[i].line.url == ims[j].line.url ==> ims[i].line.camera == ims[j].line.camera
  }

  predicate SameLines(a: seq<Import>, b: seq<Import>)
  {
    |a| == |b| && forall i :: 0 <= i < |a| ==> a[i].line == b[i].line
  }

  /** Some row has the address, under one of these cameras. */
  predicate UrlUnder(rows: Catalogue, url: string, cameras: set<Camera>)
  {
    exists i :: 0 <= i < |rows| && rows[i].url == url && rows[i].camera in cameras
  }

  /** Some row is this camera, at one of these addresses. */
  predicate CameraAt(rows: Catalogue, c: Camera, urls: set<string>)
  {
    exists i :: 0 <= i < |rows| && rows[i].camera == c && rows[i].url in urls
  }

  /** Cameras and the addresses they are published at. */
  type Pairs = set<(Camera, string)>

  /** Every accepted line is one of these pairs. */
  predicate Drawn(ims: seq<Import>, pairs: Pairs)
  {
    forall i :: 0 <= i < |ims| && ims[i].line.Accepted? ==> (ims[i].line.camera, ims[i].line.url) in pairs
  }

  function PairsOf(ims: seq<Import>): Pairs
  {
    set i | 0 <= i < |ims| && ims[i].line.Accepted? :: (ims[i].line.camera, ims[i].line.url)
  }

  /** A camera with two addresses shares neither of them with another camera. */
  predicate Stars(pairs: Pairs)
  {
    forall p, q, r :: p in pairs && q in pairs && r in pairs && p.0 == q.0 && p.1 != q.1 && r.1 == q.1 ==> r.0 == q.0
  }

  function AddressesOf(pairs: Pairs, c: Camera): set<string>
  {
    set p | p in pairs && p.0 == c :: p.1
  }

  function CamerasAt(pairs: Pairs, url: string): set<Camera>
  {
    set p | p in pairs && p.1 == url :: p.0
  }

  /** A camera with several addresses, all its own, stays known at one of them. */
  lemma {:induction false} CameraStays(rows: Catalogue, ims: seq<Import>, c: Camera, pairs: Pairs)
    requires Drawn(ims, pairs) && CameraAt(rows, c, AddressesOf(pairs, c))
    requires forall p, q :: p in pairs && q in pairs && p.0 == c && p.1 == q.1 ==> q.0 == c
    ensures HasCamera(ImportAll(rows, ims), c)
    decreases |ims|
  {
    var i :| 0 <= i < |rows| && rows[i].camera == c && rows[i].url in AddressesOf(pairs, c);
    if ims != [] {
      var rows' := ImportOne(rows, ims[0]);
      assert rows'[i].camera == c && rows'[i].url in AddressesOf(pairs, c);
      assert forall j :: 0 <= j < |ims[1..]| ==> ims[1..][j] == ims[j + 1];
      CameraStays(rows', ims[1..], c, pairs);
    }
  }

  /** An address whose cameras have no other stays known under one of them. */
  lemma {:induction false} UrlStays(rows: Catalogue, ims: seq<Import>, url: string, pairs: Pairs)
    requires Drawn(ims, pairs) && UrlUnder(rows, url, CamerasAt(pairs, url))
    requires forall p, q :: p in pairs && q in pairs && p.1 == url && p.0 == q.0 ==> q.1 == url
    ensures HasUrl(ImportAll(rows, ims), url)
    decreases |ims|
  {
    var i :| 0 <= i < |rows| && rows[i].url == url && rows[i].camera in CamerasAt(pairs, url);
    if ims != [] {
      var rows' := ImportOne(rows, ims[0]);
      assert rows'[i].url == url && rows'[i].camera in CamerasAt(pairs, url);
      assert forall j :: 0 <= j < |ims[1..]| ==> ims[1..][j] == ims[j + 1];
      UrlStays(rows', ims[1..], url, pairs);
    }
  }

  /** Once imported, a line stays known whatever else from such a set is imported after it. */
  lemma StaysKnown(rows: Catalogue, ims: seq<Import>, line: Line, pairs: Pairs)
    requires Stars(pairs) && Drawn(ims, pairs) && line.Accepted? && (line.camera, line.url) in pairs
    requires UrlUnder(rows, line.url, {line.camera})
    ensures Known(ImportAll(rows, ims), line)
  {
    hide ImportAll, Drawn;
    var i :| 0 <= i < |rows| && rows[i].url == line.url && rows[i].camera == line.camera;
    var here := (line.camera, line.url);
    assert line.url in AddressesOf(pairs, line.camera) && line.camera in CamerasAt(pairs, line.url);
    if other :| other in pairs && other.0 == line.camera && other.1 != line.url {
      forall p, q | p in pairs && q in pairs && p.0 == line.camera && p.1 == q.1 ensures q.0 == line.camera {
        assert p.1 != here.1 || p.1 != other.1;
      }
      CameraStays(rows, ims, line.camera, pairs);
    } else {
      forall p, q | p in pairs && q in pairs && p.1 == line.url && p.0 == q.0 ensures q.1 == line.url {
        assert p.1 == here.1;
      }
      UrlStays(rows, ims, line.url, pairs);
    }
  }

  lemma OneTurn(rows: Catalogue, ims: seq<Import>, i: nat)
    requires i < |ims|
    ensures ImportAll(rows, ims) == ImportAll(ImportOne(ImportAll(rows, ims[..i]), ims[i]), ims[i + 1..])
  {
    var rest := [ims[i]] + ims[i + 1..];
    assert ims == ims[..i] + rest && rest[1..] == ims[i + 1..];
    ImportAllJoins(rows, ims[..i], rest);
  }

  /** The lines imported between a line's turn in one import and its turn in the next. */
  function Between(first: seq<Import>, again: seq<Import>, i: nat): seq<Import>
    requires |first| == |again| && i < |first|
  {
    first[i + 1..] + again[..i]
  }

  /** Between a line's turn in one import and its turn in the next, it stays known. */
  lemma StillKnown(rows: Catalogue, first: seq<Import>, again: seq<Import>, i: nat, pairs: Pairs)
    requires SameLines(first, again) && Drawn(first, pairs) && Stars(pairs) && i < |first|
    ensures Known(ImportAll(ImportAll(rows, first), again[..i]), first[i].line)
  {
    var line := first[i].line;
    if line.Accepted? {
      var before := ImportAll(rows, first[..i]);
      ImportInsertsExactly(before, first[i]);
      var done := ImportOne(before, first[i]);
      OneTurn(rows, first, i);
      ImportAllJoins(done, first[i + 1..], again[..i]);
      var between := Between(first, again, i);
      hide ImportAll, ImportOne, Stars, Known;
      assert Drawn(between, pairs);
      assert UrlUnder(done, line.url, {line.camera});
      hide SameLines, UrlUnder, Drawn;
      StaysKnown(done, between, line, pairs);
    }
  }

  lemma LastTurn(rows: Catalogue, ims: seq<Import>, n: nat)
    requires 0 < n <= |ims|
    ensures ImportAll(rows, ims[..n]) == ImportOne(ImportAll(rows, ims[..n - 1]), ims[n - 1])
  {
    OneTurn(rows, ims[..n], n - 1);
    assert ims[..n][..n - 1] == ims[..n - 1] && ims[..n][n..] == [];
  }

  lemma KnownTurnAddsNothing(rows: Catalogue, ims: seq<Import>, n: nat)
    requires 0 < n <= |ims| && Known(ImportAll(rows, ims[..n - 1]), ims[n - 1].line)
    ensures |ImportAll(rows, ims[..n])| == |ImportAll(rows, ims[..n - 1])|
  {
    hide ImportAll, ImportOne, Known;
    LastTurn(rows, ims, n);
    ImportInsertsExactly(ImportAll(rows, ims[..n - 1]), ims[n - 1]);
  }

  lemma {:induction false} ReimportSize(rows: Catalogue, first: seq<Import>, again: seq<Import>, n: nat, pairs: Pairs)
    requires SameLines(first, again) && Drawn(first, pairs) && Stars(pairs) && n <= |first|
    ensures |ImportAll(ImportAll(rows, first), again[..n])| == |ImportAll(rows, first)|
    decreases n
  {
    if n > 0 {
      hide ImportAll, Drawn, Stars;
      ReimportSize(rows, first, again, n - 1, pairs);
      StillKnown(rows, first, again, n - 1, pairs);
      assert first[n - 1].line == again[n - 1].line;
      hide SameLines, Known;
      KnownTurnAddsNothing(ImportAll(rows, first), again, n);
    }
  }

  /** Whatever list is made of these pairs, importing it again adds no row, into whatever catalogue. */
  ghost predicate ReimportSafe(pairs: Pairs)
  {
    forall rows, first, again :: Drawn(first, pairs) && SameLines(first, again) ==>
      |ImportAll(ImportAll(rows, first), again)| == |ImportAll(rows, first)|
  }

  lemma SameLength(a: seq<Import>, b: seq<Import>)
    requires SameLines(a, b)
    ensures b[..|a|] == b
  {
  }

  lemma NotAStar(pairs: Pairs)
    requires !Stars(pairs)
    ensures !ReimportSafe(pairs)
  {
    var p, q, r :| p in pairs && q in pairs && r in pairs && p.0 == q.0 && p.1 != q.1 && r.1 == q.1 && r.0 != q.0;
    var list := [Import(Accepted(q.0, p.1), "", 0), Import(Accepted(q.0, q.1), "", 0), Import(Accepted(r.0, q.1), "", 0)];
    ReimportCanInsert(q.0, r.0, p.1, q.1, "", 0);
    hide ImportAll, Stars;
    assert Drawn(list, pairs) && SameLines(list, list);
  }

  /**
   Which cameras and addresses can be imported again without adding a row, in
   whatever order and however often a list names them: exactly those in which a
   camera with two addresses shares neither of them.
   */
  lemma ReimportSafeExactly(pairs: Pairs)
    ensures ReimportSafe(pairs) <==> Stars(pairs)
  {
    hide Stars;
    if Stars(pairs) {
      hide ImportAll, Drawn, SameLines;
      forall rows, first, again | Drawn(first, pairs) && SameLines(first, again)
        ensures |ImportAll(ImportAll(rows, first), again)| == |ImportAll(rows, first)|
      {
        ReimportSize(rows, first, again, |first|, pairs);
        assert again[..|first|] == again by { SameLength(first, again); }
      }
    } else {
      NotAStar(pairs);
    }
  }

  /** So of one list: importing it again adds no row if its own pairs are like that. */
  lemma ReimportAddsNothing(rows: Catalogue, first: seq<Import>, again: seq<Import>)
    requires SameLines(first, again) && Stars(PairsOf(first))
    ensures |ImportAll(ImportAll(rows, first), again)| == |ImportAll(rows, first)|
  {
    ReimportSafeExactly(PairsOf(first));
    hide ImportAll, Stars;
    assert Drawn(first, PairsOf(first));
  }

  /** Lists that name every camera at one address, or every address under one camera, are like that. */
  lemma PlainListsAreStars(ims: seq<Import>)
    requires OneAddressEach(ims) || OneCameraEach(ims)
    ensures Stars(PairsOf(ims))
  {
  }

  /**
   A camera that moves address in the list, to an address the list then gives to
   another camera, is in nobody's row when its first line comes round again.
   */
  lemma ReimportCanInsert(a: Camera, b: Camera, x: string, y: string, id: SourceId, now: int)
    requires a != b && x != y
    ensures var list := [Import(Accepted(a, x), id, now), Import(Accepted(a, y), id, now), Import(Accepted(b, y), id, now)];
            && |ImportAll([], list)| == 1 && |ImportAll(ImportAll([], list), list)| == 2
  {
    var l0, l1, l2 := Import(Accepted(a, x), id, now), Import(Accepted(a, y), id, now), Import(Accepted(b, y), id, now);
    var list := [l0, l1, l2];
    assert list[1..] == [l1, l2] && [l1, l2][1..] == [l2];
    var r0 := [Source(id, a, x, true, Unchecked, now)];
    var r1 := [Source(id, a, y, true, Unchecked, now)];
    var r2 := [Source(id, b, y, true, Unchecked, now)];
    assert ImportOne([], l0) == r0 && ImportOne(r0, l1) == r1 && ImportOne(r1, l2) == r2;
    assert ImportAll([], list) == r2 by {
      ImportThree([], l0, l1, l2);
    }
    ImportThree(r2, l0, l1, l2);
    var s0 := ImportOne(r2, l0);
    ImportInsertsExactly(r2, l0);
    assert s0 == r2 + r0;
    var s1 := ImportOne(s0, l1);
    ImportInsertsExactly(s0, l1);
    assert s0[0].url == y;
    ImportInsertsExactly(s1, l2);
    assert |s1| == 2;
    assert HasUrl(s1, y);
  }

  lemma ImportThree(rows: Catalogue, a: Import, b: Import, c: Import)
    ensures ImportAll(rows, [a, b, c]) == ImportOne(ImportOne(ImportOne(rows, a), b), c)
  {
    assert [a, b, c][1..] == [b, c] && [b, c][1..] == [c] && [c][1..] == [];
    assert ImportAll(rows, [a, b, c]) == ImportAll(ImportOne(rows, a), [b, c]);
    assert ImportAll(ImportOne(rows, a), [b, c]) == ImportAll(ImportOne(ImportOne(rows, a), b), [c]);
  }

  // ---- copies ---------------------------------------------------------------------------

  lemma {:induction false} KeptAre(rows: Catalogue, n: nat, row: Source)
    requires n <= |rows|
    ensures row in KeepNewest(rows, n) <==> exists i :: 0 <= i < n && Newest(rows, i) && rows[i] == row
  {
    hide Newest;
    if n > 0 {
      KeptAre(rows, n - 1, row);
      var kept := KeepNewest(rows, n - 1);
      assert row in KeepNewest(rows, n) <==> row in kept || (Newest(rows, n - 1) && rows[n - 1] == row);
      hide KeepNewest;
    }
  }

  predicate NoCopies(rows: Catalogue)
  {
    forall i, j :: 0 <= i < j < |rows| ==> rows[i].camera != rows[j].camera
  }

  lemma OneNewest(rows: Catalogue, i: nat, j: nat)
    requires i < j < |rows| && Newest(rows, i) && Newest(rows, j)
    ensures rows[i].camera != rows[j].camera
  {
  }

  /** A kept row and a later newest row are different cameras. */
  lemma KeptDiffer(rows: Catalogue, n: nat, row: Source)
    requires n < |rows| && row in KeepNewest(rows, n) && Newest(rows, n)
    ensures row.camera != rows[n].camera
  {
    KeptAre(rows, n, row);
    hide KeepNewest;
    var i :| 0 <= i < n && Newest(rows, i) && rows[i] == row;
    OneNewest(rows, i, n);
  }

  lemma {:induction false} KeptHaveNoCopies(rows: Catalogue, n: nat)
    requires n <= |rows|
    ensures NoCopies(KeepNewest(rows, n))
  {
    hide Newest, Newer;
    if n > 0 {
      KeptHaveNoCopies(rows, n - 1);
      var kept := KeepNewest(rows, n - 1);
      if Newest(rows, n - 1) {
        forall j | 0 <= j < |kept| ensures kept[j].camera != rows[n - 1].camera {
          KeptDiffer(rows, n - 1, kept[j]);
        }
        assert KeepNewest(rows, n) == kept + [rows[n - 1]];
      } else {
        assert KeepNewest(rows, n) == kept + [];
      }
      hide KeepNewest;
    }
  }

  lemma {:induction false} CleanIsKept(rows: Catalogue, n: nat)
    requires n <= |rows| && NoCopies(rows)
    ensures KeepNewest(rows, n) == rows[..n]
  {
    if n > 0 {
      CleanIsKept(rows, n - 1);
      assert rows[..n] == rows[..n - 1] + [rows[n - 1]];
    }
  }

  /**
   Removing copies leaves one row for every camera there was, the newest of its
   rows, and a second pass removes nothing.
   */
  lemma DedupeKeepsNewest(rows: Catalogue, c: Camera)
    ensures NoCopies(Deduped(rows))
    ensures HasCamera(Deduped(rows), c) <==> HasCamera(rows, c)
    ensures forall row :: row in Deduped(rows) <==> exists i :: 0 <= i < |rows| && Newest(rows, i) && rows[i] == row
    ensures Deduped(Deduped(rows)) == Deduped(rows)
  {
    KeptHaveNoCopies(rows, |rows|);
    CleanIsKept(Deduped(rows), |Deduped(rows)|);
    forall row ensures row in Deduped(rows) <==> exists i :: 0 <= i < |rows| && Newest(rows, i) && rows[i] == row {
      KeptAre(rows, |rows|, row);
    }
    assert Deduped(rows)[..|Deduped(rows)|] == Deduped(rows);
    if HasCamera(rows, c) {
      var best := ByCamera(rows, c);
      assert Newest(rows, best.value) && rows[best.value].camera == c;
      assert rows[best.value] in Deduped(rows);
      var i :| 0 <= i < |Deduped(rows)| && Deduped(rows)[i] == rows[best.value];
      assert HasCamera(Deduped(rows), c);
    }
    if HasCamera(Deduped(rows), c) {
      var i :| 0 <= i < |Deduped(rows)| && Deduped(rows)[i].camera == c;
      assert Deduped(rows)[i] in Deduped(rows);
    }
  }

  // ---- addresses in use -------------------------------------------------------------------

  /** The columns of a broadcast that say which camera it sends. */
  datatype Broadcast = Broadcast(running: bool, sourceId: Option<SourceId>, snapshot: Option<string>)

  type Broadcasts = map<BroadcastId, Broadcast>

  /** A text column read as present only if something is left after trimming. */
  function Present(s: Option<string>): Option<string>
  {
    match s
    case None => None
    case Some(t) => if Trim(t) == "" then None else Some(Trim(t))
  }

  function ById(rows: Catalogue, id: SourceId): Option<Source>
    decreases |rows|
  {
    if rows == [] then None
    else if rows[|rows| - 1].id == id then Some(rows[|rows| - 1])
    else ById(rows[..|rows| - 1], id)
  }

  /** The address a broadcast should be sending now: the catalogue's, or else the snapshot. */
  function Resolve(rows: Catalogue, b: Broadcast): Option<string>
  {
    match Present(b.sourceId)
    case None => Present(b.snapshot)
    case Some(id) =>
      match ById(rows, id)
      case None => Present(b.snapshot)
      case Some(s) => if s.active && Trim(s.url) != "" then Some(Trim(s.url)) else Present(b.snapshot)
  }

  /** The address the refresh query reads for a broadcast, if it lists it. */
  function Refresh(rows: Catalogue, b: Broadcast): Option<string>
  {
    if !b.running || b.sourceId.None? then None
    else
      match ById(rows, b.sourceId.value)
      case None => None
      case Some(s) =>
        if s.active && SqlTrim(s.url) != "" && SqlTrim(s.url) != (if b.snapshot.Some? then SqlTrim(b.snapshot.value) else "")
        then Some(s.url) else None
  }

  /** Text as the service stores it: no white space at either end, and an id is never empty. */
  predicate StoredClean(rows: Catalogue, b: Broadcast)
  {
    && (forall i :: 0 <= i < |rows| ==> Trimmed(rows[i].url))
    && (b.sourceId.Some? ==> Trimmed(b.sourceId.value) && b.sourceId.value != "")
    && (b.snapshot.Some? ==> Trimmed(b.snapshot.value))
  }

  lemma {:induction false} ByIdIsARow(rows: Catalogue, id: SourceId)
    ensures ById(rows, id).Some? ==> ById(rows, id).value in rows
    decreases |rows|
  {
    if rows != [] {
      ByIdIsARow(rows[..|rows| - 1], id);
    }
  }

  predicate IdsUnique(rows: Catalogue)
  {
    forall i, j :: 0 <= i < j < |rows| ==> rows[i].id != rows[j].id
  }

  lemma {:induction false} ByIdFinds(rows: Catalogue, row: Source)
    requires IdsUnique(rows) && row in rows
    ensures ById(rows, row.id) == Some(row)
    decreases |rows|
  {
    var n := |rows| - 1;
    if rows[n] != row {
      assert rows == rows[..n] + [rows[n]];
      ByIdFinds(rows[..n], row);
    }
  }

  lemma {:induction false} ByIdHasTheId(rows: Catalogue, id: SourceId)
    ensures ById(rows, id).Some? ==> ById(rows, id).value in rows && ById(rows, id).value.id == id
    ensures ById(rows, id).None? ==> forall i :: 0 <= i < |rows| ==> rows[i].id != id
    decreases |rows|
  {
    if rows != [] {
      ByIdHasTheId(rows[..|rows| - 1], id);
    }
  }

  /** The address a broadcast was last started with, or nothing. */
  predicate FallsBack(b: Broadcast, url: Option<string>)
  {
    if b.snapshot.Some? && Trim(b.snapshot.value) != "" then url == Some(Trim(b.snapshot.value)) else url == None
  }

  /** The row of the camera a broadcast picked, in use and with an address. */
  predicate Answers(rows: Catalogue, b: Broadcast, row: Source)
  {
    && row in rows && b.sourceId.Some? && Trim(b.sourceId.value) != "" && row.id == Trim(b.sourceId.value)
    && row.active && Trim(row.url) != ""
  }

  /**
   What a broadcast should send: the address of the camera it picked, if that row
   is there, in use and has one, and otherwise what it was last started with. And
   what the refresh lists: the running ones whose row has another address.
   */
  lemma AddressesExactly(rows: Catalogue, b: Broadcast, row: Source)
    requires IdsUnique(rows)
    ensures Answers(rows, b, row) ==> Resolve(rows, b) == Some(Trim(row.url))
    ensures (forall r :: r in rows ==> !Answers(rows, b, r)) ==> FallsBack(b, Resolve(rows, b))
    ensures Refresh(rows, b).Some? <==>
              && b.running && b.sourceId.Some?
              && exists i :: 0 <= i < |rows| && rows[i].id == b.sourceId.value && rows[i].active
                   && SqlTrim(rows[i].url) != ""
                   && SqlTrim(rows[i].url) != (if b.snapshot.Some? then SqlTrim(b.snapshot.value) else "")
    ensures Refresh(rows, b).Some? && row in rows && b.sourceId == Some(row.id) ==> Refresh(rows, b) == Some(row.url)
  {
    hide Trim, SqlTrim;
    if b.sourceId.Some? {
      ByIdHasTheId(rows, Trim(b.sourceId.value));
      ByIdHasTheId(rows, b.sourceId.value);
      forall r | r in rows ensures ById(rows, r.id) == Some(r) {
        ByIdFinds(rows, r);
      }
    }
    hide ById, IdsUnique;
  }

  /**
   The refresh lists a running broadcast exactly when the address it should be
   sending differs from its snapshot, and lists it with that address.
   */
  lemma RefreshListsExactly(rows: Catalogue, b: Broadcast)
    requires StoredClean(rows, b) && b.running
    ensures Refresh(rows, b).Some? <==> Resolve(rows, b) != Present(b.snapshot)
    ensures Refresh(rows, b).Some? ==> Resolve(rows, b) == Refresh(rows, b)
  {
    if b.sourceId.Some? {
      TrimKeepsTrimmed(b.sourceId.value);
      ByIdIsARow(rows, b.sourceId.value);
      match ById(rows, b.sourceId.value)
      case None =>
      case Some(s) =>
        TrimKeepsTrimmed(s.url);
    }
    if b.snapshot.Some? {
      TrimKeepsTrimmed(b.snapshot.value);
    }
  }

  /** `adopt_cctv_url`: only the snapshot moves. */
  function Adopt(b: Broadcast, url: string): Broadcast
  {
    b.(snapshot := Some(Trim(url)))
  }

  /** Whatever address is adopted, the snapshot is stored clean. */
  lemma AdoptedIsClean(rows: Catalogue, b: Broadcast, url: string)
    requires StoredClean(rows, b)
    ensures StoredClean(rows, Adopt(b, url))
  {
    TrimTrims(url);
  }

  /** One pass of the refresh: every broadcast it lists adopts the address it is listed with. */
  function RefreshAll(rows: Catalogue, bs: Broadcasts): Broadcasts
  {
    map k | k in bs :: if Refresh(rows, bs[k]).Some? then Adopt(bs[k], Refresh(rows, bs[k]).value) else bs[k]
  }

  /**
   After one pass the list is empty, every running broadcast has the address it
   should be sending as its snapshot, and what it should be sending has not moved.
   */
  lemma RefreshOnceIsEnough(rows: Catalogue, bs: Broadcasts, k: BroadcastId)
    requires k in bs && StoredClean(rows, bs[k])
    ensures var after := RefreshAll(rows, bs)[k];
            && Refresh(rows, after) == None
            && StoredClean(rows, after)
            && Resolve(rows, after) == Resolve(rows, bs[k])
            && (after.running ==> Present(after.snapshot) == Resolve(rows, bs[k]))
            && (bs[k].sourceId == after.sourceId && bs[k].running == after.running)
  {
    var b := bs[k];
    var after := RefreshAll(rows, bs)[k];
    if b.running {
      RefreshListsExactly(rows, b);
      if Refresh(rows, b).Some? {
        ByIdIsARow(rows, b.sourceId.value);
        TrimKeepsTrimmed(b.sourceId.value);
        TrimKeepsTrimmed(Refresh(rows, b).value);
        AdoptedIsClean(rows, b, Refresh(rows, b).value);
        RefreshListsExactly(rows, after);
      }
    }
  }
}
