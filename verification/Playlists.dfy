/**
 What a broadcast plays: the items of its playlist, whether their files can be
 joined packet by packet, and re-preparing those that cannot.
 */
module Playlists {
  import opened Common
  import opened Media

  /** A playlist row; the rows of one broadcast in order of position. */
  datatype Item = Item(media: MediaId, enabled: bool, repeatCount: int)

  type Table = map<MediaId, Media>

  /** What the start gate compares: the recorded mode, and the recorded signature. */
  datatype Shape = Shape(media: MediaId, mode: string, signature: Option<string>)

  datatype PlayError = UnknownMedia | NotReady | NoPreparedFile | NothingEnabled

  /** One entry of the list a worker plays. */
  datatype Prepared = Prepared(media: MediaId, key: Key)

  function EnabledIds(items: seq<Item>): seq<MediaId>
    decreases |items|
  {
    if items == [] then []
    else (if items[0].enabled then [items[0].media] else []) + EnabledIds(items[1..])
  }

  /** The media a playlist is judged by; a broadcast without any falls back to its first video. */
  function Judged(items: seq<Item>, fallback: MediaId): seq<MediaId>
  {
    if EnabledIds(items) == [] then [fallback] else EnabledIds(items)
  }

  function ShapeOf(rows: Table, m: MediaId): Shape
  {
    if m in rows then Shape(m, rows[m].ModeRead(), rows[m].signature) else Shape(m, CANONICAL, None)
  }

  function Shapes(rows: Table, ids: seq<MediaId>): (r: seq<Shape>)
    ensures |r| == |ids| && forall i :: 0 <= i < |ids| ==> r[i] == ShapeOf(rows, ids[i])
  {
    if ids == [] then [] else [ShapeOf(rows, ids[0])] + Shapes(rows, ids[1..])
  }

  predicate AllCanonical(shapes: seq<Shape>)
  {
    forall i :: 0 <= i < |shapes| ==> shapes[i].mode == CANONICAL
  }

  predicate AllSameNative(shapes: seq<Shape>)
  {
    && shapes != [] && shapes[0].signature.Some?
    && forall i :: 0 <= i < |shapes| ==> shapes[i].mode != CANONICAL && shapes[i].signature == shapes[0].signature
  }

  /** `check_playlist_joinable`. */
  predicate Joinable(shapes: seq<Shape>)
  {
    |shapes| < 2 || AllCanonical(shapes) || AllSameNative(shapes)
  }

  /** The media that are not canonical, in playlist order, once for every time they occur. */
  function NonCanonical(shapes: seq<Shape>): seq<MediaId>
    decreases |shapes|
  {
    if shapes == [] then []
    else (if shapes[0].mode == CANONICAL then [] else [shapes[0].media]) + NonCanonical(shapes[1..])
  }

  function ToQueue(shapes: seq<Shape>): seq<MediaId>
  {
    if Joinable(shapes) then [] else NonCanonical(shapes)
  }

  function Pinned(row: Media): Media
  {
    row.(pinned := true, state := Preparing)
  }

  function PinOne(rows: Table, m: MediaId): Table
  {
    if m in rows then rows[m := Pinned(rows[m])] else rows
  }

  function PinAll(rows: Table, ids: seq<MediaId>): Table
    decreases |ids|
  {
    if ids == [] then rows else PinAll(PinOne(rows, ids[0]), ids[1..])
  }

  function PreparedMediaFor(rows: Table, m: MediaId): Result<Prepared, PlayError>
  {
    if m !in rows then Err(UnknownMedia)
    else if rows[m].state != Ready then Err(NotReady)
    else if rows[m].prepared.None? then Err(NoPreparedFile)
    else Ok(Prepared(m, rows[m].prepared.value))
  }

  function Times<T>(x: T, n: nat): (r: seq<T>)
    ensures |r| == n && forall i :: 0 <= i < n ==> r[i] == x
  {
    if n == 0 then [] else Times(x, n - 1) + [x]
  }

  function Repeats(it: Item): nat
  {
    if it.repeatCount < 1 then 1 else it.repeatCount
  }

  /** The enabled items, each as often as it repeats; the first that is not ready stops it. */
  function Expand(rows: Table, items: seq<Item>): Result<seq<Prepared>, PlayError>
    decreases |items|
  {
    if items == [] then Ok([])
    else if !items[0].enabled then Expand(rows, items[1..])
    else
      match PreparedMediaFor(rows, items[0].media)
      case Err(e) => Err(e)
      case Ok(p) =>
        match Expand(rows, items[1..])
        case Err(e) => Err(e)
        case Ok(rest) => Ok(Times(p, Repeats(items[0])) + rest)
  }

  function PreparedItems(rows: Table, items: seq<Item>, fallback: MediaId): Result<seq<Prepared>, PlayError>
  {
    if items == [] then
      match PreparedMediaFor(rows, fallback)
      case Err(e) => Err(e)
      case Ok(p) => Ok([p])
    else
      match Expand(rows, items)
      case Err(e) => Err(e)
      case Ok(out) => if out == [] then Err(NothingEnabled) else Ok(out)
  }

  lemma NonCanonicalFrom(shapes: seq<Shape>, i: nat)
    requires i < |shapes|
    ensures var (here, rest) := (NonCanonical(shapes[i..]), NonCanonical(shapes[i + 1..]));
            if shapes[i].mode == CANONICAL then here == rest
            else here == [shapes[i].media] + rest && here[0] == shapes[i].media && here[1..] == rest
  {
    assert shapes[i..][0] == shapes[i] && shapes[i..][1..] == shapes[i + 1..];
  }

  /** The `media` table as playlists use it. */
  class MediaTable {
    var rows: Table

    constructor (rows: Table)
      ensures this.rows == rows
    {
      this.rows := rows;
    }

    /** Aim the next preparation at the canonical profile, and close the start gate until it is done. */
    method PinToCanonical(m: MediaId)
      modifies this
      ensures rows == PinOne(old(rows), m)
    {
      if m in rows {
        rows := rows[m := rows[m].(pinned := true)];
        rows := rows[m := rows[m].(state := Preparing)];
      }
    }

    /**
     Pin and queue what keeps the playlist from being joined. The caller starts
     one preparation for every id returned.
     */
    method EnsurePlaylistCompatible(items: seq<Item>, fallback: MediaId) returns (queued: seq<MediaId>)
      modifies this
      ensures queued == ToQueue(Shapes(old(rows), Judged(items, fallback)))
      ensures rows == PinAll(old(rows), queued)
    {
      var shapes := Shapes(rows, Judged(items, fallback));
      if |shapes| < 2 || AllCanonical(shapes) || AllSameNative(shapes) {
        return [];
      }
      queued := QueueNonCanonical(shapes);
    }

    method QueueNonCanonical(shapes: seq<Shape>) returns (queued: seq<MediaId>)
      modifies this
      ensures queued == NonCanonical(shapes) && rows == PinAll(old(rows), queued)
    {
      queued := [];
      var i := 0;
      assert shapes[0..] == shapes;
      while i < |shapes|
        invariant 0 <= i <= |shapes|
        invariant queued + NonCanonical(shapes[i..]) == NonCanonical(shapes)
        invariant PinAll(rows, NonCanonical(shapes[i..])) == PinAll(old(rows), NonCanonical(shapes))
      {
        var shape := shapes[i];
        NonCanonicalFrom(shapes, i);
        hide NonCanonical;
        if shape.mode != CANONICAL {
          PinToCanonical(shape.media);
          queued := queued + [shape.media];
        }
        i := i + 1;
      }
      assert shapes[i..] == [];
    }

    /** The list a worker plays, by two nested loops over the items and their repeats. */
    method PreparedItemsFor(items: seq<Item>, fallback: MediaId) returns (r: Result<seq<Prepared>, PlayError>)
      ensures r == PreparedItems(rows, items, fallback)
    {
      if items == [] {
        var only := PreparedMediaFor(rows, fallback);
        if only.Err? {
          return Err(only.error);
        }
        return Ok([only.value]);
      }
      var out: seq<Prepared> := [];
      var i := 0;
      assert items[0..] == items && forall rest: seq<Prepared> :: out + rest == rest;
      while i < |items|
        invariant 0 <= i <= |items|
        invariant Expand(rows, items) ==
          match Expand(rows, items[i..])
          case Err(e) => Err(e)
          case Ok(rest) => Ok(out + rest)
      {
        var it := items[i];
        assert items[i..][0] == it && items[i..][1..] == items[i + 1..];
        if it.enabled {
          var prepared := PreparedMediaFor(rows, it.media);
          if prepared.Err? {
            return Err(prepared.error);
          }
          ghost var before := out;
          var n := 0;
          while n < Repeats(it)
            invariant 0 <= n <= Repeats(it)
            invariant out == before + Times(prepared.value, n)
          {
            out := out + [prepared.value];
            n := n + 1;
          }
          assert forall rest: seq<Prepared> :: before + (Times(prepared.value, n) + rest) == out + rest;
        }
        i := i + 1;
      }
      assert out + [] == out;
      r := if out == [] then Err(NothingEnabled) else Ok(out);
    }
  }

  // ---- the two gates ----------------------------------------------------------------

  lemma {:induction false} NonCanonicalExactly(shapes: seq<Shape>)
    ensures NonCanonical(shapes) == [] <==> AllCanonical(shapes)
    ensures forall m :: m in NonCanonical(shapes) <==>
              exists i :: 0 <= i < |shapes| && shapes[i].media == m && shapes[i].mode != CANONICAL
    decreases |shapes|
  {
    if shapes != [] {
      var rest := shapes[1..];
      NonCanonicalExactly(rest);
      assert forall i :: 0 <= i < |rest| ==> rest[i] == shapes[i + 1];
      forall m | exists i :: 0 <= i < |shapes| && shapes[i].media == m && shapes[i].mode != CANONICAL
        ensures m in NonCanonical(shapes)
      {
        var i :| 0 <= i < |shapes| && shapes[i].media == m && shapes[i].mode != CANONICAL;
        if i > 0 {
          assert rest[i - 1] == shapes[i];
        }
      }
    }
  }

  /** Nothing is queued exactly when the playlist can be joined as it is. */
  lemma NothingQueuedIffJoinable(rows: Table, items: seq<Item>, fallback: MediaId)
    ensures var shapes := Shapes(rows, Judged(items, fallback));
            ToQueue(shapes) == [] <==> Joinable(shapes)
  {
    NonCanonicalExactly(Shapes(rows, Judged(items, fallback)));
  }

  lemma {:induction false} EnabledAre(items: seq<Item>)
    ensures forall m :: m in EnabledIds(items) <==> exists i :: 0 <= i < |items| && items[i].enabled && items[i].media == m
    decreases |items|
  {
    if items != [] {
      var rest := items[1..];
      EnabledAre(rest);
      assert forall i :: 0 <= i < |rest| ==> rest[i] == items[i + 1];
      forall m | exists i :: 0 <= i < |items| && items[i].enabled && items[i].media == m
        ensures m in EnabledIds(items)
      {
        var i :| 0 <= i < |items| && items[i].enabled && items[i].media == m;
        if i > 0 {
          assert rest[i - 1] == items[i];
        }
      }
    }
  }

  // ---- which playlists are queued ------------------------------------------------------

  /** The places of a playlist that are switched on. */
  function Places(items: seq<Item>): set<nat>
  {
    set i | 0 <= i < |items| && items[i].enabled
  }

  lemma {:induction false} LastEnabled(items: seq<Item>)
    requires items != []
    ensures var n := |items| - 1;
            EnabledIds(items) == EnabledIds(items[..n]) + if items[n].enabled then [items[n].media] else []
    decreases |items|
  {
    var n := |items| - 1;
    if n > 0 {
      LastEnabled(items[1..]);
      assert items[..n][0] == items[0] && items[..n][1..] == items[1..][..n - 1];
    }
  }

  lemma LastPlace(items: seq<Item>)
    requires items != []
    ensures var n := |items| - 1;
            Places(items) == Places(items[..n]) + (if items[n].enabled then {n} else {}) && n !in Places(items[..n])
  {
    var n := |items| - 1;
    forall i | 0 <= i < n ensures i in Places(items) <==> i in Places(items[..n]) {
      assert items[..n][i] == items[i];
    }
  }

  lemma {:induction false} OneEach(items: seq<Item>)
    ensures |EnabledIds(items)| == |Places(items)|
    decreases |items|
  {
    if items != [] {
      var n := |items| - 1;
      OneEach(items[..n]);
      LastEnabled(items);
      LastPlace(items);
      hide EnabledIds, Places;
    }
  }

  /** The broadcast would play this media: an item switched on, or its first video if there is none. */
  predicate Judges(items: seq<Item>, fallback: MediaId, m: MediaId)
  {
    || (exists i :: 0 <= i < |items| && items[i].enabled && items[i].media == m)
    || (Places(items) == {} && m == fallback)
  }

  /** Prepared by something other than the canonical conversion. */
  predicate IsNative(rows: Table, m: MediaId)
  {
    m in rows && rows[m].mode.Some? && rows[m].mode.value != "canonical"
  }

  /** The exact shape recorded for a media, if one was. */
  function RecordedShape(rows: Table, m: MediaId): Option<string>
  {
    if m in rows then rows[m].signature else None
  }

  /** Beside a native `n`, this one is of another kind: canonical, of another shape, or of none on record. */
  predicate Beside(rows: Table, n: MediaId, m: MediaId)
  {
    !IsNative(rows, m) || RecordedShape(rows, m) == None || RecordedShape(rows, m) != RecordedShape(rows, n)
  }

  /** More than one item is on, and one of the media is native and another of another kind. */
  ghost predicate Mixed(rows: Table, items: seq<Item>, fallback: MediaId)
  {
    && |Places(items)| >= 2
    && exists n, m :: Judges(items, fallback, n) && IsNative(rows, n) && Judges(items, fallback, m) && Beside(rows, n, m)
  }

  lemma JudgedAre(items: seq<Item>, fallback: MediaId)
    ensures forall m :: m in Judged(items, fallback) <==> Judges(items, fallback, m)
    ensures |Judged(items, fallback)| >= 2 <==> |Places(items)| >= 2
  {
    EnabledAre(items);
    OneEach(items);
    hide EnabledIds;
  }

  /** One shape beside which another cannot be joined. */
  predicate Clash(x: Shape, y: Shape)
  {
    x.mode != CANONICAL && (y.mode == CANONICAL || y.signature == None || y.signature != x.signature)
  }

  lemma ClashesExactly(shapes: seq<Shape>)
    ensures Joinable(shapes) <==> |shapes| < 2 || forall i, j :: 0 <= i < |shapes| && 0 <= j < |shapes| ==> !Clash(shapes[i], shapes[j])
  {
    if |shapes| >= 2 && (forall i, j :: 0 <= i < |shapes| && 0 <= j < |shapes| ==> !Clash(shapes[i], shapes[j]))
      && !AllCanonical(shapes) {
      var i :| 0 <= i < |shapes| && shapes[i].mode != CANONICAL;
      assert !Clash(shapes[i], shapes[0]) && !Clash(shapes[i], shapes[i]);
      forall j | 0 <= j < |shapes| ensures shapes[j].mode != CANONICAL && shapes[j].signature == shapes[0].signature {
        assert !Clash(shapes[i], shapes[j]);
      }
    }
  }

  lemma JoinableExactly(rows: Table, items: seq<Item>, fallback: MediaId)
    ensures Joinable(Shapes(rows, Judged(items, fallback))) <==> !Mixed(rows, items, fallback)
  {
    var ids := Judged(items, fallback);
    var shapes := Shapes(rows, ids);
    JudgedAre(items, fallback);
    ClashesExactly(shapes);
    hide Judges, Judged, Places, Joinable, Shapes;
    forall i, j | 0 <= i < |ids| && 0 <= j < |ids|
      ensures Clash(shapes[i], shapes[j]) <==> IsNative(rows, ids[i]) && Beside(rows, ids[i], ids[j])
    {
    }
    hide IsNative, Beside, ShapeOf, Clash;
    if Mixed(rows, items, fallback) {
      var n, m :| Judges(items, fallback, n) && IsNative(rows, n) && Judges(items, fallback, m) && Beside(rows, n, m);
      var i :| 0 <= i < |ids| && ids[i] == n;
      var j :| 0 <= j < |ids| && ids[j] == m;
      assert Clash(shapes[i], shapes[j]);
    } else if i, j :| 0 <= i < |ids| && 0 <= j < |ids| && Clash(shapes[i], shapes[j]) {
      assert ids[i] in ids && ids[j] in ids;
    }
  }

  /**
   The gate refuses a playlist, and an edit of it queues anything, exactly if it is
   mixed; and then what is queued are its native media, each as a row pinned to
   the canonical profile and closed until it is prepared.
   */
  lemma MixedPlaylistsExactly(rows: Table, items: seq<Item>, fallback: MediaId)
    ensures var queued := ToQueue(Shapes(rows, Judged(items, fallback)));
            && (Joinable(Shapes(rows, Judged(items, fallback))) <==> !Mixed(rows, items, fallback))
            && (queued != [] <==> Mixed(rows, items, fallback))
            && (forall m :: m in queued <==> Mixed(rows, items, fallback) && Judges(items, fallback, m) && IsNative(rows, m))
            && PinAll(rows, queued) == map m | m in rows ::
                 if m in queued then rows[m].(pinned := true, state := Preparing) else rows[m]
  {
    var ids := Judged(items, fallback);
    var shapes := Shapes(rows, ids);
    var queued := ToQueue(shapes);
    JoinableExactly(rows, items, fallback);
    JudgedAre(items, fallback);
    NonCanonicalExactly(shapes);
    PinAllPins(rows, queued);
    hide Judges, Judged, Places, NonCanonical, Joinable, PinAll;
    assert queued == if Mixed(rows, items, fallback) then NonCanonical(shapes) else [];
    forall i | 0 <= i < |ids| ensures shapes[i].media == ids[i] && (shapes[i].mode != CANONICAL <==> IsNative(rows, ids[i])) {
    }
    hide Shapes, IsNative, ShapeOf, ToQueue;
    forall m ensures m in NonCanonical(shapes) <==> m in ids && IsNative(rows, m) {
      if m in ids {
        var i :| 0 <= i < |ids| && ids[i] == m;
        assert shapes[i].media == m;
      }
    }
    if Mixed(rows, items, fallback) {
      var n, m :| Judges(items, fallback, n) && IsNative(rows, n) && Judges(items, fallback, m) && Beside(rows, n, m);
      assert n in queued;
    }
  }

  lemma {:induction false} PinAllPins(rows: Table, ids: seq<MediaId>)
    ensures var rows' := PinAll(rows, ids);
            && rows'.Keys == rows.Keys
            && forall m :: m in rows ==> rows'[m] == if m in ids then Pinned(rows[m]) else rows[m]
    decreases |ids|
  {
    if ids != [] {
      PinAllPins(PinOne(rows, ids[0]), ids[1..]);
      assert forall m :: m in ids <==> m == ids[0] || m in ids[1..];
    }
  }

  predicate IsReady(rows: Table, m: MediaId)
  {
    m in rows && rows[m].state == Ready && rows[m].prepared.Some?
  }

  /** Which playlists play: those whose every enabled item is ready. */
  lemma {:induction false} PlaysExactly(rows: Table, items: seq<Item>)
    ensures Expand(rows, items).Ok? <==> forall m :: m in EnabledIds(items) ==> IsReady(rows, m)
    decreases |items|
  {
    if items != [] {
      PlaysExactly(rows, items[1..]);
      if items[0].enabled {
        assert EnabledIds(items) == [items[0].media] + EnabledIds(items[1..]);
        assert items[0].media in EnabledIds(items);
        assert PreparedMediaFor(rows, items[0].media).Ok? <==> IsReady(rows, items[0].media);
        assert forall m :: m in EnabledIds(items) <==> m == items[0].media || m in EnabledIds(items[1..]);
      } else {
        assert EnabledIds(items) == EnabledIds(items[1..]);
      }
    }
  }

  /** What they play: the files of those items, all of them, each as often as it repeats, and nothing else. */
  lemma {:induction false} ExpandExactly(rows: Table, items: seq<Item>)
    requires Expand(rows, items).Ok?
    ensures var out := Expand(rows, items).value;
            && (forall j :: 0 <= j < |out| ==>
                 out[j].media in EnabledIds(items) && IsReady(rows, out[j].media)
                 && rows[out[j].media].prepared == Some(out[j].key))
            && (forall m :: m in EnabledIds(items) ==> exists j :: 0 <= j < |out| && out[j].media == m)
            && |out| == Plays(items)
    decreases |items|
  {
    if items != [] {
      ExpandExactly(rows, items[1..]);
      if items[0].enabled {
        var p := PreparedMediaFor(rows, items[0].media).value;
        var rest := Expand(rows, items[1..]).value;
        var out := Times(p, Repeats(items[0])) + rest;
        assert out[0].media == items[0].media;
        forall m | m in EnabledIds(items[1..]) ensures exists j :: 0 <= j < |out| && out[j].media == m {
          var j :| 0 <= j < |rest| && rest[j].media == m;
          assert out[Repeats(items[0]) + j] == rest[j];
        }
      }
    }
  }

  /** How many entries a playlist plays in one round. */
  function Plays(items: seq<Item>): nat
  {
    if items == [] then 0 else (if items[0].enabled then Max(1, items[0].repeatCount) else 0) + Plays(items[1..])
  }

  /** Why a media cannot be played, in the order the reasons are looked for. */
  predicate Blames(rows: Table, m: MediaId, e: PlayError)
  {
    && !IsReady(rows, m)
    && (e == UnknownMedia <==> m !in rows)
    && (e == NotReady <==> m in rows && rows[m].state != Ready)
    && (e == NoPreparedFile <==> m in rows && rows[m].state == Ready)
  }

  /** The first item in the way: every one before it that is switched on is ready, and it is blamed for what it lacks. */
  predicate StopsAt(rows: Table, items: seq<Item>, k: int, e: PlayError)
  {
    && 0 <= k < |items| && items[k].enabled && Blames(rows, items[k].media, e)
    && forall i :: 0 <= i < k && items[i].enabled ==> IsReady(rows, items[i].media)
  }

  lemma {:induction false} ExpandStops(rows: Table, items: seq<Item>)
    ensures Expand(rows, items).Err? ==> exists k :: StopsAt(rows, items, k, Expand(rows, items).error)
    decreases |items|
  {
    if items != [] && Expand(rows, items).Err? {
      var rest := items[1..];
      var e := Expand(rows, items).error;
      if items[0].enabled && !IsReady(rows, items[0].media) {
        assert StopsAt(rows, items, 0, e);
      } else {
        ExpandStops(rows, rest);
        var k :| StopsAt(rows, rest, k, e);
        assert forall i :: 0 < i <= k ==> items[i] == rest[i - 1];
        assert StopsAt(rows, items, k + 1, e);
      }
    }
  }

  /**
   What a broadcast plays, or why it does not: without a playlist its first video,
   once; with one the expanded list, unless nothing is switched on; and otherwise
   the reason is that of the first item that is not ready.
   */
  lemma PlaysOrSaysWhy(rows: Table, items: seq<Item>, fallback: MediaId)
    ensures var r := PreparedItems(rows, items, fallback);
            if items == [] then
              && (r.Ok? <==> IsReady(rows, fallback))
              && (r.Ok? ==> r == Ok([Prepared(fallback, rows[fallback].prepared.value)]))
              && (r.Err? ==> Blames(rows, fallback, r.error))
            else
              && (r.Ok? <==> Expand(rows, items).Ok? && Places(items) != {})
              && (r.Ok? ==> r == Expand(rows, items))
              && (r == Err(NothingEnabled) <==> Places(items) == {})
              && (r.Err? && Places(items) != {} ==> exists k :: StopsAt(rows, items, k, r.error))
  {
    if items != [] {
      ExpandStops(rows, items);
      EnabledAre(items);
      OneEach(items);
      PlaysExactly(rows, items);
      if Expand(rows, items).Ok? {
        ExpandExactly(rows, items);
        EmptyPlaysNothing(items);
      }
      hide Expand, EnabledIds;
      assert Places(items) == {} <==> EnabledIds(items) == [];
    }
  }

  lemma {:induction false} EmptyPlaysNothing(items: seq<Item>)
    ensures Plays(items) == 0 <==> EnabledIds(items) == []
    decreases |items|
  {
    if items != [] {
      EmptyPlaysNothing(items[1..]);
    }
  }

  /**
   In what order: the items before item `k` play first, then item `k`, once for
   every repeat. With the total this fixes the list at every place.
   */
  lemma {:induction false} PlaysInOrder(rows: Table, items: seq<Item>, k: nat, r: nat)
    requires Expand(rows, items).Ok? && k < |items| && items[k].enabled && r < Max(1, items[k].repeatCount)
    ensures IsReady(rows, items[k].media)
    ensures var (out, at) := (Expand(rows, items).value, Plays(items[..k]) + r);
            at < |out| && out[at] == Prepared(items[k].media, rows[items[k].media].prepared.value)
    decreases |items|
  {
    var rest := items[1..];
    ExpandSteps(rows, items);
    if k == 0 {
      assert Plays(items[..0]) == 0;
    } else {
      assert items[..k][0] == items[0] && items[..k][1..] == rest[..k - 1];
      PlaysInOrder(rows, rest, k - 1, r);
      hide Expand;
    }
  }

  /** The head of the list and the rest of it. */
  lemma ExpandSteps(rows: Table, items: seq<Item>)
    requires Expand(rows, items).Ok? && items != []
    ensures Expand(rows, items[1..]).Ok?
    ensures items[0].enabled ==>
              && IsReady(rows, items[0].media)
              && Expand(rows, items).value ==
                   Times(Prepared(items[0].media, rows[items[0].media].prepared.value), Max(1, items[0].repeatCount))
                     + Expand(rows, items[1..]).value
    ensures !items[0].enabled ==> Expand(rows, items) == Expand(rows, items[1..])
  {
  }

  /** Every ready row says what its file is. */
  ghost predicate RowsDescribe(rows: Table, disk: map<Key, File>)
  {
    forall m :: m in rows && rows[m].state == Ready ==>
      && rows[m].prepared.Some? && rows[m].prepared.value in disk
      && rows[m].Describes(disk[rows[m].prepared.value])
  }

  /**
   A playlist that passes both start gates, over rows that describe their files,
   plays files that can be joined: all made by the canonical conversion, or all
   of one identical shape.
   */
  lemma BothGatesMakeOneShape(rows: Table, items: seq<Item>, fallback: MediaId, disk: map<Key, File>)
    requires RowsDescribe(rows, disk)
    requires Joinable(Shapes(rows, Judged(items, fallback)))
    requires PreparedItems(rows, items, fallback).Ok?
    ensures var out := PreparedItems(rows, items, fallback).value;
            && out != []
            && (forall j :: 0 <= j < |out| ==> out[j].key in disk)
            && ((forall j :: 0 <= j < |out| ==> disk[out[j].key].canonical) ||
                (forall j :: 0 <= j < |out| ==> disk[out[j].key].signature == disk[out[0].key].signature))
  {
    var ids := Judged(items, fallback);
    var shapes := Shapes(rows, ids);
    var out := PreparedItems(rows, items, fallback).value;
    if items != [] {
      ExpandExactly(rows, items);
    }
    forall j | 0 <= j < |out|
      ensures IsReady(rows, out[j].media) && rows[out[j].media].prepared == Some(out[j].key)
      ensures exists i :: 0 <= i < |ids| && ids[i] == out[j].media
    {
    }
    if AllCanonical(shapes) {
      forall j | 0 <= j < |out| ensures disk[out[j].key].canonical {
        var i :| 0 <= i < |ids| && ids[i] == out[j].media;
        assert shapes[i].mode == CANONICAL;
      }
    } else {
      forall j | 0 <= j < |out| ensures disk[out[j].key].signature == disk[out[0].key].signature {
        var i :| 0 <= i < |ids| && ids[i] == out[j].media;
        var first :| 0 <= first < |ids| && ids[first] == out[0].media;
        assert |shapes| < 2 ==> i == first;
        assert shapes[i].media == out[j].media && shapes[first].media == out[0].media;
      }
    }
  }

  lemma ReadyItemPlays(rows: Table, m: MediaId, rest: seq<Item>)
    requires IsReady(rows, m) && Expand(rows, rest).Ok?
    ensures var items := [Item(m, true, 1)] + rest;
            && Expand(rows, items) == Ok([Prepared(m, rows[m].prepared.value)] + Expand(rows, rest).value)
            && EnabledIds(items) == [m] + EnabledIds(rest)
  {
    var items := [Item(m, true, 1)] + rest;
    assert items[0] == Item(m, true, 1) && items[1..] == rest;
    var p := Prepared(m, rows[m].prepared.value);
    assert Times(p, 1) == [p];
  }

  /**
   Without that they need not be: a ready row that reads as canonical over a file
   that is not passes both gates beside any canonical one.
   */
  lemma MisdescribedPassesBothGates(rows: Table, disk: map<Key, File>, wrong: MediaId, right: MediaId)
    requires IsReady(rows, wrong) && IsReady(rows, right)
    requires rows[wrong].ModeRead() == CANONICAL && rows[right].ModeRead() == CANONICAL
    requires rows[wrong].prepared.value in disk && rows[right].prepared.value in disk
    requires !disk[rows[wrong].prepared.value].canonical && disk[rows[right].prepared.value].canonical
    ensures var items := [Item(wrong, true, 1), Item(right, true, 1)];
            var made := PreparedItems(rows, items, wrong);
            && Joinable(Shapes(rows, Judged(items, wrong)))
            && made == Ok([Prepared(wrong, rows[wrong].prepared.value), Prepared(right, rows[right].prepared.value)])
            && exists j :: 0 <= j < |made.value| && !disk[made.value[j].key].canonical
  {
    var items := [Item(wrong, true, 1), Item(right, true, 1)];
    assert Expand(rows, []) == Ok([]) && EnabledIds([]) == [];
    hide Expand, EnabledIds;
    var (p, q) := (Prepared(wrong, rows[wrong].prepared.value), Prepared(right, rows[right].prepared.value));
    ReadyItemPlays(rows, right, []);
    ReadyItemPlays(rows, wrong, [Item(right, true, 1)]);
    assert items == [Item(wrong, true, 1)] + [Item(right, true, 1)] && [Item(right, true, 1)] + [] == [Item(right, true, 1)];
    assert [right] + [] == [right] && [wrong] + [right] == [wrong, right] && EnabledIds(items) == [wrong, right];
    assert [q] + [] == [q] && [p] + [q] == [p, q] && Expand(rows, items) == Ok([p, q]);
    assert [p, q][0].key == p.key;
  }
}
