/** Galileo shapes and groups.

    A shape owns a growable vertex buffer (`array` with a count), a
    primitive type and an optional texture; a group owns a list of shapes,
    holding one reference per entry. Both are refcounted. Texture images are
    opaque handles here: taking and dropping a reference on one is recorded
    in a `TextureLedger`. Coordinates are reals; the floating-point details
    of the source are not modelled. */
module Galileo {
  import opened Common

  // ---------------------------------------------------------------------
  // Vertices, shape types and primitive modes
  // ---------------------------------------------------------------------

  datatype Vertex = Vertex(x: real, y: real, u: real, v: real, color: Color)

  /** A texture coordinate pair. */
  datatype Uv = Uv(u: real, v: real)

  const SHAPE_AUTO: int := 0
  const SHAPE_POINT_LIST: int := 1
  const SHAPE_LINE_LIST: int := 2
  const SHAPE_TRIANGLE_LIST: int := 3
  const SHAPE_TRIANGLE_STRIP: int := 4
  const SHAPE_TRIANGLE_FAN: int := 5
  const SHAPE_MAX: int := 6

  /** The Allegro primitive types `draw_shape` chooses from. */
  datatype PrimMode = PointList | LineList | TriangleList | TriangleStrip | TriangleFan

  /** The primitive mode `draw_shape` uses for a shape of this type with
      `n` vertices. */
  function DrawMode(shapeType: int, n: int): PrimMode {
    if shapeType == SHAPE_AUTO then
      if n == 1 then PointList
      else if n == 2 then LineList
      else if n == 4 then TriangleFan
      else TriangleStrip
    else if shapeType == SHAPE_LINE_LIST then LineList
    else if shapeType == SHAPE_TRIANGLE_LIST then TriangleList
    else if shapeType == SHAPE_TRIANGLE_STRIP then TriangleStrip
    else if shapeType == SHAPE_TRIANGLE_FAN then TriangleFan
    else PointList
  }

  /** An explicit type fixes the mode whatever the vertex count, and the five
      explicit types select five different modes. */
  lemma ExplicitTypesSelectDistinctModes(t1: int, t2: int, n1: int, n2: int)
    requires SHAPE_POINT_LIST <= t1 < SHAPE_MAX && SHAPE_POINT_LIST <= t2 < SHAPE_MAX
    ensures DrawMode(t1, n1) == DrawMode(t1, n2)
    ensures DrawMode(t1, n1) == DrawMode(t2, n2) ==> t1 == t2
  {
  }

  /** A type outside the table draws like `SHAPE_POINT_LIST`. */
  lemma UnknownTypeDrawsPoints(t: int, n: int)
    requires t < SHAPE_AUTO || t >= SHAPE_MAX
    ensures DrawMode(t, n) == DrawMode(SHAPE_POINT_LIST, n) == PointList
  {
  }

  /** `SHAPE_AUTO` picks by count and never picks a triangle list; a quad is
      a fan and any other count of three or more a strip. */
  lemma AutoModeByCount(n: int)
    ensures DrawMode(SHAPE_AUTO, n) != TriangleList
    ensures DrawMode(SHAPE_AUTO, n) == PointList <==> n == 1
    ensures DrawMode(SHAPE_AUTO, n) == LineList <==> n == 2
    ensures DrawMode(SHAPE_AUTO, n) == TriangleFan <==> n == 4
  {
  }

  // ---------------------------------------------------------------------
  // Bounds
  // ---------------------------------------------------------------------

  datatype Rect = Rect(x1: real, y1: real, x2: real, y2: real)

  function MinReal(a: real, b: real): real {
    if a <= b then a else b
  }

  function MaxReal(a: real, b: real): real {
    if a >= b then a else b
  }

  /** One step of the loop in `get_shape_bounds`. */
  function Extend(r: Rect, v: Vertex): Rect {
    Rect(MinReal(v.x, r.x1), MinReal(v.y, r.y1), MaxReal(v.x, r.x2), MaxReal(v.y, r.y2))
  }

  function FoldBounds(r: Rect, vs: seq<Vertex>): Rect
    decreases |vs|
  {
    if vs == [] then r else Extend(FoldBounds(r, vs[..|vs| - 1]), vs[|vs| - 1])
  }

  /** `get_shape_bounds` on a vertex list: the zero rectangle when empty,
      otherwise the fold from the first vertex. */
  function BoundsOf(vs: seq<Vertex>): Rect {
    if vs == [] then Rect(0.0, 0.0, 0.0, 0.0)
    else FoldBounds(Rect(vs[0].x, vs[0].y, vs[0].x, vs[0].y), vs[1..])
  }

  function Contains(r: Rect, v: Vertex): bool {
    r.x1 <= v.x <= r.x2 && r.y1 <= v.y <= r.y2
  }

  lemma {:induction false} FoldBoundsContains(r: Rect, vs: seq<Vertex>)
    ensures var b := FoldBounds(r, vs);
      b.x1 <= r.x1 && b.y1 <= r.y1 && r.x2 <= b.x2 && r.y2 <= b.y2 &&
      forall i :: 0 <= i < |vs| ==> Contains(b, vs[i])
    decreases |vs|
  {
    if vs != [] {
      var init := vs[..|vs| - 1];
      FoldBoundsContains(r, init);
      assert forall i :: 0 <= i < |init| ==> vs[i] == init[i];
    }
  }

  /** Every bound of the folded rectangle is the starting bound or a
      coordinate of some vertex. */
  lemma {:induction false} FoldBoundsAttained(r: Rect, vs: seq<Vertex>)
    ensures var b := FoldBounds(r, vs);
      (b.x1 == r.x1 || exists i :: 0 <= i < |vs| && vs[i].x == b.x1) &&
      (b.y1 == r.y1 || exists i :: 0 <= i < |vs| && vs[i].y == b.y1) &&
      (b.x2 == r.x2 || exists i :: 0 <= i < |vs| && vs[i].x == b.x2) &&
      (b.y2 == r.y2 || exists i :: 0 <= i < |vs| && vs[i].y == b.y2)
    decreases |vs|
  {
    if vs != [] {
      var init := vs[..|vs| - 1];
      FoldBoundsAttained(r, init);
      assert forall i :: 0 <= i < |init| ==> vs[i] == init[i];
    }
  }

  /** The bounds of a non-empty shape contain every vertex, and each of the
      four bounds is a coordinate of some vertex. */
  lemma BoundsAreTight(vs: seq<Vertex>)
    requires vs != []
    ensures forall i :: 0 <= i < |vs| ==> Contains(BoundsOf(vs), vs[i])
    ensures exists i :: 0 <= i < |vs| && vs[i].x == BoundsOf(vs).x1
    ensures exists i :: 0 <= i < |vs| && vs[i].y == BoundsOf(vs).y1
    ensures exists i :: 0 <= i < |vs| && vs[i].x == BoundsOf(vs).x2
    ensures exists i :: 0 <= i < |vs| && vs[i].y == BoundsOf(vs).y2
  {
    var r := Rect(vs[0].x, vs[0].y, vs[0].x, vs[0].y);
    var rest := vs[1..];
    FoldBoundsContains(r, rest);
    FoldBoundsAttained(r, rest);
    assert forall i :: 0 <= i < |rest| ==> rest[i] == vs[i + 1];
    assert Contains(BoundsOf(vs), vs[0]);
  }

  // ---------------------------------------------------------------------
  // Texture references
  // ---------------------------------------------------------------------

  /** An opaque texture image. */
  datatype TextureId = TextureId(id: nat)

  datatype TextureEvent = Referenced(t: TextureId) | Released(t: TextureId)

  /** `ref_image` / `free_image` of an optional texture: NULL does nothing. */
  function RefEvents(t: Option<TextureId>): seq<TextureEvent> {
    if t.Some? then [Referenced(t.value)] else []
  }

  function ReleaseEvents(t: Option<TextureId>): seq<TextureEvent> {
    if t.Some? then [Released(t.value)] else []
  }

  /** The reference operations performed on texture images, in order. */
  class TextureLedger {
    var events: seq<TextureEvent>

    constructor ()
      ensures events == []
    {
      events := [];
    }

    method Record(es: seq<TextureEvent>)
      modifies this`events
      ensures events == old(events) + es
    {
      events := events + es;
    }
  }

  // ---------------------------------------------------------------------
  // Shapes
  // ---------------------------------------------------------------------

  class Shape {
    var refcount: int
    var live: bool
    var texture: Option<TextureId>
    const shapeType: int
    /** The vertex buffer; its length is `max_vertices`. */
    var buffer: array<Vertex>
    var numVertices: int

    ghost predicate Valid()
      reads this
    {
      0 <= numVertices <= buffer.Length
    }

    function Vertices(): seq<Vertex>
      requires Valid()
      reads this, buffer
    {
      buffer[..numVertices]
    }

    /** The record of `new_shape`: one reference, no vertices. */
    constructor (t: int, tex: Option<TextureId>)
      ensures Valid() && Vertices() == [] && buffer.Length == 0 && fresh(buffer)
      ensures refcount == 1 && live && texture == tex && shapeType == t
    {
      refcount := 1;
      live := true;
      texture := tex;
      shapeType := t;
      buffer := new Vertex[0];
      numVertices := 0;
    }

    /** `ref_shape`. */
    method Ref()
      modifies this`refcount
      ensures refcount == old(refcount) + 1
    {
      refcount := refcount + 1;
    }

    /** `add_shape_vertex`. A full buffer grows to `(n + 1) * 2` slots
        first; when that allocation fails nothing changes. */
    method AddVertex(v: Vertex, allocOk: bool) returns (ok: bool)
      requires Valid()
      modifies this`buffer, this`numVertices, buffer
      ensures Valid()
      ensures ok == (old(numVertices) + 1 <= old(buffer.Length) || allocOk)
      ensures ok ==> Vertices() == old(Vertices()) + [v]
      ensures !ok ==> Vertices() == old(Vertices()) && buffer == old(buffer)
      ensures buffer == old(buffer) || fresh(buffer)
      ensures buffer.Length == if old(numVertices) + 1 > old(buffer.Length) && ok
        then (old(numVertices) + 1) * 2 else old(buffer.Length)
    {
      if numVertices + 1 > buffer.Length {
        if !allocOk {
          return false;
        }
        var newMax := (numVertices + 1) * 2;
        var old_buffer := buffer;
        var newBuffer := new Vertex[newMax](i requires 0 <= i < newMax reads old_buffer => if i < old_buffer.Length then old_buffer[i] else v);
        buffer := newBuffer;
      }
      numVertices := numVertices + 1;
      buffer[numVertices - 1] := v;
      ok := true;
      assert buffer[..numVertices] == old(buffer[..numVertices]) + [v];
    }

    /** `remove_shape_vertex`: the vertex at `index` goes and the later ones
        shift down, in order. The source does not check the index: one at or
        past the count still drops the count, so the last vertex goes. */
    method RemoveVertex(index: int)
      requires Valid() && 0 <= index && numVertices > 0
      modifies this`numVertices, buffer
      ensures Valid()
      ensures index < old(numVertices) ==>
        Vertices() == old(Vertices())[..index] + old(Vertices())[index + 1..]
      ensures index >= old(numVertices) ==>
        Vertices() == old(Vertices())[..old(numVertices) - 1]
      ensures buffer.Length == old(buffer.Length)
    {
      ghost var vs := Vertices();
      numVertices := numVertices - 1;
      var i := index;
      while i < numVertices
        invariant index <= i && (i <= numVertices || i == index)
        invariant numVertices == |vs| - 1 && Valid()
        invariant forall j :: 0 <= j < index && j < |vs| ==> buffer[j] == vs[j]
        invariant forall j :: index <= j < i ==> buffer[j] == vs[j + 1]
        invariant forall j :: i < j < |vs| ==> buffer[j] == vs[j]
      {
        buffer[i] := buffer[i + 1];
        i := i + 1;
      }
      if index < |vs| {
        assert Vertices() == vs[..index] + vs[index + 1..];
      } else {
        assert Vertices() == vs[..|vs| - 1];
      }
    }

    /** `get_shape_vertex` (the index is unchecked in the source). */
    method GetVertex(index: int) returns (v: Vertex)
      requires Valid() && 0 <= index < numVertices
      ensures v == Vertices()[index]
    {
      v := buffer[index];
    }

    /** `set_shape_vertex`. The source does not check the index; one past
        the count but inside the buffer writes spare capacity and changes no
        vertex of the shape. */
    method SetVertex(index: int, v: Vertex)
      requires Valid() && 0 <= index < buffer.Length
      modifies buffer
      ensures Valid() && buffer[index] == v
      ensures index < numVertices ==> Vertices() == old(Vertices())[index := v]
      ensures index >= numVertices ==> Vertices() == old(Vertices())
    {
      buffer[index] := v;
      if index < numVertices {
        assert buffer[..numVertices] == old(buffer[..numVertices])[index := v];
      } else {
        assert buffer[..numVertices] == old(buffer[..numVertices]);
      }
    }

    /** `assign_default_uv`: every vertex gets the texture coordinates of
        the default mapping, which is an input here. */
    method AssignDefaultUv(uvs: seq<Uv>)
      requires Valid() && |uvs| == numVertices
      modifies buffer
      ensures Valid() && |Vertices()| == |old(Vertices())|
      ensures forall i :: 0 <= i < numVertices ==>
        Vertices()[i] == old(Vertices())[i].(u := uvs[i].u, v := uvs[i].v)
    {
      var i := 0;
      while i < numVertices
        invariant 0 <= i <= numVertices
        invariant forall j :: 0 <= j < i ==> buffer[j] == old(buffer[j]).(u := uvs[j].u, v := uvs[j].v)
        invariant forall j :: i <= j < buffer.Length ==> buffer[j] == old(buffer[j])
      {
        buffer[i] := buffer[i].(u := uvs[i].u, v := uvs[i].v);
        i := i + 1;
      }
    }

    /** `get_shape_bounds`. */
    method GetBounds() returns (r: Rect)
      requires Valid()
      ensures r == BoundsOf(Vertices())
    {
      if numVertices < 1 {
        return Rect(0.0, 0.0, 0.0, 0.0);
      }
      ghost var vs := Vertices();
      r := Rect(buffer[0].x, buffer[0].y, buffer[0].x, buffer[0].y);
      var i := 1;
      while i < numVertices
        invariant 1 <= i <= numVertices
        invariant r == FoldBounds(Rect(vs[0].x, vs[0].y, vs[0].x, vs[0].y), vs[1..i])
      {
        assert vs[1..i + 1][..i - 1] == vs[1..i];
        r := Rect(MinReal(buffer[i].x, r.x1), MinReal(buffer[i].y, r.y1),
                  MaxReal(buffer[i].x, r.x2), MaxReal(buffer[i].y, r.y2));
        i := i + 1;
      }
      assert vs[1..numVertices] == vs[1..];
    }

    /** The primitive mode the shape is drawn with. */
    function Mode(): (m: PrimMode)
      requires Valid()
      reads this
      ensures m == DrawMode(shapeType, |Vertices()|)
    {
      DrawMode(shapeType, numVertices)
    }

    /** `set_shape_texture`: the new texture is referenced before the old
        one is released, so setting the same texture again is harmless. */
    method SetTexture(tex: Option<TextureId>, ledger: TextureLedger)
      modifies this`texture, ledger`events
      ensures texture == tex
      ensures ledger.events == old(ledger.events) + RefEvents(tex) + ReleaseEvents(old(texture))
    {
      var oldTexture := texture;
      texture := tex;
      ledger.Record(RefEvents(tex));
      ledger.Record(ReleaseEvents(oldTexture));
    }
  }

  /** `new_shape`: takes a reference on the texture; on a failed allocation
      there is no shape and no reference. */
  method NewShape(t: int, tex: Option<TextureId>, allocOk: bool, ledger: TextureLedger) returns (s: Shape?)
    modifies ledger`events
    ensures (s != null) == allocOk
    ensures s != null ==>
      fresh(s) && fresh(s.buffer) && s.Valid() && s.Vertices() == [] && s.buffer.Length == 0 &&
      s.refcount == 1 && s.live && s.texture == tex && s.shapeType == t
    ensures ledger.events == old(ledger.events) + (if allocOk then RefEvents(tex) else [])
  {
    if !allocOk {
      return null;
    }
    ledger.Record(RefEvents(tex));
    s := new Shape(t, tex);
  }

  /** `free_shape`: drops one reference; at zero the shape is destroyed and
      its texture released. NULL does nothing. */
  method FreeShape(s: Shape?, ledger: TextureLedger)
    modifies if s == null then {} else {s}, ledger`events
    ensures s != null ==> s.refcount == old(s.refcount) - 1
    ensures s != null ==> s.live == (old(s.live) && s.refcount > 0)
    ensures s != null ==> s.texture == old(s.texture) && s.buffer == old(s.buffer) && s.numVertices == old(s.numVertices)
    ensures ledger.events == old(ledger.events) +
      (if s != null && s.refcount <= 0 then ReleaseEvents(s.texture) else [])
  {
    if s == null {
      return;
    }
    s.refcount := s.refcount - 1;
    if s.refcount > 0 {
      return;
    }
    ledger.Record(ReleaseEvents(s.texture));
    s.live := false;
  }

  // ---------------------------------------------------------------------
  // Releasing a list of shapes
  // ---------------------------------------------------------------------

  /** The number of entries of `list` that are `s`. */
  function Count(list: seq<Shape>, s: Shape): nat {
    multiset(list)[s]
  }

  /** The texture releases caused by dropping one reference per entry of
      `list`, given each shape's refcount `rc` and texture `tx` before: a
      shape is destroyed at the entry where its refcount reaches zero. */
  function ListReleases(list: seq<Shape>, rc: map<Shape, int>, tx: map<Shape, Option<TextureId>>): seq<TextureEvent>
    requires forall s :: s in list ==> s in rc && s in tx
    decreases |list|
  {
    if list == [] then []
    else
      var init := list[..|list| - 1];
      var last := list[|list| - 1];
      assert forall s :: s in init ==> s in list;
      ListReleases(init, rc, tx) + (if rc[last] - Count(list, last) <= 0 then ReleaseEvents(tx[last]) else [])
  }

  lemma CountSnoc(list: seq<Shape>, s: Shape, t: Shape)
    ensures Count(list + [s], t) == Count(list, t) + (if s == t then 1 else 0)
  {
    assert multiset(list + [s]) == multiset(list) + multiset{s};
  }

  /** Only the texture of a shape whose every reference was held by the list
      is released; in particular a list of shapes that are all referenced
      elsewhere too releases nothing. */
  lemma {:induction false} ListReleasesOnlyUnshared(list: seq<Shape>, rc: map<Shape, int>, tx: map<Shape, Option<TextureId>>)
    requires forall s :: s in list ==> s in rc && s in tx
    ensures forall e :: e in ListReleases(list, rc, tx) ==>
      exists s :: s in list && rc[s] <= Count(list, s) && tx[s] == Some(e.t) && e.Released?
    ensures (forall s :: s in list ==> rc[s] > Count(list, s)) ==> ListReleases(list, rc, tx) == []
    decreases |list|
  {
    if list != [] {
      var init := list[..|list| - 1];
      var last := list[|list| - 1];
      assert list == init + [last];
      assert forall s :: s in init ==> s in list;
      ListReleasesOnlyUnshared(init, rc, tx);
      forall s | s in init
        ensures Count(init, s) <= Count(list, s)
      {
        CountSnoc(init, last, s);
      }
    }
  }

  /** The loop shared by `clear_group` and `free_group`: one `free_shape`
      per entry, in order. */
  method ReleaseShapes(list: seq<Shape>, ledger: TextureLedger)
    modifies (set s: Shape | s in list), ledger`events
    ensures forall s :: s in list ==> s.refcount == old(s.refcount) - Count(list, s)
    ensures forall s :: s in list ==> s.live == (old(s.live) && s.refcount > 0)
    ensures forall s :: s in list ==> s.texture == old(s.texture)
    ensures ledger.events == old(ledger.events) +
      ListReleases(list, map s | s in list :: old(s.refcount), map s | s in list :: old(s.texture))
  {
    ghost var rc := map s | s in list :: s.refcount;
    ghost var tx := map s | s in list :: s.texture;
    ghost var lv := map s | s in list :: s.live;
    var i := 0;
    assert list[..0] == [];
    while i < |list|
      invariant 0 <= i <= |list|
      invariant ReleasedPrefix(list, i, rc, tx, lv)
      invariant ledger.events == old(ledger.events) + ListReleases(list[..i], rc, tx)
    {
      ReleaseStep(list, i, ledger, old(ledger.events), rc, tx, lv);
      i := i + 1;
    }
    assert list[..|list|] == list;
  }

  /** After the first `k` entries of `list` are released, each shape of the
      list has lost one reference per entry so far, is dead exactly if it
      was dead or has been released down to zero, and has kept its texture;
      `rc`, `tx` and `lv` hold the values from before. */
  ghost predicate ReleasedPrefix(list: seq<Shape>, k: nat, rc: map<Shape, int>,
                                 tx: map<Shape, Option<TextureId>>, lv: map<Shape, bool>)
    requires k <= |list|
    reads set s: Shape | s in list
  {
    forall s :: s in list ==>
      s in rc && s in tx && s in lv &&
      s.refcount == rc[s] - Count(list[..k], s) &&
      s.live == (lv[s] && (Count(list[..k], s) == 0 || s.refcount > 0)) &&
      s.texture == tx[s]
  }

  /** One iteration of `ReleaseShapes`. */
  method ReleaseStep(list: seq<Shape>, i: int, ledger: TextureLedger, ghost base: seq<TextureEvent>,
                     ghost rc: map<Shape, int>, ghost tx: map<Shape, Option<TextureId>>, ghost lv: map<Shape, bool>)
    requires 0 <= i < |list|
    requires ReleasedPrefix(list, i, rc, tx, lv)
    requires ledger.events == base + ListReleases(list[..i], rc, tx)
    modifies list[i], ledger`events
    ensures ReleasedPrefix(list, i + 1, rc, tx, lv)
    ensures ledger.events == base + ListReleases(list[..i + 1], rc, tx)
  {
    var s := list[i];
    ListReleasesSnoc(list, i, rc, tx);
    CountPrefixSnoc(list, i);
    FreeShape(s, ledger);
  }

  lemma CountPrefixSnoc(list: seq<Shape>, i: int)
    requires 0 <= i < |list|
    ensures forall t :: Count(list[..i + 1], t) == Count(list[..i], t) + (if list[i] == t then 1 else 0)
  {
    forall t
      ensures Count(list[..i + 1], t) == Count(list[..i], t) + (if list[i] == t then 1 else 0)
    {
      assert list[..i + 1] == list[..i] + [list[i]];
      CountSnoc(list[..i], list[i], t);
    }
  }

  lemma ListReleasesSnoc(list: seq<Shape>, i: int, rc: map<Shape, int>, tx: map<Shape, Option<TextureId>>)
    requires 0 <= i < |list|
    requires forall s :: s in list ==> s in rc && s in tx
    ensures forall s :: s in list[..i + 1] ==> s in list
    ensures ListReleases(list[..i + 1], rc, tx) == ListReleases(list[..i], rc, tx) +
      (if rc[list[i]] - Count(list[..i + 1], list[i]) <= 0 then ReleaseEvents(tx[list[i]]) else [])
  {
    assert list[..i + 1][..i] == list[..i];
  }

  // ---------------------------------------------------------------------
  // Groups
  // ---------------------------------------------------------------------

  class Group {
    var refcount: int
    var live: bool
    var shapes: seq<Shape>

    /** The record of `new_group`: one reference, no shapes. */
    constructor ()
      ensures refcount == 1 && live && shapes == []
    {
      refcount := 1;
      live := true;
      shapes := [];
    }

    /** `ref_group`. */
    method Ref()
      modifies this`refcount
      ensures refcount == old(refcount) + 1
    {
      refcount := refcount + 1;
    }

    /** `get_group_shape` (the index is unchecked in the source). */
    method GetShape(index: int) returns (s: Shape)
      requires 0 <= index < |shapes|
      ensures s == shapes[index]
    {
      s := shapes[index];
    }

    /** `add_group_shape`: appends and takes one reference; it always
        reports success. */
    method AddShape(s: Shape) returns (ok: bool)
      modifies this`shapes, s`refcount
      ensures ok && shapes == old(shapes) + [s] && s.refcount == old(s.refcount) + 1
    {
      s.Ref();
      shapes := shapes + [s];
      ok := true;
    }

    /** `set_group_shape`: the new shape is referenced before the old one is
        released, so storing the shape already there keeps it alive. */
    method SetShape(index: int, s: Shape, ledger: TextureLedger)
      requires 0 <= index < |shapes| && shapes[index].refcount >= 1 && shapes[index].live
      modifies this`shapes, s, shapes[index], ledger`events
      ensures shapes == old(shapes)[index := s]
      ensures var o := old(shapes[index]);
        if o == s then s.refcount == old(s.refcount) && s.live == old(s.live)
        else s.refcount == old(s.refcount) + 1 && o.refcount == old(o.refcount) - 1 &&
             o.live == (old(o.live) && o.refcount > 0)
      ensures var o := old(shapes[index]);
        ledger.events == old(ledger.events) + (if o.refcount <= 0 then ReleaseEvents(o.texture) else [])
    {
      s.Ref();
      var o := shapes[index];
      shapes := shapes[index := s];
      FreeShape(o, ledger);
    }

    /** `remove_group_shape`: the entry goes but its reference is kept. */
    method RemoveShape(index: int)
      requires 0 <= index < |shapes|
      modifies this`shapes
      ensures shapes == old(shapes)[..index] + old(shapes)[index + 1..]
    {
      shapes := shapes[..index] + shapes[index + 1..];
    }

    /** `clear_group`: releases one reference per entry, then empties the
        list. */
    method Clear(ledger: TextureLedger)
      modifies this`shapes, (set s: Shape | s in shapes), ledger`events
      ensures shapes == []
      ensures forall s :: s in old(shapes) ==> s.refcount == old(s.refcount) - Count(old(shapes), s)
      ensures forall s :: s in old(shapes) ==> s.live == (old(s.live) && s.refcount > 0)
      ensures ledger.events == old(ledger.events) + ListReleases(old(shapes), map s | s in old(shapes) :: old(s.refcount), map s | s in old(shapes) :: old(s.texture))
    {
      ReleaseShapes(shapes, ledger);
      shapes := [];
    }
  }

  /** `new_group`, or null when the allocation fails. */
  method NewGroup(allocOk: bool) returns (g: Group?)
    ensures (g != null) == allocOk
    ensures g != null ==> fresh(g) && g.refcount == 1 && g.live && g.shapes == []
  {
    if !allocOk {
      return null;
    }
    g := new Group();
  }

  /** `free_group`: drops one reference; at zero every entry's reference is
      released and the group is destroyed. */
  method FreeGroup(g: Group?, ledger: TextureLedger)
    modifies if g == null then {} else {g}, if g == null then {} else (set s: Shape | s in g.shapes), ledger`events
    ensures g != null ==> g.refcount == old(g.refcount) - 1 && g.live == (old(g.live) && g.refcount > 0)
    ensures g != null ==> g.shapes == old(g.shapes)
    ensures g != null ==> forall s :: s in g.shapes ==>
      s.refcount == old(s.refcount) - (if g.refcount > 0 then 0 else Count(g.shapes, s))
    ensures g != null ==> forall s :: s in g.shapes ==>
      s.live == (old(s.live) && (g.refcount > 0 || s.refcount > 0))
    ensures ledger.events == old(ledger.events) +
      if g != null && g.refcount <= 0
      then ListReleases(g.shapes, map s | s in g.shapes :: old(s.refcount), map s | s in g.shapes :: old(s.texture))
      else []
  {
    if g == null {
      return;
    }
    g.refcount := g.refcount - 1;
    if g.refcount > 0 {
      return;
    }
    var list := g.shapes;
    ghost var rc := map s | s in list :: s.refcount;
    ghost var tx := map s | s in list :: s.texture;
    assert rc == map s | s in g.shapes :: old(s.refcount);
    assert tx == map s | s in g.shapes :: old(s.texture);
    ReleaseShapes(list, ledger);
    g.live := false;
  }

  // ---------------------------------------------------------------------
  // The Shape and Group constructors of the script API
  // ---------------------------------------------------------------------

  /** One element of the vertex array given to `new Shape`. */
  datatype VertexArg = VertexArg(x: Option<real>, y: Option<real>, u: Option<real>, v: Option<real>, color: Option<Color>)

  function OrZero(r: Option<real>): real {
    if r.Some? then r.value else 0.0
  }

  /** The vertex `new Shape` builds: missing x and y are 0 and a missing
      colour is opaque white. A missing u or v is replaced afterwards by the
      default texture mapping. */
  function VertexOf(a: VertexArg): (v: Vertex)
    ensures a.x.None? ==> v.x == 0.0
    ensures a.y.None? ==> v.y == 0.0
    ensures a.x.Some? ==> v.x == a.x.value
    ensures a.y.Some? ==> v.y == a.y.value
    ensures v.color == if a.color.Some? then a.color.value else OPAQUE_WHITE
  {
    Vertex(OrZero(a.x), OrZero(a.y), OrZero(a.u), OrZero(a.v),
           if a.color.Some? then a.color.value else OPAQUE_WHITE)
  }

  /** Whether `new Shape` falls back to the default texture mapping: some
      vertex lacks u or v. */
  predicate MissingUv(args: seq<VertexArg>) {
    exists i :: 0 <= i < |args| && (args[i].u.None? || args[i].v.None?)
  }

  /** The vertices of a shape built by `new Shape`: those of `VertexOf`,
      with every vertex's u and v taken from the default mapping `uvs`
      when any vertex lacked one. */
  function ShapeVertices(args: seq<VertexArg>, uvs: seq<Uv>): seq<Vertex>
    requires |uvs| == |args|
  {
    if MissingUv(args)
    then seq(|args|, i requires 0 <= i < |args| => VertexOf(args[i]).(u := uvs[i].u, v := uvs[i].v))
    else seq(|args|, i requires 0 <= i < |args| => VertexOf(args[i]))
  }

  /** Positions and colours never depend on the texture mapping, and the
      given u and v are kept exactly when every vertex has both. */
  lemma ShapeVerticesKeepGiven(args: seq<VertexArg>, uvs: seq<Uv>)
    requires |uvs| == |args|
    ensures |ShapeVertices(args, uvs)| == |args|
    ensures forall i :: 0 <= i < |args| ==>
      var w := ShapeVertices(args, uvs)[i];
      w.x == VertexOf(args[i]).x && w.y == VertexOf(args[i]).y && w.color == VertexOf(args[i]).color
    ensures !MissingUv(args) ==> forall i :: 0 <= i < |args| ==>
      ShapeVertices(args, uvs)[i].u == args[i].u.value && ShapeVertices(args, uvs)[i].v == args[i].v.value
    ensures MissingUv(args) ==> forall i :: 0 <= i < |args| ==>
      ShapeVertices(args, uvs)[i].u == uvs[i].u && ShapeVertices(args, uvs)[i].v == uvs[i].v
  {
  }

  /** The buffer length of a new shape after `n` appends: `add_shape_vertex`
      grows a full buffer to twice the new count. */
  function Capacity(n: nat): nat {
    if n == 0 then 0
    else
      var c := Capacity(n - 1);
      if n > c then n * 2 else c
  }

  /** The buffer always has room for the vertices it holds and is never
      more than twice as long as needed. */
  lemma {:induction false} CapacityBounds(n: nat)
    ensures n <= Capacity(n) <= 2 * n
  {
    if n > 0 {
      CapacityBounds(n - 1);
    }
  }

  /** Whether append number `i` (from 0) to a new shape fits without
      allocating. */
  predicate AppendFits(i: nat) {
    i + 1 <= Capacity(i)
  }

  /** Every append of a new shape succeeds: it fits, or its allocation
      (`grows[i]`) succeeds. */
  predicate AppendsSucceed(grows: seq<bool>) {
    forall i :: 0 <= i < |grows| ==> AppendFits(i) || grows[i]
  }

  /** `new Shape(vertices, image[, type])`. The type defaults to
      `SHAPE_AUTO` and must lie in [0, SHAPE_MAX); `shapeOk` and `grows`
      are the results of the shape allocation and of each vertex append's
      allocation; `uvs` is the default texture mapping `assign_default_uv`
      computes. A failed append raises an Error and leaves the shape, with
      its texture reference, behind. */
  method JsNewShape(args: seq<VertexArg>, tex: Option<TextureId>, typeArg: Option<int>,
                    shapeOk: bool, grows: seq<bool>, uvs: seq<Uv>, ledger: TextureLedger)
    returns (r: Result<Shape>)
    requires |grows| == |args| && |uvs| == |args|
    modifies ledger`events
    ensures var t := if typeArg.Some? then typeArg.value else SHAPE_AUTO;
      (t < 0 || t >= SHAPE_MAX ==> r == Err(RangeError) && ledger.events == old(ledger.events)) &&
      (0 <= t < SHAPE_MAX && !shapeOk ==> r == Err(Error) && ledger.events == old(ledger.events)) &&
      (0 <= t < SHAPE_MAX && shapeOk ==>
        (r.Ok? <==> AppendsSucceed(grows)) && (r.Err? ==> r.error == Error) &&
        ledger.events == old(ledger.events) + RefEvents(tex))
    ensures r.Ok? ==>
      fresh(r.value) && r.value.Valid() && r.value.refcount == 1 && r.value.live &&
      r.value.texture == tex && r.value.shapeType == (if typeArg.Some? then typeArg.value else SHAPE_AUTO) &&
      r.value.Vertices() == ShapeVertices(args, uvs)
  {
    var t := if typeArg.Some? then typeArg.value else SHAPE_AUTO;
    if t < 0 || t >= SHAPE_MAX {
      return Err(RangeError);
    }
    var s := NewShape(t, tex, shapeOk, ledger);
    if s == null {
      return Err(Error);
    }
    var missing := false;
    var i := 0;
    while i < |args|
      invariant 0 <= i <= |args| && s.Valid() && fresh(s) && fresh(s.buffer)
      invariant s.refcount == 1 && s.live && s.texture == tex && s.shapeType == t
      invariant s.buffer.Length == Capacity(i)
      invariant forall j :: 0 <= j < i ==> AppendFits(j) || grows[j]
      invariant s.Vertices() == seq(i, j requires 0 <= j < i => VertexOf(args[j]))
      invariant missing <==> exists j :: 0 <= j < i && (args[j].u.None? || args[j].v.None?)
      invariant ledger.events == old(ledger.events) + RefEvents(tex)
    {
      var ok := s.AddVertex(VertexOf(args[i]), grows[i]);
      if !ok {
        return Err(Error);
      }
      missing := missing || args[i].u.None? || args[i].v.None?;
      i := i + 1;
    }
    if missing {
      s.AssignDefaultUv(uvs);
    }
    r := Ok(s);
  }

  /** `new Group(shapes, shader)`: a new group holding one reference per
      entry of `list`. */
  method JsNewGroup(list: seq<Shape>, allocOk: bool) returns (r: Result<Group>)
    modifies (set s: Shape | s in list)
    ensures r.Ok? <==> allocOk
    ensures r.Err? ==> r.error == Error && forall s :: s in list ==> s.refcount == old(s.refcount)
    ensures r.Ok? ==>
      fresh(r.value) && r.value.refcount == 1 && r.value.shapes == list &&
      forall s :: s in list ==> s.refcount == old(s.refcount) + Count(list, s)
  {
    var g := NewGroup(allocOk);
    if g == null {
      return Err(Error);
    }
    var i := 0;
    while i < |list|
      invariant 0 <= i <= |list| && fresh(g) && g.refcount == 1
      invariant g.shapes == list[..i]
      invariant forall s :: s in list ==> s.refcount == old(s.refcount) + Count(list[..i], s)
    {
      assert list[..i + 1] == list[..i] + [list[i]];
      forall t | t in list
        ensures Count(list[..i + 1], t) == Count(list[..i], t) + (if list[i] == t then 1 else 0)
      {
        CountSnoc(list[..i], list[i], t);
      }
      var ok := g.AddShape(list[i]);
      i := i + 1;
    }
    assert list[..|list|] == list;
    r := Ok(g);
  }
}
