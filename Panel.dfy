/** Panel-element infrastructure shared by every cockpit widget: the vertex
    record a 2D panel mesh group holds, an in-place patch of one field of a run
    of vertices, the mouse-event bits the host delivers, and an Option type. */
module Panel {

  datatype Option<T> = None | Some(value: T)

  /** One vertex of a 2D panel mesh group. x and y are panel pixels; tu and tv
      are texture-coordinate NUMERATORS in texture pixels (the widgets divide
      them by the texture width and height before storing them). */
  datatype Vertex = Vertex(x: real, y: real, tu: real, tv: real)

  /** The vertex fields a redraw may rewrite. */
  datatype Field = X | Y | Tu | Tv

  /** A hit point on a virtual-cockpit mouse area, normalised to [0,1]x[0,1]. */
  datatype Point = Point(x: real, y: real, z: real)

  function Get(v: Vertex, f: Field): real
  {
    match f
    case X => v.x
    case Y => v.y
    case Tu => v.tu
    case Tv => v.tv
  }

  /** The vertex with field f replaced by a; the other fields are kept. */
  function Set(v: Vertex, f: Field, a: real): (r: Vertex)
    ensures Get(r, f) == a
    ensures forall g :: g != f ==> Get(r, g) == Get(v, g)
  {
    match f
    case X => v.(x := a)
    case Y => v.(y := a)
    case Tu => v.(tu := a)
    case Tv => v.(tv := a)
  }

  lemma SetGet(v: Vertex, f: Field)
    ensures Set(v, f, Get(v, f)) == v
  {
    match f
    case X =>
    case Y =>
    case Tu =>
    case Tv =>
  }

  /** The buffer s after writing vals[0], vals[1], ... into field f of the
      vertices ofs, ofs + 1, ..., one after the other, as a redraw loop does. */
  function Patch(s: seq<Vertex>, ofs: nat, f: Field, vals: seq<real>): (r: seq<Vertex>)
    requires ofs + |vals| <= |s|
    ensures |r| == |s|
    decreases |vals|
  {
    if vals == [] then s
    else
      var n := |vals| - 1;
      var p := Patch(s, ofs, f, vals[..n]);
      p[ofs + n := Set(p[ofs + n], f, vals[n])]
  }

  /** A patch rewrites field f of exactly the vertices ofs .. ofs + |vals| - 1,
      vertex ofs + i with vals[i], and leaves every other vertex as it was. */
  lemma {:induction false} PatchAt(s: seq<Vertex>, ofs: nat, f: Field, vals: seq<real>)
    requires ofs + |vals| <= |s|
    ensures forall k :: 0 <= k < |s| && !(ofs <= k < ofs + |vals|) ==> Patch(s, ofs, f, vals)[k] == s[k]
    ensures forall k :: ofs <= k < ofs + |vals| ==> Patch(s, ofs, f, vals)[k] == Set(s[k], f, vals[k - ofs])
    decreases |vals|
  {
    if vals != [] {
      var n := |vals| - 1;
      PatchAt(s, ofs, f, vals[..n]);
    }
  }

  /** t is s after a redraw loop has written vals[0 .. m - 1] into field f of
      the vertices ofs .. ofs + m - 1; this is what the loops keep invariant. */
  ghost predicate Written(s: seq<Vertex>, t: seq<Vertex>, ofs: nat, f: Field, vals: seq<real>, m: nat)
    requires m <= |vals| && ofs + |vals| <= |s|
  {
    && |t| == |s|
    && forall k :: 0 <= k < |s| ==> t[k] == if ofs <= k < ofs + m then Set(s[k], f, vals[k - ofs]) else s[k]
  }

  /** A loop that has written every value has done the patch. */
  lemma WrittenPatch(s: seq<Vertex>, t: seq<Vertex>, ofs: nat, f: Field, vals: seq<real>)
    requires ofs + |vals| <= |s| && Written(s, t, ofs, f, vals, |vals|)
    ensures t == Patch(s, ofs, f, vals)
  {
    PatchAt(s, ofs, f, vals);
  }

  /** Writing value m of the patch into the buffer extends what a loop has
      written by one vertex. */
  lemma WrittenStep(s: seq<Vertex>, t: seq<Vertex>, t': seq<Vertex>, ofs: nat, f: Field, vals: seq<real>, m: nat)
    requires m < |vals| && ofs + |vals| <= |s| && Written(s, t, ofs, f, vals, m)
    requires t' == t[ofs + m := Set(t[ofs + m], f, vals[m])]
    ensures Written(s, t', ofs, f, vals, m + 1)
  {
  }

  /** The same for a loop that writes field f and then field g of each vertex. */
  ghost predicate WrittenPair(s: seq<Vertex>, t: seq<Vertex>, ofs: nat, f: Field, a: seq<real>,
                              g: Field, b: seq<real>, m: nat)
    requires m <= |a| == |b| && ofs + |a| <= |s|
  {
    && |t| == |s|
    && forall k :: 0 <= k < |s| ==>
         t[k] == if ofs <= k < ofs + m then Set(Set(s[k], f, a[k - ofs]), g, b[k - ofs]) else s[k]
  }

  lemma WrittenPairPatch(s: seq<Vertex>, t: seq<Vertex>, ofs: nat, f: Field, a: seq<real>, g: Field, b: seq<real>)
    requires |a| == |b| && ofs + |a| <= |s| && WrittenPair(s, t, ofs, f, a, g, b, |a|)
    ensures t == Patch(Patch(s, ofs, f, a), ofs, g, b)
  {
    PatchAt(s, ofs, f, a);
    PatchAt(Patch(s, ofs, f, a), ofs, g, b);
  }

  /** A patch only ever changes field f. */
  lemma PatchOnlyField(s: seq<Vertex>, ofs: nat, f: Field, vals: seq<real>, k: nat, g: Field)
    requires ofs + |vals| <= |s| && k < |s| && g != f
    ensures Get(Patch(s, ofs, f, vals)[k], g) == Get(s[k], g)
  {
    PatchAt(s, ofs, f, vals);
  }

  /** The patched vertices show exactly the patch values in field f. */
  predicate Shows(s: seq<Vertex>, ofs: nat, f: Field, vals: seq<real>)
    requires ofs + |vals| <= |s|
  {
    forall k :: ofs <= k < ofs + |vals| ==> Get(s[k], f) == vals[k - ofs]
  }

  lemma PatchShows(s: seq<Vertex>, ofs: nat, f: Field, vals: seq<real>)
    requires ofs + |vals| <= |s|
    ensures Shows(Patch(s, ofs, f, vals), ofs, f, vals)
  {
    PatchAt(s, ofs, f, vals);
  }

  /** A patch whose values the buffer already shows changes nothing. */
  lemma PatchNoop(s: seq<Vertex>, ofs: nat, f: Field, vals: seq<real>)
    requires ofs + |vals| <= |s|
    requires Shows(s, ofs, f, vals)
    ensures Patch(s, ofs, f, vals) == s
  {
    var r := Patch(s, ofs, f, vals);
    PatchAt(s, ofs, f, vals);
    forall k | 0 <= k < |s|
      ensures r[k] == s[k]
    {
      if ofs <= k < ofs + |vals| {
        SetGet(s[k], f);
      }
    }
  }

  /** Redrawing twice from the same state leaves what redrawing once left. */
  lemma PatchIdempotent(s: seq<Vertex>, ofs: nat, f: Field, vals: seq<real>)
    requires ofs + |vals| <= |s|
    ensures Patch(Patch(s, ofs, f, vals), ofs, f, vals) == Patch(s, ofs, f, vals)
  {
    PatchShows(s, ofs, f, vals);
    PatchNoop(Patch(s, ofs, f, vals), ofs, f, vals);
  }

  /** The same for a redraw that rewrites two different fields of a run of
      vertices, one patch after the other: doing it again changes nothing. */
  lemma PatchPairIdempotent(s: seq<Vertex>, ofs: nat, f: Field, a: seq<real>, g: Field, b: seq<real>)
    requires f != g && ofs + |a| <= |s| && ofs + |b| <= |s|
    ensures var t := Patch(Patch(s, ofs, f, a), ofs, g, b);
      Patch(Patch(t, ofs, f, a), ofs, g, b) == t
  {
    var p := Patch(s, ofs, f, a);
    var t := Patch(p, ofs, g, b);
    PatchShows(s, ofs, f, a);
    PatchAt(p, ofs, g, b);
    assert Shows(t, ofs, f, a) by {
      forall k | ofs <= k < ofs + |a|
        ensures Get(t[k], f) == a[k - ofs]
      {
        if k < ofs + |b| {
          assert t[k] == Set(p[k], g, b[k - ofs]);
        }
      }
    }
    PatchNoop(t, ofs, f, a);
    PatchIdempotent(p, ofs, g, b);
  }

  /** The host's mouse-event mask, a C int of which only the bits matter. The
      two bit values are those of the Orbiter SDK. */
  type Event = bv32

  const PANEL_MOUSE_LBDOWN: Event := 0x01
  const PANEL_MOUSE_LBUP: Event := 0x04

  predicate LeftDown(event: Event) { event & PANEL_MOUSE_LBDOWN != 0 }
  predicate LeftUp(event: Event) { event & PANEL_MOUSE_LBUP != 0 }

  /** What the latching handlers return: the event carries a press or a release. */
  predicate Consumed(event: Event) { LeftDown(event) || LeftUp(event) }
}
