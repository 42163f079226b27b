/** The nose-cone (docking port cover) lever and its four-arrow indicator on
    the Scout's 2D panel. The lever quad is moved between an upper and a lower
    rectangle of the panel, each textured with a matching strip of the panel
    texture; the indicator shows one of three images and blinks while the cone
    moves. */
module NconeLever {
  import opened Panel
  import opened Vessel

  // ------------------------------------------------------------------ lever

  /** The y of the lever's corners, two rows of two: the lower rectangle (21
      pixels high from 400.5) when down, the upper one (19 high from 326.5). */
  function NoseYs(down: bool): (r: seq<real>)
    ensures |r| == 4
  {
    var y0 := if down then 400.5 else 326.5;
    var dy := if down then 21.0 else 19.0;
    seq(4, j => y0 + (j / 2) as real * dy)
  }

  /** The v numerators of the lever's corners, stepping as the y do. */
  function NoseTvs(texh: real, down: bool): (r: seq<real>)
    ensures |r| == 4
  {
    var tv0 := if down then texh - 677.5 else texh - 696.5;
    var dy := if down then 21.0 else 19.0;
    seq(4, j => tv0 + (j / 2) as real * dy)
  }

  /** The image is not scaled: in either position the quad spans as many
      texture rows as panel rows. The two positions do not overlap on the
      panel, and their texture strips are adjacent, the lower one starting
      where the upper one ends. */
  lemma NoseLeverImage(texh: real, down: bool)
    ensures NoseYs(down)[2] - NoseYs(down)[0] == NoseTvs(texh, down)[2] - NoseTvs(texh, down)[0]
    ensures NoseYs(down)[3] - NoseYs(down)[1] == NoseTvs(texh, down)[3] - NoseTvs(texh, down)[1]
    ensures NoseYs(down)[0] == NoseYs(down)[1] && NoseYs(down)[2] == NoseYs(down)[3]
    ensures NoseYs(false)[2] < NoseYs(true)[0]
    ensures NoseTvs(texh, false)[2] == NoseTvs(texh, true)[0]
  {
  }

  /** The lever quad the widget adds to its group. */
  function NoseLeverMesh(texh: real): (r: seq<Vertex>)
    ensures |r| == 4
  {
    [Vertex(1140.5, 326.5, 1047.5, texh - 696.5),
     Vertex(1180.5, 326.5, 1087.5, texh - 696.5),
     Vertex(1140.5, 345.5, 1047.5, texh - 677.5),
     Vertex(1180.5, 345.5, 1087.5, texh - 677.5)]
  }

  /** The mesh as built shows the lever up: redrawing it up changes nothing. */
  lemma NoseLeverMeshIsUp(texh: real)
    ensures Patch(Patch(NoseLeverMesh(texh), 0, Y, NoseYs(false)), 0, Tv, NoseTvs(texh, false))
         == NoseLeverMesh(texh)
  {
    var m := NoseLeverMesh(texh);
    assert Shows(m, 0, Y, NoseYs(false));
    PatchNoop(m, 0, Y, NoseYs(false));
    assert Shows(m, 0, Tv, NoseTvs(texh, false));
    PatchNoop(m, 0, Tv, NoseTvs(texh, false));
  }

  /** The redraw depends only on the lever's position, so redrawing again in
      the same position changes nothing. */
  lemma NoseLeverRedrawIdempotent(s: seq<Vertex>, ofs: nat, texh: real, down: bool)
    requires ofs + 4 <= |s|
    ensures var t := Patch(Patch(s, ofs, Y, NoseYs(down)), ofs, Tv, NoseTvs(texh, down));
      Patch(Patch(t, ofs, Y, NoseYs(down)), ofs, Tv, NoseTvs(texh, down)) == t
  {
    PatchPairIdempotent(s, ofs, Y, NoseYs(down), Tv, NoseTvs(texh, down));
  }

  /** The docking-port request a click on the lever makes, if any: while the
      lever is up a click above y 58 asks to open the cone, while it is down a
      click below y 36 asks to close it. */
  function NoseClick(status: DoorStatus, my: int): (r: Option<DoorStatus>)
    ensures r == Some(DoorOpening) <==> !Deployed(status) && my < 58
    ensures r == Some(DoorClosing) <==> Deployed(status) && my > 36
    ensures r.Some? ==> r.value in {DoorOpening, DoorClosing}
  {
    if status == DoorClosed || status == DoorClosing then
      if my < 58 then Some(DoorOpening) else None
    else
      if my > 36 then Some(DoorClosing) else None
  }

  /** A request always moves the lever to the other position, and a click on
      y 37 to 57 always makes one. */
  lemma NoseClickReverses(status: DoorStatus, my: int)
    ensures NoseClick(status, my).Some? ==>
      Deployed(NoseClick(status, my).value) == !Deployed(status)
      && NoseYs(Deployed(NoseClick(status, my).value)) != NoseYs(Deployed(status))
    ensures 37 <= my <= 57 ==> NoseClick(status, my).Some?
  {
    if NoseClick(status, my).Some? {
      assert NoseYs(true)[0] != NoseYs(false)[0];
    }
  }

  class NoseconeLever {
    const dg: Scout
    const grp: array<Vertex>
    const vtxofs: nat
    /** Texture height in pixels; the v numerators count from it. */
    const texh: real

    ghost predicate Valid()
    {
      vtxofs + 4 <= grp.Length
    }

    constructor (v: Scout, g: array<Vertex>, ofs: nat, h: real)
      requires ofs + 4 <= g.Length
      ensures dg == v && grp == g && vtxofs == ofs && texh == h
      ensures Valid()
    {
      dg, grp, vtxofs, texh := v, g, ofs, h;
    }

    /** Moves the lever quad, position and texture, to the cone's state. */
    method Redraw2D() returns (redrawn: bool)
      requires Valid()
      modifies grp
      ensures grp[..] == Patch(Patch(old(grp[..]), vtxofs, Y, NoseYs(Deployed(dg.noseStatus))),
                               vtxofs, Tv, NoseTvs(texh, Deployed(dg.noseStatus)))
      ensures !redrawn
    {
      var action := dg.noseStatus;
      var leverdown := action == DoorOpening || action == DoorOpen;
      var y0, dy, tv0;
      if leverdown {
        y0, dy, tv0 := 400.5, 21.0, texh - 677.5;
      } else {
        y0, dy, tv0 := 326.5, 19.0, texh - 696.5;
      }
      ghost var ys := NoseYs(leverdown);
      ghost var tvs := NoseTvs(texh, leverdown);
      var j := 0;
      while j < 4
        invariant 0 <= j <= 4
        invariant WrittenPair(old(grp[..]), grp[..], vtxofs, Y, ys, Tv, tvs, j)
      {
        grp[vtxofs + j] := Set(grp[vtxofs + j], Y, y0 + (j / 2) as real * dy);
        grp[vtxofs + j] := Set(grp[vtxofs + j], Tv, tv0 + (j / 2) as real * dy);
        j := j + 1;
      }
      WrittenPairPatch(old(grp[..]), grp[..], vtxofs, Y, ys, Tv, tvs);
      redrawn := false;
    }

    method ProcessMouse2D(event: Event, mx: int, my: int) returns (consumed: bool)
      modifies dg`log
      ensures dg.log == old(dg.log) + (match NoseClick(dg.noseStatus, my)
                                       case Some(a) => [ActivateDockingPort(a)]
                                       case None => [])
      ensures !consumed
    {
      var action := dg.noseStatus;
      if action == DoorClosed || action == DoorClosing {
        if my < 58 {
          dg.log := dg.log + [ActivateDockingPort(DoorOpening)];
        }
      } else {
        if my > 36 {
          dg.log := dg.log + [ActivateDockingPort(DoorClosing)];
        }
      }
      consumed := false;
    }
  }

  // -------------------------------------------------------------- indicator

  /** The indicator's texture column: fixed images for closed and open; while
      the cone moves, a lit image in one half of each second and the closed
      image in the other. */
  function NoseXofs(status: DoorStatus, blinkOn: bool): (xofs: int)
    ensures status == DoorClosed ==> xofs == 1014
    ensures status == DoorOpen ==> xofs == 1027
    ensures status in {DoorClosing, DoorOpening} ==> xofs == if blinkOn then 1040 else 1014
  {
    match status
    case DoorClosed => 1014
    case DoorOpen => 1027
    case _ => if blinkOn then 1040 else 1014
  }

  /** Unlike the gear indicator, the dark phase of a moving cone shows the
      closed image, so a moving cone and a closed one look alike half the time;
      open and closed are always told apart, and a moving cone blinks. */
  lemma NoseXofsShowsState(status: DoorStatus, blinkOn: bool)
    ensures status in {DoorClosing, DoorOpening} ==> NoseXofs(status, false) == NoseXofs(DoorClosed, blinkOn)
    ensures status in {DoorClosing, DoorOpening} ==> NoseXofs(status, true) != NoseXofs(status, false)
    ensures NoseXofs(status, blinkOn) == NoseXofs(DoorOpen, blinkOn) <==> status == DoorOpen
    ensures NoseXofs(status, blinkOn) == 1040 <==> status in {DoorClosing, DoorOpening} && blinkOn
  {
  }

  /** The u numerators of the twelve indicator vertices (four triangles of
      three corners): the column, and twelve pixels more on the middle corner. */
  function NoseIndicatorTus(xofs: int): (r: seq<real>)
    ensures |r| == 12
  {
    seq(12, m => (xofs + (m % 3 % 2) * 12) as real)
  }

  /** Corner j of triangle i, as the redraw loop computes it. */
  lemma NoseIndicatorTuAt(xofs: int, i: int, j: int)
    requires 0 <= i < 4 && 0 <= j < 3
    ensures NoseIndicatorTus(xofs)[3 * i + j] == (xofs + (j % 2) * 12) as real
  {
    assert (3 * i + j) % 3 == j;
  }

  /** The u numerators of the indicator mesh as the widget builds it. */
  const NOSE_INDICATOR_MESH_TUS: seq<real> :=
    [1027.0, 1039.0, 1027.0, 1027.0, 1039.0, 1027.0, 1027.0, 1039.0, 1027.0, 1027.0, 1039.0, 1027.0]

  /** The indicator mesh as built shows the open image, and the four triangles
      always show the same image. */
  lemma NoseIndicatorImages(xofs: int)
    ensures NoseIndicatorTus(NoseXofs(DoorOpen, false)) == NOSE_INDICATOR_MESH_TUS
    ensures forall m :: 0 <= m < 9 ==> NoseIndicatorTus(xofs)[m] == NoseIndicatorTus(xofs)[m + 3]
  {
    var r := NoseIndicatorTus(1027);
    assert r == NOSE_INDICATOR_MESH_TUS by {
      forall m | 0 <= m < 12
        ensures r[m] == NOSE_INDICATOR_MESH_TUS[m]
      {
        assert m % 3 == 0 || m % 3 == 1 || m % 3 == 2;
      }
    }
    forall m | 0 <= m < 9
      ensures NoseIndicatorTus(xofs)[m] == NoseIndicatorTus(xofs)[m + 3]
    {
      assert (m + 3) % 3 == m % 3;
    }
  }

  class NoseconeIndicator {
    const dg: Scout
    const grp: array<Vertex>
    const vtxofs: nat

    ghost predicate Valid()
    {
      vtxofs + 12 <= grp.Length
    }

    constructor (v: Scout, g: array<Vertex>, ofs: nat)
      requires ofs + 12 <= g.Length
      ensures dg == v && grp == g && vtxofs == ofs
      ensures Valid()
    {
      dg, grp, vtxofs := v, g, ofs;
    }

    /** Re-textures the four arrows; blinkOn is the blink phase of this frame. */
    method Redraw2D(blinkOn: bool) returns (redrawn: bool)
      requires Valid()
      modifies grp
      ensures grp[..] == Patch(old(grp[..]), vtxofs, Tu, NoseIndicatorTus(NoseXofs(dg.noseStatus, blinkOn)))
      ensures !redrawn
    {
      var xofs;
      match dg.noseStatus {
        case DoorClosed => xofs := 1014;
        case DoorOpen => xofs := 1027;
        case _ => xofs := if blinkOn then 1040 else 1014;
      }
      ghost var vals := NoseIndicatorTus(xofs);
      var i := 0;
      while i < 4
        invariant 0 <= i <= 4
        invariant Written(old(grp[..]), grp[..], vtxofs, Tu, vals, 3 * i)
      {
        var j := 0;
        while j < 3
          invariant 0 <= j <= 3
          invariant Written(old(grp[..]), grp[..], vtxofs, Tu, vals, 3 * i + j)
        {
          var tu := (xofs + (j % 2) * 12) as real;
          assert tu == vals[3 * i + j] by { NoseIndicatorTuAt(xofs, i, j); }
          ghost var pre := grp[..];
          grp[vtxofs + i * 3 + j] := Set(grp[vtxofs + i * 3 + j], Tu, tu);
          WrittenStep(old(grp[..]), pre, grp[..], vtxofs, Tu, vals, 3 * i + j);
          j := j + 1;
        }
        i := i + 1;
      }
      WrittenPatch(old(grp[..]), grp[..], vtxofs, Tu, vals);
      redrawn := false;
    }
  }
}
