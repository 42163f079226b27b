/** The landing-gear lever and the three-lamp gear indicator of the Scout's 2D
    panel. The lever is one quad whose lower edge moves: drawn at full length
    while the gear is down (open or opening) and collapsed onto its upper edge
    otherwise, so that the panel background shows the lever up. The indicator
    shows one of three lamp images per gear state and blinks while the gear
    moves. */
module GearLever {
  import opened Panel
  import opened Vessel

  // ------------------------------------------------------------------ lever

  const LEVER_Y0: real := 326.0
  const LEVER_LEN: real := 176.0

  /** The y of the lever quad's lower corners. */
  function LeverY(down: bool): real
  {
    if down then LEVER_Y0 + LEVER_LEN else LEVER_Y0
  }

  /** The lever quad the widget adds to its group, drawn down: 33 pixels wide,
      176 long, the texture turned by a quarter. */
  function LeverMesh(texh: real): (r: seq<Vertex>)
    ensures |r| == 4
  {
    [Vertex(1228.5, LEVER_Y0, 1104.0, texh - 689.5 + 33.0),
     Vertex(1228.5 + 33.0, LEVER_Y0, 1104.0, texh - 689.5),
     Vertex(1228.5, LEVER_Y0 + LEVER_LEN, 1104.0 + 176.0, texh - 689.5 + 33.0),
     Vertex(1228.5 + 33.0, LEVER_Y0 + LEVER_LEN, 1104.0 + 176.0, texh - 689.5)]
  }

  /** Redrawn down, the mesh stays as built; redrawn up, its lower corners
      move onto its upper ones, so the quad has no height and nothing but
      the y of those two corners changes. */
  lemma LeverOnMesh(texh: real, down: bool)
    ensures down ==> Patch(LeverMesh(texh), 2, Y, [LeverY(down), LeverY(down)]) == LeverMesh(texh)
    ensures !down ==> var r := Patch(LeverMesh(texh), 2, Y, [LeverY(down), LeverY(down)]);
      r[2].y == r[0].y && r[3].y == r[1].y
      && r[2].x == r[0].x && r[3].x == r[1].x && r[..2] == LeverMesh(texh)[..2]
  {
    var m := LeverMesh(texh);
    var vals := [LeverY(down), LeverY(down)];
    PatchAt(m, 2, Y, vals);
    if down {
      PatchNoop(m, 2, Y, vals);
    }
  }

  /** The gear request a click on the lever makes, if any: while the lever is
      up a click above y 151 asks to open (lower) the gear, while it is down a
      click below y 46 asks to close (raise) it. */
  function GearClick(status: DoorStatus, my: int): (r: Option<DoorStatus>)
    ensures r == Some(DoorOpening) <==> !Deployed(status) && my < 151
    ensures r == Some(DoorClosing) <==> Deployed(status) && my > 46
    ensures r.Some? ==> r.value in {DoorOpening, DoorClosing}
  {
    if status == DoorClosed || status == DoorClosing then
      if my < 151 then Some(DoorOpening) else None
    else
      if my > 46 then Some(DoorClosing) else None
  }

  /** A request always moves the lever to the other position, and anywhere on
      the middle of the lever (y 47 to 150) a click always makes one. */
  lemma GearClickReverses(status: DoorStatus, my: int)
    ensures GearClick(status, my).Some? ==>
      Deployed(GearClick(status, my).value) == !Deployed(status)
      && LeverY(Deployed(GearClick(status, my).value)) != LeverY(Deployed(status))
    ensures 47 <= my <= 150 ==> GearClick(status, my).Some?
  {
  }

  class GearLever {
    const dg: Scout
    const grp: array<Vertex>
    const vtxofs: nat

    ghost predicate Valid()
    {
      vtxofs + 4 <= grp.Length
    }

    constructor (v: Scout, g: array<Vertex>, ofs: nat)
      requires ofs + 4 <= g.Length
      ensures dg == v && grp == g && vtxofs == ofs
      ensures Valid()
    {
      dg, grp, vtxofs := v, g, ofs;
    }

    /** Moves the lever quad's lower corners to the gear's position. */
    method Redraw2D() returns (redrawn: bool)
      requires Valid()
      modifies grp
      ensures grp[..] == Patch(old(grp[..]), vtxofs + 2, Y,
                               [LeverY(Deployed(dg.gearStatus)), LeverY(Deployed(dg.gearStatus))])
      ensures !redrawn
    {
      var action := dg.gearStatus;
      var leverdown := action == DoorOpening || action == DoorOpen;
      var y := if leverdown then LEVER_Y0 + LEVER_LEN else LEVER_Y0;
      ghost var vals := [y, y];
      PatchAt(old(grp[..]), vtxofs + 2, Y, vals);
      grp[vtxofs + 3] := Set(grp[vtxofs + 3], Y, y);
      grp[vtxofs + 2] := Set(grp[vtxofs + 2], Y, y);
      assert grp[..] == Patch(old(grp[..]), vtxofs + 2, Y, vals);
      redrawn := false;
    }

    method ProcessMouse2D(event: Event, mx: int, my: int) returns (consumed: bool)
      modifies dg`log
      ensures dg.log == old(dg.log) + (match GearClick(dg.gearStatus, my)
                                       case Some(a) => [ActivateLandingGear(a)]
                                       case None => [])
      ensures !consumed
    {
      var action := dg.gearStatus;
      if action == DoorClosed || action == DoorClosing {
        if my < 151 {
          dg.log := dg.log + [ActivateLandingGear(DoorOpening)];
        }
      } else {
        if my > 46 {
          dg.log := dg.log + [ActivateLandingGear(DoorClosing)];
        }
      }
      consumed := false;
    }
  }

  // -------------------------------------------------------------- indicator

  /** The indicator's texture column for the gear's state: fixed images for up
      and down; while the gear moves, a lit image in one half of each second
      and a dark one in the other. */
  function GearXofs(status: DoorStatus, blinkOn: bool): (xofs: int)
    ensures status == DoorClosed ==> xofs == 1018
    ensures status == DoorOpen ==> xofs == 1030
    ensures status in {DoorClosing, DoorOpening} ==> xofs == if blinkOn then 1042 else 1020
  {
    match status
    case DoorClosed => 1018
    case DoorOpen => 1030
    case _ => if blinkOn then 1042 else 1020
  }

  /** The indicator image shows the state: up and down are told apart at any
      phase, a moving gear blinks, and neither phase of a moving gear looks
      like up or down. */
  lemma GearXofsShowsState(status: DoorStatus, status': DoorStatus, blinkOn: bool, blinkOn': bool)
    ensures GearXofs(status, blinkOn) == GearXofs(status', blinkOn') && status != status' ==>
      status in {DoorClosing, DoorOpening} && status' in {DoorClosing, DoorOpening}
    ensures status in {DoorClosing, DoorOpening} ==> GearXofs(status, true) != GearXofs(status, false)
    ensures status in {DoorClosed, DoorOpen} ==> GearXofs(status, true) == GearXofs(status, false)
  {
  }

  /** The u numerators of the twelve indicator vertices (three lamps of four
      corners): the column, and ten pixels more on the right-hand corners. */
  function GearIndicatorTus(xofs: int): (r: seq<real>)
    ensures |r| == 12
  {
    seq(12, m => (xofs + (m % 4 % 2) * 10) as real)
  }

  /** Corner j of lamp i, as the redraw loop computes it. */
  lemma GearIndicatorTuAt(xofs: int, i: int, j: int)
    requires 0 <= i < 3 && 0 <= j < 4
    ensures GearIndicatorTus(xofs)[4 * i + j] == (xofs + (j % 2) * 10) as real
  {
    assert (4 * i + j) % 4 == j;
  }

  /** The u numerators of the indicator mesh as the widget builds it. */
  const GEAR_INDICATOR_MESH_TUS: seq<real> :=
    [1018.0, 1028.0, 1018.0, 1028.0, 1018.0, 1028.0, 1018.0, 1028.0, 1018.0, 1028.0, 1018.0, 1028.0]

  /** The indicator starts out showing the gear up, and the three lamps always
      show the same image. */
  lemma GearIndicatorImages(xofs: int)
    ensures GearIndicatorTus(GearXofs(DoorClosed, false)) == GEAR_INDICATOR_MESH_TUS
    ensures forall m :: 0 <= m < 8 ==> GearIndicatorTus(xofs)[m] == GearIndicatorTus(xofs)[m + 4]
  {
    var r := GearIndicatorTus(1018);
    assert r == GEAR_INDICATOR_MESH_TUS by {
      forall m | 0 <= m < 12
        ensures r[m] == GEAR_INDICATOR_MESH_TUS[m]
      {
        assert m % 4 % 2 == m % 2;
      }
    }
    forall m | 0 <= m < 8
      ensures GearIndicatorTus(xofs)[m] == GearIndicatorTus(xofs)[m + 4]
    {
      assert (m + 4) % 4 == m % 4;
    }
  }

  class GearIndicator {
    const dg: Scout
    const grp: array<Vertex>
    const vtxofs: nat

    ghost predicate Valid()
    {
      vtxofs + 12 <= grp.Length
    }

    constructor (v: Scout, g: array<Vertex>, ofs: nat)
      requires ofs + 12 <= g.Length
      ensures dg == v && grp == g && vtxofs == ofs
      ensures Valid()
    {
      dg, grp, vtxofs := v, g, ofs;
    }

    /** Re-textures the three lamps; blinkOn is the blink phase of this frame. */
    method Redraw2D(blinkOn: bool) returns (redrawn: bool)
      requires Valid()
      modifies grp
      ensures grp[..] == Patch(old(grp[..]), vtxofs, Tu, GearIndicatorTus(GearXofs(dg.gearStatus, blinkOn)))
      ensures !redrawn
    {
      var xofs;
      match dg.gearStatus {
        case DoorClosed => xofs := 1018;
        case DoorOpen => xofs := 1030;
        case _ => xofs := if blinkOn then 1042 else 1020;
      }
      ghost var vals := GearIndicatorTus(xofs);
      var i := 0;
      while i < 3
        invariant 0 <= i <= 3
        invariant Written(old(grp[..]), grp[..], vtxofs, Tu, vals, 4 * i)
      {
        var j := 0;
        while j < 4
          invariant 0 <= j <= 4
          invariant Written(old(grp[..]), grp[..], vtxofs, Tu, vals, 4 * i + j)
        {
          var tu := (xofs + (j % 2) * 10) as real;
          assert tu == vals[4 * i + j] by { GearIndicatorTuAt(xofs, i, j); }
          ghost var pre := grp[..];
          grp[vtxofs + i * 4 + j] := Set(grp[vtxofs + i * 4 + j], Tu, tu);
          WrittenStep(old(grp[..]), pre, grp[..], vtxofs, Tu, vals, 4 * i + j);
          j := j + 1;
        }
        i := i + 1;
      }
      WrittenPatch(old(grp[..]), grp[..], vtxofs, Tu, vals);
      redrawn := false;
    }
  }
}
