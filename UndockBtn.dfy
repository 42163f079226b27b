/** The "dock release" button of the Scout's 2D panel: a press asks the vessel
    to undock from port 0 and draws the button pressed; any other event draws
    it released. The button quad's lower edge moves: 39 pixels below its upper
    edge while pressed, onto it otherwise, so that the panel background shows
    the released button. */
module UndockBtn {
  import opened Panel
  import opened Vessel

  const BTN_Y0: real := 471.5
  const BTN_DY: real := 39.0

  /** The y of the button quad's lower corners. */
  function UndockY(down: bool): real
  {
    if down then BTN_Y0 + BTN_DY else BTN_Y0
  }

  /** The v numerator of the button quad's lower corners. */
  function UndockTv(texh: real, down: bool): real
  {
    if down then texh - 614.5 + BTN_DY else texh - 614.5
  }

  /** The button quad the widget adds to its group: 31 x 39 pixels at
      (1140.5, 471.5), drawn pressed. */
  function UndockMesh(texh: real): (r: seq<Vertex>)
    ensures |r| == 4
  {
    [Vertex(1140.5, BTN_Y0, 1102.5, texh - 614.5),
     Vertex(1140.5 + 31.0, BTN_Y0, 1102.5 + 31.0, texh - 614.5),
     Vertex(1140.5, BTN_Y0 + BTN_DY, 1102.5, texh - 614.5 + BTN_DY),
     Vertex(1140.5 + 31.0, BTN_Y0 + BTN_DY, 1102.5 + 31.0, texh - 614.5 + BTN_DY)]
  }

  /** The lower corners after a redraw of the quad s. */
  function UndockRedrawn(s: seq<Vertex>, ofs: nat, texh: real, down: bool): (r: seq<Vertex>)
    requires ofs + 4 <= |s|
    ensures |r| == |s|
  {
    Patch(Patch(s, ofs + 2, Y, [UndockY(down), UndockY(down)]), ofs + 2, Tv, [UndockTv(texh, down), UndockTv(texh, down)])
  }

  /** The redraw depends only on whether the button is pressed, so redrawing
      again in the same state changes nothing. */
  lemma UndockRedrawnIdempotent(s: seq<Vertex>, ofs: nat, texh: real, down: bool)
    requires ofs + 4 <= |s|
    ensures UndockRedrawn(UndockRedrawn(s, ofs, texh, down), ofs, texh, down) == UndockRedrawn(s, ofs, texh, down)
  {
    PatchPairIdempotent(s, ofs + 2, Y, [UndockY(down), UndockY(down)], Tv, [UndockTv(texh, down), UndockTv(texh, down)]);
  }

  /** The mesh as built shows the button pressed, a redraw pressed leaves it as
      it is, and a redraw released gives the quad neither height nor texture
      rows. */
  lemma UndockOnMesh(texh: real)
    ensures UndockRedrawn(UndockMesh(texh), 0, texh, true) == UndockMesh(texh)
    ensures var r := UndockRedrawn(UndockMesh(texh), 0, texh, false);
      r[2].y == r[0].y && r[3].y == r[1].y && r[2].tv == r[0].tv && r[3].tv == r[1].tv
      && r[..2] == UndockMesh(texh)[..2]
  {
    var m := UndockMesh(texh);
    var ys := [UndockY(true), UndockY(true)];
    var tvs := [UndockTv(texh, true), UndockTv(texh, true)];
    PatchNoop(m, 2, Y, ys);
    PatchNoop(m, 2, Tv, tvs);
    var ys' := [UndockY(false), UndockY(false)];
    var tvs' := [UndockTv(texh, false), UndockTv(texh, false)];
    PatchAt(m, 2, Y, ys');
    PatchAt(Patch(m, 2, Y, ys'), 2, Tv, tvs');
  }

  /** What one mouse event does: whether the button is drawn pressed after it,
      and the request it makes. Only an event that is exactly a left press
      counts. */
  function UndockClick(event: Event): (r: (bool, Option<Request>))
    ensures r.0 <==> r.1.Some?
    ensures r.1.Some? ==> r.1.value == Undock(0)
    ensures r.0 <==> event == PANEL_MOUSE_LBDOWN
  {
    if event == PANEL_MOUSE_LBDOWN then (true, Some(Undock(0))) else (false, None)
  }

  /** A release always draws the button released and asks nothing, and a
      press always undocks; a press with another bit set as well counts as no
      press. */
  lemma UndockPressRelease()
    ensures UndockClick(PANEL_MOUSE_LBDOWN) == (true, Some(Undock(0)))
    ensures UndockClick(PANEL_MOUSE_LBUP) == (false, None)
    ensures LeftDown(PANEL_MOUSE_LBDOWN | PANEL_MOUSE_LBUP)
         && UndockClick(PANEL_MOUSE_LBDOWN | PANEL_MOUSE_LBUP) == (false, None)
  {
  }

  class UndockButton {
    const dg: Scout
    const grp: array<Vertex>
    const vtxofs: nat
    /** Texture height in pixels; the v numerators count from it. */
    const texh: real
    var btndown: bool

    ghost predicate Valid()
    {
      vtxofs + 4 <= grp.Length
    }

    constructor (v: Scout, g: array<Vertex>, ofs: nat, h: real)
      requires ofs + 4 <= g.Length
      ensures dg == v && grp == g && vtxofs == ofs && texh == h
      ensures Valid()
      ensures !btndown
    {
      dg, grp, vtxofs, texh := v, g, ofs, h;
      btndown := false;
    }

    method Reset2D()
      modifies this`btndown
      ensures !btndown
    {
      btndown := false;
    }

    /** Moves the lower corners, position and texture, to the button's state. */
    method Redraw2D() returns (redrawn: bool)
      requires Valid()
      modifies grp
      ensures grp[..] == UndockRedrawn(old(grp[..]), vtxofs, texh, btndown)
      ensures !redrawn
    {
      var y := if btndown then BTN_Y0 + BTN_DY else BTN_Y0;
      var tv := if btndown then texh - 614.5 + BTN_DY else texh - 614.5;
      ghost var s0 := grp[..];
      PatchAt(s0, vtxofs + 2, Y, [y, y]);
      grp[vtxofs + 3] := Set(grp[vtxofs + 3], Y, y);
      grp[vtxofs + 2] := Set(grp[vtxofs + 2], Y, y);
      assert grp[..] == Patch(s0, vtxofs + 2, Y, [y, y]);
      ghost var s1 := grp[..];
      PatchAt(s1, vtxofs + 2, Tv, [tv, tv]);
      grp[vtxofs + 3] := Set(grp[vtxofs + 3], Tv, tv);
      grp[vtxofs + 2] := Set(grp[vtxofs + 2], Tv, tv);
      assert grp[..] == Patch(s1, vtxofs + 2, Tv, [tv, tv]);
      redrawn := false;
    }

    method ProcessMouse2D(event: Event, mx: int, my: int) returns (consumed: bool)
      modifies this`btndown, dg`log
      ensures btndown == UndockClick(event).0
      ensures dg.log == old(dg.log) + (match UndockClick(event).1 case Some(r) => [r] case None => [])
      ensures consumed
    {
      if event == PANEL_MOUSE_LBDOWN {
        dg.log := dg.log + [Undock(0)];
      }
      btndown := event == PANEL_MOUSE_LBDOWN;
      consumed := true;
    }
  }
}
