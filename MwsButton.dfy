/** The master-warning button of the Scout: a lamp that flashes while the
    vessel's master warning is active, and a click that resets the warning.
    The 2D panel redraw and the virtual-cockpit redraw read and write one
    shared "lamp is drawn lit" flag, and each edits its mesh only when the
    light differs from that flag. */
module MwsButton {
  import opened Panel
  import opened Vessel

  /** The lamp is lit in the first half of every second while the warning is
      active; blinkOn is the phase of the frame. */
  function MwsLight(mwsActive: bool, blinkOn: bool): (light: bool)
    ensures light <==> mwsActive && blinkOn
    ensures !mwsActive ==> !light
  {
    if mwsActive then blinkOn else false
  }

  /** The v numerator of the lamp quad's lower corners: 30 texture rows below
      its upper corners when lit, on them (no rows at all) when dark. */
  function MwsTv(texh: real, light: bool): real
  {
    if light then texh - 643.0 + 30.0 else texh - 643.0
  }

  /** The lamp quad the widget adds to its group: 29 x 30 pixels at
      (1071, 4), drawn dark. */
  function MwsMesh(texh: real): (r: seq<Vertex>)
    ensures |r| == 4
  {
    [Vertex(1071.0, 4.0, 991.0, texh - 643.0),
     Vertex(1071.0 + 29.0, 4.0, 991.0 + 29.0, texh - 643.0),
     Vertex(1071.0, 4.0 + 30.0, 991.0, texh - 643.0),
     Vertex(1071.0 + 29.0, 4.0 + 30.0, 991.0 + 29.0, texh - 643.0)]
  }

  /** The mesh as built matches the cache's starting value "dark": a dark
      redraw leaves it as it is, and a lit one gives the quad 30 texture rows,
      as many as its panel height, so the lit image is not scaled. */
  lemma MwsMeshImages(texh: real)
    ensures Patch(MwsMesh(texh), 2, Tv, [MwsTv(texh, false), MwsTv(texh, false)]) == MwsMesh(texh)
    ensures var r := Patch(MwsMesh(texh), 2, Tv, [MwsTv(texh, true), MwsTv(texh, true)]);
      r[2].tv - r[0].tv == r[2].y - r[0].y && r[3].tv - r[1].tv == r[3].y - r[1].y
  {
    var m := MwsMesh(texh);
    PatchNoop(m, 2, Tv, [MwsTv(texh, false), MwsTv(texh, false)]);
    PatchAt(m, 2, Tv, [MwsTv(texh, true), MwsTv(texh, true)]);
  }

  /** A texture-u edit of some vertices of a virtual-cockpit mesh group. */
  datatype GroupEdit = GroupEdit(vidx: seq<int>, tus: seq<real>)

  /** The virtual-cockpit edit for the lamp: the four vertices 32 to 35 of the
      status-indicator group, left corners at the image's column and right ones
      0.125 further. */
  function VcEdit(light: bool): (e: GroupEdit)
    ensures |e.vidx| == |e.tus| == 4
  {
    var xofs := 0.2246 + (if light then 0.12891 else 0.0);
    GroupEdit([32, 33, 34, 35], [xofs, xofs, xofs + 0.125, xofs + 0.125])
  }

  /** Every virtual-cockpit edit spans 0.125 of the texture, and the lit image
      lies wholly to the right of the dark one. */
  lemma VcEditImages()
    ensures forall light: bool :: VcEdit(light).tus[2] - VcEdit(light).tus[0] == 0.125
    ensures VcEdit(false).tus[2] < VcEdit(true).tus[0]
    ensures VcEdit(false).vidx == VcEdit(true).vidx
  {
  }

  class MWSButton {
    const dg: Scout
    const grp: array<Vertex>
    const vtxofs: nat
    /** Texture height in pixels; the v numerators count from it. */
    const texh: real
    /** Set to false by the constructor and Reset2D and read nowhere. */
    var active: bool
    /** Whether the lamp is drawn lit, on the panel and in the cockpit. */
    var islit: bool

    ghost predicate Valid()
    {
      vtxofs + 4 <= grp.Length
    }

    constructor (v: Scout, g: array<Vertex>, ofs: nat, h: real)
      requires ofs + 4 <= g.Length
      ensures dg == v && grp == g && vtxofs == ofs && texh == h
      ensures Valid()
      ensures !active && !islit
    {
      dg, grp, vtxofs, texh := v, g, ofs, h;
      active, islit := false, false;
    }

    method Reset2D()
      modifies this`active, this`islit
      ensures !active && !islit
    {
      active, islit := false, false;
    }

    /** Re-textures the lamp's lower corners only when its lit state changes. */
    method Redraw2D(blinkOn: bool) returns (redrawn: bool)
      requires Valid()
      modifies grp, this`islit
      ensures islit == MwsLight(dg.mwsActive, blinkOn)
      ensures grp[..] == if islit != old(islit)
                         then Patch(old(grp[..]), vtxofs + 2, Tv, [MwsTv(texh, islit), MwsTv(texh, islit)])
                         else old(grp[..])
      ensures !redrawn
    {
      var light;
      if dg.mwsActive {
        light := blinkOn;
      } else {
        light := false;
      }
      if light != islit {
        var tv := if light then texh - 643.0 + 30.0 else texh - 643.0;
        ghost var vals := [tv, tv];
        var i := 2;
        while i < 4
          invariant 2 <= i <= 4
          invariant Written(old(grp[..]), grp[..], vtxofs + 2, Tv, vals, i - 2)
        {
          grp[vtxofs + i] := Set(grp[vtxofs + i], Tv, tv);
          i := i + 1;
        }
        WrittenPatch(old(grp[..]), grp[..], vtxofs + 2, Tv, vals);
        islit := light;
      }
      redrawn := false;
    }

    method ProcessMouse2D(event: Event, mx: int, my: int) returns (consumed: bool)
      modifies dg`log
      ensures dg.log == old(dg.log) + [MWSReset]
      ensures !consumed
    {
      dg.log := dg.log + [MWSReset];
      consumed := false;
    }

    /** Returns the cockpit mesh edit to apply, if the lamp's lit state
        changed; the cache is the one the 2D redraw keeps. */
    method RedrawVC(blinkOn: bool) returns (edit: Option<GroupEdit>, redrawn: bool)
      modifies this`islit
      ensures islit == MwsLight(dg.mwsActive, blinkOn)
      ensures edit == if islit != old(islit) then Some(VcEdit(islit)) else None
      ensures !redrawn
    {
      var light;
      if dg.mwsActive {
        light := blinkOn;
      } else {
        light := false;
      }
      edit := None;
      if light != islit {
        var xofs := 0.2246 + (if light then 0.12891 else 0.0);
        edit := Some(GroupEdit([32, 33, 34, 35], [xofs, xofs, xofs + 0.125, xofs + 0.125]));
        islit := light;
      }
      redrawn := false;
    }
  }

  /** One frame of the lamp: the 2D redraw, then the cockpit redraw with the
      same blink phase. The two share the lit-state cache, so the second one
      finds nothing to change. */
  method RedrawFrame(b: MWSButton, blinkOn: bool) returns (edit: Option<GroupEdit>)
    requires b.Valid()
    modifies b.grp, b`islit
    ensures b.islit == MwsLight(b.dg.mwsActive, blinkOn)
    ensures b.grp[..] == if b.islit != old(b.islit)
                         then Patch(old(b.grp[..]), b.vtxofs + 2, Tv, [MwsTv(b.texh, b.islit), MwsTv(b.texh, b.islit)])
                         else old(b.grp[..])
    ensures edit == None
  {
    var redrawn := b.Redraw2D(blinkOn);
    edit, redrawn := b.RedrawVC(blinkOn);
  }
}
