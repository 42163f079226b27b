/** The row of eight two-position switches on the Scout's main panel: four
    lights (navigation, beacon, strobe, docking) and four doors (radiator,
    radiator cover, hatch, ladder). Each switch is one textured quad; the upper
    image is "off", the image 25 texture pixels to the left "on". The widget
    caches the state it last drew per switch and redraws a switch only when the
    vessel's state differs from that cache. */
module SwitchArray {
  import opened Panel
  import opened Vessel

  const NBUTTON: nat := 8

  // ------------------------------------------------------------ mesh group

  /** Corner j of switch i of the mesh the widget adds to its group: a 25 x 38
      pixel quad every 32 pixels from (856, 415), textured with the "off" image. */
  function MeshVertex(texh: real, i: int, j: int): Vertex
  {
    Vertex((856 + i * 32 + (j % 2) * 25) as real, (415 + (j / 2) * 38) as real,
           (989 + (j % 2) * 25) as real, texh - 611.0 + ((j / 2) * 38) as real)
  }

  /** The whole vertex list, four corners per switch. */
  function SwitchMesh(texh: real): (r: seq<Vertex>)
    ensures |r| == 4 * NBUTTON
  {
    seq(4 * NBUTTON, k => MeshVertex(texh, k / 4, k % 4))
  }

  /** Vertex 4 i + j of the list is corner j of switch i. */
  lemma SwitchMeshAt(texh: real, i: int, j: int)
    requires 0 <= i < NBUTTON && 0 <= j < 4
    ensures SwitchMesh(texh)[4 * i + j] == MeshVertex(texh, i, j)
  {
    assert (4 * i + j) / 4 == i && (4 * i + j) % 4 == j;
  }

  /** The triangle template of one quad. */
  function IdxTpl(j: int): (c: int)
    ensures 0 <= c < 4
  {
    match j
    case 0 => 0
    case 1 => 1
    case 2 => 2
    case 3 => 3
    case 4 => 2
    case _ => 1
  }

  /** The index list: quad i's two triangles, offset by its first vertex. */
  function QuadIndices(): (r: seq<int>)
    ensures |r| == 6 * NBUTTON
  {
    seq(6 * NBUTTON, k => 4 * (k / 6) + IdxTpl(k % 6))
  }

  /** Index 6 i + j of the list is entry j of the template, offset to quad i. */
  lemma QuadIndicesAt(i: int, j: int)
    requires 0 <= i < NBUTTON && 0 <= j < 6
    ensures QuadIndices()[6 * i + j] == 4 * i + IdxTpl(j)
  {
    assert (6 * i + j) / 6 == i && (6 * i + j) % 6 == j;
  }

  /** Every index names a vertex of the mesh, and the two triangles of switch
      i use only switch i's four corners. */
  lemma QuadIndicesLocal()
    ensures forall k :: 0 <= k < 6 * NBUTTON ==> 0 <= QuadIndices()[k] < 4 * NBUTTON
    ensures forall k :: 0 <= k < 6 * NBUTTON ==> QuadIndices()[k] / 4 == k / 6
  {
    var r := QuadIndices();
    forall k | 0 <= k < 6 * NBUTTON
      ensures 0 <= r[k] < 4 * NBUTTON && r[k] / 4 == k / 6
    {
    }
  }

  // ----------------------------------------------------------- switch image

  /** The u numerator of corner j when the switch shows state (0 off, 1 on). */
  function SwitchArrayTus(state: int): (r: seq<real>)
    ensures |r| == 4
  {
    seq(4, j => (989 + (j % 2 - state) * 25) as real)
  }

  /** The image tells the state apart: the first corner's u is 989 - 25 state. */
  lemma SwitchArrayTusDecode(state: int, state': int)
    ensures SwitchArrayTus(state)[0] == (989 - 25 * state) as real
    ensures SwitchArrayTus(state) == SwitchArrayTus(state') <==> state == state'
  {
    if SwitchArrayTus(state) == SwitchArrayTus(state') {
      assert SwitchArrayTus(state)[0] == SwitchArrayTus(state')[0];
    }
  }

  /** The mesh as built shows every switch in its "off" image. */
  lemma MeshShowsOff(texh: real, i: nat)
    requires i < NBUTTON
    ensures Shows(SwitchMesh(texh), 4 * i, Tu, SwitchArrayTus(0))
  {
    var m := SwitchMesh(texh);
    forall k | 4 * i <= k < 4 * i + 4
      ensures Get(m[k], Tu) == SwitchArrayTus(0)[k - 4 * i]
    {
      assert k / 4 == i && k % 4 == k - 4 * i;
    }
  }

  // ----------------------------------------------------------- cached redraw

  /** The cache tells the truth: every switch block shows the image of the
      state cached for it. */
  ghost predicate Faithful(s: seq<Vertex>, ofs: nat, cache: seq<int>)
    requires ofs + 4 * |cache| <= |s|
  {
    forall i :: 0 <= i < |cache| ==> Shows(s, ofs + 4 * i, Tu, SwitchArrayTus(cache[i]))
  }

  /** The buffer after redrawing the first |states| switches: switch n is
      re-textured for states[n] exactly when that differs from cache[n]. */
  function CachedRedraw(s: seq<Vertex>, ofs: nat, cache: seq<int>, states: seq<int>): (r: seq<Vertex>)
    requires |states| <= |cache| && ofs + 4 * |cache| <= |s|
    ensures |r| == |s|
    decreases |states|
  {
    if states == [] then s
    else
      var n := |states| - 1;
      var p := CachedRedraw(s, ofs, cache, states[..n]);
      if states[n] != cache[n] then Patch(p, ofs + 4 * n, Tu, SwitchArrayTus(states[n])) else p
  }

  /** One more switch of the redraw loop: the buffer before switch m and the
      buffer after it. */
  lemma CachedRedrawStep(s: seq<Vertex>, ofs: nat, cache: seq<int>, states: seq<int>, m: nat,
                         before: seq<Vertex>, after: seq<Vertex>)
    requires m < |states| <= |cache| && ofs + 4 * |cache| <= |s|
    requires before == CachedRedraw(s, ofs, cache, states[..m])
    requires after == if states[m] != cache[m] then Patch(before, ofs + 4 * m, Tu, SwitchArrayTus(states[m])) else before
    ensures after == CachedRedraw(s, ofs, cache, states[..m + 1])
  {
    assert states[..m + 1][..m] == states[..m];
  }

  /** When the vessel agrees with the cache, a redraw changes nothing. */
  lemma {:induction false} CachedRedrawNoChange(s: seq<Vertex>, ofs: nat, cache: seq<int>, states: seq<int>)
    requires |states| <= |cache| && ofs + 4 * |cache| <= |s|
    requires forall i :: 0 <= i < |states| ==> states[i] == cache[i]
    ensures CachedRedraw(s, ofs, cache, states) == s
    decreases |states|
  {
    if states != [] {
      CachedRedrawNoChange(s, ofs, cache, states[..|states| - 1]);
    }
  }

  /** After the redraw of |states| switches, switch i shows states[i] if it was
      visited and its cached state otherwise, provided the cache was faithful. */
  lemma {:induction false} CachedRedrawShows(s: seq<Vertex>, ofs: nat, cache: seq<int>, states: seq<int>, i: nat)
    requires |states| <= |cache| && ofs + 4 * |cache| <= |s|
    requires Faithful(s, ofs, cache) && i < |cache|
    ensures Shows(CachedRedraw(s, ofs, cache, states), ofs + 4 * i, Tu,
                  SwitchArrayTus(if i < |states| then states[i] else cache[i]))
    decreases |states|
  {
    if states == [] {
    } else {
      var n := |states| - 1;
      var p := CachedRedraw(s, ofs, cache, states[..n]);
      CachedRedrawShows(s, ofs, cache, states[..n], i);
      if states[n] != cache[n] {
        PatchAt(p, ofs + 4 * n, Tu, SwitchArrayTus(states[n]));
        if i == n {
          PatchShows(p, ofs + 4 * n, Tu, SwitchArrayTus(states[n]));
        }
      }
    }
  }

  /** A full redraw keeps the cache faithful: afterwards every switch shows
      the state the vessel is in. */
  lemma CachedRedrawFaithful(s: seq<Vertex>, ofs: nat, cache: seq<int>, states: seq<int>)
    requires |states| == |cache| && ofs + 4 * |cache| <= |s|
    requires Faithful(s, ofs, cache)
    ensures Faithful(CachedRedraw(s, ofs, cache, states), ofs, states)
  {
    forall i | 0 <= i < |states|
      ensures Shows(CachedRedraw(s, ofs, cache, states), ofs + 4 * i, Tu, SwitchArrayTus(states[i]))
    {
      CachedRedrawShows(s, ofs, cache, states, i);
    }
  }

  /** A flag as the 0/1 state of a switch image. */
  function Bit(b: bool): (n: int)
    ensures n == 1 <==> b
    ensures n == 0 <==> !b
  {
    if b then 1 else 0
  }

  /** The state switch i should show: on (1) while its light is on or its
      door is deployed (open or opening), off (0) otherwise. */
  function ButtonState(i: int, beacon: seq<bool>, radiator: DoorStatus, rcover: DoorStatus,
                       hatch: DoorStatus, ladder: DoorStatus): (state: int)
    requires |beacon| == 4
  {
    if 0 <= i < 4 then Bit(beacon[i])
    else if i == 4 then Bit(Deployed(radiator))
    else if i == 5 then Bit(Deployed(rcover))
    else if i == 6 then Bit(Deployed(hatch))
    else Bit(Deployed(ladder))
  }

  /** The states of all eight switches, in switch order. */
  function ButtonStates(beacon: seq<bool>, radiator: DoorStatus, rcover: DoorStatus,
                        hatch: DoorStatus, ladder: DoorStatus): (r: seq<int>)
    requires |beacon| == 4
    ensures |r| == NBUTTON
  {
    seq(NBUTTON, i => ButtonState(i, beacon, radiator, rcover, hatch, ladder))
  }

  /** Switches 0 to 3 show the four lights. */
  lemma ButtonStatesLights(beacon: seq<bool>, radiator: DoorStatus, rcover: DoorStatus,
                           hatch: DoorStatus, ladder: DoorStatus)
    requires |beacon| == 4
    ensures forall i :: 0 <= i < 4 ==>
      (ButtonStates(beacon, radiator, rcover, hatch, ladder)[i] == 1 <==> beacon[i])
  {
    var r := ButtonStates(beacon, radiator, rcover, hatch, ladder);
    forall i | 0 <= i < 4
      ensures r[i] == 1 <==> beacon[i]
    {
      assert r[i] == Bit(beacon[i]);
    }
  }

  /** Switches 4 to 7 show whether the radiator, its cover, the hatch and the
      ladder, in that order, are deployed (open or opening). */
  lemma ButtonStatesDoors(beacon: seq<bool>, radiator: DoorStatus, rcover: DoorStatus,
                          hatch: DoorStatus, ladder: DoorStatus)
    requires |beacon| == 4
    ensures forall i :: 4 <= i < NBUTTON ==>
      (ButtonStates(beacon, radiator, rcover, hatch, ladder)[i] == 1
       <==> Deployed([radiator, rcover, hatch, ladder][i - 4]))
  {
    var r := ButtonStates(beacon, radiator, rcover, hatch, ladder);
    forall i | 4 <= i < NBUTTON
      ensures r[i] == 1 <==> Deployed([radiator, rcover, hatch, ladder][i - 4])
    {
      assert r[i] == ButtonState(i, beacon, radiator, rcover, hatch, ladder);
    }
  }

  /** Every switch is on or off. */
  lemma ButtonStatesBinary(beacon: seq<bool>, radiator: DoorStatus, rcover: DoorStatus,
                           hatch: DoorStatus, ladder: DoorStatus)
    requires |beacon| == 4
    ensures forall i :: 0 <= i < NBUTTON ==>
      ButtonStates(beacon, radiator, rcover, hatch, ladder)[i] in {0, 1}
  {
    var r := ButtonStates(beacon, radiator, rcover, hatch, ladder);
    forall i | 0 <= i < NBUTTON
      ensures r[i] in {0, 1}
    {
      assert r[i] == ButtonState(i, beacon, radiator, rcover, hatch, ladder);
    }
  }

  // ------------------------------------------------------------------ clicks

  /** The half of the switch hit: 0 (off) in the upper 19 pixels, else 1. */
  function PickState(my: int): (state: int)
    ensures state == 0 <==> my < 19
    ensures state == 1 <==> my >= 19
  {
    if my < 19 then 0 else 1
  }

  /** The vessel request for setting switch btn to state. */
  function SwitchClick(btn: int, state: int): Request
    requires 0 <= btn < NBUTTON
  {
    var door := if state == 0 then DoorClosing else DoorOpening;
    match btn
    case 0 => SetNavlight(state != 0)
    case 1 => SetBeacon(state != 0)
    case 2 => SetStrobe(state != 0)
    case 3 => SetDockingLight(state != 0)
    case 4 => ActivateRadiator(door)
    case 5 => ActivateRCover(door)
    case 6 => ActivateHatch(door)
    case 7 => ActivateLadder(door)
  }

  /** Which switch a request comes from and which state it asks for: the state
      a light or door request leaves shown by ButtonStates. */
  function RequestedSwitch(req: Request): Option<(int, int)>
  {
    match req
    case SetNavlight(on) => Some((0, if on then 1 else 0))
    case SetBeacon(on) => Some((1, if on then 1 else 0))
    case SetStrobe(on) => Some((2, if on then 1 else 0))
    case SetDockingLight(on) => Some((3, if on then 1 else 0))
    case ActivateRadiator(a) => Some((4, if Deployed(a) then 1 else 0))
    case ActivateRCover(a) => Some((5, if Deployed(a) then 1 else 0))
    case ActivateHatch(a) => Some((6, if Deployed(a) then 1 else 0))
    case ActivateLadder(a) => Some((7, if Deployed(a) then 1 else 0))
    case _ => None
  }

  /** Every switch click asks its own switch for exactly the state clicked, and
      a door is only ever asked to open or to close, never left as it is. */
  lemma SwitchClickRequests(btn: int, state: int)
    requires 0 <= btn < NBUTTON && (state == 0 || state == 1)
    ensures RequestedSwitch(SwitchClick(btn, state)) == Some((btn, state))
    ensures btn >= 4 ==> SwitchClick(btn, state).action in {DoorClosing, DoorOpening}
  {
  }

  /** Different clicks make different requests. */
  lemma SwitchClickInjective(btn: int, state: int, btn': int, state': int)
    requires 0 <= btn < NBUTTON && (state == 0 || state == 1)
    requires 0 <= btn' < NBUTTON && (state' == 0 || state' == 1)
    requires SwitchClick(btn, state) == SwitchClick(btn', state')
    ensures btn == btn' && state == state'
  {
    SwitchClickRequests(btn, state);
    SwitchClickRequests(btn', state');
  }

  /** A press at (mx, my) when the switches show drawn: nothing in the 6-pixel
      gaps between switches or on the half the switch already shows, else the
      request for the half clicked. */
  function SwitchHit(mx: int, my: int, drawn: seq<int>): (r: Option<Request>)
    requires 0 <= mx < 32 * NBUTTON && |drawn| == NBUTTON
    ensures r.Some? <==> mx % 32 < 26 && PickState(my) != drawn[mx / 32]
    ensures r.Some? ==> RequestedSwitch(r.value) == Some((mx / 32, PickState(my)))
  {
    var btn := mx / 32;
    if mx - btn * 32 >= 26 then None
    else
      var state := PickState(my);
      if state != drawn[btn] then (SwitchClickRequests(btn, state); Some(SwitchClick(btn, state)))
      else None
  }

  // ----------------------------------------------------------------- widget

  /** The first n entries of a are those of b. */
  ghost predicate Agrees<T>(a: seq<T>, b: seq<T>, n: int)
  {
    0 <= n <= |a| && n <= |b| && forall k :: 0 <= k < n ==> a[k] == b[k]
  }

  /** Writing entry n of b into a extends the agreement by one. */
  lemma AgreesWrite<T>(a: seq<T>, b: seq<T>, n: int, a': seq<T>)
    requires Agrees(a, b, n) && n < |a| && n < |b| && a' == a[n := b[n]]
    ensures Agrees(a', b, n + 1)
  {
  }

  class SwitchArray {
    const dg: Scout
    const grp: array<Vertex>
    const vtxofs: nat
    /** Texture height in pixels; the v numerators count from it. */
    const texh: real
    /** The state last drawn per switch. */
    const btnstate: array<int>

    ghost predicate Valid()
      reads dg
    {
      dg.Valid() && vtxofs + 4 * NBUTTON <= grp.Length && btnstate.Length == NBUTTON
    }

    /** The cache is not set here; Reset2D sets it. */
    constructor (v: Scout, g: array<Vertex>, ofs: nat, h: real)
      ensures dg == v && grp == g && vtxofs == ofs && texh == h
      ensures fresh(btnstate) && btnstate.Length == NBUTTON
    {
      dg, grp, vtxofs, texh := v, g, ofs, h;
      btnstate := new int[NBUTTON];
    }

    method Reset2D()
      requires Valid()
      modifies btnstate
      ensures btnstate[..] == seq(NBUTTON, _ => 0)
    {
      var i := 0;
      while i < NBUTTON
        invariant 0 <= i <= NBUTTON
        invariant forall k :: 0 <= k < i ==> btnstate[k] == 0
      {
        btnstate[i] := 0;
        i := i + 1;
      }
    }

    /** Builds the vertex and index lists of the switch row. */
    method AddMeshData2D() returns (vtx: seq<Vertex>, idx: seq<int>)
      ensures vtx == SwitchMesh(texh)
      ensures idx == QuadIndices()
    {
      var VTX := new Vertex[4 * NBUTTON](_ => Vertex(0.0, 0.0, 0.0, 0.0));
      var IDX := new int[6 * NBUTTON];
      ghost var mesh := SwitchMesh(texh);
      ghost var quads := QuadIndices();
      var i := 0;
      while i < NBUTTON
        invariant 0 <= i <= NBUTTON
        invariant Agrees(VTX[..], mesh, 4 * i)
        invariant Agrees(IDX[..], quads, 6 * i)
      {
        var j := 0;
        while j < 4
          invariant 0 <= j <= 4
          invariant Agrees(VTX[..], mesh, 4 * i + j)
          invariant Agrees(IDX[..], quads, 6 * i)
        {
          var v := Vertex((856 + i * 32 + (j % 2) * 25) as real, (415 + (j / 2) * 38) as real,
                          (989 + (j % 2) * 25) as real, texh - 611.0 + ((j / 2) * 38) as real);
          assert v == mesh[4 * i + j] by { SwitchMeshAt(texh, i, j); }
          ghost var pre := VTX[..];
          VTX[i * 4 + j] := v;
          AgreesWrite(pre, mesh, 4 * i + j, VTX[..]);
          j := j + 1;
        }
        j := 0;
        while j < 6
          invariant 0 <= j <= 6
          invariant Agrees(VTX[..], mesh, 4 * (i + 1))
          invariant Agrees(IDX[..], quads, 6 * i + j)
        {
          assert i * 4 + IdxTpl(j) == quads[6 * i + j] by { QuadIndicesAt(i, j); }
          ghost var pre := IDX[..];
          IDX[i * 6 + j] := i * 4 + IdxTpl(j);
          AgreesWrite(pre, quads, 6 * i + j, IDX[..]);
          j := j + 1;
        }
        i := i + 1;
      }
      assert VTX[..] == mesh;
      assert IDX[..] == quads;
      vtx, idx := VTX[..], IDX[..];
    }

    /** The states the vessel is in, in switch order. */
    function VesselStates(): (r: seq<int>)
      requires dg.Valid()
      reads dg
      ensures |r| == NBUTTON
    {
      ButtonStates(dg.beaconState, dg.radiatorStatus, dg.rcoverStatus, dg.hatchStatus, dg.ladderStatus)
    }

    /** Re-textures switch i for state. */
    method DrawSwitch(i: int, state: int)
      requires Valid() && 0 <= i < NBUTTON
      modifies grp
      ensures grp[..] == Patch(old(grp[..]), vtxofs + 4 * i, Tu, SwitchArrayTus(state))
      ensures btnstate[..] == old(btnstate[..])
    {
      var vofs := vtxofs + i * 4;
      ghost var tus := SwitchArrayTus(state);
      var j := 0;
      while j < 4
        invariant 0 <= j <= 4
        invariant Written(old(grp[..]), grp[..], vofs, Tu, tus, j)
      {
        grp[vofs + j] := Set(grp[vofs + j], Tu, (989 + (j % 2 - state) * 25) as real);
        j := j + 1;
      }
      WrittenPatch(old(grp[..]), grp[..], vofs, Tu, tus);
    }

    /** Brings switch i and its cache entry to state, re-texturing the switch
        only when the cache held another state. */
    method RedrawSwitch(i: int, state: int)
      requires Valid() && 0 <= i < NBUTTON
      modifies grp, btnstate
      ensures btnstate[..] == old(btnstate[..])[i := state]
      ensures grp[..] == if state != old(btnstate[i])
                         then Patch(old(grp[..]), vtxofs + 4 * i, Tu, SwitchArrayTus(state))
                         else old(grp[..])
    {
      if state != btnstate[i] {
        btnstate[i] := state;
        DrawSwitch(i, state);
      }
    }

    /** Re-textures each switch whose vessel state differs from the cache and
        records the new state in the cache. */
    method Redraw2D() returns (redrawn: bool)
      requires Valid()
      modifies grp, btnstate
      ensures grp[..] == CachedRedraw(old(grp[..]), vtxofs, old(btnstate[..]), VesselStates())
      ensures btnstate[..] == VesselStates()
      ensures !redrawn
    {
      ghost var states := VesselStates();
      ghost var cache := old(btnstate[..]);
      var i := 0;
      while i < NBUTTON
        invariant 0 <= i <= NBUTTON
        invariant grp[..] == CachedRedraw(old(grp[..]), vtxofs, cache, states[..i])
        invariant forall k :: 0 <= k < NBUTTON ==> btnstate[k] == if k < i then states[k] else cache[k]
      {
        var state := ButtonState(i, dg.beaconState, dg.radiatorStatus, dg.rcoverStatus, dg.hatchStatus, dg.ladderStatus);
        assert state == states[i];
        ghost var before := grp[..];
        RedrawSwitch(i, state);
        CachedRedrawStep(old(grp[..]), vtxofs, cache, states, i, before, grp[..]);
        i := i + 1;
      }
      assert states[..NBUTTON] == states;
      redrawn := false;
    }

    /** A press on the switch row asks the vessel to move the switch hit to the
        half clicked, and reports whether it asked. The mouse area is the row's
        8 x 32 pixels, since the switch index is not range-checked. */
    method ProcessMouse2D(event: Event, mx: int, my: int) returns (consumed: bool)
      requires Valid() && 0 <= mx < 32 * NBUTTON
      modifies dg`log
      ensures consumed == SwitchHit(mx, my, btnstate[..]).Some?
      ensures dg.log == old(dg.log) + (if consumed then [SwitchHit(mx, my, btnstate[..]).value] else [])
    {
      var btn := mx / 32;
      if mx - btn * 32 >= 26 {
        return false;
      }
      var state := if my < 19 then 0 else 1;
      if state != btnstate[btn] {
        dg.log := dg.log + [SwitchClick(btn, state)];
        return true;
      }
      return false;
    }
  }

  /** Redrawing twice in a row, with the vessel unchanged, the second redraw
      changes nothing (the cache already holds the vessel's states). */
  lemma RedrawTwiceNoChange(s: seq<Vertex>, ofs: nat, cache: seq<int>, states: seq<int>)
    requires |states| == |cache| && ofs + 4 * |cache| <= |s|
    ensures CachedRedraw(CachedRedraw(s, ofs, cache, states), ofs, states, states)
         == CachedRedraw(s, ofs, cache, states)
  {
    CachedRedrawNoChange(CachedRedraw(s, ofs, cache, states), ofs, states, states);
  }

  /** After the mesh is built and the cache reset, the cache is faithful, so
      every later redraw leaves each switch showing its vessel state. */
  lemma ResetMeshFaithful(texh: real)
    ensures Faithful(SwitchMesh(texh), 0, seq(NBUTTON, _ => 0))
  {
    forall i | 0 <= i < NBUTTON
      ensures Shows(SwitchMesh(texh), 4 * i, Tu, SwitchArrayTus(seq(NBUTTON, _ => 0)[i]))
    {
      MeshShowsOff(texh, i);
    }
  }
}
