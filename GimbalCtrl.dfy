/** Gimbal and hover-balance controls and displays of the Scout's 2D panel:
    press-classifying switches with a latch that a release clears, a three-button
    mode selector, one-bit centre toggles, and displays whose indicator bars
    move with the vessel's gimbal and balance indices. */
module GimbalCtrl {
  import opened Panel
  import opened Vessel

  // ---------------------------------------------------------------- latches

  /** The (ctrl, mode) pair a latching handler keeps between a press and the
      following release. ctrl 0 means "no switch held". */
  datatype Latch = Latch(ctrl: int, mode: int)

  /** The value both statics start with. */
  const RELEASED := Latch(0, 0)

  /** Three-way zone of a 2D press along the switch axis (pixels):
      1 below 10, 3 from 10 to 24, 2 from 25 on. */
  function Zone3(a: int): (c: int)
    ensures c == 1 <==> a < 10
    ensures c == 2 <==> 25 <= a
    ensures c == 3 <==> 10 <= a < 25
  {
    if a < 10 then 1 else if a >= 25 then 2 else 3
  }

  /** Two-way zone of a 2D press across the switch: 1 for the first 22 pixels. */
  function Zone2(b: int): (m: int)
    ensures m == 1 <==> b < 22
    ensures m == 2 <==> 22 <= b
  {
    if b < 22 then 1 else 2
  }

  /** Three-way zone of a virtual-cockpit press: strict thresholds 0.25, 0.75. */
  function Zone3VC(a: real): (c: int)
    ensures c == 1 <==> a < 0.25
    ensures c == 2 <==> 0.75 < a
    ensures c == 3 <==> 0.25 <= a <= 0.75
  {
    if a < 0.25 then 1 else if a > 0.75 then 2 else 3
  }

  /** Two-way zone of a virtual-cockpit press: 1 below 0.5. */
  function Zone2VC(b: real): (m: int)
    ensures m == 1 <==> b < 0.5
    ensures m == 2 <==> 0.5 <= b
  {
    if b < 0.5 then 1 else 2
  }

  /** Position of a zone along the switch axis: 1 (low end), 3 (middle), 2 (high end). */
  function ZoneRank(c: int): int
  {
    if c == 1 then 0 else if c == 3 then 1 else 2
  }

  /** The three zones partition the axis in order: moving along it never goes
      back to an earlier zone. */
  lemma Zone3Monotone(a: int, b: int)
    requires a <= b
    ensures ZoneRank(Zone3(a)) <= ZoneRank(Zone3(b))
  {
  }

  lemma Zone3VCMonotone(a: real, b: real)
    requires a <= b
    ensures ZoneRank(Zone3VC(a)) <= ZoneRank(Zone3VC(b))
  {
  }

  /** The boundary pixels fall into the documented neighbouring zone. */
  lemma Zone3Boundaries()
    ensures Zone3(9) == 1 && Zone3(10) == 3 && Zone3(24) == 3 && Zone3(25) == 2
    ensures Zone2(21) == 1 && Zone2(22) == 2
  {
  }

  /** The latch after one mouse event: a press latches the classified pair, a
      release without a press clears ctrl and keeps mode, and any other event
      (for instance a held button) leaves the latch as it was. */
  function Step(l: Latch, event: Event, press: Latch): (r: Latch)
    ensures LeftDown(event) ==> r == press
    ensures !LeftDown(event) && LeftUp(event) ==> r.ctrl == 0 && r.mode == l.mode
    ensures !Consumed(event) ==> r == l
  {
    if LeftDown(event) then press
    else if LeftUp(event) then l.(ctrl := 0)
    else l
  }

  /** A latch the handlers can hold: ctrl and mode in range, and a held switch
      always has a mode. */
  predicate LatchValid(l: Latch)
  {
    && 0 <= l.ctrl <= 3 && 0 <= l.mode <= 2
    && (l.ctrl != 0 ==> l.mode != 0)
  }

  /** What a 2D press latches on a switch whose three-way axis is a and whose
      two-way axis is b. */
  function Press2D(a: int, b: int): (l: Latch)
    ensures LatchValid(l) && l.ctrl != 0
  {
    Latch(Zone3(a), Zone2(b))
  }

  function PressVC(a: real, b: real): (l: Latch)
    ensures LatchValid(l) && l.ctrl != 0
  {
    Latch(Zone3VC(a), Zone2VC(b))
  }

  /** Every handler event keeps the latch valid, from the initial latch on. */
  lemma StepKeepsValid(l: Latch, event: Event, press: Latch)
    requires LatchValid(l) && LatchValid(press)
    ensures LatchValid(Step(l, event, press))
    ensures LatchValid(RELEASED)
  {
  }

  /** A press followed by a release leaves ctrl 0 and the pressed mode. */
  lemma PressThenRelease(l: Latch, down: Event, up: Event, press: Latch, other: Latch)
    requires LeftDown(down) && !LeftDown(up) && LeftUp(up)
    ensures Step(Step(l, down, press), up, other) == Latch(0, press.mode)
  {
  }

  /** The latch after a run of events, each with the pair its position would latch. */
  function Run(l: Latch, events: seq<Event>, presses: seq<Latch>): Latch
    requires |events| == |presses|
    decreases |events|
  {
    if events == [] then l
    else Run(Step(l, events[0], presses[0]), events[1..], presses[1..])
  }

  /** While the button is only held (no press or release bit), the latch and
      hence every request the handler makes stay as they were. */
  lemma {:induction false} HoldKeepsLatch(l: Latch, events: seq<Event>, presses: seq<Latch>)
    requires |events| == |presses|
    requires forall i :: 0 <= i < |events| ==> !Consumed(events[i])
    ensures Run(l, events, presses) == l
    decreases |events|
  {
    if events != [] {
      HoldKeepsLatch(l, events[1..], presses[1..]);
    }
  }

  /** The latch after a run that ends in a press is that press, whatever came before. */
  lemma {:induction false} LastPressWins(l: Latch, events: seq<Event>, presses: seq<Latch>)
    requires |events| == |presses| && |events| > 0
    requires LeftDown(events[|events| - 1])
    ensures Run(l, events, presses) == presses[|presses| - 1]
    decreases |events|
  {
    if |events| > 1 {
      LastPressWins(Step(l, events[0], presses[0]), events[1..], presses[1..]);
    }
  }

  // --------------------------------------------------------- mode selector

  /** Button of the yaw-gimbal mode selector that a 2D click at height my hits:
      1, 2 or 3, or 0 in the gaps 12..16 and 29..33. */
  function ModeButton2D(my: int): (k: int)
    ensures k == 1 <==> my < 12
    ensures k == 2 <==> 17 <= my < 29
    ensures k == 3 <==> 34 <= my
    ensures k == 0 <==> (12 <= my < 17 || 29 <= my < 34)
  {
    if my < 12 then 1
    else if my >= 17 && my < 29 then 2
    else if my >= 34 then 3
    else 0
  }

  /** The same for a virtual-cockpit click at normalised height y. */
  function ModeButtonVC(y: real): (k: int)
    ensures k == 1 <==> y < 0.25
    ensures k == 2 <==> 0.375 <= y < 0.625
    ensures k == 3 <==> 0.75 <= y
    ensures k == 0 <==> (0.25 <= y < 0.375 || 0.625 <= y < 0.75)
  {
    if y < 0.25 then 1
    else if y >= 0.375 && y < 0.625 then 2
    else if y >= 0.75 then 3
    else 0
  }

  /** The mode after a click on button k: selecting the active mode switches
      it off (0), selecting another mode activates it, a gap (k = 0) does nothing. */
  function SelectMode(mode: int, k: int): int
  {
    if k == 0 then mode else if mode == k then 0 else k
  }

  /** The click changes the mode exactly when it hits a button, so the
      handler's return value says whether the click hit one. */
  lemma SelectModeChanges(mode: int, k: int)
    requires 0 <= k <= 3
    ensures SelectMode(mode, k) != mode <==> k != 0
  {
  }

  /** The selector keeps the mode in 0..3. */
  lemma SelectModeInRange(mode: int, k: int)
    requires 0 <= mode <= 3 && 0 <= k <= 3
    ensures 0 <= SelectMode(mode, k) <= 3
  {
  }

  /** Two clicks on the same button restore the mode exactly when the mode
      was off or was that button's; after the first click the mode alternates. */
  lemma SelectModeTwice(mode: int, k: int)
    requires 1 <= k <= 3
    ensures SelectMode(SelectMode(mode, k), k) == mode <==> (mode == 0 || mode == k)
    ensures SelectMode(SelectMode(SelectMode(mode, k), k), k) == SelectMode(mode, k)
  {
  }

  /** Texture-u numerators of the three selector buttons: button i is lit
      (shifted by 12) when the mode is i + 1. */
  function ModeTus(mymode: int): (r: seq<real>)
    ensures |r| == 12
  {
    seq(12, m => (1029 + (m % 4 % 2) * 10 + (if mymode == m / 4 + 1 then 12 else 0)) as real)
  }

  /** Corner j of button i, as the redraw loop computes it. */
  lemma ModeTuAt(mymode: int, i: int, j: int)
    requires 0 <= i < 3 && 0 <= j < 4
    ensures ModeTus(mymode)[4 * i + j] == (1029 + (j % 2) * 10 + (if mymode == i + 1 then 12 else 0)) as real
  {
    assert (4 * i + j) / 4 == i && (4 * i + j) % 4 == j;
  }

  predicate LitInTus(tus: seq<real>, i: nat)
    requires i < 3 && |tus| == 12
  {
    tus[4 * i] == 1041.0
  }

  /** Button i is drawn lit exactly when the mode is i + 1: at most one button
      is lit, none when the mode is off, and every one of its corners agrees. */
  lemma ModeLitExactly(mymode: int)
    ensures forall i :: 0 <= i < 3 ==> (LitInTus(ModeTus(mymode), i) <==> mymode == i + 1)
    ensures forall i, i' :: 0 <= i < i' < 3 ==> !(LitInTus(ModeTus(mymode), i) && LitInTus(ModeTus(mymode), i'))
    ensures mymode == 0 ==> forall i :: 0 <= i < 3 ==> !LitInTus(ModeTus(mymode), i)
    ensures forall m :: 0 <= m < 12 ==>
      ModeTus(mymode)[m] == ModeTus(mymode)[4 * (m / 4)] + (m % 2 * 10) as real
  {
    var tus := ModeTus(mymode);
    forall i | 0 <= i < 3
      ensures LitInTus(tus, i) <==> mymode == i + 1
    {
      assert (4 * i) / 4 == i && (4 * i) % 4 == 0;
    }
  }

  // ---------------------------------------------------------- centre toggles

  /** The centre toggles' new mode. */
  function Toggle(mode: int): (r: int)
    ensures mode == 0 <==> r == 1
    ensures mode == 1 <==> r == 0
  {
    1 - mode
  }

  /** Toggling is an involution that keeps the mode in {0, 1} and always changes it. */
  lemma ToggleInvolution(mode: int)
    requires mode == 0 || mode == 1
    ensures Toggle(Toggle(mode)) == mode
    ensures Toggle(mode) != mode && (Toggle(mode) == 0 || Toggle(mode) == 1)
  {
  }

  /** ScramGimbalCntr's 2D handler as written: the new scram mode is computed
      from the main-engine mode, not from the scram mode. */
  function ScramCntrClick2D(mpmode: int, spmode: int): int
  {
    1 - mpmode
  }

  /** With the main mode 0 and the scram mode 1, a 2D click leaves the scram
      mode at 1, where the virtual-cockpit click (and Toggle) gives 0; and it
      never depends on the scram mode at all. */
  lemma ScramCntrClick2DIsNotToggle()
    ensures ScramCntrClick2D(0, 1) == 1 && Toggle(1) == 0
    ensures forall sp :: ScramCntrClick2D(0, sp) == 1
  {
  }

  // ---------------------------------------------------------- redraw values

  /** Texture-u numerator of corner j of a three-position gimbal switch drawn
      in state 0, 1 or 2 (state images are 16 pixels apart, 14 wide). */
  function SwitchTu(state: int, j: nat): real
  {
    (1054 + state * 16 + (j % 2) * 14) as real
  }

  /** The values a two- or one-switch redraw writes, vertex by vertex: corner
      j of switch i gets SwitchTu(states[i], j). */
  function SwitchTus(states: seq<int>): (r: seq<real>)
    ensures |r| == 4 * |states|
  {
    seq(4 * |states|, m requires 0 <= m < 4 * |states| => SwitchTu(states[m / 4], m % 4))
  }

  /** Each switch state has its own image: the drawn u of any corner gives the
      state back, and every image is 14 pixels wide. */
  lemma SwitchTuDecodes(state: int, j: nat)
    ensures (SwitchTu(state, j).Floor - 1054 - (j % 2) * 14) / 16 == state
    ensures SwitchTu(state, 1) - SwitchTu(state, 0) == 14.0
  {
  }

  /** The yaw switch's state-to-image table {0, 2, 1}: it swaps the two
      deflected images and is its own inverse. */
  function YSwitchMap(s: int): (r: int)
    requires 0 <= s <= 2
    ensures 0 <= r <= 2
  {
    [0, 2, 1][s]
  }

  lemma YSwitchMapInvolution(s: int)
    requires 0 <= s <= 2
    ensures YSwitchMap(YSwitchMap(s)) == s
    ensures YSwitchMap(0) == 0 && YSwitchMap(1) == 2 && YSwitchMap(2) == 1
  {
  }

  /** Texture-u numerators of the yaw switch block as the static mesh is built
      (its texture is turned by 90 degrees: u grows from the top to the bottom
      corners). */
  function YCtrlMeshTu(j: nat): real
    requires j < 4
  {
    [1054.0, 1054.0, 1068.0, 1068.0][j]
  }

  /** As written, the yaw switch redraw varies u from left to right; even in the
      rest state it does not reproduce the mesh it patches, and the two left
      corners, which share v, get the same u. */
  lemma YCtrlRedrawAcrossMesh()
    ensures SwitchTu(YSwitchMap(0), 1) == 1068.0 && YCtrlMeshTu(1) == 1054.0
    ensures forall s :: SwitchTu(s, 0) == SwitchTu(s, 2)
  {
  }

  /** The yaw switch value the mesh layout calls for: u along the j / 2 axis. */
  function YSwitchTuIntended(state: int, j: nat): real
  {
    (1054 + state * 16 + (j / 2) * 14) as real
  }

  /** In the rest state the intended values reproduce the built mesh, and every
      state's image stays 14 pixels tall in u along the switch's short side. */
  lemma YSwitchTuIntendedMatchesMesh()
    ensures forall j :: 0 <= j < 4 ==> YSwitchTuIntended(0, j) == YCtrlMeshTu(j)
    ensures forall s :: YSwitchTuIntended(s, 2) - YSwitchTuIntended(s, 0) == 14.0
  {
    assert YSwitchTuIntended(0, 0) == YCtrlMeshTu(0);
    assert YSwitchTuIntended(0, 1) == YCtrlMeshTu(1);
    assert YSwitchTuIntended(0, 2) == YCtrlMeshTu(2);
    assert YSwitchTuIntended(0, 3) == YCtrlMeshTu(3);
  }

  /** Texture-u numerator of corner j of a centre toggle in mode 0 or 1. */
  function CntrTus(mode: int): (r: seq<real>)
    ensures |r| == 4
  {
    seq(4, j => (1029 + (j % 2) * 10 + mode * 12) as real)
  }

  /** The two toggle modes have distinct images, 12 pixels apart. */
  lemma CntrTusDistinct(mode: int)
    ensures forall j :: 0 <= j < 4 ==> CntrTus(mode + 1)[j] == CntrTus(mode)[j] + 12.0
    ensures CntrTus(0) != CntrTus(1)
  {
    assert CntrTus(0)[0] != CntrTus(1)[0];
  }

  /** Panel coordinate of side `side` (0 or 1) of an indicator bar whose rest
      position starts at lo and is size pixels long, moved by idx - rest pixels. */
  function BarCoord(lo: real, size: real, idx: int, rest: int, side: nat): real
  {
    lo + side as real * size + (idx - rest) as real
  }

  /** Coordinates a display redraw writes for the bars of idxs (four corners
      each); `vertical` bars move in y (side j / 2), the others in x (side j % 2). */
  function BarCoords(lo: real, size: real, idxs: seq<int>, rest: int, vertical: bool): (r: seq<real>)
    ensures |r| == 4 * |idxs|
  {
    seq(4 * |idxs|, m requires 0 <= m < 4 * |idxs| =>
      BarCoord(lo, size, idxs[m / 4], rest, if vertical then m % 4 / 2 else m % 4 % 2))
  }

  /** Corner j of bar i, as the display redraw loops compute it. */
  lemma BarCoordsAt(lo: real, size: real, idxs: seq<int>, rest: int, vertical: bool, i: int, j: int)
    requires 0 <= i < |idxs| && 0 <= j < 4
    ensures BarCoords(lo, size, idxs, rest, vertical)[4 * i + j]
         == lo + (if vertical then j / 2 else j % 2) as real * size + (idxs[i] - rest) as real
  {
    var m := 4 * i + j;
    assert m / 4 == i && m % 4 == j;
    var side := if vertical then j / 2 else j % 2;
    assert BarCoords(lo, size, idxs, rest, vertical)[m] == BarCoord(lo, size, idxs[i], rest, side);
  }

  /** A bar keeps its size and its offset from the rest position is the index
      offset, so the drawn position gives the index back. */
  lemma BarCoordDecodes(lo: real, size: real, idx: int, rest: int)
    ensures BarCoord(lo, size, idx, rest, 1) - BarCoord(lo, size, idx, rest, 0) == size
    ensures (BarCoord(lo, size, idx, rest, 0) - lo).Floor + rest == idx
  {
  }

  /** The yaw switches' states as drawn: each vessel state through the
      {0, 2, 1} table. */
  function YStates(myswitch: seq<int>): seq<int>
    requires |myswitch| == 2 && forall i :: 0 <= i < 2 ==> 0 <= myswitch[i] <= 2
  {
    [YSwitchMap(myswitch[0]), YSwitchMap(myswitch[1])]
  }

  /** The hover-balance switch latch after one event: a press latches 1 (upper
      22 pixels) or 2, a release without a press clears it to 0, anything else
      keeps it. Unlike the gimbal latches, the release clears the whole latch. */
  function HoverStep(mode: int, event: Event, my: int): (r: int)
    ensures LeftDown(event) ==> r == Zone2(my)
    ensures !LeftDown(event) && LeftUp(event) ==> r == 0
    ensures !Consumed(event) ==> r == mode
  {
    if LeftDown(event) then Zone2(my)
    else if LeftUp(event) then 0
    else mode
  }

  /** The hover latch stays in 0..2, and a press followed by a release always
      ends at 0: the balance shift stops. */
  lemma HoverStepRange(mode: int, event: Event, my: int, down: Event, up: Event, my': int)
    requires 0 <= mode <= 2
    requires LeftDown(down) && !LeftDown(up) && LeftUp(up)
    ensures 0 <= HoverStep(mode, event, my) <= 2
    ensures HoverStep(HoverStep(mode, down, my), up, my') == 0
    ensures HoverStep(mode, down, my) != 0
  {
  }

  const BB_DY: real := 3.0
  const PM_Y0: real := 103.5
  const SC_Y0: real := 431.5

  // ================================================================ widgets

  /** Display of the two main-engine pitch-gimbal indices. */
  class PMainGimbalDisp {
    const dg: Scout
    const grp: array<Vertex>
    const vtxofs: nat

    ghost predicate Valid()
      reads dg
    {
      dg.Valid() && vtxofs + 8 <= grp.Length
    }

    constructor (v: Scout, g: array<Vertex>, ofs: nat)
      ensures dg == v && grp == g && vtxofs == ofs
    {
      dg, grp, vtxofs := v, g, ofs;
    }

    /** Moves each bar vertically by its gimbal index minus 35. */
    method Redraw2D() returns (redrawn: bool)
      requires Valid()
      modifies grp
      ensures grp[..] == Patch(old(grp[..]), vtxofs, Y, BarCoords(PM_Y0 - BB_DY, 2.0 * BB_DY, dg.mpgimbalidx, 35, true))
      ensures !redrawn
    {
      ghost var vals := BarCoords(PM_Y0 - BB_DY, 2.0 * BB_DY, dg.mpgimbalidx, 35, true);
      var i := 0;
      while i < 2
        invariant 0 <= i <= 2
        invariant Written(old(grp[..]), grp[..], vtxofs, Y, vals, 4 * i)
      {
        var lvl := dg.mpgimbalidx[i] - 35;
        var j := 0;
        while j < 4
          invariant 0 <= j <= 4
          invariant Written(old(grp[..]), grp[..], vtxofs, Y, vals, 4 * i + j)
        {
          var y := PM_Y0 - BB_DY + (j / 2) as real * (2.0 * BB_DY) + lvl as real;
          assert y == vals[4 * i + j] by { BarCoordsAt(PM_Y0 - BB_DY, 2.0 * BB_DY, dg.mpgimbalidx, 35, true, i, j); }
          ghost var pre := grp[..];
          grp[vtxofs + i * 4 + j] := Set(grp[vtxofs + i * 4 + j], Y, y);
          WrittenStep(old(grp[..]), pre, grp[..], vtxofs, Y, vals, 4 * i + j);
          j := j + 1;
        }
        i := i + 1;
      }
      WrittenPatch(old(grp[..]), grp[..], vtxofs, Y, vals);
      redrawn := false;
    }
  }

  /** The two main-engine pitch-gimbal switches. */
  class PMainGimbalCtrl {
    const dg: Scout
    const grp: array<Vertex>
    const vtxofs: nat
    /** The function-static latch of the 2D handler. */
    var latch2D: Latch
    /** The (separate) function-static latch of the virtual-cockpit handler. */
    var latchVC: Latch

    ghost predicate Valid()
      reads dg
    {
      dg.Valid() && vtxofs + 8 <= grp.Length
    }

    constructor (v: Scout, g: array<Vertex>, ofs: nat)
      ensures dg == v && grp == g && vtxofs == ofs
      ensures latch2D == RELEASED && latchVC == RELEASED
    {
      dg, grp, vtxofs := v, g, ofs;
      latch2D, latchVC := RELEASED, RELEASED;
    }

    /** Draws each switch in the image of its state. */
    method Redraw2D() returns (redrawn: bool)
      requires Valid()
      modifies grp
      ensures grp[..] == Patch(old(grp[..]), vtxofs, Tu, SwitchTus(dg.mpswitch))
      ensures !redrawn
    {
      ghost var vals := SwitchTus(dg.mpswitch);
      var i := 0;
      while i < 2
        invariant 0 <= i <= 2
        invariant Written(old(grp[..]), grp[..], vtxofs, Tu, vals, 4 * i)
      {
        var state := dg.mpswitch[i];
        var j := 0;
        while j < 4
          invariant 0 <= j <= 4
          invariant Written(old(grp[..]), grp[..], vtxofs, Tu, vals, 4 * i + j)
        {
          var tu := (1054 + state * 16 + (j % 2) * 14) as real;
          assert tu == vals[4 * i + j] by {
            assert (4 * i + j) / 4 == i && (4 * i + j) % 4 == j;
          }
          ghost var pre := grp[..];
          grp[vtxofs + i * 4 + j] := Set(grp[vtxofs + i * 4 + j], Tu, tu);
          WrittenStep(old(grp[..]), pre, grp[..], vtxofs, Tu, vals, 4 * i + j);
          j := j + 1;
        }
        i := i + 1;
      }
      WrittenPatch(old(grp[..]), grp[..], vtxofs, Tu, vals);
      redrawn := false;
    }

    /** Latches the press zone (x picks ctrl, y picks mode), clears ctrl on
        release, and asks the vessel to nudge the gimbal with the latch. */
    method ProcessMouse2D(event: Event, mx: int, my: int) returns (consumed: bool)
      modifies this`latch2D, dg`log
      ensures latch2D == Step(old(latch2D), event, Press2D(mx, my))
      ensures dg.log == old(dg.log) + [IncMainPGimbal(latch2D.ctrl, latch2D.mode)]
      ensures consumed == Consumed(event)
    {
      if LeftDown(event) {
        latch2D := Press2D(mx, my);
      } else if LeftUp(event) {
        latch2D := latch2D.(ctrl := 0);
      }
      dg.log := dg.log + [IncMainPGimbal(latch2D.ctrl, latch2D.mode)];
      consumed := LeftDown(event) || LeftUp(event);
    }

    method ProcessMouseVC(event: Event, p: Point) returns (consumed: bool)
      modifies this`latchVC, dg`log
      ensures latchVC == Step(old(latchVC), event, PressVC(p.x, p.y))
      ensures dg.log == old(dg.log) + [IncMainPGimbal(latchVC.ctrl, latchVC.mode)]
      ensures consumed == Consumed(event)
    {
      if LeftDown(event) {
        latchVC := PressVC(p.x, p.y);
      } else if LeftUp(event) {
        latchVC := latchVC.(ctrl := 0);
      }
      dg.log := dg.log + [IncMainPGimbal(latchVC.ctrl, latchVC.mode)];
      consumed := LeftDown(event) || LeftUp(event);
    }
  }

  /** Centre toggle of the main-engine pitch gimbal mode. */
  class PMainGimbalCntr {
    const dg: Scout
    const grp: array<Vertex>
    const vtxofs: nat

    ghost predicate Valid()
      reads dg
    {
      dg.Valid() && vtxofs + 4 <= grp.Length
    }

    constructor (v: Scout, g: array<Vertex>, ofs: nat)
      ensures dg == v && grp == g && vtxofs == ofs
    {
      dg, grp, vtxofs := v, g, ofs;
    }

    method Redraw2D() returns (redrawn: bool)
      requires Valid()
      modifies grp
      ensures grp[..] == Patch(old(grp[..]), vtxofs, Tu, CntrTus(dg.mpmode))
      ensures !redrawn
    {
      ghost var vals := CntrTus(dg.mpmode);
      var mode := dg.mpmode;
      var j := 0;
      while j < 4
        invariant 0 <= j <= 4
        invariant Written(old(grp[..]), grp[..], vtxofs, Tu, vals, j)
      {
        grp[vtxofs + j] := Set(grp[vtxofs + j], Tu, (1029 + (j % 2) * 10 + mode * 12) as real);
        j := j + 1;
      }
      WrittenPatch(old(grp[..]), grp[..], vtxofs, Tu, vals);
      redrawn := false;
    }

    method ProcessMouse2D(event: Event, mx: int, my: int) returns (consumed: bool)
      modifies dg`mpmode
      ensures dg.mpmode == Toggle(old(dg.mpmode))
      ensures consumed
    {
      dg.mpmode := 1 - dg.mpmode;
      consumed := true;
    }

    method ProcessMouseVC(event: Event, p: Point) returns (consumed: bool)
      modifies dg`mpmode
      ensures dg.mpmode == Toggle(old(dg.mpmode))
      ensures consumed
    {
      dg.mpmode := 1 - dg.mpmode;
      consumed := true;
    }
  }

  /** Display of the two main-engine yaw-gimbal indices (bars move in x). */
  class YMainGimbalDisp {
    const dg: Scout
    const grp: array<Vertex>
    const vtxofs: nat

    ghost predicate Valid()
      reads dg
    {
      dg.Valid() && vtxofs + 8 <= grp.Length
    }

    constructor (v: Scout, g: array<Vertex>, ofs: nat)
      ensures dg == v && grp == g && vtxofs == ofs
    {
      dg, grp, vtxofs := v, g, ofs;
    }

    method Redraw2D() returns (redrawn: bool)
      requires Valid()
      modifies grp
      ensures grp[..] == Patch(old(grp[..]), vtxofs, X, BarCoords(59.5 - 3.0, 6.0, dg.mygimbalidx, 35, false))
      ensures !redrawn
    {
      ghost var vals := BarCoords(59.5 - 3.0, 6.0, dg.mygimbalidx, 35, false);
      var i := 0;
      while i < 2
        invariant 0 <= i <= 2
        invariant Written(old(grp[..]), grp[..], vtxofs, X, vals, 4 * i)
      {
        var lvl := dg.mygimbalidx[i] - 35;
        var j := 0;
        while j < 4
          invariant 0 <= j <= 4
          invariant Written(old(grp[..]), grp[..], vtxofs, X, vals, 4 * i + j)
        {
          var x := 59.5 - 3.0 + (j % 2) as real * 6.0 + lvl as real;
          assert x == vals[4 * i + j] by { BarCoordsAt(59.5 - 3.0, 6.0, dg.mygimbalidx, 35, false, i, j); }
          ghost var pre := grp[..];
          grp[vtxofs + i * 4 + j] := Set(grp[vtxofs + i * 4 + j], X, x);
          WrittenStep(old(grp[..]), pre, grp[..], vtxofs, X, vals, 4 * i + j);
          j := j + 1;
        }
        i := i + 1;
      }
      WrittenPatch(old(grp[..]), grp[..], vtxofs, X, vals);
      redrawn := false;
    }
  }

  /** The two main-engine yaw-gimbal switches: the pitch switches' logic with
      the axes swapped (y picks ctrl, x picks mode). */
  class YMainGimbalCtrl {
    const dg: Scout
    const grp: array<Vertex>
    const vtxofs: nat
    var latch2D: Latch
    var latchVC: Latch

    ghost predicate Valid()
      reads dg
    {
      dg.Valid() && vtxofs + 8 <= grp.Length
    }

    constructor (v: Scout, g: array<Vertex>, ofs: nat)
      ensures dg == v && grp == g && vtxofs == ofs
      ensures latch2D == RELEASED && latchVC == RELEASED
    {
      dg, grp, vtxofs := v, g, ofs;
      latch2D, latchVC := RELEASED, RELEASED;
    }

    /** Draws each switch in the image its state maps to; the state indexes a
        three-entry table, so it must be 0, 1 or 2. */
    method Redraw2D() returns (redrawn: bool)
      requires Valid()
      requires forall i :: 0 <= i < 2 ==> 0 <= dg.myswitch[i] <= 2
      modifies grp
      ensures grp[..] == Patch(old(grp[..]), vtxofs, Tu, SwitchTus(YStates(dg.myswitch)))
      ensures !redrawn
    {
      ghost var vals := SwitchTus(YStates(dg.myswitch));
      var i := 0;
      while i < 2
        invariant 0 <= i <= 2
        invariant Written(old(grp[..]), grp[..], vtxofs, Tu, vals, 4 * i)
      {
        var state := YSwitchMap(dg.myswitch[i]);
        var j := 0;
        while j < 4
          invariant 0 <= j <= 4
          invariant Written(old(grp[..]), grp[..], vtxofs, Tu, vals, 4 * i + j)
        {
          var tu := (1054 + state * 16 + (j % 2) * 14) as real;
          assert tu == vals[4 * i + j] by {
            assert (4 * i + j) / 4 == i && (4 * i + j) % 4 == j;
          }
          ghost var pre := grp[..];
          grp[vtxofs + i * 4 + j] := Set(grp[vtxofs + i * 4 + j], Tu, tu);
          WrittenStep(old(grp[..]), pre, grp[..], vtxofs, Tu, vals, 4 * i + j);
          j := j + 1;
        }
        i := i + 1;
      }
      WrittenPatch(old(grp[..]), grp[..], vtxofs, Tu, vals);
      redrawn := false;
    }

    method ProcessMouse2D(event: Event, mx: int, my: int) returns (consumed: bool)
      modifies this`latch2D, dg`log
      ensures latch2D == Step(old(latch2D), event, Press2D(my, mx))
      ensures dg.log == old(dg.log) + [IncMainYGimbal(latch2D.ctrl, latch2D.mode)]
      ensures consumed == Consumed(event)
    {
      if LeftDown(event) {
        latch2D := Press2D(my, mx);
      } else if LeftUp(event) {
        latch2D := latch2D.(ctrl := 0);
      }
      dg.log := dg.log + [IncMainYGimbal(latch2D.ctrl, latch2D.mode)];
      consumed := LeftDown(event) || LeftUp(event);
    }

    method ProcessMouseVC(event: Event, p: Point) returns (consumed: bool)
      modifies this`latchVC, dg`log
      ensures latchVC == Step(old(latchVC), event, PressVC(p.y, p.x))
      ensures dg.log == old(dg.log) + [IncMainYGimbal(latchVC.ctrl, latchVC.mode)]
      ensures consumed == Consumed(event)
    {
      if LeftDown(event) {
        latchVC := PressVC(p.y, p.x);
      } else if LeftUp(event) {
        latchVC := latchVC.(ctrl := 0);
      }
      dg.log := dg.log + [IncMainYGimbal(latchVC.ctrl, latchVC.mode)];
      consumed := LeftDown(event) || LeftUp(event);
    }
  }

  /** The three-button yaw-gimbal mode selector. */
  class YMainGimbalMode {
    const dg: Scout
    const grp: array<Vertex>
    const vtxofs: nat

    ghost predicate Valid()
      reads dg
    {
      dg.Valid() && vtxofs + 12 <= grp.Length
    }

    constructor (v: Scout, g: array<Vertex>, ofs: nat)
      ensures dg == v && grp == g && vtxofs == ofs
    {
      dg, grp, vtxofs := v, g, ofs;
    }

    /** Lights the button of the active mode (texture offset 12), no other. */
    method Redraw2D() returns (redrawn: bool)
      requires Valid()
      modifies grp
      ensures grp[..] == Patch(old(grp[..]), vtxofs, Tu, ModeTus(dg.mymode))
      ensures !redrawn
    {
      ghost var vals := ModeTus(dg.mymode);
      var mode := dg.mymode;
      var i := 0;
      while i < 3
        invariant 0 <= i <= 3
        invariant Written(old(grp[..]), grp[..], vtxofs, Tu, vals, 4 * i)
      {
        var ofs := if mode == i + 1 then 12 else 0;
        var j := 0;
        while j < 4
          invariant 0 <= j <= 4
          invariant Written(old(grp[..]), grp[..], vtxofs, Tu, vals, 4 * i + j)
        {
          var tu := (1029 + (j % 2) * 10 + ofs) as real;
          assert tu == vals[4 * i + j] by { ModeTuAt(mode, i, j); }
          ghost var pre := grp[..];
          grp[vtxofs + i * 4 + j] := Set(grp[vtxofs + i * 4 + j], Tu, tu);
          WrittenStep(old(grp[..]), pre, grp[..], vtxofs, Tu, vals, 4 * i + j);
          j := j + 1;
        }
        i := i + 1;
      }
      WrittenPatch(old(grp[..]), grp[..], vtxofs, Tu, vals);
      redrawn := false;
    }

    /** Selects, or deselects, the mode of the button hit; reports a change. */
    method ProcessMouse2D(event: Event, mx: int, my: int) returns (changed: bool)
      modifies dg`mymode
      ensures dg.mymode == SelectMode(old(dg.mymode), ModeButton2D(my))
      ensures changed <==> dg.mymode != old(dg.mymode)
    {
      var mode := dg.mymode;
      if my < 12 {
        dg.mymode := if mode == 1 then 0 else 1;
      } else if my >= 17 && my < 29 {
        dg.mymode := if mode == 2 then 0 else 2;
      } else if my >= 34 {
        dg.mymode := if mode == 3 then 0 else 3;
      }
      changed := mode != dg.mymode;
    }

    method ProcessMouseVC(event: Event, p: Point) returns (changed: bool)
      modifies dg`mymode
      ensures dg.mymode == SelectMode(old(dg.mymode), ModeButtonVC(p.y))
      ensures changed <==> dg.mymode != old(dg.mymode)
    {
      var mode := dg.mymode;
      if p.y < 0.25 {
        dg.mymode := if mode == 1 then 0 else 1;
      } else if p.y >= 0.375 && p.y < 0.625 {
        dg.mymode := if mode == 2 then 0 else 2;
      } else if p.y >= 0.75 {
        dg.mymode := if mode == 3 then 0 else 3;
      }
      changed := mode != dg.mymode;
    }
  }

  /** Display of the hover-balance index (one bar, rest index 28). */
  class HoverBalanceDisp {
    const dg: Scout
    const grp: array<Vertex>
    const vtxofs: nat

    ghost predicate Valid()
      reads dg
    {
      dg.Valid() && vtxofs + 4 <= grp.Length
    }

    constructor (v: Scout, g: array<Vertex>, ofs: nat)
      ensures dg == v && grp == g && vtxofs == ofs
    {
      dg, grp, vtxofs := v, g, ofs;
    }

    method Redraw2D() returns (redrawn: bool)
      requires Valid()
      modifies grp
      ensures grp[..] == Patch(old(grp[..]), vtxofs, Y, BarCoords(327.5 - 3.0, 6.0, [dg.hbalanceidx], 28, true))
      ensures !redrawn
    {
      ghost var vals := BarCoords(327.5 - 3.0, 6.0, [dg.hbalanceidx], 28, true);
      var lvl := dg.hbalanceidx - 28;
      var j := 0;
      while j < 4
        invariant 0 <= j <= 4
        invariant Written(old(grp[..]), grp[..], vtxofs, Y, vals, j)
      {
        var y := 327.5 - 3.0 + (j / 2) as real * 6.0 + lvl as real;
        assert j / 4 == 0 && j % 4 == j;
        assert y == vals[j];
        grp[vtxofs + j] := Set(grp[vtxofs + j], Y, y);
        j := j + 1;
      }
      WrittenPatch(old(grp[..]), grp[..], vtxofs, Y, vals);
      redrawn := false;
    }
  }

  /** The hover-balance switch: a latch of the press half, cleared on release. */
  class HoverBalanceCtrl {
    const dg: Scout
    const grp: array<Vertex>
    const vtxofs: nat
    /** The function-static latch of the 2D handler. */
    var mode2D: int

    ghost predicate Valid()
      reads dg
    {
      dg.Valid() && vtxofs + 4 <= grp.Length
    }

    constructor (v: Scout, g: array<Vertex>, ofs: nat)
      ensures dg == v && grp == g && vtxofs == ofs && mode2D == 0
    {
      dg, grp, vtxofs := v, g, ofs;
      mode2D := 0;
    }

    method Redraw2D() returns (redrawn: bool)
      requires Valid()
      modifies grp
      ensures grp[..] == Patch(old(grp[..]), vtxofs, Tu, SwitchTus([dg.hbswitch]))
      ensures !redrawn
    {
      ghost var vals := SwitchTus([dg.hbswitch]);
      var state := dg.hbswitch;
      var j := 0;
      while j < 4
        invariant 0 <= j <= 4
        invariant Written(old(grp[..]), grp[..], vtxofs, Tu, vals, j)
      {
        var tu := (1054 + state * 16 + (j % 2) * 14) as real;
        assert j / 4 == 0 && j % 4 == j;
        assert tu == vals[j];
        grp[vtxofs + j] := Set(grp[vtxofs + j], Tu, tu);
        j := j + 1;
      }
      WrittenPatch(old(grp[..]), grp[..], vtxofs, Tu, vals);
      redrawn := false;
    }

    method ProcessMouse2D(event: Event, mx: int, my: int) returns (consumed: bool)
      modifies this`mode2D, dg`log
      ensures mode2D == HoverStep(old(mode2D), event, my)
      ensures dg.log == old(dg.log) + [ShiftHoverBalance(mode2D)]
      ensures consumed == Consumed(event)
    {
      if LeftDown(event) {
        mode2D := if my < 22 then 1 else 2;
      } else if LeftUp(event) {
        mode2D := 0;
      }
      dg.log := dg.log + [ShiftHoverBalance(mode2D)];
      consumed := LeftDown(event) || LeftUp(event);
    }
  }

  /** Centre toggle of the hover-balance mode. */
  class HoverBalanceCntr {
    const dg: Scout
    const grp: array<Vertex>
    const vtxofs: nat

    ghost predicate Valid()
      reads dg
    {
      dg.Valid() && vtxofs + 4 <= grp.Length
    }

    constructor (v: Scout, g: array<Vertex>, ofs: nat)
      ensures dg == v && grp == g && vtxofs == ofs
    {
      dg, grp, vtxofs := v, g, ofs;
    }

    method Redraw2D() returns (redrawn: bool)
      requires Valid()
      modifies grp
      ensures grp[..] == Patch(old(grp[..]), vtxofs, Tu, CntrTus(dg.hbmode))
      ensures !redrawn
    {
      ghost var vals := CntrTus(dg.hbmode);
      var mode := dg.hbmode;
      var j := 0;
      while j < 4
        invariant 0 <= j <= 4
        invariant Written(old(grp[..]), grp[..], vtxofs, Tu, vals, j)
      {
        grp[vtxofs + j] := Set(grp[vtxofs + j], Tu, (1029 + (j % 2) * 10 + mode * 12) as real);
        j := j + 1;
      }
      WrittenPatch(old(grp[..]), grp[..], vtxofs, Tu, vals);
      redrawn := false;
    }

    method ProcessMouse2D(event: Event, mx: int, my: int) returns (consumed: bool)
      modifies dg`hbmode
      ensures dg.hbmode == Toggle(old(dg.hbmode))
      ensures consumed
    {
      dg.hbmode := 1 - dg.hbmode;
      consumed := true;
    }
  }

  /** Display of the two scram-engine gimbal indices. */
  class ScramGimbalDisp {
    const dg: Scout
    const grp: array<Vertex>
    const vtxofs: nat

    ghost predicate Valid()
      reads dg
    {
      dg.Valid() && vtxofs + 8 <= grp.Length
    }

    constructor (v: Scout, g: array<Vertex>, ofs: nat)
      ensures dg == v && grp == g && vtxofs == ofs
    {
      dg, grp, vtxofs := v, g, ofs;
    }

    method Redraw2D() returns (redrawn: bool)
      requires Valid()
      modifies grp
      ensures grp[..] == Patch(old(grp[..]), vtxofs, Y, BarCoords(SC_Y0 - BB_DY, 2.0 * BB_DY, dg.scgimbalidx, 35, true))
      ensures !redrawn
    {
      ghost var vals := BarCoords(SC_Y0 - BB_DY, 2.0 * BB_DY, dg.scgimbalidx, 35, true);
      var i := 0;
      while i < 2
        invariant 0 <= i <= 2
        invariant Written(old(grp[..]), grp[..], vtxofs, Y, vals, 4 * i)
      {
        var lvl := dg.scgimbalidx[i] - 35;
        var j := 0;
        while j < 4
          invariant 0 <= j <= 4
          invariant Written(old(grp[..]), grp[..], vtxofs, Y, vals, 4 * i + j)
        {
          var y := SC_Y0 - BB_DY + (j / 2) as real * (2.0 * BB_DY) + lvl as real;
          assert y == vals[4 * i + j] by { BarCoordsAt(SC_Y0 - BB_DY, 2.0 * BB_DY, dg.scgimbalidx, 35, true, i, j); }
          ghost var pre := grp[..];
          grp[vtxofs + i * 4 + j] := Set(grp[vtxofs + i * 4 + j], Y, y);
          WrittenStep(old(grp[..]), pre, grp[..], vtxofs, Y, vals, 4 * i + j);
          j := j + 1;
        }
        i := i + 1;
      }
      WrittenPatch(old(grp[..]), grp[..], vtxofs, Y, vals);
      redrawn := false;
    }
  }

  /** The two scram-engine gimbal switches (same logic as the pitch switches). */
  class ScramGimbalCtrl {
    const dg: Scout
    const grp: array<Vertex>
    const vtxofs: nat
    var latch2D: Latch
    var latchVC: Latch

    ghost predicate Valid()
      reads dg
    {
      dg.Valid() && vtxofs + 8 <= grp.Length
    }

    constructor (v: Scout, g: array<Vertex>, ofs: nat)
      ensures dg == v && grp == g && vtxofs == ofs
      ensures latch2D == RELEASED && latchVC == RELEASED
    {
      dg, grp, vtxofs := v, g, ofs;
      latch2D, latchVC := RELEASED, RELEASED;
    }

    method Redraw2D() returns (redrawn: bool)
      requires Valid()
      modifies grp
      ensures grp[..] == Patch(old(grp[..]), vtxofs, Tu, SwitchTus(dg.sgswitch))
      ensures !redrawn
    {
      ghost var vals := SwitchTus(dg.sgswitch);
      var i := 0;
      while i < 2
        invariant 0 <= i <= 2
        invariant Written(old(grp[..]), grp[..], vtxofs, Tu, vals, 4 * i)
      {
        var state := dg.sgswitch[i];
        var j := 0;
        while j < 4
          invariant 0 <= j <= 4
          invariant Written(old(grp[..]), grp[..], vtxofs, Tu, vals, 4 * i + j)
        {
          var tu := (1054 + state * 16 + (j % 2) * 14) as real;
          assert tu == vals[4 * i + j] by {
            assert (4 * i + j) / 4 == i && (4 * i + j) % 4 == j;
          }
          ghost var pre := grp[..];
          grp[vtxofs + i * 4 + j] := Set(grp[vtxofs + i * 4 + j], Tu, tu);
          WrittenStep(old(grp[..]), pre, grp[..], vtxofs, Tu, vals, 4 * i + j);
          j := j + 1;
        }
        i := i + 1;
      }
      WrittenPatch(old(grp[..]), grp[..], vtxofs, Tu, vals);
      redrawn := false;
    }

    method ProcessMouse2D(event: Event, mx: int, my: int) returns (consumed: bool)
      modifies this`latch2D, dg`log
      ensures latch2D == Step(old(latch2D), event, Press2D(mx, my))
      ensures dg.log == old(dg.log) + [IncScramGimbal(latch2D.ctrl, latch2D.mode)]
      ensures consumed == Consumed(event)
    {
      if LeftDown(event) {
        latch2D := Press2D(mx, my);
      } else if LeftUp(event) {
        latch2D := latch2D.(ctrl := 0);
      }
      dg.log := dg.log + [IncScramGimbal(latch2D.ctrl, latch2D.mode)];
      consumed := LeftDown(event) || LeftUp(event);
    }

    method ProcessMouseVC(event: Event, p: Point) returns (consumed: bool)
      modifies this`latchVC, dg`log
      ensures latchVC == Step(old(latchVC), event, PressVC(p.x, p.y))
      ensures dg.log == old(dg.log) + [IncScramGimbal(latchVC.ctrl, latchVC.mode)]
      ensures consumed == Consumed(event)
    {
      if LeftDown(event) {
        latchVC := PressVC(p.x, p.y);
      } else if LeftUp(event) {
        latchVC := latchVC.(ctrl := 0);
      }
      dg.log := dg.log + [IncScramGimbal(latchVC.ctrl, latchVC.mode)];
      consumed := LeftDown(event) || LeftUp(event);
    }
  }

  /** Centre toggle of the scram-engine gimbal mode. */
  class ScramGimbalCntr {
    const dg: Scout
    const grp: array<Vertex>
    const vtxofs: nat

    ghost predicate Valid()
      reads dg
    {
      dg.Valid() && vtxofs + 4 <= grp.Length
    }

    constructor (v: Scout, g: array<Vertex>, ofs: nat)
      ensures dg == v && grp == g && vtxofs == ofs
    {
      dg, grp, vtxofs := v, g, ofs;
    }

    method Redraw2D() returns (redrawn: bool)
      requires Valid()
      modifies grp
      ensures grp[..] == Patch(old(grp[..]), vtxofs, Tu, CntrTus(dg.spmode))
      ensures !redrawn
    {
      ghost var vals := CntrTus(dg.spmode);
      var mode := dg.spmode;
      var j := 0;
      while j < 4
        invariant 0 <= j <= 4
        invariant Written(old(grp[..]), grp[..], vtxofs, Tu, vals, j)
      {
        grp[vtxofs + j] := Set(grp[vtxofs + j], Tu, (1029 + (j % 2) * 10 + mode * 12) as real);
        j := j + 1;
      }
      WrittenPatch(old(grp[..]), grp[..], vtxofs, Tu, vals);
      redrawn := false;
    }

    /** As written: the new scram mode is one minus the MAIN-engine mode. */
    method ProcessMouse2D(event: Event, mx: int, my: int) returns (consumed: bool)
      modifies dg`spmode
      ensures dg.spmode == ScramCntrClick2D(dg.mpmode, old(dg.spmode))
      ensures consumed
    {
      dg.spmode := 1 - dg.mpmode;
      consumed := true;
    }

    method ProcessMouseVC(event: Event, p: Point) returns (consumed: bool)
      modifies dg`spmode
      ensures dg.spmode == Toggle(old(dg.spmode))
      ensures consumed
    {
      dg.spmode := 1 - dg.spmode;
      consumed := true;
    }
  }
}
