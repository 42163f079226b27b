# Scout cockpit widgets

This project models the 2D-panel and virtual-cockpit widgets of the Orbiter
"Scout" vessel, and proves properties of that model. It covers:

- the gimbal and hover-balance switches, displays and mode selectors;
- the row of eight light and door switches;
- the landing-gear and nose-cone levers with their indicators;
- the master-warning (MWS) lamp;
- the dock-release button.

Each widget is a class over a shared vertex buffer (`grp: array<Vertex>`) at
its own offset (`vtxofs`). It reads the vessel and writes requests to it.

- A `Redraw2D` rewrites fields (`x`, `y`, `tu` or `tv`) of its vertices in
  place, and is proved to leave the buffer as a specification function of the
  old buffer and the vessel state gives it:
  - most widgets rewrite one field, giving `Patch(old buffer, ...)` of a
    sequence of values;
  - the nose-cone lever and the dock-release button rewrite y and then v,
    giving a patch of a patch;
  - the switch row redraws only switches whose cached state differs, giving
    `CachedRedraw` of the old buffer and cache;
  - the MWS lamp patches its quad only when its lit state changes, and leaves
    the buffer as it was otherwise.
- Each mouse handler is proved to leave its latch, the vessel mode field it
  sets (the gimbal and hover modes of the centre toggles and the yaw-mode
  selector), and the vessel's request log as a pure function of the event,
  the click position and the state before the event (the latch, the mode,
  the door status or the cached switch states).
- Lemmas about those functions state what the source promises: zones,
  latches, mode selection, the image each state shows, what the static mesh
  shows, and click semantics.

Modules:

- `Panel`: vertices, patches, mouse-event bits and `Option`.
- `Vessel`: the vessel state the widgets see, and the `Request` log.
- One module per source file: `GimbalCtrl`, `SwitchArray`, `GearLever`,
  `NconeLever`, `MwsButton` and `UndockBtn`.

Texture coordinates are kept as pixel numerators. The source divides them by
the texture width or height before storing them.

## Model

| member | source | states |
|---|---|---|
| GimbalCtrl.Zone3 | Code/Scout/GimbalCtrl.cpp:144-146 | the 2D switch axis splits into zone 1 below 10, zone 2 from 25 on and zone 3 between, each as an if-and-only-if |
| GimbalCtrl.Zone2 | Code/Scout/GimbalCtrl.cpp:147-148 | the 2D cross axis gives mode 1 exactly below 22 and mode 2 from 22 on |
| GimbalCtrl.Zone3VC | Code/Scout/GimbalCtrl.cpp:163-165 | the cockpit axis gives zone 1 below 0.25, zone 2 above 0.75 and zone 3 on [0.25, 0.75] |
| GimbalCtrl.Zone2VC | Code/Scout/GimbalCtrl.cpp:166-167 | the cockpit cross axis gives mode 1 exactly below 0.5 |
| GimbalCtrl.Zone3Monotone | Code/Scout/GimbalCtrl.cpp:144-146 | along the 2D axis the zones come in the order 1, 3, 2 and never go back |
| GimbalCtrl.Zone3VCMonotone | Code/Scout/GimbalCtrl.cpp:163-165 | the same ordering holds for the cockpit zones |
| GimbalCtrl.Zone3Boundaries | Code/Scout/GimbalCtrl.cpp:144-148 | pixels 9/10, 24/25 and 21/22 fall on the documented sides of each threshold |
| GimbalCtrl.Step | Code/Scout/GimbalCtrl.cpp:140-151 | a press latches the classified pair; a release without a press clears ctrl and keeps mode; any other event keeps the latch |
| GimbalCtrl.Press2D | Code/Scout/GimbalCtrl.cpp:143-148 | a 2D press always latches a held switch (ctrl not 0) with a mode, in range |
| GimbalCtrl.PressVC | Code/Scout/GimbalCtrl.cpp:162-167 | a cockpit press always latches a held switch with a mode, in range |
| GimbalCtrl.StepKeepsValid | Code/Scout/GimbalCtrl.cpp:140-151 | starting from the released latch, every event keeps ctrl in 0..3 and mode in 0..2, and a held switch always has a mode |
| GimbalCtrl.PressThenRelease | Code/Scout/GimbalCtrl.cpp:142-151 | a press then a release leaves ctrl 0 with the pressed mode |
| GimbalCtrl.HoldKeepsLatch | Code/Scout/GimbalCtrl.cpp:140-155 | any run of events without a press or release bit leaves the latch unchanged, so each request repeats the previous one |
| GimbalCtrl.LastPressWins | Code/Scout/GimbalCtrl.cpp:140-151 | after a run ending in a press the latch is that press, whatever came before |
| GimbalCtrl.ModeButton2D | Code/Scout/GimbalCtrl.cpp:441-443 | buttons 1, 2 and 3 own y below 12, 17..28 and from 34; the gaps 12..16 and 29..33 hit no button |
| GimbalCtrl.ModeButtonVC | Code/Scout/GimbalCtrl.cpp:453-455 | the same split for cockpit y: below 0.25, [0.375, 0.625) and from 0.75 |
| GimbalCtrl.SelectModeChanges | Code/Scout/GimbalCtrl.cpp:437-445 | a click changes the mode exactly when it hits a button, so the handler's return value says whether it hit one |
| GimbalCtrl.SelectModeInRange | Code/Scout/GimbalCtrl.cpp:437-445 | the mode stays in 0..3 |
| GimbalCtrl.SelectModeTwice | Code/Scout/GimbalCtrl.cpp:441-443 | two clicks on one button restore the mode exactly when it was off or that button's; from the first click on, the mode alternates |
| GimbalCtrl.ModeLitExactly | Code/Scout/GimbalCtrl.cpp:415-425 | button i is drawn lit exactly when the mode is i + 1, at most one is lit, none when the mode is off, and every corner of a button agrees |
| GimbalCtrl.Toggle | Code/Scout/GimbalCtrl.cpp:213-225 | a centre toggle turns mode 0 into 1 and 1 into 0 |
| GimbalCtrl.ToggleInvolution | Code/Scout/GimbalCtrl.cpp:213-225 | toggling twice restores the mode; a toggle always changes a 0/1 mode and keeps it in 0/1 |
| GimbalCtrl.ScramCntrClick2DIsNotToggle | Code/Scout/GimbalCtrl.cpp:778-790 | the scram toggle's 2D handler, as written, ignores the scram mode; with main mode 0 it leaves scram mode 1 at 1, where the cockpit handler gives 0 |
| GimbalCtrl.SwitchTuDecodes | Code/Scout/GimbalCtrl.cpp:114-123 | the drawn u of any corner gives the switch state back, and every state image is 14 pixels wide |
| GimbalCtrl.YSwitchMap | Code/Scout/GimbalCtrl.cpp:318-319 | the {0, 2, 1} table maps 0..2 into 0..2 |
| GimbalCtrl.YSwitchMapInvolution | Code/Scout/GimbalCtrl.cpp:318-319 | the table swaps the two deflected images and is its own inverse |
| GimbalCtrl.YCtrlRedrawAcrossMesh | Code/Scout/GimbalCtrl.cpp:290-324 | as written, the yaw-switch redraw does not reproduce the rest-state mesh, and it gives the two left corners, which share v, the same u |
| GimbalCtrl.YSwitchTuIntendedMatchesMesh | Code/Scout/GimbalCtrl.cpp:295-302 | an image varying u along j / 2 reproduces the built mesh in the rest state and keeps each image 14 pixels across |
| GimbalCtrl.CntrTusDistinct | Code/Scout/GimbalCtrl.cpp:203-209 | the two toggle images are distinct, 12 pixels apart at every corner |
| GimbalCtrl.BarCoordDecodes | Code/Scout/GimbalCtrl.cpp:61-70 | an indicator bar keeps its size, and its drawn position minus the rest position gives the gimbal index back |
| GimbalCtrl.HoverStep | Code/Scout/GimbalCtrl.cpp:530-543 | a press latches 1 in the upper 22 pixels and 2 below them; a release without a press clears the latch to 0; any other event keeps it |
| GimbalCtrl.HoverStepRange | Code/Scout/GimbalCtrl.cpp:530-543 | the hover latch stays in 0..2, a press never latches 0, and a press then a release always stops the shift |
| GimbalCtrl.PMainGimbalDisp.Redraw2D | Code/Scout/GimbalCtrl.cpp:61-70 | the y of both pitch bars is rewritten to their rest coordinates offset by the gimbal index minus 35; nothing else changes |
| GimbalCtrl.PMainGimbalCtrl.constructor | Code/Scout/GimbalCtrl.cpp:142 | both handler latches start released (0, 0) |
| GimbalCtrl.PMainGimbalCtrl.Redraw2D | Code/Scout/GimbalCtrl.cpp:114-123 | each switch's u is rewritten to the image of its state |
| GimbalCtrl.PMainGimbalCtrl.ProcessMouse2D | Code/Scout/GimbalCtrl.cpp:140-155 | the 2D latch steps with the press pair (x axis three-way, y two-way); one IncMainPGimbal request is made with the latch; the event is consumed iff it has a press or release bit |
| GimbalCtrl.PMainGimbalCtrl.ProcessMouseVC | Code/Scout/GimbalCtrl.cpp:159-174 | the same for the cockpit handler, with its own latch and its thresholds |
| GimbalCtrl.PMainGimbalCntr.Redraw2D | Code/Scout/GimbalCtrl.cpp:203-209 | the toggle's u is rewritten to the image of the main mode |
| GimbalCtrl.PMainGimbalCntr.ProcessMouse2D | Code/Scout/GimbalCtrl.cpp:213-217 | a click toggles the main-engine mode and is consumed |
| GimbalCtrl.PMainGimbalCntr.ProcessMouseVC | Code/Scout/GimbalCtrl.cpp:221-225 | the same in the cockpit |
| GimbalCtrl.YMainGimbalDisp.Redraw2D | Code/Scout/GimbalCtrl.cpp:260-269 | the x of both yaw bars is rewritten to their rest coordinates offset by the gimbal index minus 35 |
| GimbalCtrl.YMainGimbalCtrl.constructor | Code/Scout/GimbalCtrl.cpp:343-344 | both handler latches start released |
| GimbalCtrl.YMainGimbalCtrl.Redraw2D | Code/Scout/GimbalCtrl.cpp:314-324 | as written, each yaw switch's u is rewritten to the image of its state through the {0, 2, 1} table; the states must index that table |
| GimbalCtrl.YMainGimbalCtrl.ProcessMouse2D | Code/Scout/GimbalCtrl.cpp:341-356 | the latch steps with the axes swapped (y three-way, x two-way); one IncMainYGimbal request is made with it; consumed iff press or release |
| GimbalCtrl.YMainGimbalCtrl.ProcessMouseVC | Code/Scout/GimbalCtrl.cpp:360-375 | the same for the cockpit handler, also with the axes swapped |
| GimbalCtrl.YMainGimbalMode.Redraw2D | Code/Scout/GimbalCtrl.cpp:415-425 | the three buttons' u are rewritten so that exactly the selected one shows lit |
| GimbalCtrl.YMainGimbalMode.ProcessMouse2D | Code/Scout/GimbalCtrl.cpp:437-445 | the yaw mode becomes the selection for the button hit, and the result says whether the mode changed |
| GimbalCtrl.YMainGimbalMode.ProcessMouseVC | Code/Scout/GimbalCtrl.cpp:449-457 | the same for cockpit clicks |
| GimbalCtrl.HoverBalanceDisp.Redraw2D | Code/Scout/GimbalCtrl.cpp:485-491 | the balance bar's y is rewritten to its rest coordinates offset by the balance index minus 28 |
| GimbalCtrl.HoverBalanceCtrl.constructor | Code/Scout/GimbalCtrl.cpp:532 | the handler latch starts at 0 |
| GimbalCtrl.HoverBalanceCtrl.Redraw2D | Code/Scout/GimbalCtrl.cpp:520-526 | the switch's u is rewritten to the image of the hover switch state |
| GimbalCtrl.HoverBalanceCtrl.ProcessMouse2D | Code/Scout/GimbalCtrl.cpp:530-543 | the latch steps as HoverStep; one ShiftHoverBalance request is made with it; consumed iff press or release |
| GimbalCtrl.HoverBalanceCntr.Redraw2D | Code/Scout/GimbalCtrl.cpp:572-578 | the toggle's u is rewritten to the image of the hover mode |
| GimbalCtrl.HoverBalanceCntr.ProcessMouse2D | Code/Scout/GimbalCtrl.cpp:582-586 | a click toggles the hover mode and is consumed |
| GimbalCtrl.ScramGimbalDisp.Redraw2D | Code/Scout/GimbalCtrl.cpp:620-629 | the y of both scram bars is rewritten to their rest coordinates offset by the gimbal index minus 35 |
| GimbalCtrl.ScramGimbalCtrl.constructor | Code/Scout/GimbalCtrl.cpp:699-700 | both handler latches start released |
| GimbalCtrl.ScramGimbalCtrl.Redraw2D | Code/Scout/GimbalCtrl.cpp:672-681 | each scram switch's u is rewritten to the image of its state |
| GimbalCtrl.ScramGimbalCtrl.ProcessMouse2D | Code/Scout/GimbalCtrl.cpp:697-712 | the latch steps with the press pair; one IncScramGimbal request is made with it; consumed iff press or release |
| GimbalCtrl.ScramGimbalCtrl.ProcessMouseVC | Code/Scout/GimbalCtrl.cpp:716-731 | the same for the cockpit handler |
| GimbalCtrl.ScramGimbalCntr.Redraw2D | Code/Scout/GimbalCtrl.cpp:760-766 | the toggle's u is rewritten to the image of the scram mode |
| GimbalCtrl.ScramGimbalCntr.ProcessMouse2D | Code/Scout/GimbalCtrl.cpp:778-782 | as written, a 2D click sets the scram mode to one minus the main mode, and is consumed |
| GimbalCtrl.ScramGimbalCntr.ProcessMouseVC | Code/Scout/GimbalCtrl.cpp:786-790 | a cockpit click toggles the scram mode, and is consumed |
| SwitchArray.QuadIndicesLocal | Code/Scout/SwitchArray.cpp:48-63 | every index names a vertex of the row, and switch i's two triangles use only its own four corners |
| SwitchArray.SwitchArrayTusDecode | Code/Scout/SwitchArray.cpp:90 | the two switch images differ; the first corner's u is 989 minus 25 times the state, so the image gives the state back |
| SwitchArray.MeshShowsOff | Code/Scout/SwitchArray.cpp:55-60 | the mesh as built shows every switch off |
| SwitchArray.CachedRedrawNoChange | Code/Scout/SwitchArray.cpp:86-91 | when the vessel agrees with the cache, a redraw leaves the buffer unchanged |
| SwitchArray.CachedRedrawShows | Code/Scout/SwitchArray.cpp:70-94 | after a redraw from a faithful cache, each visited switch shows its vessel state and each other switch its cached one |
| SwitchArray.CachedRedrawFaithful | Code/Scout/SwitchArray.cpp:70-94 | a full redraw keeps the cache faithful: every switch then shows the vessel's state |
| SwitchArray.Bit | Code/Scout/SwitchArray.cpp:80-84 | a flag becomes state 1 exactly when it is set, and 0 exactly when it is not |
| SwitchArray.ButtonStatesLights | Code/Scout/SwitchArray.cpp:76-80 | switches 0 to 3 are on exactly while their light is on |
| SwitchArray.ButtonStatesDoors | Code/Scout/SwitchArray.cpp:81-84 | switches 4 to 7 are on exactly while the radiator, radiator cover, hatch and ladder (in that order) are open or opening |
| SwitchArray.ButtonStatesBinary | Code/Scout/SwitchArray.cpp:75-84 | every switch state is 0 or 1 |
| SwitchArray.PickState | Code/Scout/SwitchArray.cpp:104 | a click asks for state 0 exactly when it is in the upper 19 pixels |
| SwitchArray.SwitchClickRequests | Code/Scout/SwitchArray.cpp:105-115 | every click asks its own switch for exactly the state clicked; a door is only told to open or to close |
| SwitchArray.SwitchClickInjective | Code/Scout/SwitchArray.cpp:105-115 | different clicks make different requests |
| SwitchArray.SwitchHit | Code/Scout/SwitchArray.cpp:98-118 | a click of any kind asks for something exactly when it is off the 6-pixel gaps and on the half the switch does not show; it then asks that switch for that half's state |
| SwitchArray.SwitchArray.constructor | Code/Scout/SwitchArray.cpp:31-33 | the cache of eight states is allocated |
| SwitchArray.SwitchArray.Reset2D | Code/Scout/SwitchArray.cpp:37-41 | every cached state becomes 0 |
| SwitchArray.SwitchArray.AddMeshData2D | Code/Scout/SwitchArray.cpp:45-66 | the vertex and index lists built are exactly the switch-row mesh and its two-triangles-per-quad indices |
| SwitchArray.SwitchArray.Redraw2D | Code/Scout/SwitchArray.cpp:70-94 | exactly the switches whose vessel state differs from the cache are re-textured for that state, and the cache then holds the vessel's states |
| SwitchArray.SwitchArray.RedrawSwitch | Code/Scout/SwitchArray.cpp:86-91 | switch i is re-textured only when its cached state differs, and its cache entry becomes the state |
| SwitchArray.SwitchArray.DrawSwitch | Code/Scout/SwitchArray.cpp:89-90 | the four corners of switch i get the u of the state's image |
| SwitchArray.SwitchArray.ProcessMouse2D | Code/Scout/SwitchArray.cpp:98-118 | the request made, and the result, are the ones SwitchHit gives for the cached states |
| SwitchArray.RedrawTwiceNoChange | Code/Scout/SwitchArray.cpp:70-94 | a second redraw with the vessel unchanged changes nothing |
| SwitchArray.ResetMeshFaithful | Code/Scout/SwitchArray.cpp:37-66 | the built mesh with the reset cache is faithful, so every later redraw leaves each switch showing its vessel state |
| GearLever.LeverOnMesh | Code/Scout/GearLever.cpp:34-60 | the mesh is built down: a down redraw keeps it, and an up redraw collapses the quad onto its upper edge, changing nothing else |
| GearLever.GearClick | Code/Scout/GearLever.cpp:64-74 | while the gear is up or going up, a click with y under 151 asks to lower it; while it is down or going down, a click with y over 46 asks to raise it; no other click asks anything |
| GearLever.GearClickReverses | Code/Scout/GearLever.cpp:64-74 | a request always moves the lever to the other position, and a click on y 47..150 always makes one |
| GearLever.GearLever.Redraw2D | Code/Scout/GearLever.cpp:52-60 | only the y of the two lower corners is rewritten, to the gear's lever position |
| GearLever.GearLever.ProcessMouse2D | Code/Scout/GearLever.cpp:64-74 | the log gains the GearClick request, if any; the event is not consumed |
| GearLever.GearXofs | Code/Scout/GearLever.cpp:118-122 | the image column is 1018 for up and 1030 for down; a moving gear alternates 1042 and 1020 |
| GearLever.GearXofsShowsState | Code/Scout/GearLever.cpp:118-122 | up and down are told apart at any phase, a moving gear blinks, and neither phase of a moving gear looks like up or down |
| GearLever.GearIndicatorImages | Code/Scout/GearLever.cpp:86-110 | the built indicator shows the gear up, and the three lamps always show one image |
| GearLever.GearIndicator.Redraw2D | Code/Scout/GearLever.cpp:114-129 | the twelve corners' u are rewritten to the gear state's image for this blink phase |
| NconeLever.NoseLeverImage | Code/Scout/NconeLever.cpp:46-55 | in both positions the quad spans as many texture rows as panel rows; the two positions do not overlap; their texture strips are adjacent |
| NconeLever.NoseLeverMeshIsUp | Code/Scout/NconeLever.cpp:26-40 | the mesh as built shows the lever up |
| NconeLever.NoseClick | Code/Scout/NconeLever.cpp:62-71 | while the cone is closed or closing, a click with y under 58 asks to open it; while it is open or opening, a click with y over 36 asks to close it; no other click asks anything |
| NconeLever.NoseClickReverses | Code/Scout/NconeLever.cpp:62-71 | a request always moves the lever, and a click on y 37..57 always makes one |
| NconeLever.NoseconeLever.Redraw2D | Code/Scout/NconeLever.cpp:44-58 | the four corners' y and then v are rewritten to the lever rectangle for the cone's state |
| NconeLever.NoseLeverRedrawIdempotent | Code/Scout/NconeLever.cpp:44-58 | the redraw depends only on the lever's position: a second redraw in the same position changes nothing |
| NconeLever.NoseconeLever.ProcessMouse2D | Code/Scout/NconeLever.cpp:62-71 | the log gains the NoseClick request, if any; not consumed |
| NconeLever.NoseXofs | Code/Scout/NconeLever.cpp:115-119 | image column 1014 when closed and 1027 when open; a moving cone alternates 1040 and 1014 |
| NconeLever.NoseXofsShowsState | Code/Scout/NconeLever.cpp:115-119 | the open image is shown exactly when the cone is open; a moving cone blinks, its lit image appears only then, and in its dark phase it looks closed |
| NconeLever.NoseIndicatorImages | Code/Scout/NconeLever.cpp:82-107 | the built indicator shows the open image, and the four arrows always show one image |
| NconeLever.NoseconeIndicator.Redraw2D | Code/Scout/NconeLever.cpp:111-126 | the twelve corners' u are rewritten to the cone state's image for this blink phase |
| MwsButton.MwsLight | Code/Scout/MwsButton.cpp:62-66 | the lamp is lit exactly when the warning is active and the blink phase is on |
| MwsButton.MwsMeshImages | Code/Scout/MwsButton.cpp:35-49 | the mesh is built dark, so a dark redraw keeps it; a lit one gives the quad as many texture rows as its height |
| MwsButton.VcEditImages | Code/Scout/MwsButton.cpp:88-111 | every cockpit edit spans 0.125 in u over the same four vertices, and the lit image lies right of the dark one |
| MwsButton.MWSButton.constructor | Code/Scout/MwsButton.cpp:26-31 | the lamp starts not active and drawn dark |
| MwsButton.MWSButton.Reset2D | Code/Scout/MwsButton.cpp:53-56 | the lamp is marked not active and drawn dark |
| MwsButton.MWSButton.Redraw2D | Code/Scout/MwsButton.cpp:60-76 | the lower corners' v are rewritten only when the lit state changes, and the cache then holds it |
| MwsButton.MWSButton.ProcessMouse2D | Code/Scout/MwsButton.cpp:80-84 | any event makes one MWSReset request and is not consumed |
| MwsButton.MWSButton.RedrawVC | Code/Scout/MwsButton.cpp:88-111 | a cockpit edit for the new lit state is returned only when that state changes, using the cache shared with the 2D redraw |
| MwsButton.RedrawFrame | Code/Scout/MwsButton.cpp:60-111 | in one frame, a 2D redraw followed by a cockpit redraw with the same blink phase: the 2D one does the patch, and the shared cache leaves the cockpit one nothing to edit |
| UndockBtn.UndockOnMesh | Code/Scout/UndockBtn.cpp:35-68 | the mesh is built pressed: a pressed redraw keeps it; a released one gives the quad neither height nor texture rows |
| UndockBtn.UndockClick | Code/Scout/UndockBtn.cpp:72-77 | the button is drawn pressed exactly when the event is exactly a left press, and exactly then it asks to undock port 0 |
| UndockBtn.UndockPressRelease | Code/Scout/UndockBtn.cpp:72-77 | a release draws it released and asks nothing; a press with another bit set counts as no press |
| UndockBtn.UndockButton.constructor | Code/Scout/UndockBtn.cpp:28-31 | the button starts released |
| UndockBtn.UndockButton.Reset2D | Code/Scout/UndockBtn.cpp:54-57 | the button is marked released |
| UndockBtn.UndockButton.Redraw2D | Code/Scout/UndockBtn.cpp:61-68 | the lower corners' y and v are rewritten to the pressed or released position |
| UndockBtn.UndockRedrawnIdempotent | Code/Scout/UndockBtn.cpp:61-68 | the redraw depends only on whether the button is pressed: a second redraw in the same state changes nothing |
| UndockBtn.UndockButton.ProcessMouse2D | Code/Scout/UndockBtn.cpp:72-77 | the pressed flag and the log follow UndockClick; every event is consumed |
| Panel.PatchAt | Code/Scout/GimbalCtrl.cpp:61-70 | a redraw patch rewrites field f of exactly its vertex range, vertex by vertex, and leaves every other vertex alone |
| Panel.PatchOnlyField | Code/Scout/GimbalCtrl.cpp:61-70 | a patch never changes any other field |
| Panel.PatchIdempotent | Code/Scout/GimbalCtrl.cpp:61-70 | redrawing twice from the same vessel state leaves what one redraw left |
| Panel.PatchPairIdempotent | Code/Scout/UndockBtn.cpp:61-68 | a redraw that patches two different fields one after the other, done twice, leaves what doing it once left |

## Left out

- Static meshes are modelled only where a property needs them. These are the switch row, the gear lever and indicator, the nose lever and indicator, the MWS lamp and the undock button. The other widgets' static vertex tables (`AddMeshData2D` in GimbalCtrl.cpp) are not modelled, apart from the yaw-switch u column used by the finding below.
- Mesh construction through the host (`AddGeometry`, `oapiEditMeshGroup`) is host I/O. `SwitchArray.AddMeshData2D` returns its lists instead. `MWSButton.RedrawVC` returns the group edit it would apply. The cockpit group id `MESHGRP_VC_STATUSIND` is not kept.
- The cockpit redraws that only blit a surface (`PMainGimbalDisp::RedrawVC`, `YMainGimbalDisp::RedrawVC` and `ScramGimbalDisp::RedrawVC`) are left out, as are those that do nothing but read state or call `SetVC_YGimbalMode` / `SetVC_ScramGimbalMode`. The `SetVC_*` calls belong to the vessel, which is not part of this model.
- Redraw triggers (`oapiTriggerPanelRedrawArea`, `oapiVCTriggerRedrawArea`) are left out. So are the boolean results of the vessel's `Inc*Gimbal` and `ShiftHoverBalance`, which only decide those triggers.
- What the vessel does with a request is not part of this model. Every vessel call becomes a `Request` appended to `dg.log`.
- Floating point is modelled as exact reals. Panel coordinates are written as the source's `float` constants. The division of u and v by the texture size is left out: texture coordinates are kept as pixel numerators.
- The z coordinate and the normals of the vertices are left out; no widget writes them.
- The blink phase is a `blinkOn` parameter of the redraws. The gear and nose-cone indicators compute it as `modf(simt + tofs) < 0.5`, with a random `tofs` drawn in each constructor (GearLever.cpp:81, NconeLever.cpp:77). The MWS lamp computes it as `modf(simt) < 0.5`, with no offset, in both its redraws. The simulation clock and the random offset are not modelled.
- The texture height `PANEL2D_TEXH` is not defined in the files modelled. It is a `texh` field of the widgets that need it.
- The function-static latches of the gimbal and hover handlers are fields of each widget object (`latch2D`, `latchVC`). In the source one static is shared by all instances of a class; the Scout creates one instance of each.
- The mouse-event bits are the Orbiter SDK's values (`PANEL_MOUSE_LBDOWN` 0x01, `PANEL_MOUSE_LBUP` 0x04). The header that defines them is not part of this model.
- SwitchArray.SwitchArray.ProcessMouse2D: requires `mx` in the row's 256-pixel mouse area, because the source indexes the cache with `mx / 32` unchecked; clicks outside that area are not modelled.
- GimbalCtrl.YMainGimbalCtrl.Redraw2D: requires each yaw switch state to be 0, 1 or 2, because the source indexes its three-entry table with it unchecked.
- MwsButton.MWSButton: the `active` field is kept, although nothing reads it.
- DoorStatus values in the model are the four the widgets test (closed, open, closing, opening).

## Findings

| source | as written | input that shows it | evidently intended | confidence | as-written member | corrected member |
|---|---|---|---|---|---|---|
| Code/Scout/GimbalCtrl.cpp:778-782 | the 2D handler of the scramjet-gimbal centre toggle sets `spmode = 1 - mpmode`, computed from the main-engine mode | main mode 0, scram mode 1: a 2D click leaves scram mode 1, where the cockpit handler (lines 786-790) gives 0 | `spmode = 1 - spmode`, toggling the scram mode as the cockpit handler does | high, not executed | GimbalCtrl.ScramGimbalCntr.ProcessMouse2D | GimbalCtrl.ToggleInvolution |
| Code/Scout/GimbalCtrl.cpp:314-324 | the yaw-switch redraw varies u with `j % 2` (left to right), but the switch's mesh (lines 295-302) is textured turned by 90 degrees, with u varying top to bottom (`j / 2`) and v left to right | any redraw, even in the rest state: the first redraw gives corner 1 u 1068 where the mesh has 1054, and corners 0 and 2, which share v, get the same u | u varies with `j / 2`, so the rest state reproduces the mesh and each image keeps its 14 pixels | medium, not executed | GimbalCtrl.YCtrlRedrawAcrossMesh | GimbalCtrl.YSwitchTuIntendedMatchesMesh |
