# CS470TermProj in Dafny: ship dynamics, collisions, key handling and mesh bookkeeping

CS470TermProj is a small OpenGL space game in Python. The player flies a spaceship among asteroids
and planets, using the keyboard to roll, pitch, yaw, thrust and brake, and to switch camera
views. This project models the logic under the rendering and proves properties of it:

- **`Util`** (`util.dfy`) models the tuple-vector helpers of `utils/util.py`.
  - It covers `add_vecs`, `sub_vecs`, `dot_vecs`, `cross_vecs`, `scalar_mult`, the squared forms of `mag` and `dist`, and `is_colliding`.
  - It also covers the colour encoder `coltup_to_bytes`, with `bytes.fromhex`.
- **`ColObjs`** (`colobj.dfy`) models the collidable object of `pyobjs/ColObj.py`.
- **`ShipModel`** (`ship_model.dfy`) gives the ship's state as a value.
  - It has one transition per method of `pyobjs/Spaceship.py`, and `Tick` for the simulation part of `render`.
  - It proves the rate bounds, saturation and convergence, the brake, coasting, and the order of the updates within a frame.
- **`Ships`** (`spaceship.dfy`) is the `Spaceship` class.
  - Its fields are updated in place, and each method is proved to perform its `ShipModel` transition.
  - `adjust` keeps its loop over the three axes.
- **`Game`** (`game.dfy`) models the `U_KEYS` table of `game.py` and `handleKeyEvent`.
  - `KeyEffect` is the pure effect of a key event on the ship and on `CURVIEW`.
  - The `GameState` class holds `CURVIEW`.
- **`MeshModel`** (`mesh_model.dfy`) gives the pure meaning of the mesh code of `utils/DisplayObj.py`.
  - It covers face parsing (`str.split`, `int`), the edge list without duplicates or reversed duplicates, the material reader, and the line-by-line effect of `objFileImport`.
- **`Display`** (`display_obj.dfy`) holds the `Material` and `DisplayObj` classes and `loadMats`.
  - `loadFaceCmd`, `objFileImport` and `loadMats` are loops over fields or objects updated in place.
  - Each is proved against `MeshModel`.
- **`Errors`** (`errors.dfy`) holds the Python exceptions as a `Result` type.

Modelling conventions:

- Python floats are exact reals, and tuples are sequences.
- `add_vecs`, `sub_vecs`, `dot_vecs` and `dist` zip their arguments, so they stop at the shorter one. `cross_vecs` unpacks exactly three components of each argument, and the model takes triples (`Vec3`).
- `mag` and `dist` take a square root, so the model compares squares. `Util.CollidingIffDistanceBelow` and `ShipModel.BrakeTestIsMagnitudeTest` show that the squared tests agree with the source's tests on the roots.
- Exceptions are `Err` results naming the Python exception.
- Every DisplayObj command parses all of its arguments before it writes, so an error leaves the mesh as the previous line left it.
- The quaternion helpers of `utils/quat.py` are not part of this model. Neither are `normalize`, `float()` and `np.sqrt`. They are parameters: a `QuatLib` of functions, a `FloatParser` and a `sqrt` function.
- A file is given as its lines, each already split on spaces.

Two properties of the code that a reader might look for:

- **No landing, fuel, health or damage.** The code has no landing, fuel, health or damage, so the model has none.
- **The brake never normalises a zero vector.** The brake normalises `-vel` only when `mag(vel) > TOL`, so it never normalises a zero vector. `ShipModel.BrakeStops` shows a frame at or below `TOL` stops the ship exactly. `ShipModel.BrakeSlows` shows that, when `normalize(-vel)` returns `-vel / mag(vel)`, each braking frame above `TOL` takes exactly `PACC` off the speed without reversing it; `normalize` is a parameter, so that is its hypothesis.

Quirks of the code that the model keeps:

- **Roll-centre key ignores key-up.** The roll-centre handler `rc` calls `resetRot` without passing `up` on, so releasing the key records `ROTRESET` again (`Game.CenterKeys`). Pitch-centre and yaw-centre releases make their axis `STEADY`.
- **`STEADY` is a bare string.** `adjust` tests its first character against `"STEADY"`, `"ROTSET"` and `"ROTRESET"`. None match, so nothing happens, which is the intended effect.
- **`objFileImport` does not reset `maxr`.** The running maximum starts from whatever `maxr` held. For a new object that is 0, but after an earlier import it is the square root of the earlier maximum.
- **`Spaceship.__init__` calls `ColObj.__init__` with two arguments.** `ColObj.__init__` takes only `pos`. The model takes the evident meaning: position set, radius zero. Then `colr` is overwritten with `2 * maxr / 3`.
- **`DisplayObj.__init__` ignores its `mats` argument.** It sets `self.mats = None`.

## Model

| member | source | states |
|---|---|---|
| Util.AddVecs | utils/util.py:20-22 | the result has the length of the shorter argument, and each component is the sum of the two components |
| Util.SubVecs | utils/util.py:25-27 | the result has the length of the shorter argument, and each component is the second argument's minus the first's |
| Util.DotVecs | utils/util.py:30-32 | the sum of the products of zipped components; DotSymmetric, DotSelfNonNegative and DotVecs3 state its properties |
| Util.CrossVecs | utils/util.py:35-39 | the cross product of two triples; CrossOrthogonal and CrossAnticommutes state its properties |
| Util.AddVecsCommutes | utils/util.py:21-22 | add_vecs does not depend on the order of its arguments |
| Util.AddSubRoundTrip | utils/util.py:21-27 | adding sub_vecs(v1, v2) back onto v1 gives v2, cut to the shorter length |
| Util.DotSymmetric | utils/util.py:30-32 | dot_vecs is symmetric |
| Util.DotSelfNonNegative | utils/util.py:31-32 | the dot product of a vector with itself, the square of mag, is never negative |
| Util.DotVecs3 | utils/util.py:31-32 | on triples, dot_vecs is the sum of the three products |
| Util.CrossOrthogonal | utils/util.py:35-39 | cross_vecs(a, b) is perpendicular to both a and b |
| Util.CrossAnticommutes | utils/util.py:36-39 | swapping the arguments of cross_vecs negates the result |
| Util.ScalarMult | utils/util.py:42-44 | the result has the vector's length, and each component is multiplied by s |
| Util.ScalarMultOne | utils/util.py:43-44 | scaling by one is the identity |
| Util.ScalarMultDistributes | utils/util.py:21-22 | scaling distributes over add_vecs |
| Util.SqMagScale | utils/util.py:43-49 | scaling a vector by k scales its squared magnitude by k * k |
| Util.SqDistSymmetric | utils/util.py:53-54 | the squared distance does not depend on the order of the points |
| Util.SqDistSelf | utils/util.py:53-54 | a point is at distance zero from itself |
| Util.IsColliding | utils/util.py:57-59 | the squared form of dist(p1, p2) < r1 + r2; CollidingIffDistanceBelow shows it agrees with the source's test on the root |
| Util.CollidingIffDistanceBelow | utils/util.py:57-59 | with d the distance (the non-negative root of the squared distance), the model's test holds exactly when d < r1 + r2, the source's test |
| Util.CollidingSymmetric | utils/util.py:58-59 | is_colliding is symmetric in its two (point, radius) pairs |
| Util.NoReachNoCollision | utils/util.py:58-59 | spheres whose radii sum to zero or less never collide |
| Util.SamePointCollides | utils/util.py:58-59 | spheres at the same point collide exactly when their radii sum to more than zero |
| Util.HexDigit | utils/util.py:78 | the digit written for 0..15 is a hex digit whose value is the number |
| Util.Format02x | utils/util.py:78 | f'{n:02x}': Format02xByte states that 0..255 gives exactly two hex digits spelling n |
| Util.Format02xByte | utils/util.py:78 | a number in 0..255 formats as exactly two hex digits that spell it |
| Util.FromHex | utils/util.py:78 | bytes.fromhex: FromHexPair states that two hex digits read as one byte, and OutOfRangeComponents gives its ValueError |
| Util.ColtupToBytes | utils/util.py:77-78 | the formatted components read back by bytes.fromhex; ColtupRoundTrip and OutOfRangeComponents state its outcomes |
| Util.FromHexPair | utils/util.py:78 | bytes.fromhex reads two hex digits as one byte, then goes on with the rest |
| Util.ColtupRoundTrip | utils/util.py:77-78 | for numbers in 0..255, coltup_to_bytes succeeds and returns one byte per number, equal to it |
| Util.OutOfRangeComponents | utils/util.py:77-78 | outside 0..255 the encoding breaks: (256, 256) decodes to three bytes, and (300) is a ValueError |
| ColObjs.ColObj.constructor | pyobjs/ColObj.py:12-14 | a new object has the given position and collision radius 0 |
| ColObjs.IsCollidingSymmetric | pyobjs/ColObj.py:16-17 | a.is_colliding(b) equals b.is_colliding(a) |
| ColObjs.ZeroRadiiNeverCollide | pyobjs/ColObj.py:12-17 | two objects that keep their initial radius 0 never collide |
| ColObjs.SamePositionCollides | pyobjs/ColObj.py:16-17 | objects at the same position collide exactly when their radii sum to more than zero |
| ShipModel.SetRotStep | pyobjs/Spaceship.py:94-99 | a positive direction adds d * RACC, capped at RMAX; a negative one adds it, floored at -RMAX; direction 0 changes nothing |
| ShipModel.ResetStep | pyobjs/Spaceship.py:101-109 | one RACC step toward zero, never crossing it: a rate more than 2 * RACC from zero loses exactly RACC of its size, and the result is 0 exactly when the rate was within 2 * RACC of zero |
| ShipModel.SetRotKeepsBound | pyobjs/Spaceship.py:94-99 | a rate in [-RMAX, RMAX] stays there and moves the way the direction points |
| ShipModel.SetRotMirror | pyobjs/Spaceship.py:94-99 | n left steps from -r are the mirror image of n right steps from r |
| ShipModel.SetRotSaturatesRight | pyobjs/Spaceship.py:95-96 | a rate at most k steps below RMAX is exactly RMAX after k or more right steps |
| ShipModel.SetRotSaturates | pyobjs/Spaceship.py:94-99 | holding a rotation key for 200 or more frames brings any bounded rate to exactly d * RMAX |
| ShipModel.ResetConverges | pyobjs/Spaceship.py:101-109 | a rate within k steps of zero is exactly 0 after k or more resets |
| ShipModel.ResetWithinHundred | pyobjs/Spaceship.py:101-109 | any rate in [-RMAX, RMAX] is exactly 0 after 100 or more resets, and stays there |
| ShipModel.ApplyIntent | pyobjs/Spaceship.py:114-118 | one pass of adjust's loop changes at most the rate of the axis its intent names |
| ShipModel.AdjustRatesUpTo | pyobjs/Spaceship.py:113-118 | the loop of adjust keeps three rates |
| ShipModel.AdjustRatesUpToAxes | pyobjs/Spaceship.py:113-118 | after n passes of adjust's loop, the axes already visited hold their intent's new rate and the others are untouched |
| ShipModel.AdjustRates | pyobjs/Spaceship.py:113-118 | the three passes of adjust's loop; AdjustRatesPerAxis states each axis's new rate |
| ShipModel.AdjustRatesPerAxis | pyobjs/Spaceship.py:111-118 | STEADY keeps an axis's rate, ROTSET applies setRotCalc, and ROTRESET applies resetRotCalc |
| ShipModel.Initial | pyobjs/Spaceship.py:40-56 | the ship starts at the given position and orientation with zero velocity and force, no thrust, every axis STEADY at rate 0, and colr two thirds of the mesh radius |
| ShipModel.SetRot | pyobjs/Spaceship.py:61-65 | key-up makes the axis STEADY and key-down records ROTSET(mode, d); the other axes and fields are unchanged |
| ShipModel.ResetRot | pyobjs/Spaceship.py:67-71 | key-up makes the axis STEADY and key-down records ROTRESET(mode); nothing else changes |
| ShipModel.SetThrust | pyobjs/Spaceship.py:73-78 | key-up zeroes the force and the thrust; key-down sets the thrust mode and keeps the force; nothing else changes |
| ShipModel.ApplyOppThrust | pyobjs/Spaceship.py:83-88 | as setThrust, but key-down selects the brake (2) |
| ShipModel.ApplyThrust | pyobjs/Spaceship.py:80-81 | the new velocity is the old one plus the force; nothing else changes |
| ShipModel.ApplyVel | pyobjs/Spaceship.py:90-91 | the new position is the old one plus the velocity; nothing else changes |
| ShipModel.Heading | pyobjs/Spaceship.py:202-203 | getHeading, the orientation applied to +X through the quaternion parameter; ThrustForce and TickMotion state how it is used |
| ShipModel.ThrustForce | pyobjs/Spaceship.py:127-128 | no thrust gives zero force; forward thrust gives PACC times the heading, backward thrust gives -PACC times it |
| ShipModel.RotateAbout | pyobjs/Spaceship.py:131-141 | one conditional rotation of rotate; Rotate states that zero rates leave the orientation unchanged |
| ShipModel.Adjust | pyobjs/Spaceship.py:111-128 | the rates follow the intents; the brake below TOL zeroes velocity and force, and above it pushes with PACC * normalize(-vel); other modes push along the heading |
| ShipModel.Rotate | pyobjs/Spaceship.py:130-141 | only the orientation changes, and zero rates leave the state as it was |
| ShipModel.Tick | pyobjs/Spaceship.py:166-194 | the simulation steps of render keep the state well formed |
| ShipModel.TickMotion | pyobjs/Spaceship.py:166-194 | the position moves by the velocity from before the frame's force is added; the new velocity is that velocity plus the force along the heading before rotation |
| ShipModel.CoastingKeepsVelocity | pyobjs/Spaceship.py:127-128 | without thrust the force is zero and the velocity is unchanged |
| ShipModel.BrakeStops | pyobjs/Spaceship.py:121-124 | braking at or below TOL leaves velocity and force exactly zero after one frame |
| ShipModel.BrakeTestIsMagnitudeTest | pyobjs/Spaceship.py:122 | for m the magnitude, mag(vel) <= TOL is the squared test of the model |
| ShipModel.BrakeComponent | pyobjs/Spaceship.py:126 | one component of a braking step scales x by (m - PACC) / m |
| ShipModel.BrakeVelocity | pyobjs/Spaceship.py:126 | a braking step scales the whole velocity by (m - PACC) / m |
| ShipModel.BrakeSlows | pyobjs/Spaceship.py:121-126 | above TOL, with normalize giving -vel / m, a braking frame scales the velocity by a factor in (0, 1), so the speed drops by exactly PACC without reversing |
| ShipModel.SteadyKeepsRate | pyobjs/Spaceship.py:113-118 | a STEADY axis keeps its rate through a whole frame |
| ShipModel.TickKeepsRatesBounded | pyobjs/Spaceship.py:94-118 | frames keep every rate within [-RMAX, RMAX] |
| Ships.Spaceship.constructor | pyobjs/Spaceship.py:40-56 | the new ship's state is ShipModel.Initial |
| Ships.Spaceship.SetRot | pyobjs/Spaceship.py:61-65 | the ship performs ShipModel.SetRot |
| Ships.Spaceship.ResetRot | pyobjs/Spaceship.py:67-71 | the ship performs ShipModel.ResetRot |
| Ships.Spaceship.SetThrust | pyobjs/Spaceship.py:73-78 | the ship performs ShipModel.SetThrust |
| Ships.Spaceship.ApplyThrust | pyobjs/Spaceship.py:80-81 | the ship performs ShipModel.ApplyThrust |
| Ships.Spaceship.ApplyOppThrust | pyobjs/Spaceship.py:83-88 | the ship performs ShipModel.ApplyOppThrust |
| Ships.Spaceship.ApplyVel | pyobjs/Spaceship.py:90-91 | the ship performs ShipModel.ApplyVel |
| Ships.Spaceship.SetRotCalc | pyobjs/Spaceship.py:94-99 | only rpy[mode] changes, to SetRotStep of its old value |
| Ships.Spaceship.ResetRotCalc | pyobjs/Spaceship.py:101-109 | only rpy[mode] changes, to ResetStep of its old value |
| Ships.Spaceship.Adjust | pyobjs/Spaceship.py:111-128 | the loop over the three axes and the force update perform ShipModel.Adjust |
| Ships.Spaceship.Rotate | pyobjs/Spaceship.py:130-141 | the ship performs ShipModel.Rotate |
| Ships.Spaceship.Render | pyobjs/Spaceship.py:166-194 | applyVel, adjust, rotate and applyThrust in that order perform ShipModel.Tick |
| Ships.Spaceship.GetHeading | pyobjs/Spaceship.py:202-203 | the heading is the orientation applied to the +X axis |
| Game.ControlOf | game.py:161-179 | a key found in the table is that control's U_KEYS code; a key not found is no control's code |
| Game.KeyCode | game.py:61-83 | the U_KEYS table; KeyCodesDistinct states that no two controls share a code |
| Game.ControlOfKeyCode | game.py:61-83 | looking up a control's own key code finds that control |
| Game.KeyCodesDistinct | game.py:61-83 | the seventeen key codes are pairwise distinct |
| Game.KeyEffect | game.py:104-181 | every key event leaves the ship state well formed |
| Game.Handle | game.py:112-158 | the handler closures; RotationKeys, CenterKeys, ThrustKeys and ViewKeys state each one's effect |
| Game.UnknownKeyNoEffect | game.py:179-181 | a key outside the table changes neither the ship nor the view |
| Game.RotationKeys | game.py:112-127 | A/D, W/S and E/Q call setRot on roll, pitch and yaw with LEFT/RIGHT: key-down records ROTSET, key-up makes the axis STEADY |
| Game.CenterKeys | game.py:116-129 | the centre keys perform resetRot on their axis with the key-up flag, except roll-centre, which always performs it as a key-down and so records ROTRESET on release too |
| Game.ThrustKeys | game.py:130-135 | key-down on the arrows sets thrust 1 or -1 and space sets the brake; any key-up zeroes force and thrust |
| Game.ViewKeys | game.py:136-158 | view keys set CURVIEW on key-down only and never touch the ship |
| Game.ShipKeysKeepView | game.py:112-135 | keys other than the view keys leave CURVIEW unchanged |
| Game.GameState.constructor | game.py:101 | CURVIEW starts at V_BACKRIGHT |
| Game.GameState.HandleKeyEvent | game.py:104-181 | the ship and CURVIEW change exactly as KeyEffect says, and the ship stays well formed |
| MeshModel.Split | utils/DisplayObj.py:107 | str.split yields at least one piece, and no piece holds the separator |
| MeshModel.SplitJoin | utils/DisplayObj.py:107 | joining the pieces of a split gives the original string back |
| MeshModel.ParseInt | utils/DisplayObj.py:108-109 | int() succeeds exactly on a non-empty digit string or a sign followed by one, giving its decimal value with the sign; anything else ("1a", "-", "x") is a ValueError |
| MeshModel.ParseShowInt | utils/DisplayObj.py:108-109 | int(str(n)) == n for every integer |
| MeshModel.ParseIntRejectsEmpty | utils/DisplayObj.py:108-109 | the empty field and a bare sign are ValueErrors |
| MeshModel.LeadingZeroDigits | utils/DisplayObj.py:108-109 | a leading zero does not change the value of a digit string |
| MeshModel.ParseIntLeadingZero | utils/DisplayObj.py:108-109 | int() accepts a zero-padded field and reads it as the unpadded one |
| MeshModel.ParseIntRejectsNonDigit | utils/DisplayObj.py:108-109 | a field with a non-digit after its first character is a ValueError |
| MeshModel.ParseVerts | utils/DisplayObj.py:104-108 | the loop succeeds exactly when every token's first field is an integer, and then gives each one minus 1, in order; otherwise it is a ValueError |
| MeshModel.ParseFace | utils/DisplayObj.py:102-109 | the parse of loadFaceCmd; ParseFaceOutcome states its outcome case by case |
| MeshModel.ParseFaceOutcome | utils/DisplayObj.py:102-109 | success exactly when all vertex fields parse and the last token has an integer third field. Vertices and normal are those fields minus 1. No tokens is a TypeError, a short last token an IndexError, a bad vertex a ValueError |
| MeshModel.FaceCycle | utils/DisplayObj.py:111-116 | the polygon's edges are each consecutive pair, then (last, first) |
| MeshModel.AddEdgeFacts | utils/DisplayObj.py:113-114 | one test-and-append keeps the list free of duplicates and reversed duplicates, covers the edge, and keeps earlier entries |
| MeshModel.AddEdges | utils/DisplayObj.py:111-118 | the edge loop of loadFaceCmd; AddEdgesFacts and AddEdgesSnoc state its properties |
| MeshModel.AddEdgesFacts | utils/DisplayObj.py:111-118 | adding a face's edges keeps the list free of duplicates, keeps the earlier entries as a prefix, grows by at most one per edge, adds only the face's edges, and covers every one of them in some orientation |
| MeshModel.AddEdgesSnoc | utils/DisplayObj.py:111-118 | one more edge to add is one more test-and-append |
| MeshModel.WithDse | utils/DisplayObj.py:175-179 | set_dse makes d both ambient and diffuse, sets specular and emission, and keeps the transparency |
| MeshModel.ParseTriple | utils/DisplayObj.py:23 | success exactly when arguments 1 to 3 exist and parse, giving the three floats; otherwise an IndexError for a missing argument or a ValueError for a bad one |
| MeshModel.CurrentMat | utils/DisplayObj.py:22-30 | mats[curmat] finds the current material, or is a KeyError before any newmtl |
| MeshModel.MatLine | utils/DisplayObj.py:14-32 | one line of loadMats; KdIsSetDse, NewmtlResets and MatLineLocal state its effect |
| MeshModel.LoadMatsSpec | utils/DisplayObj.py:6-36 | loadMats on a file's lines; MatErrorStops and MatLinesKeepCurmatKnown state its properties |
| MeshModel.MatErrorStops | utils/DisplayObj.py:11-34 | an error in loadMats ends the read; later lines change nothing |
| MeshModel.KdIsSetDse | utils/DisplayObj.py:22-24 | a Kd line sets the current material as set_dse would, with the parsed colour as d; a parse error comes first, then a KeyError if no material is current |
| MeshModel.NewmtlResets | utils/DisplayObj.py:17-19 | newmtl makes a default material under the name and makes it current |
| MeshModel.MatLineLocal | utils/DisplayObj.py:17-32 | a material line changes only the current material, and the current material stays in the dictionary |
| MeshModel.MatLinesKeepCurmatKnown | utils/DisplayObj.py:11-34 | over a whole file the current material stays in the dictionary, so a KeyError can only come before the first newmtl |
| MeshModel.ErrorStops | utils/DisplayObj.py:72-99 | an error ends the read of the object file; later lines change nothing |
| MeshModel.LoadFace | utils/DisplayObj.py:102-121 | loadFaceCmd on the mesh; FaceLine states its effect within an import |
| MeshModel.ImportLine | utils/DisplayObj.py:75-98 | one line of objFileImport; FaceLine, VertexLine, ImportLineLists and ImportLineKeepsInv state its effect |
| MeshModel.ImportLines | utils/DisplayObj.py:72-99 | the read loop; ErrorStops, ImportLinesLists and ImportLinesKeepInv state its properties |
| MeshModel.ResetMesh | utils/DisplayObj.py:58-64 | the fields cleared before reading; ObjFileImportEmpty and ObjFileImportLists state that the lists restart empty |
| MeshModel.ObjFileImport | utils/DisplayObj.py:53-100 | objFileImport; ObjFileImportFacts, ObjFileImportLists and ObjFileImportEmpty state its result |
| MeshModel.ImportLinesSnoc | utils/DisplayObj.py:72-99 | the read loop over one more line |
| MeshModel.RunningMax | utils/DisplayObj.py:85-90 | maxr is at least its starting value and every vertex's squared norm, and equals one of them: the maximum |
| MeshModel.RunningMaxSnoc | utils/DisplayObj.py:88-90 | a new vertex raises maxr to its squared norm when that is larger |
| MeshModel.ImportLineKeepsInv | utils/DisplayObj.py:78-98 | each command keeps maxr the running maximum, keeps no more colours than faces, keeps the edge list free of duplicates, and never lowers maxr |
| MeshModel.ImportLinesKeepInv | utils/DisplayObj.py:72-99 | the same holds over every line read, errors included |
| MeshModel.ObjFileImportFacts | utils/DisplayObj.py:53-100 | with or without an error, the pre-root maxr is the maximum squared norm over the vertices read, starting from the old maxr (0 for a new object), and never below it. The root is taken only without an error. Colours are at most faces, edges have no duplicates |
| MeshModel.ImportLineLists | utils/DisplayObj.py:75-98 | a line read without error appends exactly its own vertex (v), normal (vn) and face (f), and nothing for any other command |
| MeshModel.ImportLinesLists | utils/DisplayObj.py:72-99 | an error-free read appends the file's vertices, normals and faces, in file order |
| MeshModel.ObjFileImportLists | utils/DisplayObj.py:53-100 | a successful import holds exactly the file's vertices, normals and faces, in file order, whatever the object held before, and maxr is the root of the largest squared vertex norm, starting from the old maxr |
| MeshModel.ObjFileImportEmpty | utils/DisplayObj.py:58-64 | with no lines, the lists and the materials are cleared, the name is kept, and maxr becomes the root of its old value |
| MeshModel.FaceLine | utils/DisplayObj.py:95-98 | an f line appends exactly the parsed face and its edges, and appends the current material name to cols exactly when there are materials and a non-empty current name |
| MeshModel.FaceLineResult | utils/DisplayObj.py:95-98 | an f line is the parse error of its tokens, or the mesh with the face appended, its edges added and the colour rule applied, in one equation |
| MeshModel.VertexLine | utils/DisplayObj.py:85-90 | a v line appends its vertex and raises maxr to its squared norm when that is larger |
| Display.Material.constructor | utils/DisplayObj.py:167-173 | a new material has the default colours and transparency 1 |
| Display.Material.SetDse | utils/DisplayObj.py:175-179 | the material's new values are WithDse of the old ones |
| Display.UpdateMaterial | utils/DisplayObj.py:22-30 | a Kd, Ks, Ke or d assignment changes the named fields of the current material and no other material's values |
| Display.LoadMats | utils/DisplayObj.py:6-36 | the result is LoadMatsSpec's dictionary of values, held in new and unshared Material objects, or LoadMatsSpec's error |
| Display.LoadMatsLine | utils/DisplayObj.py:14-32 | one pass of the loop performs MatLine; any new material is a new object |
| Display.ParseFaceTokens | utils/DisplayObj.py:104-109 | the token loop and the normal lookup give exactly ParseFace |
| Display.DisplayObj.constructor | utils/DisplayObj.py:40-51 | the given lists and name are kept, mats is None whatever is passed, maxr is 0, scale is 1 and the display-list index is -1 |
| Display.DisplayObj.LoadFaceCmd | utils/DisplayObj.py:102-121 | on success, edges become AddEdges of the face cycle and the face is appended to surfs; on error nothing changes; no other field changes |
| Display.DisplayObj.AddFaceEdges | utils/DisplayObj.py:111-118 | the edge loops give AddEdges of the face cycle |
| Display.DisplayObj.ObjFileImport | utils/DisplayObj.py:53-100 | the mesh and error are those of MeshModel.ObjFileImport, and the materials are new and unshared |
| Display.DisplayObj.ImportLineStep | utils/DisplayObj.py:75-98 | one pass of the read loop performs ImportLine, changing nothing on error |
| Display.DisplayObj.ReadMtllib | utils/DisplayObj.py:78-82 | an mtllib line replaces the materials with the named library, loaded, or raises IndexError, FileNotFoundError or loadMats's error |
| Display.DisplayObj.ReadVector | utils/DisplayObj.py:85-92 | v and vn lines perform ImportLine |
| Display.DisplayObj.ReadFace | utils/DisplayObj.py:95-98 | an f line performs ImportLine |
| Display.DisplayObj.ReadName | utils/DisplayObj.py:83-84 | o and usemtl lines perform ImportLine, and other commands change nothing |

## Left out

- The quaternion helpers are not part of this model. `axisangle_to_q`, `q_mult`, `qv_mult`, `q_to_axisangle` and `normalize` live in `utils/quat.py`. They are function parameters (`QuatLib`), and no unit-norm fact is proved about them.
- `mag`, `dist`, `np.sqrt`, `logistic_approaches` and `spherical_to_cartesian` are not computed. They need square roots, exponentials or trigonometry.
  - `mag` and `dist` appear only through squared comparisons.
  - The final `np.sqrt` of `objFileImport` is a parameter.
- File input/output is not modelled. Files are given as lists of lines already split on spaces.
  - Material libraries are given by name in a map. A name missing from the map stands for the FileNotFoundError of `mtllib`.
  - The missing-object-file FileNotFoundError of `objFileImport` is not modelled.
- `float()` is a parameter (`FloatParser`).
- `int()` is modelled on an optional sign and ASCII digits only. It does not accept the surrounding whitespace or the underscores that Python also allows.
- Floating-point rounding is not modelled: floats are exact reals. Constants such as RACC = 0.001 therefore step exactly, and the saturation and convergence counts (200 and 100 frames) hold for reals.
- The camera `View` objects and `set_static_view` (`utils/View.py`) are not part of this model, nor is the drawing and lighting.
  - The `vs` key is modelled only as setting `CURVIEW`.
  - `drawObj`, `register`, `deregister`, `showMat`, `setThrusterColor` and the OpenGL calls of `render` are rendering only.
  - `DisplayObj.scale` and `dlindex` are kept as fields but never used.
- The shared `display_cache`, the `isstatic` flag and the `V` key's debug camera in the main loop are not modelled.
  - `Spaceship.__init__` loading the ship mesh is replaced by the mesh radius as a parameter.
- `pyobjs/Asteroid.py` and `pyobjs/Planet.py` are not part of this model. They only load meshes, register them and render.
- Ships.Spaceship.Render: models only the simulation steps of `render`, not the drawing between them.
- The integer-versus-float distinction of Python (`rpy` starts as int 0, `maxr` as int 0) is not modelled. Both are reals here.
- `Game.GameState.HandleKeyEvent` takes the key code and a key-up flag rather than a pygame event. The ship is passed directly rather than in the `env` dictionary.
- Landing, fuel, health and scoring do not appear in this code, so they are not modelled.
- Display.DisplayObj.constructor: the lists default to None in the source, so `loadFaceCmd` on a bare `DisplayObj()` raises TypeError. The model has no absent lists: they are given sequences. Every construction in the game (`pyobjs/Asteroid.py:22-23`, `pyobjs/Planet.py:30-31`, `pyobjs/Spaceship.py:51-52`) is followed at once by `objFileImport`, which sets every list.
- Util.CrossVecs: takes triples, so the ValueError that `cross_vecs` raises when an argument does not have exactly three components is not modelled. Nothing in the game calls `cross_vecs`.
