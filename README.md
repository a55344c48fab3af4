# WiiMotePosTracker position tracker, modelled in Dafny

This project models `PositionTracker`. It estimates the 3D position of a pair of IR
dots (worn on a headset) from one or two Wii remotes. The remotes report the
normalised positions of up to four IR dots.

The tracker validates the remotes, gathers each remote's visible dots, and then
picks a mode. With one remote it ranges depth from the apparent separation of
two dots. With two remotes it triangulates with the law of sines. It reports the
result relative to a calibration origin set by `Reset`. It also uses each
remote's speaker as a warning tone when that remote does not see enough dots.

Files:

- `sensor.dfy` (module `Sensor`) is the remote as the tracker sees it: the IR dot
  slots, the liveness and IR flags, and the speaker. `Wiimote` is a class because
  the tracker changes its speaker state in place. A ghost log records every
  speaker request.
- `dots.dfy` (module `Dots`) covers dot gathering. `GatherDots` is the loop over
  the four slots. `VisibleDots` and `VisibleIndices` specify that loop.
  `Representative` is the point that stands for a remote's dots.
- `geometry.dfy` (module `Geometry`) holds the straight-line formulas: the depth,
  the angles, the offsets and the subtraction of the origin. `sin`, `tan`, `sqrt`
  and the two divisions whose divisor is a trigonometric value are fields of a
  `Maths` record. They are left uninterpreted, so every property is about the
  structure of the computation and none is about its numeric values.
- `tracker.dfy` (module `Tracker`) holds `Locate` and the `PositionTracker` class.
  `Locate` is the decision procedure of one query, written as a function of the
  state the query reads. The class has the two remotes (an array of two), the
  origin fields, the four configuration fields, the constructor, the setters,
  `GetPosition` and `Reset`. `GetPosition` hands each mode's branch to its own
  method (`RangeWithOne`, `TriangulateWithTwo`). The repeated start/stop tone
  logic is the method `SignalDots`.

`GetPosition` writes its results through C++ reference parameters. Here the
caller's current values come in as `x, y, z` and go out as `x', y', z'`, so a
failed query hands them back unchanged. The C++ `Reset` passes the origin
fields themselves as those reference parameters. The model passes their
values (all zero at that point) and assigns the results back to the fields.
The source comments call the results offsets
from the centre point (`PositionTracker.h:17-18`). In two-remote mode the depth
is not actually offset.

Where the code differs from what its header comments (`PositionTracker.h:14-18`)
suggest, the model follows the code:

- `Reset` zeroes the origin before it queries, so a failing query (IR off, wrong
  dot count) leaves the origin at (0, 0, 0), not at its previous value. Only a
  lost connection leaves the origin untouched.
- Two-remote mode never subtracts the origin's z from the depth.
- Single-remote mode computes x and y from the depth after the origin's z has
  been subtracted.
- So querying again right after a successful `Reset`, with unchanged dots, does
  not give (0, 0, 0). With one remote it gives (−origin.x, −origin.y, 0). With two
  remotes it gives (0, 0, origin.z). `QueryAfterReset` proves this.
- `Initialise` never sets the origin, whatever the header comment says. The
  constructor sets it to (0, 0, 0).

## Model

| member | source | states |
|---|---|---|
| `Dots.VisibleDots` | WiiMotePosTracker/WiiMotePosTracker/PositionTracker.cpp:131-151 | The gathered dots are no more than the slots, and there are none exactly when no slot is visible |
| `Dots.VisibleIndices` | WiiMotePosTracker/WiiMotePosTracker/PositionTracker.cpp:131-151 | The slots used are exactly the visible ones, each once, in increasing index order |
| `Dots.VisibleDotsSelect` | WiiMotePosTracker/WiiMotePosTracker/PositionTracker.cpp:133-138 | The k-th gathered dot is the position held in the k-th visible slot |
| `Dots.GatherDots` | WiiMotePosTracker/WiiMotePosTracker/PositionTracker.cpp:128-151 | The loop yields remote 0's visible dots in slot order, and remote 1's only when remote 1 is connected (otherwise none) |
| `Dots.Representative` | WiiMotePosTracker/WiiMotePosTracker/PositionTracker.cpp:224-254 | The representative point is the lone dot, or lies in the box spanned by the first two dots |
| `Dots.ExtraDotsIgnored` | WiiMotePosTracker/WiiMotePosTracker/PositionTracker.cpp:225-229 | Dots beyond the second never affect the representative point |
| `Sensor.Midpoint` | WiiMotePosTracker/WiiMotePosTracker/PositionTracker.cpp:172-173 | definition, no contract: the mean of two dot positions, used for both the single-remote average and the two-dot representative point |
| `Sensor.Wiimote.PlaySquareWave` | WiiMotePosTracker/WiiMotePosTracker/PositionTracker.cpp:187 | Starting the tone makes it play and logs one start request; nothing else about the remote changes |
| `Sensor.Wiimote.DisableSpeaker` | WiiMotePosTracker/WiiMotePosTracker/PositionTracker.cpp:162 | Stopping the tone silences it and logs one stop request; nothing else about the remote changes |
| `Geometry.SingleDepth` | WiiMotePosTracker/WiiMotePosTracker/PositionTracker.cpp:164-170 | definition, no contract: half the IR dot separation divided by the tangent of (π/4 · dot distance / 2) |
| `Geometry.SingleFix` | WiiMotePosTracker/WiiMotePosTracker/PositionTracker.cpp:164-178 | definition, no contract: the single-remote outputs; its properties are in `SingleOffsetAlgebra` and `SingleAfterReset` |
| `Geometry.AngleR1` | WiiMotePosTracker/WiiMotePosTracker/PositionTracker.cpp:269 | Remote 1's viewing angle lies between 3π/8 and 5π/8 for a normalised x in [0, 1] |
| `Geometry.AngleR2` | WiiMotePosTracker/WiiMotePosTracker/PositionTracker.cpp:270 | Remote 2's viewing angle (mirrored x) lies between 3π/8 and 5π/8 for a normalised x in [0, 1] |
| `Geometry.DualFix` | WiiMotePosTracker/WiiMotePosTracker/PositionTracker.cpp:269-287 | definition, no contract: the two-remote outputs; its properties are in `DualOffsetAlgebra`, `DualDepthSymmetric`, `DualMirrorX` and `DualAfterReset` |
| `Geometry.MirroredOffset` | WiiMotePosTracker/WiiMotePosTracker/PositionTracker.cpp:276-277 | With an odd sine, mirroring a point's x negates its horizontal offset at any depth |
| `Geometry.DualMirrorX` | WiiMotePosTracker/WiiMotePosTracker/PositionTracker.cpp:269-287 | With an odd sine, swapping the remotes and mirroring their points gives the same depth and vertical offset and the negated horizontal offset |
| `Tracker.SingleQuery` | WiiMotePosTracker/WiiMotePosTracker/PositionTracker.cpp:155-188 | definition, no contract: the single-remote branch of `Locate`; its properties are in `SingleModeRule` |
| `Tracker.DualQuery` | WiiMotePosTracker/WiiMotePosTracker/PositionTracker.cpp:190-291 | definition, no contract: the two-remote branch of `Locate`; its properties are in `DualModeRule` |
| `Geometry.SingleOffsetAlgebra` | WiiMotePosTracker/WiiMotePosTracker/PositionTracker.cpp:170-178 | Single mode reports raw depth minus origin z. Its x and y are the raw ones minus the origin's, and also minus the origin's z times the viewing sine, because they are taken at the offset depth |
| `Geometry.DualOffsetAlgebra` | WiiMotePosTracker/WiiMotePosTracker/PositionTracker.cpp:273-287 | Dual mode reports the raw averaged x and y minus the origin's. Its depth is the raw depth, whatever the origin |
| `Geometry.DualDepthSymmetric` | WiiMotePosTracker/WiiMotePosTracker/PositionTracker.cpp:269-273 | Remote 2's angle is remote 1's angle for the mirrored x. Swapping the remotes and mirroring their points gives the same depth |
| `Geometry.SingleAfterReset` | WiiMotePosTracker/WiiMotePosTracker/PositionTracker.cpp:170-178 | With the single-mode raw result stored as origin, the same dots give (−origin.x, −origin.y, 0) |
| `Geometry.DualAfterReset` | WiiMotePosTracker/WiiMotePosTracker/PositionTracker.cpp:273-287 | With the dual-mode raw result stored as origin, the same points give (0, 0, origin.z) |
| `Tracker.WarningCue` | WiiMotePosTracker/WiiMotePosTracker/PositionTracker.cpp:193-215 | Afterwards the tone plays exactly when the dots are insufficient. A start or stop request goes out only when that changes whether it plays |
| `Tracker.Locate` | WiiMotePosTracker/WiiMotePosTracker/PositionTracker.cpp:113-293 | A failed query leaves the outputs as they were. A lost connection or IR off fails with no speaker request. No speaker is asked for the state it is already in. Remote 1's speaker is untouched unless remote 1 is connected |
| `Tracker.SingleModeRule` | WiiMotePosTracker/WiiMotePosTracker/PositionTracker.cpp:155-188 | With one remote, success iff exactly 2 visible dots. Success reports the ranging result of those two dots and leaves the tone off; failure leaves it on |
| `Tracker.DualModeRule` | WiiMotePosTracker/WiiMotePosTracker/PositionTracker.cpp:190-291 | With two remotes, failure iff either remote sees no dot. Each tone ends on iff its own remote sees no dot. Success triangulates the two representative points |
| `Tracker.QueryAfterReset` | WiiMotePosTracker/WiiMotePosTracker/PositionTracker.cpp:97-109 | After a successful calibration, the same remote states give a successful query with no speaker request. The result is (−o.x, −o.y, 0) with one remote and (0, 0, o.z) with two, not (0, 0, 0) |
| `Tracker.PositionTracker.constructor` | WiiMotePosTracker/WiiMotePosTracker/PositionTracker.cpp:12-28 | Origin (0,0,0), IR dot separation 8.5·25.4 mm, tilt 0, not angled downwards, the given remote separation, two distinct unconnected remotes |
| `Tracker.PositionTracker.SetRemoteDistance` | WiiMotePosTracker/WiiMotePosTracker/PositionTracker.cpp:39-42 | Only the remote separation changes |
| `Tracker.PositionTracker.SetCamerasVerticalAngle` | WiiMotePosTracker/WiiMotePosTracker/PositionTracker.cpp:44-47 | Only the camera tilt changes |
| `Tracker.PositionTracker.SetIrDotSeparation` | WiiMotePosTracker/WiiMotePosTracker/PositionTracker.cpp:49-52 | Only the IR dot separation changes |
| `Tracker.PositionTracker.SetCamerasAngledDownwards` | WiiMotePosTracker/WiiMotePosTracker/PositionTracker.cpp:54-57 | Only the downward flag changes |
| `Tracker.PositionTracker.GetPosition` | WiiMotePosTracker/WiiMotePosTracker/PositionTracker.cpp:113-293 | Success, outputs, each remote's new tone state and the speaker requests sent are exactly those `Locate` gives for the state before the call. The origin and configuration are not changed |
| `Tracker.SignalDots` | WiiMotePosTracker/WiiMotePosTracker/PositionTracker.cpp:193-215 | Afterwards the remote's tone plays iff its dots are insufficient. The speaker receives exactly the requests `WarningCue` gives, so never one for the state it is already in |
| `Tracker.PositionTracker.RangeWithOne` | WiiMotePosTracker/WiiMotePosTracker/PositionTracker.cpp:155-188 | Outputs, success, remote 0's tone and its speaker requests are exactly the single-remote outcome |
| `Tracker.PositionTracker.TriangulateWithTwo` | WiiMotePosTracker/WiiMotePosTracker/PositionTracker.cpp:190-291 | Outputs, success, both tones and both speakers' requests are exactly the two-remote outcome |
| `Tracker.PositionTracker.Reset` | WiiMotePosTracker/WiiMotePosTracker/PositionTracker.cpp:97-109 | A lost connection fails with nothing changed. Otherwise the origin becomes the result of a query made from a zero origin: the raw position on success, (0,0,0) on failure |

## Left out

- `Initialise` is not modelled: Bluetooth connection, LEDs, the start-up tone, `Sleep`, and the wait for the A button are device I/O and blocking polling.
- The destructor's disconnects are not modelled, and neither are the driver library's internals. `RefreshState` is not modelled: the `Wiimote` fields are taken to already hold the frame that the refresh would deliver. The library's default state for a remote never connected is assumed to be "not connected, not lost, IR off, no dots, silent".
- `RefreshState` ordering: the source checks the connection-lost flags and the IR modes (`PositionTracker.cpp:116-122`) before it refreshes the remotes (`:124-126`). It reads remote 1's connected flag, the dots and the tone state after the refresh. The model reads all of them from one state, so it does not capture a refresh that changes the flags between the check and the gathering.
- Floating point is not modelled: arithmetic is on reals, with no single-precision rounding and no `(float)` casts. `Pi` is a real literal standing for `M_PI`.
- `sin`, `tan`, `sqrt` and the two divisions by a trigonometric value (lines 170 and 273) are uninterpreted parameters. So the model claims nothing numeric: not depth monotonicity, not finiteness or positivity of the depth, not the `tan(0)` blow-up when the two dots coincide, not the degenerate angle sum of π. In IEEE arithmetic those divisions give an infinity or NaN at a zero divisor, which a real cannot hold.
- Only OFF versus any other IR mode is modelled.
- The tone frequencies (2940 Hz, 3130 Hz) are not modelled. Only whether a tone plays, and the start and stop requests, are modelled.
- `Reset` passes the origin fields as `GetPosition`'s reference parameters. The model passes them by value and assigns the results back. This matches the code, because the origin is zero whenever the query reads it.
