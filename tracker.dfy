/**
 * The position tracker: validation, mode selection, the dot-count rules, the
 * warning-tone side channel and calibration. `Locate` is the decision
 * procedure of one position query as a function of the state it reads;
 * `PositionTracker.GetPosition` carries it out on the remotes and is proved
 * to agree with it.
 */
module Tracker {
  import opened Sensor
  import opened Dots
  import opened Geometry

  /**
   * What one position query does: whether it succeeded, the values left in
   * the caller's x, y, z, and the request sent to each remote's speaker.
   */
  datatype Outcome = Outcome(ok: bool, out: Vec3, cue0: Cue, cue1: Cue)

  /** A query is refused outright when either remote has lost its connection... */
  predicate ConnectionLost(s0: RemoteState, s1: RemoteState)
  {
    s0.connectionLost || s1.connectionLost
  }

  /** ...or when remote 0's IR camera is off, or remote 1 is connected with its camera off. */
  predicate IrOff(s0: RemoteState, s1: RemoteState)
  {
    !s0.irOn || (s1.connected && !s1.irOn)
  }

  /**
   * The warning-tone request for a remote whose dots are `insufficient`: the
   * tone ends up playing exactly when the dots are insufficient, and a
   * request is sent only when that changes whether it plays.
   */
  function WarningCue(playing: bool, insufficient: bool): (c: Cue)
    ensures ToneAfter(playing, c) == insufficient
    ensures c != Keep <==> playing != insufficient
  {
    if insufficient then (if playing then Keep else Start)
    else (if playing then Stop else Keep)
  }

  /** One remote: exactly two visible dots are needed for ranging. */
  function SingleQuery(cfg: Settings, origin: Vec3, m: Maths, s0: RemoteState, prior: Vec3): Outcome
  {
    var dots0 := VisibleDots(s0.dots);
    var cue0 := WarningCue(s0.tonePlaying, |dots0| != 2);
    if |dots0| == 2 then Outcome(true, SingleFix(m, cfg, origin, dots0[0], dots0[1]), cue0, Keep)
    else Outcome(false, prior, cue0, Keep)
  }

  /** Two remotes: each needs at least one visible dot. */
  function DualQuery(cfg: Settings, origin: Vec3, m: Maths, s0: RemoteState, s1: RemoteState, prior: Vec3): Outcome
  {
    var dots0 := VisibleDots(s0.dots);
    var dots1 := VisibleDots(s1.dots);
    var cue0 := WarningCue(s0.tonePlaying, |dots0| == 0);
    var cue1 := WarningCue(s1.tonePlaying, |dots1| == 0);
    if |dots0| == 0 || |dots1| == 0 then Outcome(false, prior, cue0, cue1)
    else Outcome(true, DualFix(m, cfg, origin, Representative(dots0), Representative(dots1)), cue0, cue1)
  }

  /**
   * A position query against remotes in states `s0` and `s1`, with the
   * caller's x, y, z holding `prior`. A failed query leaves them as they
   * were; a refused one also leaves both speakers alone; no speaker is ever
   * asked for the state it is already in, and remote 1's speaker is left
   * alone unless remote 1 is connected.
   */
  function Locate(cfg: Settings, origin: Vec3, m: Maths, s0: RemoteState, s1: RemoteState, prior: Vec3): (r: Outcome)
    ensures !r.ok ==> r.out == prior
    ensures ConnectionLost(s0, s1) || IrOff(s0, s1) ==> r == Outcome(false, prior, Keep, Keep)
    ensures r.cue0 == Start ==> !s0.tonePlaying
    ensures r.cue0 == Stop ==> s0.tonePlaying
    ensures r.cue1 == Start ==> !s1.tonePlaying
    ensures r.cue1 == Stop ==> s1.tonePlaying
    ensures !s1.connected ==> r.cue1 == Keep
  {
    if ConnectionLost(s0, s1) then Outcome(false, prior, Keep, Keep)
    else if IrOff(s0, s1) then Outcome(false, prior, Keep, Keep)
    else if !s1.connected then SingleQuery(cfg, origin, m, s0, prior)
    else DualQuery(cfg, origin, m, s0, s1, prior)
  }

  /**
   * Single-remote mode: the query succeeds exactly when remote 0 has two
   * visible dots, and then reports the ranging result and silences a playing
   * tone; otherwise it fails and starts the tone unless it already plays.
   */
  lemma SingleModeRule(cfg: Settings, origin: Vec3, m: Maths, s0: RemoteState, s1: RemoteState, prior: Vec3)
    requires !ConnectionLost(s0, s1) && !IrOff(s0, s1) && !s1.connected
    ensures var r := Locate(cfg, origin, m, s0, s1, prior);
            var dots0 := VisibleDots(s0.dots);
            && (r.ok <==> |dots0| == 2)
            && (r.ok ==> r.out == SingleFix(m, cfg, origin, dots0[0], dots0[1]))
            && ToneAfter(s0.tonePlaying, r.cue0) == !r.ok
            && r.cue1 == Keep
  {
  }

  /**
   * Two-remote mode: the query fails exactly when either remote sees no dot.
   * Each remote's tone is set independently from its own dots, and a
   * success reports the triangulation of the two representative points.
   */
  lemma DualModeRule(cfg: Settings, origin: Vec3, m: Maths, s0: RemoteState, s1: RemoteState, prior: Vec3)
    requires !ConnectionLost(s0, s1) && !IrOff(s0, s1) && s1.connected
    ensures var r := Locate(cfg, origin, m, s0, s1, prior);
            var dots0 := VisibleDots(s0.dots);
            var dots1 := VisibleDots(s1.dots);
            && (r.ok <==> dots0 != [] && dots1 != [])
            && (r.ok ==> r.out == DualFix(m, cfg, origin, Representative(dots0), Representative(dots1)))
            && ToneAfter(s0.tonePlaying, r.cue0) == (dots0 == [])
            && ToneAfter(s1.tonePlaying, r.cue1) == (dots1 == [])
  {
  }

  /**
   * Calibrating and then querying again with the same remote states: the
   * second query succeeds, sends no speaker request, and reports depth 0
   * with x and y the negated origin (one remote), or x and y of 0 with the
   * full depth (two remotes) -- not the position (0, 0, 0).
   */
  lemma QueryAfterReset(cfg: Settings, m: Maths, s0: RemoteState, s1: RemoteState, prior: Vec3)
    requires Locate(cfg, Zero, m, s0, s1, Zero).ok
    ensures var first := Locate(cfg, Zero, m, s0, s1, Zero);
            var o := first.out;
            var again := Locate(cfg, o, m, AfterCue(s0, first.cue0), AfterCue(s1, first.cue1), prior);
            && again.ok && again.cue0 == Keep && again.cue1 == Keep
            && (!s1.connected ==> again.out == Vec3(-o.x, -o.y, 0.0))
            && (s1.connected ==> again.out == Vec3(0.0, 0.0, o.z))
  {
  }

  /**
   * Sounds the warning tone on `remote` if its dots are `insufficient` and
   * silences it otherwise, asking the speaker only when that changes anything.
   */
  method SignalDots(remote: Wiimote, insufficient: bool)
    modifies remote
    ensures var cue := WarningCue(old(remote.playingAudio), insufficient);
            && remote.State() == AfterCue(old(remote.State()), cue)
            && remote.requests == old(remote.requests) + Issued(cue)
  {
    if insufficient {
      if !remote.playingAudio {
        remote.PlaySquareWave();
      }
    } else {
      if remote.playingAudio {
        remote.DisableSpeaker();
      }
    }
  }

  /**
   * The tracker. It owns two remotes (remote 0 required, remote 1 optional),
   * the calibration origin and four configuration fields.
   */
  class PositionTracker {
    const remotes: array<Wiimote>
    /** The C maths library the formulas call. */
    const maths: Maths
    var originX: real
    var originY: real
    var originZ: real
    var irDotSeparation: real
    var remoteSeparation: real
    var verticalAngle: real
    var angledDownwards: bool

    ghost predicate Valid()
      reads this, remotes
    {
      remotes.Length == 2 && remotes[0] != remotes[1]
    }

    /** The point later positions are measured from. */
    function Origin(): Vec3
      reads this
    {
      Vec3(originX, originY, originZ)
    }

    function Config(): Settings
      reads this
    {
      Settings(irDotSeparation, remoteSeparation, verticalAngle, angledDownwards)
    }

    /** A tracker whose remotes are not yet connected, measuring from (0, 0, 0). */
    constructor (remoteSeparation: real, maths: Maths)
      ensures Valid() && fresh(remotes) && fresh(remotes[0]) && fresh(remotes[1])
      ensures remotes[0].State() == Idle && remotes[1].State() == Idle
      ensures Origin() == Zero
      ensures Config() == Settings(8.5 * 25.4, remoteSeparation, 0.0, false)
      ensures this.maths == maths
    {
      var first := new Wiimote();
      var second := new Wiimote();
      remotes := new Wiimote[] [first, second];
      this.maths := maths;
      originX, originY, originZ := 0.0, 0.0, 0.0;
      irDotSeparation := 8.5 * 25.4;
      this.remoteSeparation := remoteSeparation;
      verticalAngle := 0.0;
      angledDownwards := false;
    }

    method SetRemoteDistance(remoteSeparation: real)
      requires Valid()
      modifies this`remoteSeparation
      ensures Valid() && Origin() == old(Origin())
      ensures Config() == old(Config()).(remoteSeparation := remoteSeparation)
    {
      this.remoteSeparation := remoteSeparation;
    }

    method SetCamerasVerticalAngle(verticalAngle: real)
      requires Valid()
      modifies this`verticalAngle
      ensures Valid() && Origin() == old(Origin())
      ensures Config() == old(Config()).(verticalAngle := verticalAngle)
    {
      this.verticalAngle := verticalAngle;
    }

    method SetIrDotSeparation(irDotSeparation: real)
      requires Valid()
      modifies this`irDotSeparation
      ensures Valid() && Origin() == old(Origin())
      ensures Config() == old(Config()).(irDotSeparation := irDotSeparation)
    {
      this.irDotSeparation := irDotSeparation;
    }

    method SetCamerasAngledDownwards(angledDownwards: bool)
      requires Valid()
      modifies this`angledDownwards
      ensures Valid() && Origin() == old(Origin())
      ensures Config() == old(Config()).(angledDownwards := angledDownwards)
    {
      this.angledDownwards := angledDownwards;
    }

    /**
     * The user's position relative to the origin. `x`, `y`, `z` are the
     * caller's variables on entry and `x'`, `y'`, `z'` on exit: a failed
     * query hands them back unchanged.
     */
    method GetPosition(x: real, y: real, z: real) returns (ok: bool, x': real, y': real, z': real)
      requires Valid()
      modifies remotes[0], remotes[1]
      ensures var r := Locate(Config(), Origin(), maths, old(remotes[0].State()), old(remotes[1].State()), Vec3(x, y, z));
              && ok == r.ok && Vec3(x', y', z') == r.out
              && remotes[0].State() == AfterCue(old(remotes[0].State()), r.cue0)
              && remotes[1].State() == AfterCue(old(remotes[1].State()), r.cue1)
              && remotes[0].requests == old(remotes[0].requests) + Issued(r.cue0)
              && remotes[1].requests == old(remotes[1].requests) + Issued(r.cue1)
    {
      var remote0, remote1 := remotes[0], remotes[1];
      if remote0.connectionLost || remote1.connectionLost {
        return false, x, y, z;
      }
      if !remote0.irOn || (remote1.connected && !remote1.irOn) {
        return false, x, y, z;
      }

      var dots0, dots1 := GatherDots(remote0.dots, remote1.connected, remote1.dots);
      if !remote1.connected {
        ok, x', y', z' := RangeWithOne(dots0, x, y, z);
      } else {
        ok, x', y', z' := TriangulateWithTwo(dots0, dots1, x, y, z);
      }
    }

    /** One remote: range from the apparent separation of its two dots. */
    method RangeWithOne(dots0: seq<Point>, x: real, y: real, z: real) returns (ok: bool, x': real, y': real, z': real)
      requires Valid() && dots0 == VisibleDots(remotes[0].dots)
      modifies remotes[0]
      ensures var r := SingleQuery(Config(), Origin(), maths, old(remotes[0].State()), Vec3(x, y, z));
              && ok == r.ok && Vec3(x', y', z') == r.out
              && remotes[0].State() == AfterCue(old(remotes[0].State()), r.cue0)
              && remotes[0].requests == old(remotes[0].requests) + Issued(r.cue0)
    {
      SignalDots(remotes[0], |dots0| != 2);
      if |dots0| != 2 {
        return false, x, y, z;
      }
      var fix := SingleFix(maths, Config(), Origin(), dots0[0], dots0[1]);
      return true, fix.x, fix.y, fix.z;
    }

    /** Two remotes: triangulate from one representative point each. */
    method TriangulateWithTwo(dots0: seq<Point>, dots1: seq<Point>, x: real, y: real, z: real)
      returns (ok: bool, x': real, y': real, z': real)
      requires Valid() && dots0 == VisibleDots(remotes[0].dots) && dots1 == VisibleDots(remotes[1].dots)
      modifies remotes[0], remotes[1]
      ensures var r := DualQuery(Config(), Origin(), maths, old(remotes[0].State()), old(remotes[1].State()), Vec3(x, y, z));
              && ok == r.ok && Vec3(x', y', z') == r.out
              && remotes[0].State() == AfterCue(old(remotes[0].State()), r.cue0)
              && remotes[1].State() == AfterCue(old(remotes[1].State()), r.cue1)
              && remotes[0].requests == old(remotes[0].requests) + Issued(r.cue0)
              && remotes[1].requests == old(remotes[1].requests) + Issued(r.cue1)
    {
      SignalDots(remotes[0], |dots0| == 0);
      SignalDots(remotes[1], |dots1| == 0);
      if |dots0| == 0 || |dots1| == 0 {
        return false, x, y, z;
      }
      var fix := DualFix(maths, Config(), Origin(), Representative(dots0), Representative(dots1));
      return true, fix.x, fix.y, fix.z;
    }

    /**
     * Makes the current position the origin. Refused, with nothing changed,
     * when a remote has lost its connection. Otherwise the origin is zeroed
     * and then receives the result of a query made from it: the raw position
     * on success, and (0, 0, 0) when that query fails.
     */
    method Reset() returns (ok: bool)
      requires Valid()
      modifies this, remotes[0], remotes[1]
      ensures Valid() && Config() == old(Config())
      ensures old(ConnectionLost(remotes[0].State(), remotes[1].State())) ==>
                !ok && Origin() == old(Origin()) && unchanged(remotes[0], remotes[1])
      ensures !old(ConnectionLost(remotes[0].State(), remotes[1].State())) ==>
                var r := Locate(old(Config()), Zero, maths, old(remotes[0].State()), old(remotes[1].State()), Zero);
                && ok == r.ok && Origin() == r.out
                && remotes[0].State() == AfterCue(old(remotes[0].State()), r.cue0)
                && remotes[1].State() == AfterCue(old(remotes[1].State()), r.cue1)
                && remotes[0].requests == old(remotes[0].requests) + Issued(r.cue0)
                && remotes[1].requests == old(remotes[1].requests) + Issued(r.cue1)
      ensures !ok && !old(ConnectionLost(remotes[0].State(), remotes[1].State())) ==> Origin() == Zero
    {
      if remotes[0].connectionLost || remotes[1].connectionLost {
        return false;
      }
      originX, originY, originZ := 0.0, 0.0, 0.0;
      // The origin fields are the query's own out-parameters.
      ok, originX, originY, originZ := GetPosition(originX, originY, originZ);
    }
  }
}
