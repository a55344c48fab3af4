/**
 * The Wii remote as the position tracker sees it: the liveness flags, the IR
 * camera mode, the four IR dot slots of the latest frame and the speaker that
 * is used as a warning tone. Everything else the driver library does
 * (Bluetooth, LEDs, buttons, frame refresh, tone frequencies) is not modelled.
 */
module Sensor {

  /** One of the four IR slots a remote reports: is a dot seen there, and where (normalised). */
  datatype IrDot = IrDot(visible: bool, x: real, y: real)

  /** The normalised position of a visible dot. */
  datatype Point = Point(x: real, y: real)

  /** The mean of two dot positions. */
  function Midpoint(a: Point, b: Point): Point
  {
    Point((a.x + b.x) / 2.0, (a.y + b.y) / 2.0)
  }

  /** An IR slot with nothing in it. */
  const Hidden := IrDot(false, 0.0, 0.0)

  /** The camera always reports exactly four slots. */
  type Slots = s: seq<IrDot> | |s| == 4 witness [Hidden, Hidden, Hidden, Hidden]

  /** A request the tracker can make of a remote's speaker. */
  datatype Cue = Keep | Start | Stop

  /** The part of a remote's state that the tracker reads or changes. */
  datatype RemoteState = RemoteState(
    connectionLost: bool,
    connected: bool,
    irOn: bool,
    dots: Slots,
    tonePlaying: bool)

  /** A remote that was never connected. */
  const Idle := RemoteState(false, false, false, [Hidden, Hidden, Hidden, Hidden], false)

  /** Whether the tone plays after the speaker has been sent cue `c`. */
  function ToneAfter(playing: bool, c: Cue): bool
  {
    match c
    case Keep => playing
    case Start => true
    case Stop => false
  }

  /** The state of a remote after the speaker has been sent cue `c`. */
  function AfterCue(s: RemoteState, c: Cue): RemoteState
  {
    s.(tonePlaying := ToneAfter(s.tonePlaying, c))
  }

  /** The speaker requests that cue `c` stands for (none for `Keep`). */
  function Issued(c: Cue): seq<Cue>
  {
    if c == Keep then [] else [c]
  }

  /**
   * A remote. The driver library owns these fields; the tracker only reads
   * them and uses the speaker. `requests` records every speaker request made,
   * so that a redundant request would be visible.
   */
  class Wiimote {
    var connectionLost: bool
    var connected: bool
    var irOn: bool
    var dots: Slots
    var playingAudio: bool
    ghost var requests: seq<Cue>

    constructor ()
      ensures State() == Idle && requests == []
    {
      connectionLost, connected, irOn := false, false, false;
      dots := [Hidden, Hidden, Hidden, Hidden];
      playingAudio := false;
      requests := [];
    }

    function State(): RemoteState
      reads this
    {
      RemoteState(connectionLost, connected, irOn, dots, playingAudio)
    }

    /** Starts the warning tone. */
    method PlaySquareWave()
      modifies this
      ensures State() == AfterCue(old(State()), Start)
      ensures requests == old(requests) + [Start]
    {
      playingAudio := true;
      requests := requests + [Start];
    }

    /** Stops the warning tone (the library's `EnableSpeaker(false)`). */
    method DisableSpeaker()
      modifies this
      ensures State() == AfterCue(old(State()), Stop)
      ensures requests == old(requests) + [Stop]
    {
      playingAudio := false;
      requests := requests + [Stop];
    }
  }
}
