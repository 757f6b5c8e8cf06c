/**
  The abstract state of one Unity AudioSource as the music manager drives it, and
  the calls the manager makes on a source: Play, Stop, an assignment to `volume`,
  PlayDelayed and DOTween's DOFade. Each call is a pure update of the record; a
  fade is recorded as a request (target and duration), its ramp is not modelled.
*/
module Audio {
  import opened Wrappers

  /** An AudioSource volume level, within [0, 1]. */
  type Volume = v: real | 0.0 <= v <= 1.0 witness 1.0

  /** An audio clip asset, identified by its name. */
  type Clip = string

  /** The last DOFade issued on a source: the volume it ramps to and over how many seconds. */
  datatype FadeRequest = FadeRequest(target: Volume, duration: real)

  /**
    One music source. `playing` is what `isPlaying` reports; `volume` is the
    volume last assigned to the source's `volume` property (1.0, the engine
    default, until then); `level` is the volume the source settles at once the
    last fade asked of it has run its course: the target of the last fade or the
    last assigned volume, whichever was requested later. `pendingDelay` is the
    delay of a PlayDelayed that is scheduled and not yet cancelled by Play or
    Stop; `lastFade` is the most recent fade request issued on the source;
    `plays` and `stops` count the Play and Stop calls it has received (each Play
    restarts the clip from its beginning).
  */
  datatype Source = Source(
    clip: Clip,
    loop: bool,
    playing: bool,
    volume: Volume,
    level: Volume,
    pendingDelay: Option<real>,
    lastFade: Option<FadeRequest>,
    plays: nat,
    stops: nat)

  /** A freshly added AudioSource with engine defaults (stopped, full volume), looping `clip`. */
  function NewLooping(clip: Clip): Source {
    Source(clip, true, false, 1.0, 1.0, None, None, 0, 0)
  }

  /** The calls the manager makes on a single source. */
  datatype Call =
    | Play
    | Stop
    | SetVolume(v: Volume)
    | PlayDelayed(delay: real)
    | DOFade(target: Volume, duration: real)

  /**
    The effect of one call. Play starts now and Stop halts, both dropping any
    scheduled start; PlayDelayed schedules a start (the source then reports
    itself as playing); an assignment to `volume` sets the level at once; DOFade
    records the request and moves the level the source settles at to the fade's
    target, leaving the assigned volume and playback alone. No call rebinds the
    clip or the loop flag.
  */
  function Apply(src: Source, c: Call): (r: Source)
    ensures r.clip == src.clip && r.loop == src.loop
    ensures c.DOFade? ==> r.playing == src.playing && r.volume == src.volume && r.pendingDelay == src.pendingDelay
    ensures !c.DOFade? ==> r.lastFade == src.lastFade
    ensures !c.SetVolume? ==> r.volume == src.volume
    ensures c.SetVolume? ==> r.volume == c.v && r.level == c.v
    ensures c.DOFade? ==> r.level == c.target
    ensures c.DOFade? ==> r.lastFade == Some(FadeRequest(c.target, c.duration))
    ensures !c.SetVolume? && !c.DOFade? ==> r.level == src.level
    ensures r.plays == src.plays + (if c.Play? then 1 else 0)
    ensures r.stops == src.stops + (if c.Stop? then 1 else 0)
    ensures c.Play? ==> r.playing && r.pendingDelay.None?
    ensures c.Stop? ==> !r.playing && r.pendingDelay.None?
    ensures c.PlayDelayed? ==> r.playing && r.pendingDelay == Some(c.delay)
    ensures c.SetVolume? ==> r.playing == src.playing && r.pendingDelay == src.pendingDelay
  {
    match c
    case Play => src.(playing := true, pendingDelay := None, plays := src.plays + 1)
    case Stop => src.(playing := false, pendingDelay := None, stops := src.stops + 1)
    case SetVolume(v) => src.(volume := v, level := v)
    case PlayDelayed(d) => src.(playing := true, pendingDelay := Some(d))
    case DOFade(target, duration) => src.(level := target, lastFade := Some(FadeRequest(target, duration)))
  }
}
