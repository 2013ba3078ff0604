/**
 * The browser's HTML audio element, reduced to what the player observes of it:
 * its source locator, its `paused` flag, its playback position and a log of the
 * commands it has been given. Loading, decoding and the asynchronous `play()`
 * promise are not modelled; each command takes effect at once.
 */
module Media {

  /** A command issued to an audio element, in the order it was issued. */
  datatype Command = Pause | Src(url: string) | Load | Play

  /** The observable state of one audio element. */
  datatype MediaState = MediaState(src: string, paused: bool, log: seq<Command>, currentTime: real)

  /** `new Audio(src)`: paused, at position 0, no command issued yet. */
  function NewAudio(src: string): MediaState
  {
    MediaState(src, true, [], 0.0)
  }

  /** `audio.pause()` */
  function PauseCmd(m: MediaState): MediaState
  {
    m.(paused := true, log := m.log + [Pause])
  }

  /** `audio.play()` */
  function PlayCmd(m: MediaState): MediaState
  {
    m.(paused := false, log := m.log + [Play])
  }

  /** `audio.src = url` */
  function SrcCmd(m: MediaState, url: string): MediaState
  {
    m.(src := url, log := m.log + [Src(url)])
  }

  /**
   * `audio.load()`: the media element load algorithm leaves the element paused
   * and resets the playback position to 0.
   */
  function LoadCmd(m: MediaState): MediaState
  {
    m.(paused := true, currentTime := 0.0, log := m.log + [Load])
  }

  /** `audio.currentTime = t`: a seek; the position is stored as given. */
  function Seeked(m: MediaState, t: real): MediaState
  {
    m.(currentTime := t)
  }

  /**
   * The element pauses by itself: playback reached the end of the resource, or the
   * platform (media keys, another application) paused it. This is not a command
   * the program issues, so the log does not record it.
   */
  function Ended(m: MediaState): MediaState
  {
    m.(paused := true)
  }

  /** `playing ? audio.pause() : audio.play()`, the toggle every component of the player writes. */
  function Toggled(m: MediaState, playing: bool): (r: MediaState)
    ensures r.paused == playing
    ensures r.log == m.log + [if playing then Pause else Play]
    ensures r.src == m.src && r.currentTime == m.currentTime
  {
    if playing then PauseCmd(m) else PlayCmd(m)
  }

  /** One audio element, shared by reference between the components that hold it. */
  class Audio {
    var src: string
    var paused: bool
    var log: seq<Command>
    var currentTime: real

    function State(): MediaState
      reads this
    {
      MediaState(src, paused, log, currentTime)
    }

    constructor (url: string)
      ensures State() == NewAudio(url)
    {
      src, paused, log, currentTime := url, true, [], 0.0;
    }

    method Pause()
      modifies this
      ensures State() == PauseCmd(old(State()))
    {
      paused := true;
      log := log + [Command.Pause];
    }

    method Play()
      modifies this
      ensures State() == PlayCmd(old(State()))
    {
      paused := false;
      log := log + [Command.Play];
    }

    method SetSrc(url: string)
      modifies this
      ensures State() == SrcCmd(old(State()), url)
    {
      src := url;
      log := log + [Src(url)];
    }

    method Load()
      modifies this
      ensures State() == LoadCmd(old(State()))
    {
      paused := true;
      currentTime := 0.0;
      log := log + [Command.Load];
    }

    method SetCurrentTime(t: real)
      modifies this
      ensures State() == Seeked(old(State()), t)
    {
      currentTime := t;
    }
  }
}
