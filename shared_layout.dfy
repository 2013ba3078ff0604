/**
 * The shared layout: the open modal, the current track, the playing flag and the one
 * persistent audio element, driven by the track grid, the modal, and the now-playing pill.
 * Each handler is one atomic step. The value-level step functions below define the
 * handlers; class SharedLayout implements them on the shared, mutable audio element.
 */
module Layout {
  import opened Options
  import opened Media
  import opened Catalog
  import Player

  /** What the layout holds: the modal's track, the current track, the playing flag, and the
      state of the persistent audio element (`None` until the mount effect has created it). */
  datatype ShellState = ShellState(
    activeGame: Option<Track>,
    currentTrack: Option<Track>,
    isPlaying: bool,
    audio: Option<MediaState>)

  /** The state before the first effect: no modal, no track, not playing, no audio yet. */
  function Initial(): ShellState
  {
    ShellState(None, None, false, None)
  }

  /** The one-time mount effect: create the shared element, without a source, unless it exists. */
  function CreateAudioStep(s: ShellState): (r: ShellState)
    ensures r.audio.Some?
    ensures s.audio.Some? ==> r == s
    ensures s.audio.None? ==> r.audio == Some(NewAudio(""))
    ensures r.activeGame == s.activeGame && r.currentTrack == s.currentTrack && r.isPlaying == s.isPlaying
  {
    if s.audio.None? then s.(audio := Some(NewAudio(""))) else s
  }

  /** `currentTrack?.title === game.title`: false when there is no current track. */
  predicate SameTitle(current: Option<Track>, game: Track)
  {
    current.Some? && current.value.title == game.title
  }

  /** `handleGameClick(game)`: a click on the current title does nothing; any other click stops
      the element, points it at the track's audio, reloads and plays it, and makes the track
      current and playing, whether or not the element exists. The modal is never touched. */
  function GameClickStep(s: ShellState, game: Track): (r: ShellState)
    ensures SameTitle(s.currentTrack, game) ==> r == s
    ensures !SameTitle(s.currentTrack, game) ==> r.currentTrack == Some(game) && r.isPlaying
    ensures !SameTitle(s.currentTrack, game) && s.audio.Some? ==>
      r.audio.Some? &&
      r.audio.value.log == s.audio.value.log + [Pause, Src(game.audioUrl), Load, Play] &&
      r.audio.value.src == game.audioUrl && !r.audio.value.paused && r.audio.value.currentTime == 0.0
    ensures s.audio.None? ==> r.audio.None?
    ensures r.activeGame == s.activeGame
  {
    if SameTitle(s.currentTrack, game) then s
    else
      var audio := if s.audio.Some? then Some(PlayCmd(LoadCmd(SrcCmd(PauseCmd(s.audio.value), game.audioUrl)))) else None;
      s.(audio := audio, currentTrack := Some(game), isPlaying := true)
  }

  /** `handleTogglePlay`, with `mounted` telling whether the player surface is mounted. A mounted
      player toggles the persistent element (it was handed that element); otherwise the layout
      toggles the element itself, or returns early when there is none. Either way the flag flips
      once and the element receives exactly one command. */
  function TogglePlayStep(s: ShellState, mounted: bool): (r: ShellState)
    ensures mounted || s.audio.Some? ==> r.isPlaying == !s.isPlaying
    ensures !mounted && s.audio.None? ==> r == s
    ensures s.audio.Some? ==>
      r.audio.Some? &&
      r.audio.value.log == s.audio.value.log + [if s.isPlaying then Pause else Play] &&
      r.audio.value.paused == s.isPlaying &&
      r.audio.value.src == s.audio.value.src && r.audio.value.currentTime == s.audio.value.currentTime
    ensures s.audio.None? ==> r.audio.None?
    ensures r.activeGame == s.activeGame && r.currentTrack == s.currentTrack
  {
    if !mounted && s.audio.None? then s
    else
      var audio := if s.audio.Some? then Some(Toggled(s.audio.value, s.isPlaying)) else None;
      s.(audio := audio, isPlaying := !s.isPlaying)
  }

  /** `closeModal`: close the modal; the track, the flag and the element stay as they are. */
  function CloseModalStep(s: ShellState): (r: ShellState)
    ensures r.activeGame.None?
    ensures r.currentTrack == s.currentTrack && r.isPlaying == s.isPlaying && r.audio == s.audio
  {
    s.(activeGame := None)
  }

  /** `handleNowPlayingClick` and the pill's track area: reopen the modal on the current track,
      if there is one; playback is not touched. */
  function NowPlayingStep(s: ShellState): (r: ShellState)
    ensures s.currentTrack.Some? ==> r.activeGame == s.currentTrack
    ensures s.currentTrack.None? ==> r == s
    ensures r.currentTrack == s.currentTrack && r.isPlaying == s.isPlaying && r.audio == s.audio
  {
    if s.currentTrack.Some? then s.(activeGame := s.currentTrack) else s
  }

  /** A user gesture handled by the layout. */
  datatype Event = Click(game: Track) | TogglePlay(mounted: bool) | CloseModal | NowPlaying

  function Step(s: ShellState, e: Event): ShellState
  {
    match e
    case Click(g) => GameClickStep(s, g)
    case TogglePlay(m) => TogglePlayStep(s, m)
    case CloseModal => CloseModalStep(s)
    case NowPlaying => NowPlayingStep(s)
  }

  /** The state after handling a sequence of gestures in order. */
  function Run(s: ShellState, evs: seq<Event>): ShellState
    decreases |evs|
  {
    if evs == [] then s else Run(Step(s, evs[0]), evs[1..])
  }

  /** The flag describes the element: the element exists and plays exactly when the flag is set. */
  ghost predicate InSync(s: ShellState)
  {
    s.audio.Some? && s.audio.value.paused == !s.isPlaying
  }

  /** After the mount effect the flag and the element agree. */
  lemma StartsInSync()
    ensures InSync(CreateAudioStep(Initial()))
  {
  }

  /** Every gesture keeps the flag in step with the element, so any sequence of gestures does. */
  lemma {:induction false} RunKeepsSync(s: ShellState, evs: seq<Event>)
    requires InSync(s)
    ensures InSync(Run(s, evs))
    decreases |evs|
  {
    if evs != [] {
      RunKeepsSync(Step(s, evs[0]), evs[1..]);
    }
  }

  /** Once a track is current, no sequence of gestures clears it. */
  lemma {:induction false} RunKeepsTrack(s: ShellState, evs: seq<Event>)
    requires s.currentTrack.Some?
    ensures Run(s, evs).currentTrack.Some?
    decreases |evs|
  {
    if evs != [] {
      RunKeepsTrack(Step(s, evs[0]), evs[1..]);
    }
  }

  /** Every click in the sequence is on a catalog entry. */
  ghost predicate ClicksFromCatalog(evs: seq<Event>)
  {
    forall i :: 0 <= i < |evs| && evs[i].Click? ==> InCatalog(evs[i].game)
  }

  /** The current track is always the initial one or the last track clicked from the catalog. */
  lemma {:induction false} RunStaysInCatalog(s: ShellState, evs: seq<Event>)
    requires s.currentTrack.None? || InCatalog(s.currentTrack.value)
    requires ClicksFromCatalog(evs)
    ensures var r := Run(s, evs); r.currentTrack.None? || InCatalog(r.currentTrack.value)
    ensures Run(s, evs).currentTrack.None? ==> s.currentTrack.None?
    decreases |evs|
  {
    if evs != [] {
      assert ClicksFromCatalog(evs[1..]) by {
        forall i | 0 <= i < |evs[1..]| && evs[1..][i].Click? ensures InCatalog(evs[1..][i].game) {
          assert evs[1..][i] == evs[i + 1];
        }
      }
      assert evs[0].Click? ==> InCatalog(evs[0].game);
      RunStaysInCatalog(Step(s, evs[0]), evs[1..]);
    }
  }

  /** For catalog tracks a click changes nothing exactly when it is on the current track:
      comparing titles is comparing tracks. */
  lemma ReselectIsNoop(s: ShellState, game: Track)
    requires InCatalog(game)
    requires s.currentTrack.None? || InCatalog(s.currentTrack.value)
    ensures GameClickStep(s, game) == s <==> s.currentTrack == Some(game)
  {
    if s.currentTrack.Some? {
      TitleIdentifiesTrack(s.currentTrack.value, game);
    }
  }

  /** Clicking the same track twice is clicking it once. */
  lemma ClickIdempotent(s: ShellState, game: Track)
    ensures GameClickStep(GameClickStep(s, game), game) == GameClickStep(s, game)
  {
  }

  /** Once the element exists, toggling does the same whether or not the player is mounted. */
  lemma ToggleIgnoresMount(s: ShellState)
    requires s.audio.Some?
    ensures TogglePlayStep(s, true) == TogglePlayStep(s, false)
  {
  }

  /** Two toggles restore the flag and the element's paused state, and keep them in step. */
  lemma ToggleTwiceRestores(s: ShellState, m1: bool, m2: bool)
    requires InSync(s)
    ensures var r := TogglePlayStep(TogglePlayStep(s, m1), m2);
      InSync(r) && r.isPlaying == s.isPlaying &&
      r.audio.value == s.audio.value.(log := s.audio.value.log + if s.isPlaying then [Pause, Play] else [Play, Pause])
  {
  }

  /** The element stops by itself (the track ran out, or the platform paused it). No
      handler listens for this, so the flag is left as it was. */
  function EndedStep(s: ShellState): (r: ShellState)
    ensures s.audio.Some? ==> r.audio == Some(Ended(s.audio.value))
    ensures s.audio.None? ==> r == s
    ensures r.activeGame == s.activeGame && r.currentTrack == s.currentTrack && r.isPlaying == s.isPlaying
  {
    if s.audio.Some? then s.(audio := Some(Ended(s.audio.value))) else s
  }

  /** The flag keeps step with the element only under the layout's own commands. When a playing
      track ends, the flag still says playing while the element is paused. The next toggle then
      sends `pause` to the paused element and only clears the flag, so playback resumes only on
      the second toggle. */
  lemma EndWhilePlayingBreaksSync(s: ShellState, m1: bool, m2: bool)
    requires InSync(s) && s.isPlaying
    ensures var e := EndedStep(s); !InSync(e) && e.isPlaying && e.audio.value.paused
    ensures var t := TogglePlayStep(EndedStep(s), m1);
      t.audio.value.log == s.audio.value.log + [Pause] && t.audio.value.paused && !t.isPlaying
    ensures var t := TogglePlayStep(TogglePlayStep(EndedStep(s), m1), m2);
      t.isPlaying && !t.audio.value.paused && t.audio.value.log == s.audio.value.log + [Pause, Play]
  {
  }

  /** The number of `load` commands in a log. */
  function Loads(log: seq<Command>): nat
  {
    if log == [] then 0 else Loads(log[..|log| - 1]) + (if log[|log| - 1] == Load then 1 else 0)
  }

  lemma LoadsAppend(log: seq<Command>, c: Command)
    ensures Loads(log + [c]) == Loads(log) + (if c == Load then 1 else 0)
  {
    assert (log + [c])[..|log|] == log;
  }

  /** The number of clicks in `evs`, handled from `s`, that switch to another track. */
  function Switches(s: ShellState, evs: seq<Event>): nat
    decreases |evs|
  {
    if evs == [] then 0
    else (if evs[0].Click? && !SameTitle(s.currentTrack, evs[0].game) then 1 else 0) + Switches(Step(s, evs[0]), evs[1..])
  }

  /** One gesture reloads the element exactly when it is a click that switches tracks. */
  lemma StepLoads(s: ShellState, e: Event)
    requires s.audio.Some?
    ensures Step(s, e).audio.Some?
    ensures Loads(Step(s, e).audio.value.log) == Loads(s.audio.value.log) + (if e.Click? && !SameTitle(s.currentTrack, e.game) then 1 else 0)
  {
    var a := s.audio.value;
    match e
    case Click(g) =>
      if !SameTitle(s.currentTrack, g) {
        LoadsAppend(a.log, Pause);
        LoadsAppend(a.log + [Pause], Src(g.audioUrl));
        LoadsAppend(a.log + [Pause] + [Src(g.audioUrl)], Load);
        LoadsAppend(a.log + [Pause] + [Src(g.audioUrl)] + [Load], Play);
        assert a.log + [Pause, Src(g.audioUrl), Load, Play] == a.log + [Pause] + [Src(g.audioUrl)] + [Load] + [Play];
      }
    case TogglePlay(m) =>
      LoadsAppend(a.log, if s.isPlaying then Pause else Play);
    case CloseModal =>
    case NowPlaying =>
  }

  /** Over any sequence of gestures the element is loaded once per click that switches tracks,
      and never otherwise. */
  lemma {:induction false} LoadsCountSwitches(s: ShellState, evs: seq<Event>)
    requires s.audio.Some?
    ensures Run(s, evs).audio.Some?
    ensures Loads(Run(s, evs).audio.value.log) == Loads(s.audio.value.log) + Switches(s, evs)
    decreases |evs|
  {
    if evs != [] {
      StepLoads(s, evs[0]);
      LoadsCountSwitches(Step(s, evs[0]), evs[1..]);
    }
  }

  /** Select a track, open its modal from the pill, close it, select a track with another
      title: the second is current and playing, the modal is closed, and the element received
      two stop, point, load, play sequences in order. */
  lemma SelectOpenCloseSelect(a: Track, b: Track)
    requires a.title != b.title
    ensures var s0 := CreateAudioStep(Initial());
      var s1 := GameClickStep(s0, a);
      var s2 := NowPlayingStep(s1);
      var s3 := CloseModalStep(s2);
      var s4 := GameClickStep(s3, b);
      s1.currentTrack == Some(a) && s1.isPlaying && s1.activeGame.None? &&
      s2.activeGame == Some(a) &&
      s3.activeGame.None? && s3.isPlaying &&
      s4.currentTrack == Some(b) && s4.isPlaying && s4.activeGame.None? &&
      s4.audio.value.src == b.audioUrl &&
      s4.audio.value.log == [Pause, Src(a.audioUrl), Load, Play, Pause, Src(b.audioUrl), Load, Play]
  {
  }

  /** The layout component, with the persistent element held by reference. */
  class SharedLayout {
    var activeGame: Option<Track>
    var currentTrack: Option<Track>
    var isPlaying: bool
    var audio: Audio?

    function View(): ShellState
      reads this, audio
    {
      ShellState(activeGame, currentTrack, isPlaying, if audio == null then None else Some(audio.State()))
    }

    constructor ()
      ensures View() == Initial()
    {
      activeGame, currentTrack, isPlaying, audio := None, None, false, null;
    }

    /** The mount effect that creates the single shared element. */
    method CreateAudioEffect()
      modifies this`audio
      ensures old(audio) == null ==> fresh(audio)
      ensures old(audio) != null ==> audio == old(audio)
      ensures View() == CreateAudioStep(old(View()))
    {
      if audio == null {
        audio := new Audio("");
      }
    }

    /** `handleTogglePlay`; `player` is the mounted player surface, if any, which the layout
        renders with its own persistent element. */
    method HandleTogglePlay(player: Player.MusicPlayer?)
      requires player != null ==> player.persistent == audio
      modifies this`isPlaying, audio, if player != null && audio == null then player.local else null
      ensures View() == TogglePlayStep(old(View()), player != null)
      ensures player != null && audio == null && player.local != null ==>
        player.local.State() == Toggled(old(player.local.State()), old(isPlaying))
      ensures player != null && audio != null && player.local != null && player.local != audio ==>
        player.local.State() == old(player.local.State())
    {
      if player != null {
        player.TogglePlay(isPlaying);
      } else {
        var a := audio;
        if a == null {
          return;
        }
        if isPlaying {
          a.Pause();
        } else {
          a.Play();
        }
      }
      isPlaying := !isPlaying;
    }

    /** `closeModal` */
    method CloseModal()
      modifies this`activeGame
      ensures View() == CloseModalStep(old(View()))
    {
      activeGame := None;
    }

    /** `handleGameClick(game)` */
    method HandleGameClick(game: Track)
      modifies this`currentTrack, this`isPlaying, audio
      ensures View() == GameClickStep(old(View()), game)
    {
      var a := audio;
      if currentTrack.Some? && currentTrack.value.title == game.title {
        return;
      }
      if a != null {
        a.Pause();
        a.SetSrc(game.audioUrl);
        a.Load();
        a.Play();
      }
      currentTrack := Some(game);
      isPlaying := true;
    }

    /** `handleNowPlayingClick` */
    method HandleNowPlayingClick()
      modifies this`activeGame
      ensures View() == NowPlayingStep(old(View()))
    {
      if currentTrack.Some? {
        activeGame := currentTrack;
      }
    }

    /** The click handler of the pill's track area, written inline in the markup. */
    method PillClick()
      modifies this`activeGame
      ensures View() == NowPlayingStep(old(View()))
    {
      if currentTrack.Some? {
        activeGame := currentTrack;
      }
    }
  }
}
