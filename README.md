# Music player: playback state, clock text and lyric position

This project models the playback logic of a small React music player and proves
properties of it in Dafny. Three components hold the logic:

- **SharedLayout** (`src/SharedLayout.jsx`) shows a grid of twenty tracks, a
  "now playing" pill and a modal player. It keeps three pieces of state:
  - `activeGame`: the track whose modal is open;
  - `currentTrack`: the track that is playing;
  - `isPlaying`: the playing flag.

  It also owns one persistent audio element. A click on a track switches playback
  to that track, unless it is already current, and leaves the modal alone. The pill
  reopens the modal. The toggle button goes through the mounted player if there is
  one, and drives the element directly otherwise.
- **MusicPlayer** (`src/MusicPlayer.jsx`) is the player surface. It chooses which
  audio element it uses, finds the current timed-lyric line by a scan that stops at
  the first line still in the future, renders times as `m:ss`, handles scrubbing,
  and exposes a `togglePlay` handle to its owner.
- **AudioProvider** (`src/AudioContext.jsx`) keeps a play/pause flag in step with
  an audio element created for `/massivecobalt.mp3`.

Modules, one per concern:

- `Media`: the HTML audio element, reduced to its source, its `paused` flag, its
  position and a log of the commands it received, in order (`pause`, `src = …`,
  `load`, `play`). There is a value type `MediaState`, pure command functions, and
  a class `Audio`. The class's methods are proved to act as those functions, so the
  element can be shared by reference as it is in the program.
- `Catalog`: the twenty catalog entries (title, audio locator, duration), built
  column by column.
- `TimeFormat`: `formatTime`, with JavaScript's truncating `%` written out.
- `Player`: the lyric scan (a `for` loop with `break`), the lyric texts, and class
  `MusicPlayer`.
- `Layout`: the value-level state machine of the layout (one step function per
  handler, `Run` over a sequence of gestures), and class `SharedLayout`. Each
  method's postcondition is `View() == <step>(old(View()))`.
- `AudioContext`: the provider as a value-level step and as a class.
- `Options`: JavaScript's `null` as `None`.

Each handler is one atomic step. Whether the player is mounted is passed to the
toggle handler as the player object, or `null`. The layout renders its player
with its own persistent element, so the handler requires that the player's
`persistent` is the layout's `audio`.

## Model

| member | source | states |
|---|---|---|
| Layout.SharedLayout.constructor | src/SharedLayout.jsx:8-15 | The layout starts with no modal, no current track, not playing, and no audio element yet. |
| Layout.CreateAudioStep | src/SharedLayout.jsx:18-23 | The mount step always leaves an element in place. It creates a paused element with no source and an empty log only when none exists, and otherwise changes nothing. |
| Layout.SharedLayout.CreateAudioEffect | src/SharedLayout.jsx:18-23 | The mount effect allocates a fresh element only when there is none, keeps an existing one, and acts as `CreateAudioStep`. |
| Layout.StartsInSync | src/SharedLayout.jsx:8-23 | After the mount effect the playing flag matches the element: not playing and paused. |
| Layout.GameClickStep | src/SharedLayout.jsx:48-66 | A click on the current title returns the state unchanged and issues no command. Any other click makes the track current and sets the flag. If the element exists, it then holds exactly `pause, src = url, load, play` appended to its log, points at the track's URL, plays, and is at position 0. Without an element the flag and track are set anyway. The modal is never touched. |
| Layout.SharedLayout.HandleGameClick | src/SharedLayout.jsx:48-66 | The handler, on the shared element, acts as `GameClickStep`. |
| Layout.ReselectIsNoop | src/SharedLayout.jsx:51-54 | For catalog tracks, a click leaves the state unchanged if and only if the clicked track is already current. |
| Layout.ClickIdempotent | src/SharedLayout.jsx:48-66 | Clicking the same track twice has the effect of clicking it once. |
| Layout.TogglePlayStep | src/SharedLayout.jsx:26-37 | With a mounted player or an existing element, the flag flips once and the element gets one command: `pause` when playing, `play` otherwise; its paused state then equals the old flag and its source and position stay. With neither, the state is unchanged (the early return). |
| Layout.SharedLayout.HandleTogglePlay | src/SharedLayout.jsx:26-37 | The handler acts as `TogglePlayStep`, whether it delegates to the mounted player or drives the element itself. When a mounted player has only its own element, that element gets the same toggle. When the layout's element exists, the player's own element, if it has one, is left untouched. |
| Layout.ToggleIgnoresMount | src/SharedLayout.jsx:27-35 | Once the element exists, delegating to the player and driving the element directly have the same effect. |
| Layout.ToggleTwiceRestores | src/SharedLayout.jsx:26-37 | Two toggles restore the flag and the element's paused state and keep them in step. The element's log gains `pause, play` or `play, pause`, and nothing else changes. |
| Layout.CloseModalStep | src/SharedLayout.jsx:40-42 | Closing clears the modal and leaves the track, the flag and the element exactly as they were. |
| Layout.SharedLayout.CloseModal | src/SharedLayout.jsx:40-42 | The method changes only `activeGame` and acts as `CloseModalStep`. |
| Layout.NowPlayingStep | src/SharedLayout.jsx:69-73 | With a current track, the modal opens on it; without one, nothing changes. Playback is never touched. |
| Layout.SharedLayout.HandleNowPlayingClick | src/SharedLayout.jsx:69-73 | The method changes only `activeGame` and acts as `NowPlayingStep`. |
| Layout.SharedLayout.PillClick | src/SharedLayout.jsx:273-277 | The pill's inline click handler changes only `activeGame`, with the same effect as `handleNowPlayingClick`. |
| Layout.EndedStep | src/SharedLayout.jsx:18-23 | The element stopping by itself (end of track, platform pause) leaves the modal, the track and the flag as they were, because no handler listens for it; it pauses the element without logging a command. |
| Layout.EndWhilePlayingBreaksSync | src/SharedLayout.jsx:26-37 | If a playing element stops by itself, the flag still says playing while the element is paused. Under either toggle path, the next toggle sends `pause` to the paused element and only clears the flag. Playback resumes, with `pause, play` logged, only on the second toggle. |
| Layout.RunKeepsSync | src/SharedLayout.jsx:26-73 | If the flag and the element start in step, they stay in step after any sequence of clicks, toggles (mounted or not), closes and pill clicks. |
| Layout.RunKeepsTrack | src/SharedLayout.jsx:64 | Once a track is current, no sequence of gestures makes it absent again. |
| Layout.RunStaysInCatalog | src/SharedLayout.jsx:180-185 | When every click is on a grid entry, the current track is always absent or a catalog entry, and it is absent only if it was absent at the start. |
| Layout.StepLoads | src/SharedLayout.jsx:56-62 | One gesture adds a `load` to the element's log exactly when it is a click on a different title. |
| Layout.LoadsCountSwitches | src/SharedLayout.jsx:56-62 | Over any sequence of gestures, the element is loaded once per click that switches tracks and at no other time. |
| Layout.SelectOpenCloseSelect | src/SharedLayout.jsx:40-73 | Select a track, open its modal from the pill, close it, then select a track with another title. The second track is then current and playing, the modal is closed, and the log is the two switch sequences in order. |
| Catalog.Prefix | src/SharedLayout.jsx:367-516 | The first `n` catalog entries: `n` of them, each assembled from the title, locator and duration columns at its position. |
| Catalog.GamesTitlesDistinct | src/SharedLayout.jsx:367-516 | The catalog has twenty entries whose titles, used as list keys, are pairwise distinct. |
| Catalog.TitleIdentifiesTrack | src/SharedLayout.jsx:183 | Two catalog entries have the same title if and only if they are the same entry. |
| Player.StartedCount | src/MusicPlayer.jsx:37-46 | The length of the longest prefix of lines that have begun by time `t`: all lines before it have started, and the line at it (if any) starts later. |
| Player.ScanLyricIndex | src/MusicPlayer.jsx:38-45 | The loop with `break` returns the longest started prefix's length minus one. The result lies in `[-1, len-1]`, and it is -1 exactly when the first line starts after `t`. All lines up to it have begun and the next one has not. |
| Player.MusicPlayer.HandleTimeUpdate | src/MusicPlayer.jsx:33-48 | The shown time becomes the audio position. With non-empty lyrics the index becomes the scan's result at that position. Without lyrics, or with an empty list, the index is unchanged. Either way the index stays a valid player index. |
| Player.CurrentLyricText | src/MusicPlayer.jsx:86-87 | The text is empty when there are no lyrics or the index is negative; otherwise it is the line at the index. It is undefined (a TypeError) exactly when the index lies past the end. |
| Player.NextLyricText | src/MusicPlayer.jsx:88-91 | The text is empty when there are no lyrics or the index is at or past the last line; otherwise it is the line after the index. It is undefined exactly when the index lies below -1. |
| Player.LyricTextsDefined | src/MusicPlayer.jsx:86-91 | For any index the player can hold, neither text raises. |
| Player.LyricTextsAtTime | src/MusicPlayer.jsx:86-91 | At the scanned index, the current text is the last line that has begun (empty if none has) and the next text is the first line still ahead (empty if all have begun). |
| Player.MusicPlayer.AudioRef | src/MusicPlayer.jsx:16-19 | The persistent element when there is one, the player's own otherwise; there is no audio exactly when both are missing. |
| Player.MusicPlayer.constructor | src/MusicPlayer.jsx:21-22 | A new player shows time 0 and lyric index -1, with no element of its own yet. |
| Player.MusicPlayer.MountEffect | src/MusicPlayer.jsx:24-29 | The player creates its own fresh, source-less element only when no audio is available, and afterwards audio is always available. |
| Player.MusicPlayer.HandleScrub | src/MusicPlayer.jsx:77-83 | The shown time becomes `v`. The chosen element, if any, is moved to exactly `v` with no clamping, and nothing else about it changes. |
| Player.MusicPlayer.TogglePlay | src/MusicPlayer.jsx:59-63 | Pauses the chosen element when the argument says it is playing and plays it otherwise; with no element it does nothing. |
| Media.Toggled | src/MusicPlayer.jsx:62 | The ternary toggle leaves the element paused exactly when it was said to be playing. It appends that one command and keeps the source and position. |
| Media.Audio.constructor | src/SharedLayout.jsx:20 | `new Audio()`: paused, at position 0, no command yet. |
| Media.Audio.Pause | src/SharedLayout.jsx:58 | `pause()` pauses and is logged. |
| Media.Audio.SetSrc | src/SharedLayout.jsx:59 | Assigning `src` changes the source and is logged. |
| Media.Audio.Load | src/SharedLayout.jsx:60 | `load()` leaves the element paused at position 0 and is logged. |
| Media.Audio.Play | src/SharedLayout.jsx:61 | `play()` starts playback and is logged. |
| Media.Audio.SetCurrentTime | src/MusicPlayer.jsx:81 | Assigning `currentTime` seeks to the given value and changes nothing else. |
| TimeFormat.PadStart2 | src/MusicPlayer.jsx:72 | `padStart(2, "0")`: a text shorter than two gets zeros prefixed up to length two, and a longer text is unchanged. |
| TimeFormat.FloorDivMod | src/MusicPlayer.jsx:69-70 | For a non-negative time, `floor(sec / 60)` and `floor(sec % 60)` (JavaScript's truncating `%`) are the quotient and remainder of the whole seconds by 60. |
| TimeFormat.FormatTime | src/MusicPlayer.jsx:67-74 | A negative time shows as `0:00`. Otherwise the text is the decimal whole minutes, a colon, and the whole seconds within the minute padded to two digits. |
| TimeFormat.SecondsField | src/MusicPlayer.jsx:70-72 | For seconds below 60, the padded field is two digits, reads back as the seconds, and starts with `0` exactly when the seconds are below 10. |
| TimeFormat.FormatTimeRoundTrip | src/MusicPlayer.jsx:68-73 | Reading any clock text back as `m:ss` succeeds. A negative time gives (0, 0). Otherwise it gives minutes and seconds with `m*60 + ss` equal to the whole seconds of the input and `ss` below 60. |
| TimeFormat.SecondsFieldShape | src/MusicPlayer.jsx:70-72 | Every clock text ends in a colon and two digits worth at most 59, zero-padded exactly when the seconds are below 10. |
| AudioContext.InitialProvider | src/AudioContext.jsx:6-7 | The provider starts not playing, with a paused element for `/massivecobalt.mp3` that has received no command. |
| AudioContext.AudioProvider.constructor | src/AudioContext.jsx:6-7 | The constructor allocates a fresh element and acts as `InitialProvider`. |
| AudioContext.ToggleStep | src/AudioContext.jsx:9-16 | `togglePlay`: pause when playing, play otherwise (one command, source and position kept), and the flag flips once. |
| AudioContext.AudioProvider.TogglePlay | src/AudioContext.jsx:9-16 | The method on the provider's element acts as `ToggleStep`. |
| AudioContext.ToggleTwice | src/AudioContext.jsx:9-16 | From an in-step state, a toggle keeps flag and element in step. Two toggles restore both the flag and the element's paused state and add one pause and one play. |
| AudioContext.TogglesFrom | src/AudioContext.jsx:9-16 | From an in-step state, `n` toggles keep flag and element in step and flip the flag `n` times. They append exactly `n` commands, keeping the earlier log, and those commands alternate starting from the one the flag calls for. |
| AudioContext.TogglesFromStart | src/AudioContext.jsx:6-16 | From the initial provider, after `n` toggles the flag is set exactly when `n` is odd. The log is `play, pause, play, …` of length `n`. |
| AudioContext.EndedProvider | src/AudioContext.jsx:5-16 | The element stopping by itself leaves the provider's flag as it was and pauses the element without logging a command. |
| AudioContext.EndWhilePlayingBreaksStep | src/AudioContext.jsx:9-16 | If a playing element stops by itself, flag and element disagree. The next `togglePlay` sends `pause` to the paused element and only clears the flag, putting them back in step. A second toggle is needed to play again. |

## Left out

- Markup, inline styles, framer-motion animations, `layoutId` and the progress-bar gradient are rendering only.
- Browser audio internals are not modelled: asynchronous loading, the `play()` promise and its rejection, decoding, network failure and the cadence of `timeupdate`. Each command takes effect at once.
- `preload = "auto"` in both mount effects is not modelled, because it only hints at buffering.
- The `load()` step sets `paused` and resets the position, following the media element load algorithm of the HTML standard. The rest of that algorithm is not modelled.
- React mechanics are not modelled: effect scheduling, listener registration and removal, `forwardRef`/`useImperativeHandle`, re-rendering and batched `setState`. Each handler is one atomic step and effects run before gestures. A click before the layout's mount effect is still modelled, with no element.
- Player.MusicPlayer.HandleTimeUpdate: reads the position of the element chosen at mount. Re-subscription when the lyrics or the reference change is not modelled, because the lyrics and the persistent element are fixed for a mounted player.
- Player.MusicPlayer.HandleScrub: takes the already-parsed number. `parseFloat` of the slider's text and a browser's own clamping of the seek are not modelled.
- TimeFormat.FormatTime: seconds are exact reals. The NaN and infinity guards and floating-point rounding of `sec / 60` have no counterpart, and minutes are written in plain decimal even past the point where JavaScript switches to exponent notation.
- Catalog: the artwork and description fields are left out; they are display only.
- AudioContext.AudioProvider.constructor: the element is created once. The throwaway `new Audio(...)` that each re-render evaluates and discards is not modelled.
- `src/App.js` only composes the providers and components and is not part of this model.
- Layout.RunKeepsSync, Layout.ToggleTwiceRestores, AudioContext.ToggleTwice, AudioContext.TogglesFrom, AudioContext.TogglesFromStart: these hold only for sequences of the program's own gestures. The element can also stop by itself, when a track ends or the platform pauses it, and neither component listens for that. `EndedStep` and `EndedProvider` model that event, and `EndWhilePlayingBreaksSync` and `EndWhilePlayingBreaksStep` prove that it breaks the agreement. The `Run` gesture sequences do not include it.
- The scrub/`timeupdate` race is timing between asynchronous events and is not modelled.
