/**
 * The player surface: the timed-lyrics position, the lyric lines derived from it,
 * scrubbing, and the play/pause entry point its owner calls. The clock text it
 * renders is in module TimeFormat.
 */
module Player {
  import opened Options
  import opened Media

  /** One timed lyric line: the time in seconds at which it begins, and its text. */
  datatype Lyric = Lyric(start: real, line: string)

  /** The number of lines, counted from the first, that have begun by time `t`:
      the longest prefix whose start times are all at most `t`. */
  function StartedCount(ls: seq<Lyric>, t: real): (n: nat)
    ensures n <= |ls|
    ensures forall k :: 0 <= k < n ==> ls[k].start <= t
    ensures n < |ls| ==> ls[n].start > t
  {
    if ls == [] || ls[0].start > t then 0 else 1 + StartedCount(ls[1..], t)
  }

  /** The three facts above determine the prefix length: no other length has them. */
  lemma StartedCountUnique(ls: seq<Lyric>, t: real, n: nat)
    requires n <= |ls|
    requires forall k :: 0 <= k < n ==> ls[k].start <= t
    requires n < |ls| ==> ls[n].start > t
    ensures n == StartedCount(ls, t)
  {
  }

  /** The scan of `handleTimeUpdate`: walk the lines in order, remember the last one that
      has begun, stop at the first that has not. The result is the index of the current line,
      or -1 when even the first line lies in the future. */
  method ScanLyricIndex(ls: seq<Lyric>, t: real) returns (newIndex: int)
    ensures newIndex == StartedCount(ls, t) - 1
    ensures -1 <= newIndex < |ls|
    ensures forall k :: 0 <= k <= newIndex ==> ls[k].start <= t
    ensures newIndex + 1 < |ls| ==> ls[newIndex + 1].start > t
    ensures |ls| > 0 ==> (newIndex == -1 <==> ls[0].start > t)
  {
    newIndex := -1;
    for i := 0 to |ls|
      invariant newIndex == i - 1
      invariant forall k :: 0 <= k < i ==> ls[k].start <= t
    {
      if ls[i].start <= t {
        newIndex := i;
      } else {
        break;
      }
    }
    StartedCountUnique(ls, t, newIndex + 1);
  }

  /** `currentLyricText`: the line at the current index, or the empty text when there are no
      lyrics or no line has begun. `None` stands for the TypeError the expression raises when
      the index lies past the end of the lyrics. */
  function CurrentLyricText(lyrics: Option<seq<Lyric>>, index: int): (r: Option<string>)
    ensures index < 0 || lyrics.None? ==> r == Some("")
    ensures r.None? <==> lyrics.Some? && index >= |lyrics.value|
    ensures lyrics.Some? && 0 <= index < |lyrics.value| ==> r == Some(lyrics.value[index].line)
  {
    if lyrics.Some? && index >= 0 then
      if index < |lyrics.value| then Some(lyrics.value[index].line) else None
    else
      Some("")
  }

  /** `nextLyricText`: the line after the current index, or the empty text when the current
      line is the last one (or there are no lyrics). `None` stands for the TypeError raised
      when the index lies before -1. */
  function NextLyricText(lyrics: Option<seq<Lyric>>, index: int): (r: Option<string>)
    ensures lyrics.None? ==> r == Some("")
    ensures lyrics.Some? && index >= |lyrics.value| - 1 ==> r == Some("")
    ensures r.None? <==> lyrics.Some? && index < -1 && index < |lyrics.value| - 1
    ensures lyrics.Some? && -1 <= index < |lyrics.value| - 1 ==> r == Some(lyrics.value[index + 1].line)
  {
    if lyrics.Some? && index < |lyrics.value| - 1 then
      if 0 <= index + 1 then Some(lyrics.value[index + 1].line) else None
    else
      Some("")
  }

  /** The lyric index the player keeps: -1, or the index of a line of its lyrics. */
  ghost predicate IndexInRange(lyrics: Option<seq<Lyric>>, index: int)
  {
    -1 <= index && (index >= 0 ==> lyrics.Some? && index < |lyrics.value|)
  }

  /** With an index the player can hold, neither lyric text raises. */
  lemma LyricTextsDefined(lyrics: Option<seq<Lyric>>, index: int)
    requires IndexInRange(lyrics, index)
    ensures CurrentLyricText(lyrics, index).Some? && NextLyricText(lyrics, index).Some?
  {
  }

  /** At the index the scan computes for time `t`, the current text is the last line that
      has begun (empty if none has) and the next text is the first line that has not
      (empty if all have). */
  lemma {:induction false} LyricTextsAtTime(ls: seq<Lyric>, t: real)
    ensures var n := StartedCount(ls, t);
      CurrentLyricText(Some(ls), n - 1) == Some(if n == 0 then "" else ls[n - 1].line) &&
      NextLyricText(Some(ls), n - 1) == Some(if n == |ls| then "" else ls[n].line)
    ensures var n := StartedCount(ls, t);
      (n > 0 ==> ls[n - 1].start <= t) && (n < |ls| ==> ls[n].start > t)
  {
  }

  /** One mounted player surface. `timedLyrics` and `persistent` are the props it was rendered
      with: the lyrics (absent in the shared layout) and the current value of the persistent
      audio reference (null when the prop is missing or still empty). */
  class MusicPlayer {
    const timedLyrics: Option<seq<Lyric>>
    const persistent: Audio?
    var local: Audio?
    var currentTime: real
    var currentIndex: int

    ghost predicate Valid()
      reads this
    {
      IndexInRange(timedLyrics, currentIndex)
    }

    /** The `audioRef` choice: the persistent audio when one exists, the player's own otherwise. */
    function AudioRef(): (a: Audio?)
      reads this
      ensures persistent != null ==> a == persistent
      ensures persistent == null ==> a == local
      ensures a == null <==> persistent == null && local == null
    {
      if persistent != null then persistent else local
    }

    constructor (timedLyrics: Option<seq<Lyric>>, persistent: Audio?)
      ensures this.timedLyrics == timedLyrics && this.persistent == persistent
      ensures local == null && currentTime == 0.0 && currentIndex == -1
      ensures Valid()
    {
      this.timedLyrics := timedLyrics;
      this.persistent := persistent;
      local := null;
      currentTime := 0.0;
      currentIndex := -1;
    }

    /** The mount effect: create a player-owned audio element when no audio is available. */
    method MountEffect()
      modifies this`local
      ensures old(AudioRef()) == null ==> fresh(local) && local.State() == NewAudio("")
      ensures old(AudioRef()) != null ==> local == old(local)
      ensures AudioRef() != null
    {
      if AudioRef() == null {
        local := new Audio("");
      }
    }

    /** `handleTimeUpdate`: mirror the audio position, and recompute the lyric index
      when there are lyrics. */
    method HandleTimeUpdate()
      requires Valid() && AudioRef() != null
      modifies this`currentTime, this`currentIndex
      ensures Valid()
      ensures currentTime == AudioRef().currentTime
      ensures currentIndex == if timedLyrics.Some? && |timedLyrics.value| > 0
        then StartedCount(timedLyrics.value, currentTime) - 1
        else old(currentIndex)
    {
      var audio := AudioRef();
      currentTime := audio.currentTime;
      if timedLyrics.Some? && |timedLyrics.value| > 0 {
        var newIndex := ScanLyricIndex(timedLyrics.value, audio.currentTime);
        currentIndex := newIndex;
      }
    }

    /** `handleScrub(v)`: show `v` at once and move the audio there, when there is audio.
      The value is not clamped. */
    method HandleScrub(v: real)
      modifies this`currentTime, AudioRef()
      ensures currentTime == v
      ensures AudioRef() == old(AudioRef())
      ensures AudioRef() != null ==> AudioRef().State() == Seeked(old(AudioRef().State()), v)
    {
      currentTime := v;
      if AudioRef() != null {
        AudioRef().SetCurrentTime(v);
      }
    }

    /** The `togglePlay(isCurrentlyPlaying)` handle the owner calls: pause when playing,
      play otherwise, nothing when there is no audio. */
    method TogglePlay(isCurrentlyPlaying: bool)
      modifies AudioRef()
      ensures AudioRef() != null ==> AudioRef().State() == Toggled(old(AudioRef().State()), isCurrentlyPlaying)
    {
      var audio := AudioRef();
      if audio == null {
        return;
      }
      if isCurrentlyPlaying {
        audio.Pause();
      } else {
        audio.Play();
      }
    }
  }
}
