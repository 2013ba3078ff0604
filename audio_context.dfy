/**
 * The audio provider: a play/pause flag kept in step with one audio element that
 * is created for `/massivecobalt.mp3`.
 */
module AudioContext {
  import opened Media

  const DefaultSource: string := "/massivecobalt.mp3"

  /** The provider's flag and its audio element. */
  datatype ProviderState = ProviderState(isPlaying: bool, audio: MediaState)

  /** The provider as first rendered: not playing, a fresh element for the default source. */
  function InitialProvider(): (p: ProviderState)
    ensures !p.isPlaying && p.audio.src == DefaultSource && p.audio.paused && p.audio.log == []
  {
    ProviderState(false, NewAudio(DefaultSource))
  }

  /** The flag describes the element: playing exactly when the element is not paused. */
  ghost predicate InStep(p: ProviderState)
  {
    p.isPlaying == !p.audio.paused
  }

  /** `togglePlay`: pause when playing, play otherwise, then flip the flag. */
  function ToggleStep(p: ProviderState): (r: ProviderState)
    ensures r.isPlaying == !p.isPlaying
    ensures r.audio.log == p.audio.log + [if p.isPlaying then Pause else Play]
    ensures r.audio.paused == p.isPlaying
    ensures r.audio.src == p.audio.src && r.audio.currentTime == p.audio.currentTime
  {
    ProviderState(!p.isPlaying, Toggled(p.audio, p.isPlaying))
  }

  /** `n` toggles in a row. */
  function ToggleTimes(p: ProviderState, n: nat): ProviderState
    decreases n
  {
    if n == 0 then p else ToggleTimes(ToggleStep(p), n - 1)
  }

  /** Two toggles give back the flag and the element's paused state, having issued
      one pause and one play; a toggle keeps the flag in step with the element. */
  lemma ToggleTwice(p: ProviderState)
    requires InStep(p)
    ensures InStep(ToggleStep(p))
    ensures ToggleStep(ToggleStep(p)).isPlaying == p.isPlaying
    ensures ToggleStep(ToggleStep(p)).audio == p.audio.(log := p.audio.log + if p.isPlaying then [Pause, Play] else [Play, Pause])
  {
  }

  /** After any number of toggles from the initial provider the flag and the element agree,
      the flag is set exactly after an odd number of toggles, and the log alternates play and
      pause starting with play. */
  lemma {:induction false} TogglesFromStart(n: nat)
    ensures var p := ToggleTimes(InitialProvider(), n);
      InStep(p) && p.isPlaying == (n % 2 == 1) && |p.audio.log| == n &&
      forall k :: 0 <= k < n ==> p.audio.log[k] == (if k % 2 == 0 then Play else Pause)
  {
    TogglesFrom(InitialProvider(), n);
  }

  lemma {:induction false} TogglesFrom(p: ProviderState, n: nat)
    requires InStep(p)
    ensures var q := ToggleTimes(p, n);
      InStep(q) && q.isPlaying == (p.isPlaying != (n % 2 == 1)) && |q.audio.log| == |p.audio.log| + n &&
      q.audio.log[..|p.audio.log|] == p.audio.log &&
      forall k :: 0 <= k < n ==> q.audio.log[|p.audio.log| + k] == (if p.isPlaying == (k % 2 == 0) then Pause else Play)
    decreases n
  {
    if n > 0 {
      var p1 := ToggleStep(p);
      TogglesFrom(p1, n - 1);
      var q := ToggleTimes(p, n);
      assert q == ToggleTimes(p1, n - 1);
      var m := |p.audio.log|;
      assert q.audio.log[..m] == p.audio.log by {
        assert q.audio.log[..m + 1][..m] == q.audio.log[..m];
      }
      forall k | 0 <= k < n
        ensures q.audio.log[m + k] == (if p.isPlaying == (k % 2 == 0) then Pause else Play)
      {
        if k == 0 {
          assert q.audio.log[..m + 1][m] == q.audio.log[m];
        } else {
          assert q.audio.log[m + 1 + (k - 1)] == (if p1.isPlaying == ((k - 1) % 2 == 0) then Pause else Play);
        }
      }
    }
  }

  /** The element stops by itself; the provider has no listener for it, so its flag stays. */
  function EndedProvider(p: ProviderState): (r: ProviderState)
    ensures r.isPlaying == p.isPlaying && r.audio == Ended(p.audio)
  {
    p.(audio := Ended(p.audio))
  }

  /** After a playing element ends by itself the flag no longer describes it. The next
      `togglePlay` sends `pause` to the paused element and merely clears the flag, which puts
      the two back in step, and a second toggle is needed to play again. */
  lemma EndWhilePlayingBreaksStep(p: ProviderState)
    requires InStep(p) && p.isPlaying
    ensures !InStep(EndedProvider(p))
    ensures var q := ToggleStep(EndedProvider(p));
      InStep(q) && !q.isPlaying && q.audio.paused && q.audio.log == p.audio.log + [Pause]
    ensures var q := ToggleStep(ToggleStep(EndedProvider(p)));
      q.isPlaying && !q.audio.paused && q.audio.log == p.audio.log + [Pause, Play]
  {
  }

  /** The provider component. */
  class AudioProvider {
    var isPlaying: bool
    const audio: Audio

    function State(): ProviderState
      reads this, audio
    {
      ProviderState(isPlaying, audio.State())
    }

    constructor ()
      ensures State() == InitialProvider()
      ensures fresh(audio)
    {
      isPlaying := false;
      audio := new Audio(DefaultSource);
    }

    method TogglePlay()
      modifies this, audio
      ensures State() == ToggleStep(old(State()))
    {
      if isPlaying {
        audio.Pause();
      } else {
        audio.Play();
      }
      isPlaying := !isPlaying;
    }
  }
}
