/** The audio player component: six fields of page state, the `<audio>`
    element it drives (which may be absent until it is mounted), the
    handlers of its buttons and sliders, the element's events, and the
    minutes:seconds label. Times are in seconds. */
module AudioPlayer {
  import opened Text

  /** `formatTime` on a whole number of seconds. */
  function FormatTime(t: nat): (s: string)
    ensures |s| >= 4 && s[|s| - 3] == ':'
    ensures s[|s| - 2..] == Pad2(t % 60)
  {
    if t == 0 then "0:00"
    else
      PaddedSeconds(t % 60);
      NatToString(t / 60) + ":" + (if t % 60 < 10 then "0" else "") + NatToString(t % 60)
  }

  /** The seconds part as `formatTime` writes it is `Pad2` of the seconds. */
  lemma PaddedSeconds(n: nat)
    requires n < 60
    ensures (if n < 10 then "0" else "") + NatToString(n) == Pad2(n)
  {
    NatToStringLength(n);
  }

  /** The label is the minutes, a colon and the seconds as two digits; this
      holds for 0 too, whose special case agrees with the general rule. */
  lemma FormatTimeShape(t: nat)
    ensures FormatTime(t) == NatToString(t / 60) + ":" + Pad2(t % 60)
    ensures |Pad2(t % 60)| == 2 && AllDigits(Pad2(t % 60))
    ensures 60 * DecimalValue(NatToString(t / 60)) + DecimalValue(Pad2(t % 60)) == t
    ensures DecimalValue(Pad2(t % 60)) < 60
  {
    NatToStringLength(t % 60);
    Pad2Digits(t % 60);
    DecimalValueOfNatToString(t / 60);
    if t == 0 {
      assert NatToString(0) == "0";
      assert Pad2(0) == "00";
    } else if t % 60 < 10 {
      assert Pad2(t % 60) == "0" + NatToString(t % 60);
    }
  }

  /** Splitting "m:ss" with a two-character seconds part is unambiguous. */
  lemma SplitClock(m1: string, s1: string, m2: string, s2: string)
    requires |s1| == 2 && |s2| == 2
    requires m1 + ":" + s1 == m2 + ":" + s2
    ensures m1 == m2 && s1 == s2
  {
    var w1, w2 := m1 + ":" + s1, m2 + ":" + s2;
    assert |m1| == |m2|;
    assert m1 == w1[..|m1|] && m2 == w2[..|m2|];
    assert s1 == w1[|m1| + 1..] && s2 == w2[|m2| + 1..];
  }

  /** Distinct times get distinct labels. */
  lemma FormatTimeInjective(t1: nat, t2: nat)
    requires FormatTime(t1) == FormatTime(t2)
    ensures t1 == t2
  {
    FormatTimeShape(t1);
    FormatTimeShape(t2);
    SplitClock(NatToString(t1 / 60), Pad2(t1 % 60), NatToString(t2 / 60), Pad2(t2 % 60));
  }

  function Max(a: real, b: real): real { if a >= b then a else b }
  function Min(a: real, b: real): real { if a <= b then a else b }

  /** The player's state together with the element it controls. */
  class Player {
    var isPlaying: bool
    var duration: real
    var currentTime: real
    var volume: real
    var isMuted: bool
    var isLoaded: bool

    /** Whether `audioRef.current` is set, and the element's own fields. */
    var hasElement: bool
    var elemPaused: bool
    var elemCurrentTime: real
    var elemVolume: real
    var elemMuted: bool
    var elemDuration: real

    /** The shown mute state is the element's mute state. */
    predicate Synced()
      reads this
    {
      hasElement ==> elemMuted == isMuted
    }

    /** A new player over an element (if any) whose media lasts `mediaDuration`. */
    constructor(withElement: bool, mediaDuration: real)
      requires mediaDuration >= 0.0
      ensures !isPlaying && duration == 0.0 && currentTime == 0.0 && volume == 1.0
      ensures !isMuted && !isLoaded
      ensures hasElement == withElement && elemPaused && elemCurrentTime == 0.0
      ensures elemVolume == 1.0 && !elemMuted && elemDuration == mediaDuration
      ensures Synced()
    {
      isPlaying, duration, currentTime, volume, isMuted, isLoaded := false, 0.0, 0.0, 1.0, false, false;
      hasElement, elemPaused, elemCurrentTime := withElement, true, 0.0;
      elemVolume, elemMuted, elemDuration := 1.0, false, mediaDuration;
    }

    /** The play button shows what the element does: pause while it plays. */
    predicate PlaybackInStep()
      reads this
    {
      hasElement ==> elemPaused == !isPlaying
    }

    /** "Carregando áudio..." is shown until the metadata has loaded. */
    predicate ShowsLoadingNote()
      reads this
    {
      !isLoaded
    }

    /** `togglePlay`. `playOk` says whether the promise of `play()` resolves;
        it can reject (an autoplay policy, a source that cannot be played),
        and the element then stays as it was. The flag flips either way. */
    method TogglePlay(playOk: bool)
      modifies this
      ensures hasElement ==>
        isPlaying == !old(isPlaying) && elemPaused == (old(isPlaying) || (!playOk && old(elemPaused)))
      ensures !hasElement ==> isPlaying == old(isPlaying) && elemPaused == old(elemPaused)
      ensures old(PlaybackInStep()) && (old(isPlaying) || playOk) ==> PlaybackInStep()
      ensures duration == old(duration) && currentTime == old(currentTime) && volume == old(volume)
      ensures isMuted == old(isMuted) && isLoaded == old(isLoaded) && hasElement == old(hasElement)
      ensures elemCurrentTime == old(elemCurrentTime) && elemVolume == old(elemVolume)
      ensures elemMuted == old(elemMuted) && elemDuration == old(elemDuration)
    {
      if hasElement {
        if isPlaying {
          elemPaused := true;
        } else if playOk {
          elemPaused := false;
        }
        isPlaying := !isPlaying;
      }
    }

    /** `toggleMute`: flips the mute state of page and element together and
        leaves the volume alone. */
    method ToggleMute()
      modifies this
      ensures hasElement ==> isMuted == !old(isMuted) && elemMuted == !old(isMuted)
      ensures !hasElement ==> isMuted == old(isMuted) && elemMuted == old(elemMuted)
      ensures old(Synced()) ==> Synced()
      ensures volume == old(volume) && elemVolume == old(elemVolume)
      ensures isPlaying == old(isPlaying) && duration == old(duration) && currentTime == old(currentTime)
      ensures isLoaded == old(isLoaded) && hasElement == old(hasElement) && elemPaused == old(elemPaused)
      ensures elemCurrentTime == old(elemCurrentTime) && elemDuration == old(elemDuration)
    {
      if hasElement {
        elemMuted := !isMuted;
        isMuted := !isMuted;
      }
    }

    /** `handleTimeChange` with the slider's value `newTime`. */
    method HandleTimeChange(newTime: real)
      modifies this
      ensures currentTime == newTime
      ensures elemCurrentTime == if hasElement then newTime else old(elemCurrentTime)
      ensures isPlaying == old(isPlaying) && duration == old(duration) && volume == old(volume)
      ensures isMuted == old(isMuted) && isLoaded == old(isLoaded) && hasElement == old(hasElement)
      ensures elemPaused == old(elemPaused) && elemVolume == old(elemVolume)
      ensures elemMuted == old(elemMuted) && elemDuration == old(elemDuration)
    {
      currentTime := newTime;
      if hasElement {
        elemCurrentTime := newTime;
      }
    }

    /** `handleVolumeChange` as written: the shown mute state follows the new
        volume but the element's `muted` flag is left as it was. */
    method HandleVolumeChangeAsWritten(newVolume: real)
      requires 0.0 <= newVolume <= 1.0
      modifies this
      ensures volume == newVolume
      ensures hasElement ==> elemVolume == newVolume && isMuted == (newVolume == 0.0)
      ensures !hasElement ==> elemVolume == old(elemVolume) && isMuted == old(isMuted)
      ensures elemMuted == old(elemMuted)
      ensures isPlaying == old(isPlaying) && duration == old(duration) && currentTime == old(currentTime)
      ensures isLoaded == old(isLoaded) && hasElement == old(hasElement) && elemPaused == old(elemPaused)
      ensures elemCurrentTime == old(elemCurrentTime) && elemDuration == old(elemDuration)
    {
      volume := newVolume;
      if hasElement {
        elemVolume := newVolume;
        isMuted := newVolume == 0.0;
      }
    }

    /** `handleVolumeChange` with the element's `muted` flag set to match the
        shown state, so a positive volume is heard. */
    method HandleVolumeChange(newVolume: real)
      requires 0.0 <= newVolume <= 1.0
      modifies this
      ensures volume == newVolume
      ensures hasElement ==> elemVolume == newVolume && isMuted == (newVolume == 0.0) && elemMuted == isMuted
      ensures !hasElement ==> elemVolume == old(elemVolume) && isMuted == old(isMuted) && elemMuted == old(elemMuted)
      ensures old(Synced()) ==> Synced()
      ensures isPlaying == old(isPlaying) && duration == old(duration) && currentTime == old(currentTime)
      ensures isLoaded == old(isLoaded) && hasElement == old(hasElement) && elemPaused == old(elemPaused)
      ensures elemCurrentTime == old(elemCurrentTime) && elemDuration == old(elemDuration)
    {
      volume := newVolume;
      if hasElement {
        elemVolume := newVolume;
        elemMuted := newVolume == 0.0;
        isMuted := newVolume == 0.0;
      }
    }

    /** `skipBackward`: ten seconds back, never before the start. */
    method SkipBackward()
      modifies this
      ensures hasElement ==> elemCurrentTime == Max(old(elemCurrentTime) - 10.0, 0.0)
      ensures hasElement ==> elemCurrentTime >= 0.0 && elemCurrentTime <= Max(old(elemCurrentTime), 0.0)
      ensures !hasElement ==> elemCurrentTime == old(elemCurrentTime)
      ensures isPlaying == old(isPlaying) && duration == old(duration) && currentTime == old(currentTime)
      ensures volume == old(volume) && isMuted == old(isMuted) && isLoaded == old(isLoaded)
      ensures hasElement == old(hasElement) && elemPaused == old(elemPaused) && elemVolume == old(elemVolume)
      ensures elemMuted == old(elemMuted) && elemDuration == old(elemDuration)
    {
      if hasElement {
        elemCurrentTime := Max(elemCurrentTime - 10.0, 0.0);
      }
    }

    /** `skipForward`: ten seconds on, never past the known duration (so not
        at all, to 0, before the metadata has loaded). */
    method SkipForward()
      modifies this
      ensures hasElement ==> elemCurrentTime == Min(old(elemCurrentTime) + 10.0, duration)
      ensures hasElement ==> elemCurrentTime <= duration
      ensures hasElement && duration == 0.0 && old(elemCurrentTime) >= 0.0 ==> elemCurrentTime == 0.0
      ensures !hasElement ==> elemCurrentTime == old(elemCurrentTime)
      ensures isPlaying == old(isPlaying) && duration == old(duration) && currentTime == old(currentTime)
      ensures volume == old(volume) && isMuted == old(isMuted) && isLoaded == old(isLoaded)
      ensures hasElement == old(hasElement) && elemPaused == old(elemPaused) && elemVolume == old(elemVolume)
      ensures elemMuted == old(elemMuted) && elemDuration == old(elemDuration)
    {
      if hasElement {
        elemCurrentTime := Min(elemCurrentTime + 10.0, duration);
      }
    }

    /** The element's `loadedmetadata` event. */
    method OnLoadedMetadata()
      modifies this
      ensures hasElement ==> duration == elemDuration && isLoaded
      ensures !hasElement ==> duration == old(duration) && isLoaded == old(isLoaded)
      ensures hasElement ==> !ShowsLoadingNote()
      ensures isPlaying == old(isPlaying) && currentTime == old(currentTime) && volume == old(volume)
      ensures isMuted == old(isMuted) && hasElement == old(hasElement) && elemPaused == old(elemPaused)
      ensures elemCurrentTime == old(elemCurrentTime) && elemVolume == old(elemVolume)
      ensures elemMuted == old(elemMuted) && elemDuration == old(elemDuration)
    {
      if hasElement {
        duration := elemDuration;
        isLoaded := true;
      }
    }

    /** The element's `timeupdate` event: the shown position follows the element. */
    method OnTimeUpdate()
      modifies this
      ensures hasElement ==> currentTime == elemCurrentTime
      ensures !hasElement ==> currentTime == old(currentTime)
      ensures isPlaying == old(isPlaying) && duration == old(duration) && volume == old(volume)
      ensures isMuted == old(isMuted) && isLoaded == old(isLoaded) && hasElement == old(hasElement)
      ensures elemPaused == old(elemPaused) && elemCurrentTime == old(elemCurrentTime)
      ensures elemVolume == old(elemVolume) && elemMuted == old(elemMuted) && elemDuration == old(elemDuration)
    {
      if hasElement {
        currentTime := elemCurrentTime;
      }
    }

    /** The element reaches the end of its media: it pauses by itself, then
        its `ended` event runs the handler, which stops and rewinds. */
    method OnEnded()
      modifies this
      ensures !isPlaying && currentTime == 0.0
      ensures elemCurrentTime == if hasElement then 0.0 else old(elemCurrentTime)
      ensures elemPaused == (hasElement || old(elemPaused))
      ensures PlaybackInStep()
      ensures duration == old(duration) && volume == old(volume) && isMuted == old(isMuted)
      ensures isLoaded == old(isLoaded) && hasElement == old(hasElement)
      ensures elemVolume == old(elemVolume) && elemMuted == old(elemMuted) && elemDuration == old(elemDuration)
    {
      if hasElement {
        elemPaused := true;
      }
      isPlaying := false;
      currentTime := 0.0;
      if hasElement {
        elemCurrentTime := 0.0;
      }
    }
  }

  /** Two play/pause clicks give back the original flag; when `play()`
      succeeds, a player in step stays in step. */
  method TogglePlayTwice(p: Player, playOk: bool)
    modifies p
    ensures p.isPlaying == old(p.isPlaying)
    ensures old(p.PlaybackInStep()) && playOk ==> p.PlaybackInStep()
  {
    p.TogglePlay(playOk);
    p.TogglePlay(playOk);
  }

  /** A rejected `play()`: the button shows pause while the element stays
      paused. */
  method PlayRejectedExample() returns (shownPlaying: bool, elementPaused: bool)
    ensures shownPlaying && elementPaused
  {
    var p := new Player(true, 120.0);
    p.TogglePlay(false);
    shownPlaying, elementPaused := p.isPlaying, p.elemPaused;
  }

  /** With the handler as written: mute, then raise the volume to one half.
      The player shows the sound as on, but the element stays muted. */
  method MuteThenVolumeExample() returns (shownMuted: bool, elementMuted: bool)
    ensures !shownMuted && elementMuted
  {
    var p := new Player(true, 120.0);
    p.ToggleMute();
    p.HandleVolumeChangeAsWritten(0.5);
    shownMuted, elementMuted := p.isMuted, p.elemMuted;
  }

  /** With the corrected handler the same clicks leave the sound on. */
  method MuteThenVolumeCorrected() returns (shownMuted: bool, elementMuted: bool)
    ensures !shownMuted && !elementMuted
  {
    var p := new Player(true, 120.0);
    p.ToggleMute();
    p.HandleVolumeChange(0.5);
    shownMuted, elementMuted := p.isMuted, p.elemMuted;
  }
}
