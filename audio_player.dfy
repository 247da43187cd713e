/**
 * The AudioPlayer component: its local playback state, the `<audio>` element
 * it renders, the handlers that update both in step, and the `m:ss` clock
 * label it shows.
 */
module AudioPlayer {
  import opened Wrappers
  import opened Media

  /** A call the component makes on its parent's `onPlayPause` / `onTimeUpdate` props. */
  datatype Report = PlayPauseReported(playing: bool) | TimeReported(time: real)

  class Player {
    var isPlaying: bool
    var currentTime: real
    var volume: real
    var isMuted: bool
    const audio: MediaElement
    var reports: seq<Report>

    /**
     * The element agrees with the component's state: it is paused exactly
     * when the component is not playing, and it sounds at the stored volume
     * unless muted, when it is silent.
     */
    ghost predicate Valid()
      reads this, audio
    {
      && audio.paused == !isPlaying
      && audio.volume == (if isMuted then 0.0 else volume)
    }

    constructor ()
      ensures Valid() && fresh(audio)
      ensures !isPlaying && currentTime == 0.0 && volume == 1.0 && !isMuted && reports == []
    {
      isPlaying := false;
      currentTime := 0.0;
      volume := 1.0;
      isMuted := false;
      audio := new MediaElement();
      reports := [];
    }

    /** The play/pause button: flip the element and the state, and report the new value. */
    method TogglePlayPause()
      requires Valid()
      modifies this, audio
      ensures Valid()
      ensures isPlaying == !old(isPlaying)
      ensures audio.calls == old(audio.calls) + [if old(isPlaying) then PauseCall else PlayCall]
      ensures reports == old(reports) + [PlayPauseReported(isPlaying)]
      ensures currentTime == old(currentTime) && volume == old(volume) && isMuted == old(isMuted)
      ensures audio.currentTime == old(audio.currentTime)
    {
      if isPlaying {
        audio.Pause();
      } else {
        audio.Play();
      }
      isPlaying := !isPlaying;
      reports := reports + [PlayPauseReported(isPlaying)];
    }

    /** Dragging the progress slider to `value`: seek the element, mirror it in the state, report it. */
    method HandleSliderChange(value: real)
      requires Valid()
      modifies this, audio
      ensures Valid()
      ensures audio.currentTime == value && currentTime == value
      ensures reports == old(reports) + [TimeReported(value)]
      ensures isPlaying == old(isPlaying) && volume == old(volume) && isMuted == old(isMuted)
      ensures audio.paused == old(audio.paused) && audio.calls == old(audio.calls)
    {
      audio.currentTime := value;
      currentTime := value;
      reports := reports + [TimeReported(value)];
    }

    /** Moving the volume slider to `value`: store it, apply it, and count a zero volume as muted. */
    method HandleVolumeChange(value: real)
      requires Valid()
      modifies this, audio
      ensures Valid()
      ensures volume == value && audio.volume == value
      ensures isMuted <==> value == 0.0
      ensures isPlaying == old(isPlaying) && currentTime == old(currentTime) && reports == old(reports)
      ensures audio.paused == old(audio.paused) && audio.currentTime == old(audio.currentTime) && audio.calls == old(audio.calls)
    {
      volume := value;
      audio.volume := value;
      isMuted := value == 0.0;
    }

    /**
     * The mute button: silence the element, or restore the stored volume.
     * The stored volume never changes, so muting twice leaves the element at
     * the volume it had.
     */
    method ToggleMute()
      requires Valid()
      modifies this, audio
      ensures Valid()
      ensures isMuted == !old(isMuted)
      ensures audio.volume == if old(isMuted) then volume else 0.0
      ensures volume == old(volume) && isPlaying == old(isPlaying) && currentTime == old(currentTime) && reports == old(reports)
      ensures audio.paused == old(audio.paused) && audio.currentTime == old(audio.currentTime) && audio.calls == old(audio.calls)
    {
      if isMuted {
        audio.volume := volume;
        isMuted := false;
      } else {
        audio.volume := 0.0;
        isMuted := true;
      }
    }
  }

  // ---------------------------------------------------------------------------
  // The clock label
  // ---------------------------------------------------------------------------

  /** `Math.trunc`: rounding toward zero. */
  function Trunc(x: real): (r: int)
    ensures 0.0 <= x ==> r == x.Floor
    ensures x < 0.0 ==> r == -((-x).Floor)
  {
    if 0.0 <= x then x.Floor else -((-x).Floor)
  }

  /** JavaScript's `%` on numbers: the remainder takes the sign of the dividend. */
  function JsRemainder(x: real, y: real): real
    requires y != 0.0
  {
    x - y * Trunc(x / y) as real
  }

  function DigitChar(d: nat): (c: char)
    requires d < 10
    ensures '0' <= c <= '9'
  {
    "0123456789"[d]
  }

  /** The decimal digits of a natural number, without leading zeros. */
  function Digits(n: nat): (s: string)
    ensures |s| >= 1 && forall i :: 0 <= i < |s| ==> '0' <= s[i] <= '9'
    ensures |s| == 1 <==> n < 10
  {
    if n < 10 then [DigitChar(n)] else Digits(n / 10) + [DigitChar(n % 10)]
  }

  /** `Number.prototype.toString` on an integral value. */
  function IntToString(n: int): (s: string)
    ensures |s| >= 1
  {
    if n < 0 then "-" + Digits(-n) else Digits(n)
  }

  /** `String.prototype.padStart(len, fill)` with a one-character fill. */
  function PadStart(s: string, len: nat, fill: char): (r: string)
    ensures |r| == if |s| >= len then |s| else len
    ensures r[|r| - |s|..] == s
    ensures forall i :: 0 <= i < |r| - |s| ==> r[i] == fill
    decreases len - |s|
  {
    if |s| >= len then s else PadStart([fill] + s, len, fill)
  }

  /** `formatTime(time)`: minutes by flooring, seconds by flooring the remainder, seconds padded to two digits. */
  function FormatTime(time: real): string {
    var minutes := (time / 60.0).Floor;
    var seconds := JsRemainder(time, 60.0).Floor;
    IntToString(minutes) + ":" + PadStart(IntToString(seconds), 2, '0')
  }

  // The partner of FormatTime: reading a clock label back.

  datatype Clock = Clock(minutes: nat, seconds: nat)

  predicate AllDigits(s: string) {
    forall i :: 0 <= i < |s| ==> '0' <= s[i] <= '9'
  }

  function DigitValue(c: char): (d: nat)
    requires '0' <= c <= '9'
    ensures d < 10
  {
    (c as int - '0' as int) as nat
  }

  function ParseNat(s: string): nat
    requires AllDigits(s)
  {
    if s == [] then 0 else 10 * ParseNat(s[..|s| - 1]) + DigitValue(s[|s| - 1])
  }

  /** Reads `m:ss` back: any number of minute digits, a colon, exactly two second digits. */
  function ParseClock(s: string): Option<Clock> {
    if |s| >= 4 && s[|s| - 3] == ':' && AllDigits(s[..|s| - 3]) && AllDigits(s[|s| - 2..]) then
      Some(Clock(ParseNat(s[..|s| - 3]), ParseNat(s[|s| - 2..])))
    else None
  }

  lemma {:induction false} ParseDigits(n: nat)
    ensures AllDigits(Digits(n)) && ParseNat(Digits(n)) == n
  {
    if n >= 10 {
      ParseDigits(n / 10);
      var s := Digits(n);
      assert s[..|s| - 1] == Digits(n / 10);
    }
  }

  /** A real lies between consecutive integers `k` and `k + 1` exactly when its floor is `k`. */
  lemma FloorBetween(x: real, k: int)
    requires k as real <= x < (k + 1) as real
    ensures x.Floor == k
  {
  }

  /** For a non-negative time, the minutes and seconds are the whole seconds split at 60. */
  lemma {:induction false} ClockParts(time: real)
    requires 0.0 <= time
    ensures (time / 60.0).Floor == time.Floor / 60
    ensures JsRemainder(time, 60.0).Floor == time.Floor % 60
  {
    var n := time.Floor;
    var q, r := n / 60, n % 60;
    assert n == 60 * q + r && 0 <= r < 60;
    assert n as real <= time < (n + 1) as real;
    assert (60 * q) as real <= time;
    assert time < (60 * q + 60) as real;
    FloorBetween(time / 60.0, q);
    assert Trunc(time / 60.0) == q;
    assert JsRemainder(time, 60.0) == time - (60 * q) as real;
    FloorBetween(JsRemainder(time, 60.0), r);
  }

  /** A second count below 60 padded to two characters reads back as itself. */
  lemma {:induction false} ParseSeconds(sec: nat)
    requires sec < 60
    ensures var s := PadStart(Digits(sec), 2, '0'); |s| == 2 && AllDigits(s) && ParseNat(s) == sec
  {
    ParseDigits(sec);
    var s := PadStart(Digits(sec), 2, '0');
    if sec < 10 {
      assert s == ['0'] + Digits(sec);
      assert s[..1] == ['0'];
    } else {
      assert s == Digits(sec);
    }
  }

  lemma ParseClockOf(mins: string, secs: string)
    requires |mins| >= 1 && AllDigits(mins) && |secs| == 2 && AllDigits(secs)
    ensures ParseClock(mins + ":" + secs) == Some(Clock(ParseNat(mins), ParseNat(secs)))
  {
    var s := mins + ":" + secs;
    assert s[..|s| - 3] == mins;
    assert s[|s| - 2..] == secs;
  }

  lemma ParseClockParts(m: nat, sec: nat)
    requires sec < 60
    ensures ParseClock(Digits(m) + ":" + PadStart(Digits(sec), 2, '0')) == Some(Clock(m, sec))
  {
    ParseDigits(m);
    ParseSeconds(sec);
    ParseClockOf(Digits(m), PadStart(Digits(sec), 2, '0'));
  }

  /**
   * The label of a non-negative time reads back as whole minutes and whole
   * seconds below 60 that together make the time's whole seconds.
   */
  lemma {:induction false} FormatTimeRoundTrip(time: real)
    requires 0.0 <= time
    ensures ParseClock(FormatTime(time)) == Some(Clock(time.Floor / 60, time.Floor % 60))
    ensures var c := ParseClock(FormatTime(time)).value; c.seconds < 60 && 60 * c.minutes + c.seconds == time.Floor
  {
    ClockParts(time);
    assert FormatTime(time) == Digits(time.Floor / 60) + ":" + PadStart(Digits(time.Floor % 60), 2, '0');
    ParseClockParts(time.Floor / 60, time.Floor % 60);
  }
}
