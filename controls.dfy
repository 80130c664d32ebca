/**
 * The control arithmetic and the keyboard map: clamped relative seeking,
 * clamped volume steps, and the dispatch of a keydown to a control.
 */
module Controls {

  function Max(a: real, b: real): real {
    if a >= b then a else b
  }

  function Min(a: real, b: real): real {
    if a <= b then a else b
  }

  /** `Math.max(0, Math.min(duration, currentTime + seconds))`. */
  function SeekTarget(currentTime: real, duration: real, seconds: real): (r: real)
    ensures r >= 0.0
    ensures duration >= 0.0 ==> r <= duration
    ensures 0.0 <= currentTime + seconds <= duration ==> r == currentTime + seconds
    ensures currentTime + seconds < 0.0 ==> r == 0.0
    ensures 0.0 <= duration < currentTime + seconds ==> r == duration
  {
    Max(0.0, Min(duration, currentTime + seconds))
  }

  /** `Math.max(0, Math.min(1, volume + delta))`. */
  function AdjustedVolume(volume: real, delta: real): (r: real)
    ensures 0.0 <= r <= 1.0
    ensures 0.0 <= volume + delta <= 1.0 ==> r == volume + delta
    ensures volume + delta < 0.0 ==> r == 0.0
    ensures volume + delta > 1.0 ==> r == 1.0
  {
    Max(0.0, Min(1.0, volume + delta))
  }

  /** Step by step from 0.5, five presses of the down arrow reach exactly 0 in real arithmetic. */
  lemma VolumeStepsDownToZero()
    ensures AdjustedVolume(0.5, -0.1) == 0.4
    ensures AdjustedVolume(AdjustedVolume(AdjustedVolume(AdjustedVolume(AdjustedVolume(0.5, -0.1), -0.1), -0.1), -0.1), -0.1) == 0.0
  {
  }

  /** The element a keydown was aimed at. */
  datatype KeyTarget = Element(tagName: string) | PlayerVideo

  datatype KeyCommand =
    | Ignore
    | BlurVideo
    | TogglePlay
    | ToggleMute
    | ToggleFullscreen
    | Seek(seconds: real)
    | ChangeVolume(delta: real)

  predicate IsTextEntry(target: KeyTarget) {
    target.Element? && (target.tagName == "INPUT" || target.tagName == "TEXTAREA")
  }

  /** The keyboard surface as a table: key code to control. */
  function Bindings(): (m: map<string, KeyCommand>)
    ensures forall code :: code in m ==> m[code] != Ignore && m[code] != BlurVideo
    ensures "Space" in m && "KeyK" in m && m["Space"] == m["KeyK"] == TogglePlay
  {
    map[
      "Space" := TogglePlay, "KeyK" := TogglePlay,
      "KeyM" := ToggleMute, "KeyF" := ToggleFullscreen,
      "ArrowLeft" := Seek(-5.0), "ArrowRight" := Seek(5.0),
      "ArrowUp" := ChangeVolume(0.1), "ArrowDown" := ChangeVolume(-0.1)
    ]
  }

  /**
   * `handleKeyDown`: nothing without a video element or from a text field, a
   * blur when the video element itself has focus, and otherwise the switch
   * on the key code.
   */
  function KeyCommandFor(hasVideo: bool, target: KeyTarget, code: string): (cmd: KeyCommand)
    ensures cmd != Ignore ==> hasVideo && !IsTextEntry(target)
    ensures cmd.BlurVideo? <==> hasVideo && target.PlayerVideo?
  {
    if !hasVideo then Ignore
    else if IsTextEntry(target) then Ignore
    else if target.PlayerVideo? then BlurVideo
    else if code == "Space" || code == "KeyK" then TogglePlay
    else if code == "KeyM" then ToggleMute
    else if code == "KeyF" then ToggleFullscreen
    else if code == "ArrowLeft" then Seek(-5.0)
    else if code == "ArrowRight" then Seek(5.0)
    else if code == "ArrowUp" then ChangeVolume(0.1)
    else if code == "ArrowDown" then ChangeVolume(-0.1)
    else Ignore
  }

  /** The switch implements exactly the table: bound keys get their control, every other key nothing. */
  lemma DispatchFollowsBindings(target: KeyTarget, code: string)
    requires !IsTextEntry(target) && target.Element?
    ensures KeyCommandFor(true, target, code) == if code in Bindings() then Bindings()[code] else Ignore
  {
  }

  /** A keydown aimed at a text field is left to the field, and without a video element every keydown is ignored. */
  lemma TextEntryIgnoresKeys(hasVideo: bool, target: KeyTarget, code: string)
    requires !hasVideo || IsTextEntry(target)
    ensures KeyCommandFor(hasVideo, target, code) == Ignore
  {
  }
}
