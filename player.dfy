/**
 * The playback controller: the engine slot, the media element, the two
 * debounce guards and the state record, driven by the engine's events, the
 * media element's events, user input and the component's lifecycle.
 */
module Player {
  import opened Wrappers
  import opened Format
  import opened Levels
  import opened Quality
  import opened Recovery
  import opened Debounce
  import opened Controls

  /** The tuning passed to `new Hls(...)`; the player validates none of it. */
  datatype EngineConfig = EngineConfig(enableWorker: bool, capLevelToPlayerSize: bool, startLevel: int, lowLatencyMode: bool)

  /**
   * The adaptive engine as the player sees it: its level list, its current
   * level (-1 is automatic selection), whether it has been destroyed, and how
   * often it was asked to recover from a media error. Its loading, parsing
   * and bitrate adaptation happen inside it.
   */
  class AdaptiveEngine {
    const config: EngineConfig
    var source: Option<string>
    var attached: bool
    var levels: seq<EngineLevel>
    var currentLevel: int
    var destroyed: bool
    var recoveries: nat

    constructor (config: EngineConfig)
      ensures this.config == config && source == None && !attached
      ensures levels == [] && currentLevel == -1 && !destroyed && recoveries == 0
    {
      this.config := config;
      source := None;
      attached := false;
      levels := [];
      currentLevel := -1;
      destroyed := false;
      recoveries := 0;
    }

    method LoadSource(src: string)
      modifies this`source
      ensures source == Some(src)
    {
      source := Some(src);
    }

    method AttachMedia()
      modifies this`attached
      ensures attached
    {
      attached := true;
    }

    /** The engine's own manifest parsing, which precedes its MANIFEST_PARSED event. */
    method ParseManifest(parsed: seq<EngineLevel>)
      modifies this`levels
      ensures levels == parsed
    {
      levels := parsed;
    }

    method RecoverMediaError()
      modifies this`recoveries
      ensures recoveries == old(recoveries) + 1
    {
      recoveries := recoveries + 1;
    }

    /** Safe to call again on a destroyed engine. */
    method Destroy()
      modifies this`destroyed
      ensures destroyed
    {
      destroyed := true;
    }
  }

  /** The parts of the `<video>` element the player reads and writes. */
  datatype Media = Media(
    src: string,
    paused: bool,
    currentTime: real,
    duration: real,
    volume: real,
    muted: bool,
    bufferedEnds: seq<real>)

  /**
   * The component's props that the controller uses. Their defaults are
   * `initialQuality = 'auto'`, `muted = false`, `capLevelToPlayerSize = true`,
   * `startLevel = -1` and `lowLatencyMode = false`.
   */
  datatype Props = Props(
    src: string,
    initialQuality: QualityPreference,
    muted: bool,
    capLevelToPlayerSize: bool,
    startLevel: int,
    lowLatencyMode: bool)

  /** The component's state record. */
  datatype PlaybackState = PlaybackState(
    isPlaying: bool,
    isMuted: bool,
    isFullscreen: bool,
    currentTime: real,
    duration: real,
    volume: real,
    isLoading: bool,
    qualityLevels: seq<QualityLevel>,
    currentQuality: int,
    isNativeHls: bool,
    error: Option<string>,
    bufferedTime: real)

  datatype ErrorReport = EngineFailure(data: ErrorData) | NotSupported

  /** Calls out of the controller, in order: the caller's callbacks and the browser requests. */
  datatype Call =
    | Ready
    | Error(report: ErrorReport)
    | QualityChanged(levelIndex: int, height: Option<nat>, bitrateKbps: nat)
    | Played
    | Paused
    | Ended
    | RequestFullscreen
    | ExitFullscreen
    | Blur

  /** The state on first render. */
  function InitialState(muted: bool): (s: PlaybackState)
    ensures !s.isPlaying && s.isMuted == muted && s.isLoading && s.volume == 1.0
    ensures s.qualityLevels == [] && s.currentQuality == -1 && !s.isNativeHls && s.error.None?
  {
    PlaybackState(false, muted, false, 0.0, 0.0, 1.0, true, [], -1, false, None, 0.0)
  }

  /** The element after `play()` or `pause()`, whichever its `paused` flag selects. */
  function Toggled(video: Option<Media>): (r: Option<Media>)
    ensures r.Some? <==> video.Some?
    ensures video.Some? ==> r.value == video.value.(paused := !video.value.paused)
  {
    if video.None? then None else Some(video.value.(paused := !video.value.paused))
  }

  class HlsVideoPlayer {
    var props: Props
    /** `videoRef.current`: the element while it is rendered. */
    var video: Option<Media>
    /** `hlsRef.current`. */
    var engine: AdaptiveEngine?
    /** Every engine this player held before the current one. */
    ghost var retired: set<AdaptiveEngine>
    var clickGuard: Guard
    var keyboardGuard: Guard
    var mounted: bool
    var state: PlaybackState
    var calls: seq<Call>

    /**
     * At most one engine is live: every engine the player held before the
     * current one is destroyed. While mounted, the element is rendered
     * exactly when no error is shown (the error panel replaces it), and each
     * guard has a pending reset exactly when its flag is set. Native playback
     * has no engine and no levels. Volumes stay in [0, 1].
     */
    ghost predicate Valid()
      reads this, engine, retired
    {
      && (engine != null ==> engine !in retired)
      && (forall e :: e in retired ==> e.destroyed)
      && (mounted ==> (video.None? <==> state.error.Some?))
      && (mounted ==> Consistent(clickGuard) && Consistent(keyboardGuard))
      && (!mounted ==> !clickGuard.timerPending && !keyboardGuard.timerPending)
      && (!mounted ==> engine == null || engine.destroyed)
      && (state.isNativeHls ==> engine == null && state.qualityLevels == [] && state.currentQuality == -1)
      && (video.Some? ==> 0.0 <= video.value.volume <= 1.0 && video.value.currentTime >= 0.0)
      && 0.0 <= state.volume <= 1.0
    }

    /** Mounting: the element is rendered, no engine exists yet, both guards are clear. */
    constructor (props: Props, element: Media)
      requires 0.0 <= element.volume <= 1.0 && element.currentTime >= 0.0
      ensures Valid() && mounted
      ensures this.props == props && video == Some(element) && engine == null && retired == {}
      ensures clickGuard == Clear && keyboardGuard == Clear
      ensures state == InitialState(props.muted) && calls == []
    {
      this.props := props;
      video := Some(element);
      engine := null;
      retired := {};
      clickGuard := Clear;
      keyboardGuard := Clear;
      mounted := true;
      state := InitialState(props.muted);
      calls := [];
    }

    /** A re-render with new props; React then re-runs `InitializePlayer` when a prop it depends on changed. */
    method UpdateProps(p: Props)
      requires Valid()
      modifies this`props
      ensures Valid() && props == p
    {
      props := p;
    }

    // ------------------------------------------------------------ session

    /**
     * `initializePlayer`. With no element or no source nothing happens.
     * Otherwise the error is cleared, loading is set and any previous engine
     * is destroyed before a new one is stored; then the native branch plays
     * the source directly with no levels and quality -1, the engine branch
     * creates, loads and attaches a fresh engine, and the unsupported branch
     * reports the "not supported" error.
     */
    method InitializePlayer(nativeSupported: bool, engineSupported: bool)
      requires Valid() && mounted
      modifies this`state, this`video, this`engine, this`retired, this`calls, engine
      ensures Valid()
      ensures old(video).None? || props.src == "" ==>
                && state == old(state) && video == old(video) && calls == old(calls)
                && engine == old(engine) && retired == old(retired)
                && (engine != null ==> unchanged(engine))
      ensures old(video).Some? && props.src != "" ==>
                && (old(engine) != null ==> old(engine).destroyed)
                && retired == old(retired) + (if old(engine) != null then {old(engine)} else {})
                && state.isNativeHls == nativeSupported
      ensures old(video).Some? && props.src != "" && nativeSupported ==>
                && engine == null
                && video == Some(old(video).value.(src := props.src))
                && state == old(state).(error := None, isLoading := true, isNativeHls := true,
                                        qualityLevels := [], currentQuality := -1)
                && calls == old(calls) + [Ready]
      ensures old(video).Some? && props.src != "" && !nativeSupported && engineSupported ==>
                && engine != null && fresh(engine)
                && engine.config == EngineConfig(true, props.capLevelToPlayerSize, props.startLevel, props.lowLatencyMode)
                && engine.source == Some(props.src) && engine.attached
                && !engine.destroyed && engine.levels == [] && engine.currentLevel == -1
                && video == old(video)
                && state == old(state).(error := None, isLoading := true, isNativeHls := false)
                && calls == old(calls)
      ensures old(video).Some? && props.src != "" && !nativeSupported && !engineSupported ==>
                && engine == null
                && video == None
                && state == old(state).(error := Some(UnsupportedMessage), isLoading := true, isNativeHls := false)
                && calls == old(calls) + [Error(NotSupported)]
    {
      if video.None? || props.src == "" {
        return;
      }
      state := state.(error := None, isLoading := true);
      RetireEngine();
      if nativeSupported {
        StartNative();
      } else {
        state := state.(isNativeHls := false);
        if engineSupported {
          StartEngine();
        } else {
          ReportUnsupported();
        }
      }
    }

    /** Destroys the engine in the slot, if any, and empties the slot. */
    method RetireEngine()
      requires Valid() && mounted
      modifies this`engine, this`retired, engine
      ensures Valid() && engine == null
      ensures old(engine) != null ==> old(engine).destroyed
      ensures retired == old(retired) + (if old(engine) != null then {old(engine)} else {})
    {
      if engine != null {
        engine.Destroy();
        retired := retired + {engine};
        engine := null;
      }
    }

    /** The native branch: the element plays the source itself. */
    method StartNative()
      requires Valid() && mounted && engine == null && video.Some? && state.error.None?
      modifies this`video, this`state, this`calls
      ensures Valid() && engine == null
      ensures video == Some(old(video).value.(src := props.src))
      ensures state == old(state).(isNativeHls := true, qualityLevels := [], currentQuality := -1)
      ensures calls == old(calls) + [Ready]
    {
      video := Some(video.value.(src := props.src));
      state := state.(isNativeHls := true, qualityLevels := [], currentQuality := -1);
      calls := calls + [Ready];
    }

    /** The engine branch: a fresh engine loads the source and attaches to the element. */
    method StartEngine()
      requires Valid() && mounted && engine == null && !state.isNativeHls
      modifies this`engine
      ensures Valid() && engine != null && fresh(engine)
      ensures engine.config == EngineConfig(true, props.capLevelToPlayerSize, props.startLevel, props.lowLatencyMode)
      ensures engine.source == Some(props.src) && engine.attached
      ensures !engine.destroyed && engine.levels == [] && engine.currentLevel == -1
    {
      var hls := new AdaptiveEngine(EngineConfig(true, props.capLevelToPlayerSize, props.startLevel, props.lowLatencyMode));
      hls.LoadSource(props.src);
      hls.AttachMedia();
      engine := hls;
    }

    /** Neither playback path exists: the error panel replaces the element. */
    method ReportUnsupported()
      requires Valid() && mounted && engine == null && video.Some? && state.error.None?
      modifies this`video, this`state, this`calls
      ensures Valid() && engine == null && video == None
      ensures state == old(state).(error := Some(UnsupportedMessage))
      ensures calls == old(calls) + [Error(NotSupported)]
    {
      state := state.(error := Some(UnsupportedMessage));
      video := None;
      calls := calls + [Error(NotSupported)];
    }

    /**
     * MANIFEST_PARSED: the menu is the engine's levels, indexed and sorted;
     * the displayed quality is the engine's level before the initial
     * preference is applied; then the preference may assign a level, and
     * `onReady` follows unless the fallback `reduce` threw on an empty menu.
     */
    method OnManifestParsed()
      requires Valid() && mounted && engine != null && !engine.destroyed
      modifies this`state, this`calls, engine`currentLevel
      ensures Valid()
      ensures state == old(state).(qualityLevels := SortLevels(BuildLevels(engine.levels)),
                                   currentQuality := old(engine.currentLevel))
      ensures var choice := ResolveInitial(props.initialQuality, SortLevels(BuildLevels(engine.levels)), |engine.levels|);
              && engine.currentLevel == (if choice.Assign? then choice.level else old(engine.currentLevel))
              && calls == old(calls) + (if choice.Throws? then [] else [Ready])
    {
      var hls := engine;
      var levels := SortLevels(BuildLevels(hls.levels));
      state := state.(qualityLevels := levels, currentQuality := hls.currentLevel);
      var choice := ResolveInitial(props.initialQuality, levels, |hls.levels|);
      match choice
      case Throws =>
      case Keep =>
        calls := calls + [Ready];
      case Assign(level) =>
        hls.currentLevel := level;
        calls := calls + [Ready];
    }

    /** LEVEL_SWITCHED: the displayed quality follows the engine, and `onQualityChanged` is told when the level exists. */
    method OnLevelSwitched(level: int)
      requires Valid() && mounted && engine != null && !engine.destroyed
      modifies this`state, this`calls
      ensures Valid()
      ensures state == old(state).(currentQuality := level)
      ensures calls == old(calls) + if 0 <= level < |engine.levels|
                                    then [QualityChanged(level, engine.levels[level].height,
                                                         RoundKbps(engine.levels[level].bitrate))]
                                    else []
    {
      state := state.(currentQuality := level);
      if 0 <= level < |engine.levels| {
        var l := engine.levels[level];
        calls := calls + [QualityChanged(level, l.height, RoundKbps(l.bitrate))];
      }
    }

    /**
     * ERROR: the reaction `ReactTo` chooses, applied to this engine, and then
     * `onError` exactly once. The engine slot keeps the engine even when it
     * is destroyed.
     */
    method OnEngineError(data: ErrorData)
      requires Valid() && mounted && engine != null && !engine.destroyed
      modifies this`state, this`video, this`calls, engine`recoveries, engine`destroyed
      ensures Valid() && engine == old(engine)
      ensures var r := ReactTo(data);
              && engine.recoveries == old(engine.recoveries) + (if r.recover then 1 else 0)
              && engine.destroyed == r.destroy
              && state == (if r.message.Some? then old(state).(error := r.message) else old(state))
              && video == (if r.message.Some? then None else old(video))
              && calls == old(calls) + [Error(EngineFailure(data))]
    {
      var hls := engine;
      var r := ReactTo(data);
      if r.recover {
        hls.RecoverMediaError();
      }
      if r.message.Some? {
        state := state.(error := r.message);
        video := None;
      }
      if r.destroy {
        hls.Destroy();
      }
      calls := calls + [Error(EngineFailure(data))];
    }

    /**
     * `setQualityLevel`: nothing without an engine or under native playback;
     * otherwise the runtime resolver's choice, if any, becomes the engine's
     * level.
     */
    method SetQualityLevel(pref: QualityPreference)
      requires Valid()
      modifies engine
      ensures Valid()
      ensures engine != null ==>
                && engine.levels == old(engine.levels) && engine.destroyed == old(engine.destroyed)
                && engine.recoveries == old(engine.recoveries) && engine.source == old(engine.source)
                && engine.attached == old(engine.attached)
      ensures engine != null ==>
                var c := ResolveRuntime(pref, state.qualityLevels, |engine.levels|);
                engine.currentLevel == if c.Assign? then c.level else old(engine.currentLevel)
    {
      var hls := engine;
      if hls == null || state.isNativeHls {
        return;
      }
      var c := ResolveRuntime(pref, state.qualityLevels, |hls.levels|);
      if c.Assign? {
        hls.currentLevel := c.level;
      }
    }

    // ------------------------------------------------------------ media element events

    method OnLoadStart()
      requires Valid() && mounted && video.Some?
      modifies this`state
      ensures Valid() && state == old(state).(isLoading := true)
    {
      state := state.(isLoading := true);
    }

    method OnCanPlay()
      requires Valid() && mounted && video.Some?
      modifies this`state
      ensures Valid() && state == old(state).(isLoading := false)
    {
      state := state.(isLoading := false);
    }

    method OnPlay()
      requires Valid() && mounted && video.Some?
      modifies this`state, this`calls
      ensures Valid() && state == old(state).(isPlaying := true) && calls == old(calls) + [Played]
    {
      state := state.(isPlaying := true);
      calls := calls + [Played];
    }

    method OnPause()
      requires Valid() && mounted && video.Some?
      modifies this`state, this`calls
      ensures Valid() && state == old(state).(isPlaying := false) && calls == old(calls) + [Paused]
    {
      state := state.(isPlaying := false);
      calls := calls + [Paused];
    }

    method OnEnded()
      requires Valid() && mounted && video.Some?
      modifies this`state, this`calls
      ensures Valid() && state == old(state).(isPlaying := false) && calls == old(calls) + [Ended]
    {
      state := state.(isPlaying := false);
      calls := calls + [Ended];
    }

    /** The position is copied; the buffered time is the end of the last buffered range, when there is one. */
    method OnTimeUpdate()
      requires Valid() && mounted && video.Some?
      modifies this`state
      ensures Valid()
      ensures var ends := video.value.bufferedEnds;
              state == old(state).(currentTime := video.value.currentTime,
                                   bufferedTime := if |ends| > 0 then ends[|ends| - 1] else old(state).bufferedTime)
    {
      var v := video.value;
      state := state.(currentTime := v.currentTime);
      if |v.bufferedEnds| > 0 {
        state := state.(bufferedTime := v.bufferedEnds[|v.bufferedEnds| - 1]);
      }
    }

    method OnDurationChange()
      requires Valid() && mounted && video.Some?
      modifies this`state
      ensures Valid() && state == old(state).(duration := video.value.duration)
    {
      state := state.(duration := video.value.duration);
    }

    /** Volume and mute are copied from the element, so the state's volume stays in [0, 1]. */
    method OnVolumeChange()
      requires Valid() && mounted && video.Some?
      modifies this`state
      ensures Valid() && state == old(state).(volume := video.value.volume, isMuted := video.value.muted)
      ensures 0.0 <= state.volume <= 1.0
    {
      state := state.(volume := video.value.volume, isMuted := video.value.muted);
    }

    method OnFullscreenChange(active: bool)
      requires Valid() && mounted
      modifies this`state
      ensures Valid() && state == old(state).(isFullscreen := active)
    {
      state := state.(isFullscreen := active);
    }

    /** The element's own progress while it plays: position, duration, buffered ranges, paused at the end. */
    method MediaProgresses(time: real, duration: real, bufferedEnds: seq<real>, paused: bool)
      requires Valid() && mounted && video.Some? && time >= 0.0
      modifies this`video
      ensures Valid()
      ensures video == Some(old(video).value.(currentTime := time, duration := duration,
                                              bufferedEnds := bufferedEnds, paused := paused))
    {
      video := Some(video.value.(currentTime := time, duration := duration, bufferedEnds := bufferedEnds, paused := paused));
    }

    // ------------------------------------------------------------ controls

    /** `togglePlayPause`: `play()` when paused, `pause()` otherwise. */
    method TogglePlayPause()
      requires Valid()
      modifies this`video
      ensures Valid() && video == Toggled(old(video))
    {
      if video.None? {
        return;
      }
      video := Toggled(video);
    }

    method ToggleMute()
      requires Valid()
      modifies this`video
      ensures Valid()
      ensures video == if old(video).None? then None else Some(old(video).value.(muted := !old(video).value.muted))
    {
      if video.None? {
        return;
      }
      video := Some(video.value.(muted := !video.value.muted));
    }

    /** Requests fullscreen when the document has none, otherwise exits it. */
    method ToggleFullscreen(documentFullscreen: bool)
      requires Valid()
      modifies this`calls
      ensures Valid()
      ensures calls == old(calls) + if video.None? then []
                                    else if documentFullscreen then [ExitFullscreen] else [RequestFullscreen]
    {
      if video.None? {
        return;
      }
      if !documentFullscreen {
        calls := calls + [RequestFullscreen];
      } else {
        calls := calls + [ExitFullscreen];
      }
    }

    /** `seekRelative`: the new position lies in [0, duration]. */
    method SeekRelative(seconds: real)
      requires Valid()
      modifies this`video
      ensures Valid()
      ensures old(video).None? ==> video == None
      ensures old(video).Some? ==>
                var v := old(video).value;
                video == Some(v.(currentTime := SeekTarget(v.currentTime, v.duration, seconds)))
      ensures video.Some? ==> 0.0 <= video.value.currentTime
      ensures video.Some? && old(video).value.duration >= 0.0 ==> video.value.currentTime <= old(video).value.duration
    {
      if video.None? {
        return;
      }
      var v := video.value;
      video := Some(v.(currentTime := SeekTarget(v.currentTime, v.duration, seconds)));
    }

    /** `adjustVolume`: the new volume lies in [0, 1] and the element is muted exactly when it is 0. */
    method AdjustVolume(delta: real)
      requires Valid()
      modifies this`video
      ensures Valid()
      ensures old(video).None? ==> video == None
      ensures old(video).Some? ==>
                var v := AdjustedVolume(old(video).value.volume, delta);
                video == Some(old(video).value.(volume := v, muted := v == 0.0))
      ensures video.Some? ==> 0.0 <= video.value.volume <= 1.0 && (video.value.muted <==> video.value.volume == 0.0)
    {
      if video.None? {
        return;
      }
      var v := AdjustedVolume(video.value.volume, delta);
      video := Some(video.value.(volume := v, muted := v == 0.0));
    }

    /** The seek bar: the range input supplies a position between 0 and the duration. */
    method HandleSeekInput(value: real)
      requires Valid() && value >= 0.0
      modifies this`video
      ensures Valid()
      ensures video == if old(video).None? then None else Some(old(video).value.(currentTime := value))
    {
      if video.None? {
        return;
      }
      video := Some(video.value.(currentTime := value));
    }

    /** The volume slider: the range input supplies a value in [0, 1]; 0 mutes. */
    method HandleVolumeInput(value: real)
      requires Valid() && 0.0 <= value <= 1.0
      modifies this`video
      ensures Valid()
      ensures video == if old(video).None? then None else Some(old(video).value.(volume := value, muted := value == 0.0))
    {
      if video.None? {
        return;
      }
      video := Some(video.value.(volume := value, muted := value == 0.0));
    }

    // ------------------------------------------------------------ debounced play/pause

    /**
     * `handleVideoClick`: a click inside the controls is ignored before the
     * guard is consulted; otherwise the pointer guard decides whether the
     * toggle runs. The keyboard guard is untouched.
     */
    method HandleVideoClick(insideControls: bool)
      requires Valid() && mounted
      modifies this`clickGuard, this`video
      ensures Valid()
      ensures keyboardGuard == old(keyboardGuard)
      ensures insideControls ==> clickGuard == old(clickGuard) && video == old(video)
      ensures !insideControls ==>
                && clickGuard == Trigger(old(clickGuard)).0
                && video == if Trigger(old(clickGuard)).1 then Toggled(old(video)) else old(video)
    {
      if insideControls {
        return;
      }
      var (g, fire) := Trigger(clickGuard);
      clickGuard := g;
      if fire {
        TogglePlayPause();
      }
    }

    /** The pointer guard's 200 ms reset fires. */
    method ClickWindowElapses()
      requires Valid()
      modifies this`clickGuard
      ensures Valid() && clickGuard == Elapse(old(clickGuard)) && keyboardGuard == old(keyboardGuard)
    {
      clickGuard := Elapse(clickGuard);
    }

    /** `handleKeyboardToggle`: the keyboard guard decides whether the toggle runs. The pointer guard is untouched. */
    method HandleKeyboardToggle()
      requires Valid() && mounted
      modifies this`keyboardGuard, this`video
      ensures Valid()
      ensures clickGuard == old(clickGuard)
      ensures keyboardGuard == Trigger(old(keyboardGuard)).0
      ensures video == if Trigger(old(keyboardGuard)).1 then Toggled(old(video)) else old(video)
    {
      var (g, fire) := Trigger(keyboardGuard);
      keyboardGuard := g;
      if fire {
        TogglePlayPause();
      }
    }

    /** The keyboard guard's 200 ms reset fires. */
    method KeyboardWindowElapses()
      requires Valid()
      modifies this`keyboardGuard
      ensures Valid() && keyboardGuard == Elapse(old(keyboardGuard)) && clickGuard == old(clickGuard)
    {
      keyboardGuard := Elapse(keyboardGuard);
    }

    /** `handleKeyDown`: the control `KeyCommandFor` selects, carried out. */
    method HandleKeyDown(target: KeyTarget, code: string, documentFullscreen: bool)
      requires Valid() && mounted
      modifies this`video, this`keyboardGuard, this`calls
      ensures Valid()
      ensures clickGuard == old(clickGuard)
      ensures var cmd := KeyCommandFor(old(video).Some?, target, code);
              && (cmd.Ignore? ==> video == old(video) && keyboardGuard == old(keyboardGuard) && calls == old(calls))
              && (cmd.BlurVideo? ==> video == old(video) && keyboardGuard == old(keyboardGuard) && calls == old(calls) + [Blur])
              && (cmd.TogglePlay? ==>
                    && keyboardGuard == Trigger(old(keyboardGuard)).0 && calls == old(calls)
                    && video == if Trigger(old(keyboardGuard)).1 then Toggled(old(video)) else old(video))
              && (cmd.ToggleMute? ==>
                    && keyboardGuard == old(keyboardGuard) && calls == old(calls)
                    && video == Some(old(video).value.(muted := !old(video).value.muted)))
              && (cmd.ToggleFullscreen? ==>
                    && video == old(video) && keyboardGuard == old(keyboardGuard)
                    && calls == old(calls) + [if documentFullscreen then ExitFullscreen else RequestFullscreen])
              && (cmd.Seek? ==>
                    && keyboardGuard == old(keyboardGuard) && calls == old(calls)
                    && video == Some(old(video).value.(currentTime :=
                                  SeekTarget(old(video).value.currentTime, old(video).value.duration, cmd.seconds))))
              && (cmd.ChangeVolume? ==>
                    && keyboardGuard == old(keyboardGuard) && calls == old(calls)
                    && var v := AdjustedVolume(old(video).value.volume, cmd.delta);
                       video == Some(old(video).value.(volume := v, muted := v == 0.0)))
    {
      var cmd := KeyCommandFor(video.Some?, target, code);
      match cmd
      case Ignore =>
      case BlurVideo =>
        calls := calls + [Blur];
      case TogglePlay =>
        HandleKeyboardToggle();
      case ToggleMute =>
        ToggleMute();
      case ToggleFullscreen =>
        ToggleFullscreen(documentFullscreen);
      case Seek(seconds) =>
        SeekRelative(seconds);
      case ChangeVolume(delta) =>
        AdjustVolume(delta);
    }

    // ------------------------------------------------------------ imperative handle

    /** `play()` from the handle: rejected without an element, otherwise the element starts. */
    method Play() returns (accepted: bool)
      requires Valid()
      modifies this`video
      ensures Valid()
      ensures accepted <==> old(video).Some?
      ensures video == if old(video).None? then None else Some(old(video).value.(paused := false))
    {
      if video.None? {
        return false;
      }
      video := Some(video.value.(paused := false));
      return true;
    }

    method Pause()
      requires Valid()
      modifies this`video
      ensures Valid()
      ensures video == if old(video).None? then None else Some(old(video).value.(paused := true))
    {
      if video.None? {
        return;
      }
      video := Some(video.value.(paused := true));
    }

    /** `getCurrentLevel()`: the displayed quality, -1 under native playback. */
    method GetCurrentLevel() returns (level: int)
      requires Valid()
      ensures level == state.currentQuality
      ensures state.isNativeHls ==> level == -1
    {
      level := state.currentQuality;
    }

    /** `getLevels()`: the menu, empty under native playback. */
    method GetLevels() returns (levels: seq<QualityLevel>)
      requires Valid()
      ensures levels == state.qualityLevels
      ensures state.isNativeHls ==> levels == []
    {
      levels := state.qualityLevels;
    }

    // ------------------------------------------------------------ unmount

    /**
     * The unmount cleanup: the engine in the slot is destroyed (again, if
     * the error handler already destroyed it) and both reset timers are
     * cleared.
     */
    method Unmount()
      requires Valid() && mounted
      modifies this`mounted, this`clickGuard, this`keyboardGuard, engine
      ensures Valid() && !mounted && engine == old(engine)
      ensures engine != null ==> engine.destroyed
      ensures engine != null ==>
                && engine.levels == old(engine.levels) && engine.currentLevel == old(engine.currentLevel)
                && engine.recoveries == old(engine.recoveries) && engine.source == old(engine.source)
                && engine.attached == old(engine.attached)
      ensures clickGuard == Cancel(old(clickGuard)) && keyboardGuard == Cancel(old(keyboardGuard))
    {
      if engine != null {
        engine.Destroy();
      }
      clickGuard := Cancel(clickGuard);
      keyboardGuard := Cancel(keyboardGuard);
      mounted := false;
    }
  }

  /**
   * A session through the engine path: mount, initialize, a two-level
   * manifest, quality requests by index and `auto`, then unmount.
   */
  method EngineSessionScenario()
  {
    var element := Media("", true, 0.0, 0.0, 1.0, false, []);
    var props := Props("https://example.com/live.m3u8", Auto, false, true, -1, false);
    var player := new HlsVideoPlayer(props, element);
    player.InitializePlayer(false, true);
    assert player.engine != null && player.state.error.None?;
    var hls := player.engine;
    hls.ParseManifest([EngineLevel(Some(720), 2800000), EngineLevel(Some(1080), 5000000)]);
    assert hls.currentLevel == -1;
    player.SetQualityLevel(ByIndex(1));
    assert hls.currentLevel == 1 && hls.levels == [EngineLevel(Some(720), 2800000), EngineLevel(Some(1080), 5000000)];
    player.SetQualityLevel(ByIndex(2));
    assert hls.currentLevel == 1;
    player.SetQualityLevel(Auto);
    assert hls.currentLevel == -1;
    player.Unmount();
    assert hls.destroyed && !player.mounted;
  }

  /**
   * A fatal network error removes the element and keeps the engine; a later
   * source change then finds no element and leaves the engine as it was.
   */
  method NetworkErrorScenario()
  {
    var element := Media("", true, 0.0, 0.0, 1.0, false, []);
    var player := new HlsVideoPlayer(Props("a.m3u8", Auto, false, true, -1, false), element);
    player.InitializePlayer(false, true);
    var hls := player.engine;
    hls.ParseManifest([EngineLevel(Some(720), 2800000)]);
    player.OnEngineError(ErrorData(NetworkError, true, "manifestLoadError"));
    assert player.state.error == Some(NetworkMessage) && player.video.None? && !hls.destroyed;
    player.UpdateProps(Props("b.m3u8", Auto, false, true, -1, false));
    player.InitializePlayer(false, true);
    assert player.engine == hls && hls.source == Some("a.m3u8") && |hls.levels| == 1;
    assert player.state.error == Some(NetworkMessage);
  }
}
