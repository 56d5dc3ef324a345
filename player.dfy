/**
  * The playback controller of the page.
  *
  * `Player` holds the script's module-level variables (`isPlaying`, `usingTTS`,
  * `ttsUtterance`, `ttsInterval`, `ttsEstimatedMs`, `ttsStart`,
  * `currentPlayingId`, `currentPlayButton`), the part of the page they drive
  * (title, artist, main play/pause icon, which card buttons show the pause
  * icon, progress-bar width) and the two backends seen as flags: the audio
  * element's `src` and `paused`, the promise of the last `audio.play()` made by
  * `playAudio`, and the queue of the speech synthesiser. Its constants are the
  * page itself: the track and text tables, whether speech synthesis exists,
  * which cards have a play button, and whether the progress bar exists.
  *
  * The methods are the script's functions and the callbacks it installs. Each
  * says the whole new state of what it may change; `Valid` is what every
  * reachable state satisfies.
  */
module Playback {
  import JsText

  datatype Option<T> = None | Some(value: T)

  type TrackId = string

  /** The main player's icon: `fa-play` or `fa-pause`. */
  datatype Icon = PlayIcon | PauseIcon

  /**
    * A `SpeechSynthesisUtterance`. `serial` stands for object identity: the
    * n-th utterance created has serial n - 1.
    */
  datatype Utterance = Utterance(serial: nat, text: string, lang: string, rate: int)

  const Language := "es-ES"
  const WordsPerMinute := 150

  function ButtonsOf(b: Option<TrackId>): set<TrackId> {
    if b.Some? then {b.value} else {}
  }

  predicate EndsWith(s: string, suffix: string) {
    |suffix| <= |s| && s[|s| - |suffix|..] == suffix
  }

  // ---------------------------------------------------------------------------
  // Backend selection and the speech estimate

  /** Speech is used for `id`: synthesis exists and `ttsTexts[id]` is truthy. */
  predicate UsesSpeech(ttsTexts: map<TrackId, string>, speechAvailable: bool, id: TrackId) {
    speechAvailable && id in ttsTexts && ttsTexts[id] != ""
  }

  /** `tracks[id]` is truthy. */
  predicate HasFile(tracks: map<TrackId, string>, id: TrackId) {
    id in tracks && tracks[id] != ""
  }

  /**
    * `text.split(/\s+/).length`: one more than the number of whitespace runs,
    * so at least one, and one for a single word.
    */
  function WordCount(text: string): (n: nat)
    ensures n == 1 + JsText.Runs(text)
    ensures JsText.NoSpace(text) ==> n == 1
  {
    JsText.SplitCount(text);
    if JsText.NoSpace(text) then JsText.SplitOfWord(text); |JsText.Split(text)|
    else |JsText.Split(text)|
  }

  /**
    * `(words / 150) * 60 * 1000`: the milliseconds `text` takes at 150 words per
    * minute, that is 400 ms per word; never zero.
    */
  function EstimatedMs(text: string): (ms: real)
    ensures ms == 400.0 * WordCount(text) as real
    ensures ms >= 400.0
  {
    (WordCount(text) as real / WordsPerMinute as real) * 60.0 * 1000.0
  }

  /**
    * `Math.min(100, (elapsed / ttsEstimatedMs) * 100)`: never above 100, exactly
    * 100 once the estimate has elapsed, and not negative for a non-negative
    * elapsed time.
    */
  function ProgressPercent(elapsed: int, estimatedMs: real): (pct: real)
    requires estimatedMs > 0.0
    ensures pct <= 100.0
    ensures pct == 100.0 <==> elapsed as real >= estimatedMs
    ensures elapsed >= 0 ==> pct >= 0.0
  {
    var raw := (elapsed as real / estimatedMs) * 100.0;
    assert raw >= 100.0 <==> elapsed as real >= estimatedMs by {
      assert raw * estimatedMs == elapsed as real * 100.0;
    }
    if raw < 100.0 then raw else 100.0
  }

  // ---------------------------------------------------------------------------
  // The site's own tables

  const SiteTracks: map<TrackId, string> := map[
    "intro" := "audio/intro.mp3", "tip1" := "audio/tip1.mp3",
    "tip2" := "audio/tip2.mp3", "tip3" := "audio/tip3.mp3"]

  /** The ids that have a narration text. */
  const SiteTextIds: set<TrackId> :=
    {"intro", "tip1", "tip2", "tip3", "con1", "con2", "con3", "con4", "con5", "con6"}

  /**
    * On the site every id with an audio file also has a text, so with speech
    * synthesis the files are never played: they are only a fallback.
    */
  lemma SiteFilesOnlyWithoutSpeech(ttsTexts: map<TrackId, string>, speechAvailable: bool, id: TrackId)
    requires ttsTexts.Keys == SiteTextIds
    requires forall k :: k in ttsTexts ==> ttsTexts[k] != ""
    ensures HasFile(SiteTracks, id) && speechAvailable ==> UsesSpeech(ttsTexts, speechAvailable, id)
    ensures UsesSpeech(ttsTexts, speechAvailable, id) <==> speechAvailable && id in SiteTextIds
  {
  }

  // ---------------------------------------------------------------------------
  // The controller

  class Player {
    // The page: fixed for the life of the script.
    const tracks: map<TrackId, string>
    const ttsTexts: map<TrackId, string>
    const speechAvailable: bool
    const tipButtons: set<TrackId>     // ids whose card has a play button
    const hasProgressFill: bool

    // The script's module-level variables.
    var isPlaying: bool
    var usingTTS: bool
    var ttsUtterance: Option<Utterance>
    var ttsInterval: bool              // a repeating progress timer is scheduled
    var ttsEstimatedMs: real
    var ttsStart: int
    var currentPlayingId: Option<TrackId>
    var currentPlayButton: Option<TrackId>

    // What the script shows on the page.
    var title: string
    var artist: string
    var mainIcon: Icon
    var pauseButtons: set<TrackId>     // card buttons showing the pause icon
    var progressWidth: real            // percent

    // The backends.
    var audioSrc: string               // "" when the element has no `src`
    var audioPaused: bool
    var playPromise: Option<TrackId>   // pending `audio.play()` of `playAudio`, with its id
    var speaking: Option<Utterance>    // handed to the synthesiser and not finished
    var utterances: nat                // utterances created so far

    predicate SpeechChosen(id: TrackId) {
      UsesSpeech(ttsTexts, speechAvailable, id)
    }

    predicate HasTrack(id: TrackId) {
      HasFile(tracks, id)
    }

    /**
      * What every reachable state satisfies: `Coherent`, and the marker never
      * names a speech track.
      */
    ghost predicate Valid()
      reads this`currentPlayButton, this`pauseButtons, this`playPromise, this`audioSrc,
            this`audioPaused, this`speaking, this`usingTTS, this`ttsEstimatedMs,
            this`utterances, this`ttsUtterance, this`ttsInterval, this`progressWidth,
            this`currentPlayingId
    {
      Coherent() && (currentPlayingId.Some? ==> !SpeechChosen(currentPlayingId.value))
    }

    /**
      * Only `currentPlayButton` shows the pause icon; at most one utterance is
      * queued and it belongs to a speech session; while speech is in use the
      * audio element is unloaded, so the two backends never run together; a
      * pending `play()` belongs to the marked card; the progress timer exists
      * only with a progress bar and a positive estimate.
      */
    ghost predicate Coherent()
      reads this`currentPlayButton, this`pauseButtons, this`playPromise, this`audioSrc,
            this`audioPaused, this`speaking, this`usingTTS, this`ttsEstimatedMs,
            this`utterances, this`ttsUtterance, this`ttsInterval, this`progressWidth
    {
      && (currentPlayButton.Some? ==> currentPlayButton.value in tipButtons)
      && pauseButtons == ButtonsOf(currentPlayButton)
      && (playPromise.Some? ==> (currentPlayButton.None? || currentPlayButton == playPromise) && audioSrc != "")
      && (speaking.Some? ==>
            usingTTS && speechAvailable && ttsEstimatedMs > 0.0 && speaking.value.serial < utterances)
      && (ttsUtterance.Some? ==> ttsUtterance.value.serial < utterances)
      && (usingTTS ==> audioSrc == "" && audioPaused && playPromise.None?)
      && (ttsInterval ==> hasProgressFill && ttsEstimatedMs > 0.0)
      && (!hasProgressFill ==> progressWidth == 0.0)
    }

    /** Nothing plays or is pending and every indicator is reset. */
    predicate Stopped()
      reads this`usingTTS, this`ttsUtterance, this`ttsInterval, this`progressWidth,
            this`currentPlayingId, this`currentPlayButton, this`pauseButtons, this`mainIcon,
            this`audioSrc, this`audioPaused, this`playPromise, this`speaking
    {
      && !usingTTS && ttsUtterance.None? && !ttsInterval && progressWidth == 0.0
      && currentPlayingId.None? && currentPlayButton.None? && pauseButtons == {}
      && mainIcon == PlayIcon
      && audioSrc == "" && audioPaused && playPromise.None? && speaking.None?
    }

    /** The page as loaded, showing `title` and `artist`. */
    constructor (tracks: map<TrackId, string>, ttsTexts: map<TrackId, string>, speechAvailable: bool,
                 tipButtons: set<TrackId>, hasProgressFill: bool, title: string, artist: string)
      ensures Valid() && Stopped()
      ensures this.tracks == tracks && this.ttsTexts == ttsTexts && this.speechAvailable == speechAvailable
      ensures this.tipButtons == tipButtons && this.hasProgressFill == hasProgressFill
      ensures this.title == title && this.artist == artist && !isPlaying && utterances == 0
    {
      this.tracks, this.ttsTexts, this.speechAvailable := tracks, ttsTexts, speechAvailable;
      this.tipButtons, this.hasProgressFill := tipButtons, hasProgressFill;
      isPlaying, usingTTS, ttsUtterance, ttsInterval := false, false, None, false;
      ttsEstimatedMs, ttsStart := 0.0, 0;
      currentPlayingId, currentPlayButton := None, None;
      this.title, this.artist, mainIcon, pauseButtons, progressWidth := title, artist, PlayIcon, {}, 0.0;
      audioSrc, audioPaused, playPromise, speaking, utterances := "", true, None, None, 0;
    }

    // -------------------------------------------------------------------------
    // Indicators

    /** `updatePlayButton()`: the main icon follows `isPlaying`. */
    method UpdatePlayButton()
      modifies this`mainIcon
      ensures mainIcon == if isPlaying then PauseIcon else PlayIcon
    {
      if isPlaying {
        mainIcon := PauseIcon;
      } else {
        mainIcon := PlayIcon;
      }
    }

    /**
      * `setActiveTipButton(id)`: if the card has a button it becomes
      * `currentPlayButton` and shows the pause icon; the main icon shows pause.
      */
    method SetActiveTipButton(id: TrackId)
      modifies this`currentPlayButton, this`pauseButtons, this`mainIcon
      ensures mainIcon == PauseIcon
      ensures id in tipButtons ==> currentPlayButton == Some(id) && pauseButtons == old(pauseButtons) + {id}
      ensures id !in tipButtons ==> currentPlayButton == old(currentPlayButton) && pauseButtons == old(pauseButtons)
    {
      if id in tipButtons {
        currentPlayButton := Some(id);
        pauseButtons := pauseButtons + {id};
      }
      mainIcon := PauseIcon;
    }

    /**
      * `clearActiveTipButton()`: the current button goes back to the play icon
      * and is forgotten, the marker is cleared, the main icon shows play.
      */
    method ClearActiveTipButton()
      modifies this`currentPlayButton, this`pauseButtons, this`currentPlayingId, this`mainIcon
      ensures currentPlayingId.None? && currentPlayButton.None? && mainIcon == PlayIcon
      ensures pauseButtons == if old(currentPlayButton).Some? then old(pauseButtons) - {old(currentPlayButton).value}
                              else old(pauseButtons)
    {
      if currentPlayButton.Some? {
        pauseButtons := pauseButtons - {currentPlayButton.value};
        currentPlayButton := None;
      }
      currentPlayingId := None;
      mainIcon := PlayIcon;
    }

    /** `stopTTSProgress()`: the timer is cancelled and the bar emptied. */
    method StopTtsProgress()
      modifies this`ttsInterval, this`progressWidth
      ensures !ttsInterval
      ensures progressWidth == if hasProgressFill then 0.0 else old(progressWidth)
    {
      if ttsInterval {
        ttsInterval := false;
      }
      if hasProgressFill {
        progressWidth := 0.0;
      }
    }

    /** `startTTSProgress()`: nothing without a progress bar, else one fresh timer on an empty bar. */
    method StartTtsProgress()
      modifies this`ttsInterval, this`progressWidth
      ensures ttsInterval == (hasProgressFill || old(ttsInterval))
      ensures progressWidth == if hasProgressFill then 0.0 else old(progressWidth)
    {
      if !hasProgressFill {
        return;
      }
      StopTtsProgress();
      ttsInterval := true;
    }

    /** One run of the progress timer, `now` standing for `Date.now()`. */
    method SpeechTimerTick(now: int)
      requires Valid() && ttsInterval
      modifies this`progressWidth
      ensures Valid()
      ensures progressWidth == ProgressPercent(now - ttsStart, ttsEstimatedMs)
    {
      var elapsed := now - ttsStart;
      progressWidth := ProgressPercent(elapsed, ttsEstimatedMs);
    }

    // -------------------------------------------------------------------------
    // Starting and stopping

    /**
      * `stopCurrentPlayback()`: pause and unload the audio element (which also
      * rejects a pending `play()` promise), cancel speech if it was in use, drop
      * the utterance and the timer, clear the bar and the indicators. Stopping
      * a stopped player changes nothing, so stopping twice is stopping once.
      */
    method StopCurrentPlayback()
      requires Coherent()
      modifies this`audioSrc, this`audioPaused, this`playPromise, this`speaking, this`usingTTS,
               this`ttsUtterance, this`ttsInterval, this`progressWidth,
               this`currentPlayButton, this`pauseButtons, this`currentPlayingId, this`mainIcon
      ensures Valid() && Stopped()
      ensures old(Stopped()) ==> unchanged(this)
    {
      ReleaseBackends();
      StopTtsProgress();
      ClearActiveTipButton();
    }

    /**
      * The first half of `stopCurrentPlayback()`: the audio element is paused
      * and unloaded, speech is cancelled if it was in use, the utterance dropped.
      */
    method ReleaseBackends()
      modifies this`audioSrc, this`audioPaused, this`playPromise, this`speaking, this`usingTTS,
               this`ttsUtterance
      ensures audioSrc == "" && audioPaused && playPromise.None?
      ensures speaking == if old(usingTTS) && speechAvailable then None else old(speaking)
      ensures !usingTTS && ttsUtterance.None?
    {
      if !audioPaused {
        audioPaused := true;                   // audio.pause()
      }
      audioSrc := "";                          // audio.removeAttribute('src')
      audioPaused, playPromise := true, None;  // audio.load()
      if usingTTS && speechAvailable {
        speaking := None;                      // speechSynthesis.cancel()
      }
      usingTTS := false;
      if ttsUtterance.Some? {
        ttsUtterance := None;
      }
    }

    /**
      * `playAudio(id, title, artist)`, `now` standing for `Date.now()`.
      *
      * The same track again is a toggle: everything stops and nothing starts.
      * Otherwise the current session is torn down and, with synthesis available
      * and a text for `id`, speech is used even when a file exists; the second
      * teardown of that branch clears the marker set just before, so a speech
      * track is never marked and never toggles off. Without speech the file is
      * loaded and asked to play (`src` is always assigned: the element was just
      * unloaded, so the "already playing" test cannot hold). With neither,
      * nothing starts, but title, artist and marker are already set.
      */
    method PlayAudio(id: TrackId, title: string, artist: string, now: int)
      requires Valid()
      modifies this
      ensures Valid()
      ensures this.title == title && this.artist == artist && isPlaying == old(isPlaying)
      ensures old(currentPlayingId) == Some(id) ==>
        && Stopped() && utterances == old(utterances)
        && ttsEstimatedMs == old(ttsEstimatedMs) && ttsStart == old(ttsStart)
      ensures SpeechChosen(id) ==> Speaking(ttsTexts[id], old(utterances), now)
      ensures old(currentPlayingId) != Some(id) && !SpeechChosen(id) ==>
        && FileRequested(id)
        && utterances == old(utterances) && ttsEstimatedMs == old(ttsEstimatedMs) && ttsStart == old(ttsStart)
    {
      this.title := title;
      this.artist := artist;

      if currentPlayingId == Some(id) {
        ToggleOff();
        return;
      }
      StartTrack(id, now);
    }

    /** `playAudio` on the marked track: stop, then clear the (already clear) buttons. */
    method ToggleOff()
      requires Valid()
      modifies this`audioSrc, this`audioPaused, this`playPromise, this`speaking, this`usingTTS,
               this`ttsUtterance, this`ttsInterval, this`progressWidth,
               this`currentPlayButton, this`pauseButtons, this`currentPlayingId, this`mainIcon
      ensures Valid() && Stopped()
    {
      StopCurrentPlayback();
      ClearActiveTipButton();
    }

    /**
      * Speech of `text` is queued as utterance number `serial`, created at
      * `start`, and nothing else plays: the marker, the card buttons and the
      * main icon are reset, the timer waits for `onstart`.
      */
    predicate Speaking(text: string, serial: nat, start: int)
      reads this`usingTTS, this`speaking, this`ttsUtterance, this`utterances,
            this`ttsEstimatedMs, this`ttsStart, this`ttsInterval, this`progressWidth,
            this`audioSrc, this`audioPaused, this`playPromise, this`currentPlayingId,
            this`currentPlayButton, this`pauseButtons, this`mainIcon
    {
      var u := Utterance(serial, text, Language, 1);
      && usingTTS && speaking == Some(u) && ttsUtterance == Some(u) && utterances == serial + 1
      && ttsEstimatedMs == EstimatedMs(text) && ttsStart == start
      && !ttsInterval && progressWidth == 0.0
      && audioSrc == "" && audioPaused && playPromise.None?
      && currentPlayingId.None? && currentPlayButton.None? && pauseButtons == {} && mainIcon == PlayIcon
    }

    /**
      * `id` is marked as playing with its card button (if any) and the main
      * icon showing pause, no speech is in use, and the audio element holds
      * `tracks[id]` with a pending `play()` if there is such a file, and is
      * unloaded otherwise.
      */
    predicate FileRequested(id: TrackId)
      reads this`usingTTS, this`ttsUtterance, this`speaking, this`ttsInterval,
            this`progressWidth, this`currentPlayingId, this`mainIcon, this`currentPlayButton,
            this`pauseButtons, this`audioSrc, this`audioPaused, this`playPromise
    {
      && !usingTTS && ttsUtterance.None? && speaking.None? && !ttsInterval && progressWidth == 0.0
      && currentPlayingId == Some(id) && mainIcon == PauseIcon
      && currentPlayButton == (if id in tipButtons then Some(id) else None)
      && pauseButtons == ButtonsOf(currentPlayButton)
      && (HasTrack(id) ==> audioSrc == tracks[id] && !audioPaused && playPromise == Some(id))
      && (!HasTrack(id) ==> audioSrc == "" && audioPaused && playPromise.None?)
    }

    /**
      * `playAudio` past the toggle test: tear down, mark `id`, then speak its
      * text or fall back to its file.
      */
    method StartTrack(id: TrackId, now: int)
      requires Valid()
      modifies this`audioSrc, this`audioPaused, this`playPromise, this`speaking, this`usingTTS,
               this`ttsUtterance, this`ttsInterval, this`progressWidth,
               this`currentPlayButton, this`pauseButtons, this`currentPlayingId, this`mainIcon,
               this`utterances, this`ttsEstimatedMs, this`ttsStart
      ensures Valid()
      ensures SpeechChosen(id) ==> Speaking(ttsTexts[id], old(utterances), now)
      ensures !SpeechChosen(id) ==>
        && FileRequested(id)
        && utterances == old(utterances) && ttsEstimatedMs == old(ttsEstimatedMs) && ttsStart == old(ttsStart)
    {
      StopCurrentPlayback();
      currentPlayingId := Some(id);
      SetActiveTipButton(id);

      if speechAvailable && id in ttsTexts && ttsTexts[id] != "" {
        Speak(id, now);
        return;
      }
      PlayFallback(id);
    }

    /**
      * The speech branch of `playAudio`: tear down again (which clears the
      * marker and the card button just set), then create, estimate and queue
      * a new utterance of `ttsTexts[id]`.
      */
    method Speak(id: TrackId, now: int)
      requires Coherent() && SpeechChosen(id)
      modifies this`audioSrc, this`audioPaused, this`playPromise, this`speaking, this`usingTTS,
               this`ttsUtterance, this`ttsInterval, this`progressWidth,
               this`currentPlayButton, this`pauseButtons, this`currentPlayingId, this`mainIcon,
               this`utterances, this`ttsEstimatedMs, this`ttsStart
      ensures Valid() && Speaking(ttsTexts[id], old(utterances), now)
    {
      StopCurrentPlayback();
      usingTTS := true;
      var text := ttsTexts[id];
      var u := Utterance(utterances, text, Language, 1);
      ttsUtterance := Some(u);
      utterances := utterances + 1;
      ttsEstimatedMs := EstimatedMs(text);
      ttsStart := now;
      speaking := Some(u);                     // speechSynthesis.speak(...)
    }

    /**
      * The file branch of `playAudio`: without a file only a warning is
      * logged; otherwise the element gets `tracks[id]` unless it is already
      * playing that file, and is asked to play.
      */
    method PlayFallback(id: TrackId)
      modifies this`audioSrc, this`audioPaused, this`playPromise
      ensures !HasTrack(id) ==> audioSrc == old(audioSrc) && audioPaused == old(audioPaused) && playPromise == old(playPromise)
      ensures HasTrack(id) ==>
        && audioSrc == (if old(audioSrc) != "" && EndsWith(old(audioSrc), tracks[id]) && !old(audioPaused)
                        then old(audioSrc) else tracks[id])
        && !audioPaused && playPromise == Some(id)
    {
      if !(id in tracks && tracks[id] != "") {
        return;                                // console.warn only
      }
      var src := tracks[id];
      if audioSrc != "" && EndsWith(audioSrc, src) && !audioPaused {
        // the same file is already playing
      } else {
        audioSrc := src;
      }
      audioPaused := false;                    // audio.play()
      playPromise := Some(id);
    }

    // -------------------------------------------------------------------------
    // Speech callbacks

    /** `onstart` of the queued utterance `u`: playing, pause icon, timer started. */
    method SpeechStart(u: Utterance)
      requires Valid() && speaking == Some(u)
      modifies this`isPlaying, this`mainIcon, this`ttsInterval, this`progressWidth
      ensures Valid()
      ensures isPlaying && mainIcon == PauseIcon
      ensures ttsInterval == (hasProgressFill || old(ttsInterval)) && progressWidth == 0.0
    {
      isPlaying := true;
      UpdatePlayButton();
      StartTtsProgress();
    }

    /**
      * `onend` of utterance `u`, current or already cancelled. The synthesiser
      * drops `u` if it is the one queued; the callback then resets the
      * indicators and the marker of whatever is playing now.
      */
    method SpeechEnd(u: Utterance)
      requires Valid() && u.serial < utterances
      modifies this`speaking, this`isPlaying, this`mainIcon, this`ttsInterval, this`progressWidth,
               this`currentPlayButton, this`pauseButtons, this`currentPlayingId
      ensures Valid()
      ensures speaking == if old(speaking) == Some(u) then None else old(speaking)
      ensures !isPlaying && mainIcon == PlayIcon && !ttsInterval && progressWidth == 0.0
      ensures currentPlayingId.None? && currentPlayButton.None? && pauseButtons == {}
    {
      if speaking == Some(u) {
        speaking := None;
      }
      isPlaying := false;
      UpdatePlayButton();
      StopTtsProgress();
      ClearActiveTipButton();
    }

    /** `onerror` of utterance `u`: logged, then handled as `onend`. */
    method SpeechError(u: Utterance)
      requires Valid() && u.serial < utterances
      modifies this`speaking, this`isPlaying, this`mainIcon, this`ttsInterval, this`progressWidth,
               this`currentPlayButton, this`pauseButtons, this`currentPlayingId
      ensures Valid()
      ensures speaking == if old(speaking) == Some(u) then None else old(speaking)
      ensures !isPlaying && mainIcon == PlayIcon && !ttsInterval && progressWidth == 0.0
      ensures currentPlayingId.None? && currentPlayButton.None? && pauseButtons == {}
    {
      SpeechEnd(u);
    }

    // -------------------------------------------------------------------------
    // Audio callbacks and the main button

    /** The `audio.play()` of `playAudio` resolves: playing, and its card marked active. */
    method PlayResolved()
      requires Valid() && playPromise.Some?
      modifies this`playPromise, this`isPlaying, this`mainIcon, this`currentPlayButton, this`pauseButtons
      ensures Valid()
      ensures playPromise.None? && isPlaying && mainIcon == PauseIcon
      ensures currentPlayButton == if old(playPromise).value in tipButtons then old(playPromise) else old(currentPlayButton)
    {
      var id := playPromise.value;
      playPromise := None;
      isPlaying := true;
      UpdatePlayButton();
      SetActiveTipButton(id);
    }

    /**
      * The `audio.play()` of `playAudio` is rejected: the handler only logs, so
      * the marker and the card's pause icon stay although nothing plays.
      * `refused` tells a refusal to start (autoplay policy), after which the
      * element is paused again, from a failed load of the file, after which
      * `paused` stays as it was.
      */
    method PlayRejected(refused: bool)
      requires Valid() && playPromise.Some?
      modifies this`playPromise, this`audioPaused
      ensures Valid()
      ensures playPromise.None?
      ensures audioPaused == (refused || old(audioPaused))
    {
      playPromise := None;
      if refused {
        audioPaused := true;
      }
    }

    /** The audio element's `play` event. */
    method OnAudioPlay()
      requires Valid()
      modifies this`isPlaying, this`mainIcon
      ensures Valid() && isPlaying && mainIcon == PauseIcon
    {
      isPlaying := true;
      UpdatePlayButton();
    }

    /** The audio element's `pause` event. */
    method OnAudioPause()
      requires Valid()
      modifies this`isPlaying, this`mainIcon
      ensures Valid() && !isPlaying && mainIcon == PlayIcon
    {
      isPlaying := false;
      UpdatePlayButton();
    }

    /**
      * The audio element's `ended` event. Reaching the end has paused the
      * element and rejected a pending `play()`, so its `.then` never runs.
      */
    method OnAudioEnded()
      requires Valid() && audioSrc != ""
      modifies this`audioPaused, this`playPromise, this`isPlaying, this`mainIcon, this`currentPlayButton,
               this`pauseButtons, this`currentPlayingId
      ensures Valid()
      ensures audioPaused && playPromise.None? && !isPlaying && mainIcon == PlayIcon
      ensures currentPlayingId.None? && currentPlayButton.None? && pauseButtons == {}
    {
      audioPaused, playPromise := true, None;  // reaching the end pauses and rejects a pending play()
      isPlaying := false;
      UpdatePlayButton();
      ClearActiveTipButton();
    }

    /**
      * The audio element's `timeupdate` event. A `duration` of 0 stands for the
      * falsy durations (`0`, `NaN`) on which the handler returns.
      */
    method OnTimeUpdate(currentTime: real, duration: real)
      requires Valid()
      modifies this`progressWidth
      ensures Valid()
      ensures duration == 0.0 || !hasProgressFill ==> progressWidth == old(progressWidth)
      ensures duration != 0.0 && hasProgressFill ==> progressWidth == (currentTime / duration) * 100.0
      ensures duration != 0.0 && hasProgressFill && 0.0 <= currentTime <= duration ==>
                0.0 <= progressWidth <= 100.0
    {
      if duration == 0.0 || !hasProgressFill {
        return;
      }
      progressWidth := (currentTime / duration) * 100.0;
      if 0.0 <= currentTime <= duration {
        assert (currentTime / duration) * duration == currentTime;
      }
    }

    /**
      * A click on the main play/pause button: nothing without a `src`, else
      * `paused` flips. Pausing rejects the pending `play()` of `playAudio`, so
      * its `.then` never runs.
      */
    method OnMainButton()
      requires Valid()
      modifies this`audioPaused, this`playPromise
      ensures Valid()
      ensures audioPaused == if audioSrc == "" then old(audioPaused) else !old(audioPaused)
      ensures playPromise == if audioSrc != "" && !old(audioPaused) then None else old(playPromise)
    {
      if audioSrc == "" {
        return;
      }
      if audioPaused {
        audioPaused := false;                  // audio.play()
      } else {
        audioPaused, playPromise := true, None;  // audio.pause() rejects a pending play()
      }
    }
  }

  // ---------------------------------------------------------------------------
  // Pressing a card's button twice

  /** For a speech track the second press cancels the utterance and speaks the text anew. */
  method PressSpeechCardTwice(p: Player, id: TrackId, title: string, artist: string, now1: int, now2: int)
    requires p.Valid() && p.SpeechChosen(id)
    modifies p
    ensures p.Valid() && !p.Stopped()
    ensures p.usingTTS && p.currentPlayingId.None? && p.ttsStart == now2
    ensures p.speaking == Some(Utterance(old(p.utterances) + 1, p.ttsTexts[id], Language, 1))
  {
    p.PlayAudio(id, title, artist, now1);
    p.PlayAudio(id, title, artist, now2);
  }

  /** For an audio-file track the second press stops playback. */
  method PressAudioCardTwice(p: Player, id: TrackId, title: string, artist: string, now1: int, now2: int)
    requires p.Valid() && !p.SpeechChosen(id) && p.currentPlayingId != Some(id)
    modifies p
    ensures p.Valid() && p.Stopped()
  {
    p.PlayAudio(id, title, artist, now1);
    p.PlayAudio(id, title, artist, now2);
  }

  /**
    * The speech callbacks do not check which utterance they belong to: card
    * `a` is spoken, card `b` (a file with a play button) starts and is marked,
    * then the late `onend` of `a`'s cancelled utterance clears `b`'s marker
    * and button while `b`'s file keeps playing.
    */
  method StaleSpeechEnd(p: Player, a: TrackId, b: TrackId, now1: int, now2: int)
    requires p.Valid() && p.SpeechChosen(a) && !p.SpeechChosen(b) && p.HasTrack(b) && b in p.tipButtons
    modifies p
    ensures p.Valid()
    ensures p.currentPlayingId.None? && p.currentPlayButton.None? && p.pauseButtons == {}
    ensures p.audioSrc == p.tracks[b] && !p.audioPaused
  {
    p.PlayAudio(a, "", "", now1);
    var first := p.speaking.value;
    p.PlayAudio(b, "", "", now2);
    assert p.currentPlayingId == Some(b) && p.currentPlayButton == Some(b);
    p.SpeechEnd(first);
  }

  /**
    * The same unchecked `onend`, as it can happen on the site, where every
    * card with a file also has a text: speech of `a` is cancelled by pressing
    * `b`, `b`'s utterance starts, then the late `onend` of `a`'s utterance
    * turns the icon back to play and stops the progress timer although `b`'s
    * utterance is still being spoken.
    */
  method StaleSpeechEndDuringSpeech(p: Player, a: TrackId, b: TrackId, now1: int, now2: int)
    requires p.Valid() && p.SpeechChosen(a) && p.SpeechChosen(b)
    modifies p
    ensures p.Valid()
    ensures p.usingTTS && p.speaking == Some(Utterance(old(p.utterances) + 1, p.ttsTexts[b], Language, 1))
    ensures !p.isPlaying && p.mainIcon == PlayIcon && !p.ttsInterval
  {
    p.PlayAudio(a, "", "", now1);
    var first := p.speaking.value;
    p.PlayAudio(b, "", "", now2);
    p.SpeechStart(p.speaking.value);
    p.SpeechEnd(first);
  }
}
