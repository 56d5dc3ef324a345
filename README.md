# The Break: playback controller and form storage

A model of the script of "The Break", a student podcast page. Each card
of the page has a play button. Pressing it plays the card's narration
with the browser's Spanish speech synthesis when synthesis is available
and the card has a text, and otherwise plays the card's recorded audio
file. Pressing the button of a card whose file is playing stops it.
A progress bar follows either backend. The page also has a story form,
whose entries go to the top of the confessions list and into
`localStorage`, and a newsletter form that keeps a list of addresses in
`localStorage`.

Three modules:

- `JsText` (`jstext.dfy`) holds the two JavaScript string operations the
  script relies on:
  - `trim()`;
  - `split(/\s+/)`.

  Both use the ECMAScript whitespace set. The module proves that trimming
  removes exactly the whitespace at the ends, and that splitting keeps all
  the non-whitespace text in one piece more than there are whitespace
  runs.
- `Playback` (`player.dfy`): the class `Player` holds the script's
  module-level variables:
  - `isPlaying`, `usingTTS`, `ttsUtterance`, `ttsInterval`,
    `ttsEstimatedMs`, `ttsStart`, `currentPlayingId`, `currentPlayButton`;
  - the part of the page they drive;
  - the two backends, seen as state: the audio element's `src`, `paused`
    and its pending `play()` promise, and the utterance queued in the
    synthesiser.

  Each of the script's functions and event callbacks is a method. Each
  method states the complete new state of the fields it may change. It
  keeps the invariant `Valid`: the card buttons showing "pause" are
  exactly `currentPlayButton`, at most one utterance is queued, and
  while speech is in use the audio element is unloaded, so the two
  backends never play together. Utterances carry a serial number, so a
  late `onend` of a cancelled utterance can be told apart.
- `Storage` (`storage.dfy`): the class `Site` holds the stored story and
  e-mail lists, the form fields and the confessions list. The pure
  functions `SavedStories`, `WithEmail` and `StoryEntry` give what a
  single save, subscription or form check does. The lemmas follow a
  whole run of saves and subscriptions.

### Behaviour of the code as written

The model reproduces the code as it is, including these behaviours:

- **Pressing a speech card twice restarts it instead of stopping it.**
  The comment at script.js:79 says that pressing the playing track
  again toggles it off. On the speech path, however, `playAudio` calls
  `stopCurrentPlayback()` a second time (script.js:94), and that clears
  the `currentPlayingId` set at script.js:88. A speech track is
  therefore never marked as playing, and pressing the same speech card
  again cancels the utterance and speaks the text anew. Only file
  tracks toggle off.
  - `PressSpeechCardTwice` and `PressAudioCardTwice` state both outcomes.
  - On the speech path the card button shows "play" for the whole
    utterance, because `onstart` (script.js:107-111) never marks it; the
    main icon shows "play" until `onstart`.
- **A rejected `audio.play()` is only logged** (script.js:150-152). The
  marker and the card's pause icon stay set although nothing plays.
- **A track with neither a text nor a file still changes the page.**
  Only a warning is logged (script.js:133-135), but by then the title,
  the artist and the marker are set and the card shows "pause"
  (script.js:76-89).
- **The speech callbacks do not check which utterance they belong to**
  (script.js:112-125). On the site every card with a file also has a
  text (`SiteFilesOnlyWithoutSpeech`), so with synthesis no file ever
  plays, and the case that occurs there is speech after speech.
  `StaleSpeechEndDuringSpeech` shows the late `onend` of a cancelled
  utterance, arriving after the next utterance's `onstart`: it turns the
  icon back to "play" and stops the progress timer while the new
  utterance is still spoken. `StaleSpeechEnd` shows the same callback
  clearing the marker and button of a file that plays next. That can
  only happen with track tables where a speech card and a file card
  coexist.

## Model

| member | source | states |
|---|---|---|
| JsText.Trim | script.js:258-259 | `trim()` cuts blank text from both ends and nothing else: the input is the leading whitespace run, then the result, then blank text; the result is empty exactly for blank input, and otherwise starts and ends with non-whitespace |
| JsText.TrimOfPadded | script.js:258-259 | the trimmed text is unique: if the input is some text with blank text around it, and that text is empty or has non-whitespace at both ends, `trim()` gives exactly that text |
| JsText.TrimKeepsText | script.js:337 | trimming deletes whitespace only: the non-whitespace characters of the input are all kept, in order |
| JsText.Split | script.js:103 | `split(/\s+/)` yields at least one piece; no piece holds whitespace; only the first and last pieces can be empty; input starting with a non-space gives a non-empty first piece |
| JsText.SplitKeepsText | script.js:103 | concatenating the pieces of the split gives exactly the non-whitespace text of the input |
| JsText.SplitOfWord | script.js:103 | text without whitespace splits into itself alone |
| JsText.SplitCount | script.js:103 | `split(/\s+/)` yields exactly one piece more than the input has maximal whitespace runs |
| Playback.WordCount | script.js:103 | the word count of a narration is one more than its number of whitespace runs, and exactly 1 for text without whitespace |
| Playback.EstimatedMs | script.js:104 | the speech estimate is 400 ms per word (150 words a minute) and never below 400 ms |
| Playback.ProgressPercent | script.js:179-180 | the speech progress is at most 100, equals 100 exactly once the estimate has elapsed, and is not negative for non-negative elapsed time |
| Playback.SiteFilesOnlyWithoutSpeech | script.js:13-34 | on the site every id with an audio file also has a text, so with synthesis a file is never chosen; speech is used exactly for the ten text ids when synthesis exists |
| Playback.Player.constructor | script.js:2-45 | the page starts valid and stopped: no marker, no speech, no timer, unloaded audio, play icon |
| Playback.Player.UpdatePlayButton | script.js:226-234 | the main icon shows pause exactly while `isPlaying` |
| Playback.Player.SetActiveTipButton | script.js:47-58 | a card with a button becomes `currentPlayButton` and shows pause; a card without one changes no button; the main icon shows pause |
| Playback.Player.ClearActiveTipButton | script.js:60-71 | the current card button goes back to play and is forgotten, the marker is cleared, the main icon shows play |
| Playback.Player.StartTtsProgress | script.js:175-183 | without a progress bar nothing changes; otherwise the bar is emptied and a timer is running |
| Playback.Player.StopTtsProgress | script.js:185-191 | no timer is left and the bar, if present, is empty |
| Playback.Player.SpeechTimerTick | script.js:178-182 | one timer run sets the bar to the capped percentage of the estimate elapsed since `ttsStart` |
| Playback.Player.ReleaseBackends | script.js:156-168 | the audio element is paused and unloaded with no pending `play()`, queued speech is cancelled when speech was in use, and the utterance is dropped |
| Playback.Player.StopCurrentPlayback | script.js:155-173 | from any coherent state the player ends valid and fully stopped; on a stopped player nothing changes, so stopping is idempotent |
| Playback.Player.PlayAudio | script.js:74-153 | title and artist are shown. The marked id again stops everything. A speech id always speaks its text, preferred over a file, and stays unmarked. Any other id is marked with its button and plays its file if it has one, or is only marked if not |
| Playback.Player.ToggleOff | script.js:80-84 | pressing the marked track leaves the player valid and fully stopped |
| Playback.Player.StartTrack | script.js:86-152 | after the teardown, a speech id ends in the speaking state and any other id ends with its file requested |
| Playback.Player.Speak | script.js:92-128 | a new utterance of the text (language es-ES, rate 1) is queued with its estimate and start time; the marker, the button, the audio and the timer are reset |
| Playback.Player.PlayFallback | script.js:131-152 | without a file nothing changes; otherwise `src` becomes the file unless that file is already playing, and `play()` is requested |
| Playback.Player.SpeechStart | script.js:107-111 | `onstart` of the queued utterance: playing, pause icon, progress timer started on an empty bar |
| Playback.Player.SpeechEnd | script.js:112-118 | `onend` of any utterance: it leaves the queue if it was queued, and playing stops, the timer stops, the marker and buttons are cleared |
| Playback.Player.SpeechError | script.js:119-125 | `onerror` has the same effect as `onend` |
| Playback.Player.PlayResolved | script.js:145-149 | a resolved `play()` sets playing, the pause icon, and marks its card's button |
| Playback.Player.PlayRejected | script.js:150-152 | a rejected `play()` settles the promise and is otherwise only logged: the marker and button stay; after a refusal to start the element is paused, after a failed load `paused` stays as it was |
| Playback.Player.OnAudioPlay | script.js:204 | the `play` event sets playing and the pause icon |
| Playback.Player.OnAudioPause | script.js:205 | the `pause` event clears playing and shows the play icon |
| Playback.Player.OnAudioEnded | script.js:206 | the `ended` event leaves the element paused with no pending `play()`, clears playing, the marker and every card button |
| Playback.Player.OnTimeUpdate | script.js:209-213 | with a duration and a bar, the bar shows `currentTime / duration` in percent, within 0..100 while the time is within the duration; otherwise nothing changes |
| Playback.Player.OnMainButton | script.js:194-201 | the main button does nothing without a `src` and otherwise flips `paused`; pausing rejects the pending `play()` of `playAudio` |
| Playback.PressSpeechCardTwice | script.js:80-128 | pressing a speech card twice does not stop: the second press queues a fresh utterance of the same text |
| Playback.PressAudioCardTwice | script.js:80-84 | pressing a non-speech card twice ends fully stopped |
| Playback.StaleSpeechEnd | script.js:112-118 | a late `onend` of a cancelled utterance clears the marker and button of the file that is playing, while the file keeps playing |
| Playback.StaleSpeechEndDuringSpeech | script.js:107-118 | a late `onend` of a cancelled utterance, after the next utterance's `onstart`, shows the play icon and stops the timer while the new utterance stays queued |
| Storage.SavedStories | script.js:299-300 | a save puts the story at index 0, keeps the newest stored stories after it in order, and stores at most 200 |
| Storage.SaveOnNewest | script.js:299-300 | saving onto a capped list equals capping the list with the story in front |
| Storage.SaveAllNewestFirst | script.js:295-304 | after any non-empty run of saves on any stored list, or any run on a list of at most 200, the stored list is the newest 200 stories, newest first, followed by the earlier stored ones while room is left |
| Storage.WithEmail | script.js:341 | a subscription keeps the old list as a prefix; a present address leaves the list unchanged, an absent one is added once at the end; nothing else is added; a duplicate-free list stays duplicate-free |
| Storage.SubscribeAllNoDuplicates | script.js:341 | any run of subscriptions keeps a duplicate-free list duplicate-free and keeps the earlier addresses in place |
| Storage.SubscribeAllMembers | script.js:341 | after any run of subscriptions the list holds exactly the earlier and the new addresses |
| Storage.StoryEntry | script.js:258-260 | a blank story is ignored. Otherwise the story is the field with blank text cut from both ends: it has blank text around it in the field and non-whitespace at both ends, which by `TrimOfPadded` fixes it. The name is `Anónimo` for a blank name field, and otherwise the name field cut the same way |
| Storage.Site.constructor | script.js:294-298 | the page starts with empty forms over the stored lists |
| Storage.Site.SaveStoryToStorage | script.js:295-304 | the stored list becomes the saved list, at most 200 long, with the new story first |
| Storage.Site.SubmitStory | script.js:256-290 | a blank story changes nothing. Otherwise the card goes on top of the confessions list, the entry with its time is saved, and the form is cleared |
| Storage.Site.SubscribeNewsletter | script.js:332-350 | a blank address changes nothing. Otherwise the trimmed address is added unless present, the field is cleared, and the list stays duplicate-free |

## Left out

- The DOM is reduced to the fields above.
  - A card's button is found by `querySelector` with a substring match on
    its `onclick` attribute (script.js:48); the model looks the id up
    exactly in the set of cards that have a button.
  - The main button and its icon are assumed to exist. Without the
    button the script stops at script.js:8. Without the icon,
    `mainPlayIcon` is `null`, `setActiveTipButton` and
    `clearActiveTipButton` skip it, and the first `updatePlayButton`
    call throws (script.js:228, script.js:231); that failure is not
    modelled.
  - The text of feedback messages, the card markup and the quoting of a
    card's text are not modelled.
- Timing:
  - `Date.now()` is a parameter of the methods that read it.
  - `setInterval` is the flag `ttsInterval`, and one of its runs is the
    method `SpeechTimerTick`.
  - The 4-second `setTimeout` that clears the newsletter feedback is not
    modelled.
- The browser backends are state, not code.
  - `audio.play()` sets `paused` to false and leaves a pending promise,
    which `PlayResolved` or `PlayRejected` settles.
  - `pause()`, `load()` and reaching the end of the file reject that
    promise: in `stopCurrentPlayback` (`ReleaseBackends`), in the main
    button's pause branch (`OnMainButton`) and before the `ended` event
    (`OnAudioEnded`).
  - A rejection leaves `paused` false after a failed load and true after
    a refusal to start; `PlayRejected` takes which one as a parameter.
  - The `play()` of the main button is not tracked as a promise.
  - The synthesiser holds at most one utterance, because the script
    always cancels before it speaks.
  - Browser ordering of events beyond the preconditions of each callback
    is not modelled.
- Playback.ProgressPercent: uses exact real arithmetic instead of IEEE
  doubles.
- Playback.EstimatedMs: uses exact real arithmetic instead of IEEE
  doubles.
- Playback.Player.OnTimeUpdate: uses exact real arithmetic instead of
  IEEE doubles, and stands for a `NaN` duration by 0.
- The progress-bar click handler that seeks the audio (script.js:216-224)
  is left out. It is pointer geometry on doubles, and it changes no
  variable of the controller.
- `localStorage` is left out and replaced by the parsed lists.
  - This covers `getItem`, `setItem`, JSON parsing and the
    `try`/`catch` around them.
  - A malformed or unavailable store, and quota errors, are not
    modelled.
- `showSection` (script.js:237-254) is not part of this model: page
  navigation only.
- `loadStoredStories` (script.js:306-328) is not part of this model: it
  renders the stored list.
- `loadNewsletterState` (script.js:352-360) is not part of this model: it
  shows a count.
- The YouTube thumbnails and embeds (script.js:376-433) and the page set-up on `DOMContentLoaded` (script.js:362-374) are not part of this model: they touch no state of the controller or of the stored lists.
- JavaScript property lookup on the track tables also finds inherited
  keys such as `toString`. The model uses plain maps.
