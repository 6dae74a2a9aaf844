# ICU Hand Behavior Monitoring System v3.2 — a Dafny model of the detection and alarm engine

The system watches up to three cameras, each with its own video processor. A processor:

- crops every frame to the camera's region of interest (ROI);
- asks a hand classifier where the thumb tip and the pinky tip are;
- treats a thumb close to the pinky (a smoothed Manhattan distance below the gesture threshold) as the monitored gesture.

While the gesture is held, an alarm escalates. Each configured trigger threshold, in seconds, fires once per detection episode. The last threshold of the configured list plays its sound in a loop. A poll without the gesture ends the episode and stops the sound.

Around this engine sit several smaller pieces:

- a camera manager, which starts and stops processors by camera id;
- a 10-sample frame-rate window;
- a grid overlay with clamped settings;
- the configuration and its validator;
- the translation tables with their language switch;
- the UI style tables.

This project models those parts in Dafny 4.11 and proves what they promise.

Modules, one per source file or concern:

- `Common` — Option/Result, min/max, and `str()` of an integer.
- `Config` — `config.py`: the camera settings with their defaults, the `alarm_sounds` table, `validate` and `save_language_preference`.
- `Alarm` — the escalation state machine of `_update_alarm_state`, `_reset_alarm` and `get_alarm_status`, written as functions on an `Episode` value. Its lemmas cover one poll, a whole held episode and the status shown.
- `Roi` — the crop formula of `_safe_crop` and the adjustment `update_roi` applies.
- `Detection` — the distance, the smoothing and the verdict of `_detect_gesture`, and the poll gate of `_process_frame`.
- `Pacing` — the counters of the `process_stream` loop (`prev_time`, `frame_count`, `skip_count`), written as functions over a sequence of loop passes.
- `Fps` — `FPSCounter` as a class over a `seq<real>` history.
- `Grid` — `GridOverlay` as a class: defaults, `update_settings` and the line positions of `draw_grid`.
- `Language` — the translation table, `str.format` on `{}` fields, and `LanguageManager` as a class.
- `Styles` — the `UIStyles` tables and their `.get` lookups with fallback.
- `VideoProcessing` — `VideoProcessor` as a class whose fields are `detection_start_time`, `alarm_active`, `played_sounds`, `last_detection`, the ROI cache and the smoothed distance. Its methods change those fields and are proved against the functions of `Alarm`, `Roi`, `Detection` and `Pacing`. The pygame mixer channel is a small class: a `busy` flag plus a ghost log of `play(tier, loops)` and `stop()` calls.
- `Cameras` — `CameraManager` as a class holding the three maps `processors`, `stop_events` and `threads`, with `Event` and `Thread` as small classes.

Time is an input everywhere. A frame step receives one `now`, and a stream run receives the clock readings of each pass.

## Model

| member | source | states |
|---|---|---|
| Alarm.Insert | modules/video_processor.py:371 | inserting into an ascending list gives an ascending list one longer, with the same elements plus the new one |
| Alarm.Sort | modules/video_processor.py:371 | `sorted(alarm_triggers)` is ascending and a permutation of the configured list |
| Alarm.SortLength | modules/video_processor.py:371 | sorting keeps the number of triggers |
| Alarm.SortedReached | modules/video_processor.py:371-372 | walking the sorted list instead of the configured one reaches exactly the same thresholds |
| Alarm.EscalatePlayed | modules/video_processor.py:371-376 | after the trigger loop, played_sounds is the old set united with every threshold t ≤ duration |
| Alarm.EscalateFired | modules/video_processor.py:371-376 | the tiers fired by the loop are exactly the reached thresholds not played before; each fires once; earlier fired tiers are kept as a prefix |
| Alarm.EscalateFlags | modules/video_processor.py:372-387 | alarm_active and the channel's busy flag are raised exactly when some tier fired, and are never lowered by the loop |
| Alarm.EscalateCalls | modules/video_processor.py:375-387 | the loop makes at most one `play` call: for the first tier fired, and only if the channel was idle, with loops -1 exactly for the last configured trigger |
| Alarm.PrefixKept | modules/video_processor.py:371-376 | the loop only appends to the record of fired tiers |
| Alarm.EscalateAscending | modules/video_processor.py:371 | over an ascending list, the tiers fire in strictly ascending order |
| Alarm.OnReset | modules/video_processor.py:389-396 | a reset leaves start 0, alarm_active false and played_sounds empty, and makes exactly one `stop()` call, whatever the prior state (so a second reset differs only by a second stop) |
| Alarm.GesturePlayed | modules/video_processor.py:364-376 | the first positive poll of an episode sets the start to `now` and empties played_sounds, and a later poll keeps the start; played_sounds then gains exactly the thresholds reached by the duration |
| Alarm.GestureFired | modules/video_processor.py:368-376 | one poll fires exactly the newly reached thresholds, in strictly ascending order, even when the duration jumps past several |
| Alarm.FreshFired | modules/video_processor.py:371-376 | a loop started with an empty record fires, in ascending order, exactly the reached thresholds that were not yet played |
| Alarm.GestureActive | modules/video_processor.py:372-374 | after a poll, alarm_active is true iff it was true before or a tier fired |
| Alarm.GestureAudio | modules/video_processor.py:375-387 | an idle channel gets one `play` of the lowest newly fired tier, looping iff that tier equals `alarm_triggers[-1]`; a busy channel gets no call; the channel is busy afterwards iff it was busy or something fired |
| Alarm.MaxOf | modules/video_processor.py:550 | `max(played_sounds)` is a member of the set and bounds every member |
| Alarm.ResetStatus | modules/video_processor.py:389-396 | after a reset the status is "无报警", the alarm level is 0 and the detection time is 0 |
| Alarm.ContinuousIff | modules/video_processor.py:549-552 | over an ascending trigger list, the highest reached threshold is the last trigger iff the duration has reached that trigger |
| Alarm.ReachedMonotone | modules/video_processor.py:368-372 | a longer duration reaches at least the thresholds a shorter one reached |
| Alarm.GestureTracks | modules/video_processor.py:361-376 | if the played set is exactly the thresholds reached at an earlier duration, it is exactly the thresholds reached at the new duration after a poll |
| Alarm.HoldTracks | modules/video_processor.py:361-376 | over any number of polls at non-decreasing times, the start is kept and played_sounds stays exactly the thresholds reached by the latest duration, with alarm_active true iff that set is non-empty |
| Alarm.FirstPoll | modules/video_processor.py:364-368 | with positive thresholds, the first poll after no alarm starts the episode at `now` and fires nothing |
| Alarm.EpisodeFiresReached | modules/video_processor.py:364-376 | for an episode held from no alarm, played_sounds after the last poll is {t in triggers : t ≤ duration} |
| Alarm.StatusWhileHeld | modules/video_processor.py:534-556 | while the gesture is held, the alarm level counts the reached thresholds; the status is tracking before the first threshold, then triggered at the highest reached one, and continuous once the last trigger is reached |
| Config.NewCamera | config.py:17-38 | a camera setting keeps its four given fields and defaults to enabled, buffer size 3, auto-reconnect, and a 1.0 s reconnect delay |
| Config.AlarmSounds | config.py:90-94 | alarm_sounds has exactly the trigger keys, and each maps to its tier's sound path |
| Config.SoundPathsDistinct | config.py:91-93 | two different tiers below 30 s get different sound files |
| Config.CameraError | config.py:122-128 | the camera checks pass iff every camera's ROI origin lies inside its resolution and its confidence is in (0, 1]; a failure names a camera |
| Config.ValidationIff | config.py:122-144 | validate succeeds iff every camera passes, the gesture threshold is in (0, 1] and the volume is in (0, 1]; the ROI's width and height are never checked |
| Config.DefaultValidates | config.py:49-96 | the shipped configuration passes validate |
| Config.SystemConfig.constructor | config.py:47-107 | the defaults: three cameras, grid 50×50, threshold 0.8, interval 0.1, smoothing 0.3, triggers [5, 10, 15, 30] with their sounds, volume 1.0, max_fps 30, language zh_CN |
| Config.SystemConfig.Validate | config.py:109-149 | the result is Validation of the settings; on success, an unsupported language preference is replaced by "zh_CN" rather than raising; on failure, the preference is untouched |
| Config.SystemConfig.SaveLanguagePreference | config.py:151-161 | returns true iff the code is "zh_CN" or "en_US", and only then stores it |
| Language.TextIn | modules/language.py:38-277 | every translation entry holds a text for exactly the two supported languages |
| Language.FormatSucceedsIff | modules/language.py:278-282 | formatting succeeds iff the text has only `{}` fields and at least as many arguments as fields |
| Language.FormatPlain | modules/language.py:280 | a text without braces formats to itself |
| Language.FormatPrefix | modules/language.py:280 | a brace-free prefix passes through formatting unchanged |
| Language.FormatField | modules/language.py:280 | a leading `{}` field takes the first argument, and the rest takes the others |
| Language.FormatOneField | modules/language.py:278-282 | a text with one `{}` field formatted with one argument puts the argument in place of the field |
| Language.LanguageManager.constructor | modules/language.py:23-31 | the current language starts as the configured preference |
| Language.LanguageManager.GetText | modules/language.py:264-283 | an unknown key returns the key; otherwise the current language's text, or the key when the entry lacks it; with arguments, the formatted text, or the unformatted text when formatting fails |
| Language.LanguageManager.SwitchLanguage | modules/language.py:285-299 | succeeds iff the code is supported, and then updates both the current language and the configured preference; otherwise nothing changes |
| Language.LanguageManager.GetCurrentLanguage | modules/language.py:301-303 | returns the current language |
| Language.LanguageManager.GetLanguageName | modules/language.py:305-316 | the code defaults to the current language; a code with a name gives that name, and any other code is returned as it is |
| Fps.LastN | modules/fps_counter.py:25-27 | the window is the last min(n, length) samples, in order |
| Fps.SumBounds | modules/fps_counter.py:35 | a sum of samples in [lo, hi] lies between count·lo and count·hi |
| Fps.MeanBounds | modules/fps_counter.py:35 | the mean of samples in [lo, hi] lies in [lo, hi] |
| Fps.FPSCounter.constructor | modules/fps_counter.py:15-17 | the history starts empty |
| Fps.FPSCounter.Update | modules/fps_counter.py:19-27 | the sample is appended at the end; the oldest one is dropped only when the length would exceed 10; the history stays the last ≤ 10 samples of all samples ever given |
| Fps.FPSCounter.GetAverage | modules/fps_counter.py:29-35 | 0 for an empty history, otherwise the sum divided by the count |
| Grid.ClampInt | modules/grid_overlay.py:98-100 | `max(10, min(200, v))`: the result is in range, equals v inside it and the nearest bound outside it |
| Grid.ClampReal | modules/grid_overlay.py:101-102 | `max(0.1, min(0.5, v))`, with the same three cases |
| Grid.Positive | modules/grid_overlay.py:55-70 | the labelled positions are positive and no more than the lines |
| Grid.PositiveSnoc | modules/grid_overlay.py:55-61 | a new line gets a label exactly when its position is positive |
| Grid.Axis | modules/grid_overlay.py:55-70 | `range(0, n, s)`: line i sits at i·s and every line lies before the end, the next multiple does not; the labels are the positive positions when coordinates are shown, none otherwise |
| Grid.LabelsSkipOrigin | modules/grid_overlay.py:55-70 | with a positive spacing, every line except the one at 0 is labelled |
| Grid.GridOverlay.constructor | modules/grid_overlay.py:18-36 | a fresh overlay is enabled with spacing 50×50, alpha 0.3, coordinates shown, yellow lines of thickness 1 |
| Grid.GridOverlay.UpdateSettings | modules/grid_overlay.py:85-105 | each given key sets its field, with both spacings clamped into [10, 200] and alpha into [0.1, 0.5]; absent keys leave their fields unchanged; the result is true |
| Grid.GridOverlay.DrawGrid | modules/grid_overlay.py:38-70 | a disabled overlay leaves the frame unchanged; a zero spacing raises; otherwise the vertical and horizontal lines and labels are those of Axis for the width and the height |
| Roi.CropOf | modules/video_processor.py:316-323 | for a frame at least 1×1 and an ROI of non-negative size, 0 ≤ x1 ≤ w−1 and x1 ≤ x2 ≤ w (likewise for y), and the crop is never larger than the ROI |
| Roi.CropInside | modules/video_processor.py:316-323 | an ROI inside the frame is cropped exactly |
| Roi.AdjustFits | modules/video_processor.py:573-588 | an accepted ROI adjusted to an opened frame stays acceptable and fits inside it; an ROI that already fits is left unchanged |
| Roi.AdjustKeeps | modules/video_processor.py:584-588 | adjustment only moves a corner that lies outside the frame, and only shrinks the size |
| Roi.AdjustZeroWidth | modules/video_processor.py:580-588 | a capture reporting width 0 turns an accepted ROI into one with x = −1, which the next update_roi refuses |
| Roi.CropOfAdjusted | modules/video_processor.py:578-588 | the crop of an adjusted ROI is exactly that ROI |
| Detection.Distance | modules/video_processor.py:349 | the Manhattan distance is non-negative, and 0 iff the two tips coincide |
| Detection.Detect | modules/video_processor.py:338-359 | with no hand the verdict is false and the stored distance is unchanged; with a hand a distance is stored, and the verdict is true iff it is below the threshold |
| Detection.SmoothBetween | modules/video_processor.py:352-357 | with a factor in [0, 1], the smoothed distance lies between the previous and the raw distance |
| Detection.SmoothSteady | modules/video_processor.py:355 | smoothing a distance equal to the previous one keeps it |
| Detection.SmoothedNonNegative | modules/video_processor.py:349-357 | smoothed distances stay non-negative |
| Pacing.TargetInterval | modules/video_processor.py:208 | 1/30 s without max_fps, otherwise 1/max_fps, which is positive for a positive max_fps; a max_fps of 0 raises |
| Pacing.Adjusted | modules/video_processor.py:247-252 | the adjusted skip count stays in [0, 2] when it was there, and never becomes negative |
| Pacing.Step | modules/video_processor.py:222-264 | a loop pass never makes the skip count negative |
| Pacing.QuitProcessed | modules/video_processor.py:255-264 | the quit key ends the loop only after a processed frame whose sample was taken |
| Pacing.StreamFirst | modules/video_processor.py:221-267 | a run over passes equals its first pass followed by the run over the rest, or the first pass alone when it quits |
| Pacing.StepBounds | modules/video_processor.py:240-252 | a pass keeps the skip count in [0, 2], and the frame count moves by one exactly for a frame that was read |
| Pacing.SkipNeverDecreases | modules/video_processor.py:224-252 | the skip count never goes down: a processed frame has waited out at least one target interval, so the decrease branch (elapsed < 0.8 · interval) is unreachable |
| Pacing.ProcessedFrames | modules/video_processor.py:240-244 | a frame is processed iff its number is a multiple of skip + 1 |
| Pacing.StreamBounds | modules/video_processor.py:202-267 | over a whole run, the skip count stays in [0, 2] and never decreases, and there are no more samples than processed frames |
| Pacing.SamplePositive | modules/video_processor.py:259-261 | when the clock moves forward across a processed frame, its frame-rate sample is positive |
| VideoProcessing.AudioChannel.Play | modules/video_processor.py:387 | play makes the channel busy and is logged |
| VideoProcessing.AudioChannel.Stop | modules/video_processor.py:396 | stop makes the channel idle and is logged |
| VideoProcessing.VideoProcessor.constructor | modules/video_processor.py:31-46 | a new processor has no episode, alarm_active false, played_sounds empty, an empty frame-rate window, an idle channel and nothing cached (the initial state tests/test_video_processor.py:45-47 checks) |
| VideoProcessing.VideoProcessor.TriggerAlarm | modules/video_processor.py:378-387 | an idle channel is asked to play the tier with loops −1 when continuous and 0 otherwise; a busy channel gets no call |
| VideoProcessing.VideoProcessor.UpdateAlarmState | modules/video_processor.py:361-376 | the fields, the busy flag and the calls on the channel become exactly those of OnGesture for the old state, whose properties are the Alarm.Gesture* lemmas |
| VideoProcessing.VideoProcessor.TriggerLoop | modules/video_processor.py:371-376 | the loop over `sorted(alarm_triggers)` leaves the fields and the channel as Escalate says |
| VideoProcessing.VideoProcessor.ConsiderTier | modules/video_processor.py:372-376 | one iteration of the trigger loop does what Consider says for that threshold |
| VideoProcessing.VideoProcessor.ResetAlarm | modules/video_processor.py:389-396 | the fields become those of no alarm, and the channel is stopped with exactly one logged `stop()` |
| VideoProcessing.VideoProcessor.GetDetectionDuration | modules/video_processor.py:524-532 | now − start while an episode runs, 0 otherwise |
| VideoProcessing.VideoProcessor.GetAlarmStatus | modules/video_processor.py:548-556 | the text of StatusOf for the processor's state |
| VideoProcessing.VideoProcessor.GetStatus | modules/video_processor.py:534-546 | the alarm level is the number of tiers played; the detection time is that of get_detection_duration; the fps is the window's mean |
| VideoProcessing.VideoProcessor.SafeCrop | modules/video_processor.py:306-326 | a cached crop is returned unchanged; otherwise the crop of the camera's ROI is computed and cached |
| VideoProcessing.VideoProcessor.UpdateRoi | modules/video_processor.py:558-597 | the cache is always dropped; the result is false iff x < 0, y < 0, w ≤ 0 or h ≤ 0; with an open capture, an accepted ROI is adjusted in the configuration (and only it); otherwise the configuration is unchanged |
| VideoProcessing.VideoProcessor.DetectGesture | modules/video_processor.py:328-359 | the verdict and the stored distance are those of Detect for the previous stored distance |
| VideoProcessing.FrameStep | modules/video_processor.py:273-300 | the crop is computed once and then kept; before the detection interval only the crop can change; the channel's call log only grows |
| VideoProcessing.FrameStepNoHand | modules/video_processor.py:287-300 | a frame past the detection interval with no hand ends the episode, stops the channel with one logged `stop()`, and keeps the smoothed distance and the last detection time |
| VideoProcessing.PassesCallsGrow | modules/video_processor.py:202-271 | over a whole stream run the channel's call log only grows, and a run that processes no frame leaves the alarm state, detection time, distance, crop and channel as they were |
| VideoProcessing.VideoProcessor.ProcessFrame | modules/video_processor.py:273-300 | a cached crop is kept, and otherwise the camera's crop is cached; before the detection interval nothing else changes; afterwards a pinch runs the alarm step and records the detection time, and anything else resets the alarm; the whole new state is FrameStep of the old one |
| VideoProcessing.VideoProcessor.Admit | modules/video_processor.py:224-252 | the loop's own wait, read, skip and adjust code computes exactly Gate, the specification the Pacing lemmas are about |
| VideoProcessing.VideoProcessor.TakeSample | modules/video_processor.py:259-264 | after a processed frame, the sample 1/(now − prev_time) goes into the frame-rate window and prev_time advances; a zero interval abandons the pass |
| VideoProcessing.VideoProcessor.PassOnce | modules/video_processor.py:222-267 | one pass of the stream loop is Step, and its sample, if any, enters the frame-rate window; a pass that waits, fails to read or skips its frame leaves the alarm state, detection time, distance, crop and channel unchanged, and a processed pass applies FrameStep to its frame |
| VideoProcessing.VideoProcessor.ProcessStream | modules/video_processor.py:202-271 | the counters, processed frames and samples of the loop are those of Stream from fresh counters; every sample enters the window; the final alarm state, detection time, distance, crop and channel are Passes: FrameStep applied to the frames of exactly the passes that process them; a max_fps of 0 ends before the loop and changes none of these |
| VideoProcessing.StatusOfHeldPinch | modules/video_processor.py:548-556 | the status text during a held pinch: "检测中", then "报警触发 (t秒)" for the highest reached threshold, then "持续报警 (t秒)" once the last trigger is reached |
| Cameras.StartOutcome | modules/camera_manager.py:40-64 | start_camera raises ValueError iff the id is negative and RuntimeError iff the id is running; it answers true iff the id is configured, not running and set-up succeeds; otherwise false |
| Cameras.RestartAccepted | modules/camera_manager.py:44-79 | a running camera is refused, and once stopped it is accepted again |
| Cameras.CameraManager.constructor | modules/camera_manager.py:21-25 | the three maps start empty |
| Cameras.CameraManager.StartCamera | modules/camera_manager.py:27-64 | the outcome is StartOutcome; on success the id maps to a new processor, an unset event and a started thread on that processor in all three maps, and nothing else changes; the new processor has no episode, nothing played, no detection time, distance or crop, an empty frame-rate window and an idle channel with no calls, so a camera started again after a stop begins afresh; otherwise (thread start assumed to succeed, see "Left out") no map changes, so a running processor is never replaced; the three maps keep the same keys |
| Cameras.CameraManager.StopCamera | modules/camera_manager.py:66-79 | a registered id has its event set and its thread joined, and is removed from all three maps; other ids are untouched; an unknown id changes nothing |
| Cameras.CameraManager.StopTracked | modules/camera_manager.py:83-84 | stopping one more camera keeps the earlier stopped events set and threads joined |
| Cameras.CameraManager.StopAll | modules/camera_manager.py:81-84 | afterwards all three maps are empty, and every previously registered event is set and every thread joined |
| Cameras.CameraManager.GetProcessor | modules/camera_manager.py:86-95 | the processor registered for the id, None when there is none |
| Styles.GetTheme | styles.py:154-165 | a known theme name gives its theme; no name or an unknown name gives the "light" theme |
| Styles.GetStatusColor | styles.py:168-186 | "normal", "detecting" and "alarm" give their colours, anything else the "disabled" colour |
| Styles.StatusColorIgnoresTheme | styles.py:168-186 | the theme argument does not affect the status colour |
| Styles.GetAlarmLevelColor | styles.py:238-247 | levels 0 to 4 give their colours, any other level the level-0 colour |
| Styles.LevelColorsDistinct | styles.py:145-151 | the five alarm levels have five different colours |
| Styles.GetShadow | styles.py:250-259 | a known depth gives its shadow, anything else the "medium" one |
| Styles.GetAnimationDuration | styles.py:262-271 | a known speed gives its duration, anything else 300 ms |
| Styles.GetGradient | styles.py:274-283 | a known colour gives its gradient, anything else the "blue" one |
| Styles.LookupsStayInTables | styles.py:137-283 | every lookup answers with an entry of its table |

## Left out

- OpenCV, MediaPipe and pygame calls are foreign. These are frame capture, colour conversion, display, resizing, and drawing lines, text, landmarks and overlays. The classifier is replaced by the optional thumb/pinky pair it finds in the first hand. The mixer channel is replaced by a busy flag and a log of calls. `draw_grid` is reduced to the positions of its lines and labels.
- Sound loading and the fallback beep tone (modules/video_processor.py:68-82, 190-200) are left out. They are numpy floating point and WAV file writing. The model names a tier's sound by the tier itself.
- Threads, `Event.wait` and the clock are left out as concurrency. `time.time()` becomes parameters. A frame step uses one `now` for both the poll gate and the alarm step (the source reads the clock twice, at lines 286 and 363). The stop event ends `process_stream` once its list of passes runs out. `time.sleep` is not modelled.
- `_init_capture` is left out: its three-attempt retry with an open/probe oracle is I/O. `_handle_stream_error` and `_release_resources` are left out as I/O. A failed set-up in `start_camera` is the parameter `initOk`, and the size the opened capture reports is `frameSize`.
- The `hasattr` guards at the top of `process_stream` (modules/video_processor.py:211-218) and its `with self.hands` block are left out. A processor is modelled as set up.
- The per-pass exception handler (modules/video_processor.py:265-267) is modelled only for the one exception the counters can raise: a zero interval in the sample.
- Logging is left out as I/O. So are the file-existence warnings in validate, the font path, and the other settings no modelled code reads.
- Floats are modelled as Dafny reals, so rounding is not modelled. The FPS mean is exact.
- VideoProcessing.VideoProcessor.TriggerAlarm: does not model the KeyError that `alarm_sounds[duration]` raises for a trigger added after start-up. `alarm_sounds` is built once from the start-up trigger list.
- Cameras.CameraManager.StartCamera: assumes `thread.start()` succeeds. In the source, the three maps are assigned (modules/camera_manager.py:56-58) before the thread is started (line 60). If starting it raises, `start_camera` returns False with the id still registered. A later `start_camera` for that id then raises RuntimeError, and `stop_camera` raises in `join()` on the thread that never started. The model does not capture this path.
- Cameras.CameraManager.StartCamera: the check for a non-integer camera id (modules/camera_manager.py:40) is not modelled, because the id is typed `int`.
- Cameras.CameraManager.StopAll stops the cameras in an unspecified order. The source stops them in the dictionary's insertion order. The final state is the same either way.
- Grid.GridOverlay.UpdateSettings: the exception branch (modules/grid_overlay.py:106-108) is not modelled. Settings are typed, so comparing a setting with the bounds cannot raise.
- VideoProcessing.VideoProcessor.UpdateRoi: the update of the classifier's `min_detection_confidence` (modules/video_processor.py:564-565) is not modelled. The re-binding of the processor's and the overlay's configuration reference is not modelled either. The model reads the camera's entry in the shared configuration directly.
- Language.Format models `str.format` only for `{}` fields, which are the only ones the translation table uses. Any other brace counts as a formatting failure, including `{{` escapes and numbered or named fields. Arguments are already strings.
- The tkinter UI (modules/ui/) is not part of this model. Neither are main.py, the package `__init__` files, `get_card_style` and `get_panel_style`, nor the `FONTS` and `BUTTON_STYLES` tables.
- The global `CONFIG` is shared across threads. It is modelled as one object passed to each processor and manager, and races on it are not modelled.
