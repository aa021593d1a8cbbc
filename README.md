# Hyperlocal Ads: break scheduling, companion display and VMAP generation in Dafny

This project models the decision logic of the Hyperlocal Ads proof of concept. Ads are matched to a viewer's location and served as a VMAP document. A browser page plays the content and starts the ad breaks of that document. Three parts are modelled.

- **The ad-break scheduler of the playback page** (`playback.component.ts`).
  - The page keeps `cuePoints`, `startedCount`, `readyCount` and `adPlaying`.
  - It reacts to the ad manager's AD_BREAK_READY, AD_BREAK_STARTED and AD_BREAK_ENDED events, to STARTED (companion rendering), to content pause and resume requests, and to the video's `timeupdate`.
  - Every trigger funnels into one rule, `maybeStartNextBreak`: start the next break when no break is playing, one is left, it is ready, and the video has reached its cue (minus 0.25 s).
  - `BreakScheduler` gives this as a pure specification: `Evaluate` is the rule, `Step` is one event, `Run` is a sequence of events. `BreakScheduler.PlaybackScheduler` is the page's state, with one method per handler, each proved to perform exactly one `Step`.
  - A ghost log records the index of every `start()` that returned normally. The model proves that these indices are 0, 1, 2, … of the current session, with no repeats.
  - The content mirror (`contentTracker` with its `seekableRange`, kept in sync by the video element's events) is `ContentMirror.ContentTracker`.
- **The companion hold of the earlier page revision** (`2playback.component.ts`), in `CompanionHold`.
  - Each STARTED event renders the companion, cancels the pending hide timer and arms a new one for 15 000 ms.
  - `clearCompanion` cancels the timer and empties the slot.
  - The browser's timeout table is a map from handle to due time, and a firing timeout is an explicit method call.
  - Both revisions choose the companion the same way (`CompanionSelection`): the first companion of exactly 640×375 if there is one, else the first at all. The wrapper holds an image when the companion has a resource URL, else its HTML content.
- **The VMAP builder of the back end** (`AdService.java`).
  - `AdMatching` is the matching loop over geo-search results: at most three ads, in result order, each within its own radius.
  - `VmapSchedule` covers the break count, the mid-roll seconds and `formatTimeOffset`. The `timeOffset` attribute of a `vmap:AdBreak` is in `HH:MM:SS.mmm` form.
  - `VmapXml` is `generateVmapXml`: the exact text of each `vmap:AdBreak`, with its inline VAST 3.0 ad.
  - `AdService` is `getVmap` and `getCreativePath`.

Helper modules:

- `Wrappers`: `Option` and `Result`.
- `Sequences`: associativity of concatenation and growing a prefix by one element, shared by the proofs.
- `Decimal`: Java's decimal printing and `%02d`, each with its inverse.
- `JavaStrings`: `isBlank`, `toLowerCase`, `endsWith`.
- `MediaClock`: the video element's `duration` as JavaScript sees it.

Where the code and the written design of the system differ, the model follows the code.

- The code does not sort or de-duplicate the cue points; it only drops non-numbers and negatives. The written design rejects unsortable schedules and merges duplicate offsets.
- The code never bounds `readyCount` by the number of cue points, so the invariant proved here is `startedCount <= readyCount` and `startedCount <= |cuePoints|` only.
- `companionHoldUntil` is written but never read. It is always 0 in the model.

## Model

Some functions that model source code have no row of their own: `Step`, `Scan`, `Filter`, `Choose`, `FormatTimeOffset`, `CompanionType`, `StubMimeType` and `RenderBreak`. Each is stated through the lemma or method rows that cite the same lines.

| member | source | states |
|---|---|---|
| MediaClock.KeepTruthy | hyperlocal-ads-front-end/src/app/playback/playback.component.ts:132 | a truthy reported duration replaces the mirror's, a 0/NaN report keeps the old one, and a known duration never becomes unknown again |
| ContentMirror.ContentTracker.constructor | hyperlocal-ads-front-end/src/app/playback/playback.component.ts:49-54 | the mirror starts at time 0, duration NaN, paused, not seeking, rate 1 |
| ContentMirror.ContentTracker.SeekableRange | hyperlocal-ads-front-end/src/app/playback/playback.component.ts:55-58 | the seekable range starts at 0 and ends at the duration when it is finite, at 0 otherwise |
| ContentMirror.ContentTracker.Sync | hyperlocal-ads-front-end/src/app/playback/playback.component.ts:130-133 | a sync copies the video's time, keeps the duration unless the video reports a truthy one, and touches nothing else |
| ContentMirror.ContentTracker.Attach | hyperlocal-ads-front-end/src/app/playback/playback.component.ts:130-140 | once the listeners are installed the mirror is seeded by one sync |
| ContentMirror.ContentTracker.OnTimeUpdate | hyperlocal-ads-front-end/src/app/playback/playback.component.ts:134 | `timeupdate` performs one sync |
| ContentMirror.ContentTracker.OnSeeking | hyperlocal-ads-front-end/src/app/playback/playback.component.ts:135 | 'seeking' sets `seeking`, then syncs |
| ContentMirror.ContentTracker.OnSeeked | hyperlocal-ads-front-end/src/app/playback/playback.component.ts:136 | 'seeked' clears `seeking`, then syncs |
| ContentMirror.ContentTracker.OnPlay | hyperlocal-ads-front-end/src/app/playback/playback.component.ts:137 | 'play' clears `paused` |
| ContentMirror.ContentTracker.OnPause | hyperlocal-ads-front-end/src/app/playback/playback.component.ts:138 | 'pause' sets `paused` |
| ContentMirror.ContentTracker.OnRateChange | hyperlocal-ads-front-end/src/app/playback/playback.component.ts:139 | 'ratechange' copies the video's playback rate |
| ContentMirror.SyncsKeepKnownDuration | hyperlocal-ads-front-end/src/app/playback/playback.component.ts:132 | once a truthy duration is known, no series of syncs loses it |
| ContentMirror.FoldDurationsIsLastTruthy | hyperlocal-ads-front-end/src/app/playback/playback.component.ts:130-133 | after any series of syncs the mirror holds the last truthy reported duration, or its start value if none was truthy |
| CompanionSelection.FirstFitting | hyperlocal-ads-front-end/src/app/playback/playback.component.ts:215-222 | the exact-size pick finds the first companion of exactly 640×375, and none before it fits |
| CompanionSelection.WrapperFor | hyperlocal-ads-front-end/src/app/playback/playback.component.ts:230-247 | the wrapper shows the resource URL when it is truthy, else the HTML content when truthy, else nothing |
| CompanionSelection.RenderedSlot | hyperlocal-ads-front-end/src/app/playback/playback.component.ts:208-278 | with nothing chosen the slot is untouched; otherwise it is emptied and holds exactly the chosen companion's wrapper |
| CompanionSelection.ChooseSpec | hyperlocal-ads-front-end/src/app/playback/2playback.component.ts:277-291 | nothing is chosen exactly when there is no ad or it has no companion; an exact-size companion, the first one, is always preferred; otherwise the first companion |
| CompanionSelection.ChosenBelongsToAd | hyperlocal-ads-front-end/src/app/playback/2playback.component.ts:288-290 | the chosen companion is one of the ad's own |
| BreakScheduler.NonNegativeCues | hyperlocal-ads-front-end/src/app/playback/playback.component.ts:308-309 | the kept cues are all at least 0 and no more than the manager listed |
| BreakScheduler.CuePointsFrom | hyperlocal-ads-front-end/src/app/playback/playback.component.ts:307-310 | the schedule is the filtered cue list, and empty when the list is missing or reading it throws |
| BreakScheduler.NonNegativeCuesMembers | hyperlocal-ads-front-end/src/app/playback/playback.component.ts:308-309 | a value is a cue point exactly when it is a number of the manager's list and at least 0 |
| BreakScheduler.NonNegativeCuesIsFilter | hyperlocal-ads-front-end/src/app/playback/playback.component.ts:308-309 | the filter distributes over concatenation and keeps a single entry exactly when it is a number at least 0, so the kept cues are the non-negative numbers in the manager's order, each as often as listed |
| BreakScheduler.NonNegativeCuesKeepOrder | hyperlocal-ads-front-end/src/app/playback/playback.component.ts:308-309 | for any two kept cues, the earlier one comes from an earlier entry of the manager's list than the later one |
| BreakScheduler.Evaluate | hyperlocal-ads-front-end/src/app/playback/playback.component.ts:360-376 | `start()` is called exactly when no break plays, one is left, it is ready and the time is at least its cue minus 0.25; a normal return raises `startedCount` by one and reports that index; otherwise nothing changes |
| BreakScheduler.StepStartsNextDueBreak | hyperlocal-ads-front-end/src/app/playback/playback.component.ts:287-389 | every event keeps `startedCount <= readyCount` and `startedCount <= |cuePoints|`; it starts at most one break, always the next index, ready and due at the event's time, and only on a load, READY, ENDED or `timeupdate` |
| BreakScheduler.StepCountersMonotone | hyperlocal-ads-front-end/src/app/playback/playback.component.ts:313-386 | outside a new manager load the started and ready counts never decrease and the schedule never changes |
| BreakScheduler.NoStartWhileBreakPlays | hyperlocal-ads-front-end/src/app/playback/playback.component.ts:361 | while a break plays, no event other than its end or a new load starts a break |
| BreakScheduler.RunStartsInIndexOrder | hyperlocal-ads-front-end/src/app/playback/playback.component.ts:360-389 | over any event sequence the started indices of the session are exactly 0, 1, …, `startedCount` − 1, strictly increasing, so each break starts at most once |
| BreakScheduler.LoadResetsCounters | hyperlocal-ads-front-end/src/app/playback/playback.component.ts:307-354 | a load that obtains its manager begins a session with the filtered schedule, no break started, ready or playing; if `init` throws, content plays and only the lifecycle handlers exist |
| BreakScheduler.ManagerFailureResumesContent | hyperlocal-ads-front-end/src/app/playback/playback.component.ts:295-304 | when `getAdsManager` throws, content plays and the page is left without a manager (no handlers); the schedule and counters are untouched and no break starts |
| BreakScheduler.FailedStartIsRetried | hyperlocal-ads-front-end/src/app/playback/playback.component.ts:369-374 | a throwing `start()` leaves the state unchanged, so a later evaluation starts the same break |
| BreakScheduler.DualTriggerConverges | hyperlocal-ads-front-end/src/app/playback/playback.component.ts:379-386 | ready-before-due and due-before-ready reach the same page and start the same single break |
| BreakScheduler.PlaybackScheduler.constructor | hyperlocal-ads-front-end/src/app/playback/playback.component.ts:61-64 | empty schedule, counters 0, no break playing, no manager |
| BreakScheduler.PlaybackScheduler.MaybeStartNextBreak | hyperlocal-ads-front-end/src/app/playback/playback.component.ts:360-376 | the method performs `Evaluate` on the fields and logs the index it started |
| BreakScheduler.PlaybackScheduler.OnAdsManagerLoaded | hyperlocal-ads-front-end/src/app/playback/playback.component.ts:287-390 | the handler performs `Step` for a manager load |
| BreakScheduler.PlaybackScheduler.OnBreakReady | hyperlocal-ads-front-end/src/app/playback/playback.component.ts:379-383 | one more break is ready, then the rule runs |
| BreakScheduler.PlaybackScheduler.OnBreakStarted | hyperlocal-ads-front-end/src/app/playback/playback.component.ts:318-321 | only `adPlaying` is set |
| BreakScheduler.PlaybackScheduler.OnBreakEnded | hyperlocal-ads-front-end/src/app/playback/playback.component.ts:322-326 | `adPlaying` is cleared, then the rule runs (when it has been defined) |
| BreakScheduler.PlaybackScheduler.OnAdStarted | hyperlocal-ads-front-end/src/app/playback/playback.component.ts:327-329 | the companion slot is rendered from the started ad |
| BreakScheduler.PlaybackScheduler.OnTimeUpdate | hyperlocal-ads-front-end/src/app/playback/playback.component.ts:386 | an installed `timeupdate` listener runs the rule at the video's time |
| BreakScheduler.PlaybackScheduler.OnContentPauseRequested | hyperlocal-ads-front-end/src/app/playback/playback.component.ts:332-335 | the content is paused |
| BreakScheduler.PlaybackScheduler.OnContentResumeRequested | hyperlocal-ads-front-end/src/app/playback/playback.component.ts:336-339 | the content is resumed |
| CompanionHold.CompanionOverlay.constructor | hyperlocal-ads-front-end/src/app/playback/2playback.component.ts:51-52 | no timer, hold time 0, empty slot |
| CompanionHold.CompanionOverlay.AtMostOneTimer | hyperlocal-ads-front-end/src/app/playback/2playback.component.ts:405-409 | at most one hide timer is ever pending, and it is the one `companionTimer` names |
| CompanionHold.CompanionOverlay.ClearTimeout | hyperlocal-ads-front-end/src/app/playback/2playback.component.ts:347 | the named timeout is no longer pending; no handle changes nothing |
| CompanionHold.CompanionOverlay.ClearCompanion | hyperlocal-ads-front-end/src/app/playback/2playback.component.ts:346-350 | no timer pending, hold time 0, slot empty, while `companionTimer` keeps its old handle |
| CompanionHold.CompanionOverlay.OnAdsManagerLoaded | hyperlocal-ads-front-end/src/app/playback/2playback.component.ts:379-436 | without a manager content plays and no listener is registered; with one the STARTED listener exists, and content plays if `init`/`start` throws |
| CompanionHold.CompanionOverlay.OnAdStarted | hyperlocal-ads-front-end/src/app/playback/2playback.component.ts:403-411 | the slot is rendered, the old timer is cancelled and exactly one new timer is pending, due 15000 ms later, even when nothing was rendered |
| CompanionHold.CompanionOverlay.FireTimer | hyperlocal-ads-front-end/src/app/playback/2playback.component.ts:409 | a pending, due timer clears the companion; a shown companion is gone once its hold has elapsed and its timer fires |
| CompanionHold.PlayheadMirror.constructor | hyperlocal-ads-front-end/src/app/playback/2playback.component.ts:49 | the mirror starts at time 0 with duration NaN |
| CompanionHold.PlayheadMirror.OnTimeUpdate | hyperlocal-ads-front-end/src/app/playback/2playback.component.ts:113-119 | the time is always copied; the duration only when the video's is truthy |
| AdMatching.AdRadius | hyperlocal-ads-back-end/src/main/java/com/example/hyperlocalads/service/AdService.java:133-140 | a missing radius is 0; a present one is whatever it parses to, nothing when it does not parse |
| AdMatching.MatchAds | hyperlocal-ads-back-end/src/main/java/com/example/hyperlocalads/service/AdService.java:122-146 | the loop computes `Scan`, including its stop at the third match and its abort on a failed read |
| AdMatching.ScanIsTakeOfFilter | hyperlocal-ads-back-end/src/main/java/com/example/hyperlocalads/service/AdService.java:122-146 | a completed scan is the first three of the reference filter; it completes whenever no read fails |
| AdMatching.MatchedAreFirstEligible | hyperlocal-ads-back-end/src/main/java/com/example/hyperlocalads/service/AdService.java:33 | at most three ads, the first eligible ones in result order; failure only on a failed read |
| AdMatching.FilterMembers | hyperlocal-ads-back-end/src/main/java/com/example/hyperlocalads/service/AdService.java:130-145 | an ad is in the reference filter exactly when some candidate with that metadata has non-empty metadata, a parsable radius and the viewer within it |
| AdMatching.ScanStopsAtThirdMatch | hyperlocal-ads-back-end/src/main/java/com/example/hyperlocalads/service/AdService.java:141-144 | results after the third match are never read and cannot change the outcome |
| AdMatching.MissingRadiusMeansZero | hyperlocal-ads-back-end/src/main/java/com/example/hyperlocalads/service/AdService.java:135 | an ad without a radius matches only at distance 0 or with no reported distance |
| AdMatching.NothingMatchedIff | hyperlocal-ads-back-end/src/main/java/com/example/hyperlocalads/service/AdService.java:122-153 | the loop ends with no ad exactly when a read fails before three matches or no candidate is eligible |
| AdMatching.ScanFailsIff | hyperlocal-ads-back-end/src/main/java/com/example/hyperlocalads/service/AdService.java:130 | the loop fails exactly when a metadata read fails before three ads have matched |
| VmapSchedule.DurationSeconds | hyperlocal-ads-back-end/src/main/java/com/example/hyperlocalads/service/AdService.java:156 | `durInt` is at least 1 and the floor of max(1, duration) |
| VmapSchedule.WantedBreaks | hyperlocal-ads-back-end/src/main/java/com/example/hyperlocalads/service/AdService.java:159-162 | three breaks exactly from 45 s, one exactly below 25 s, otherwise two |
| VmapSchedule.MidrollSecond | hyperlocal-ads-back-end/src/main/java/com/example/hyperlocalads/service/AdService.java:168-169 | a mid-roll second is at least 1, and at most `durInt` − 1 when `durInt` ≥ 2 |
| VmapSchedule.TimeOffsets | hyperlocal-ads-back-end/src/main/java/com/example/hyperlocalads/service/AdService.java:165-171 | the offset list has exactly `wantedBreaks` entries and begins with "start" |
| VmapSchedule.BuildTimeOffsets | hyperlocal-ads-back-end/src/main/java/com/example/hyperlocalads/service/AdService.java:155-171 | the loop builds exactly `TimeOffsets` |
| VmapSchedule.ClockFields | hyperlocal-ads-back-end/src/main/java/com/example/hyperlocalads/service/AdService.java:189-191 | minutes and seconds are below 60 and hh·3600 + mm·60 + ss is the input |
| Decimal.Pad2 | hyperlocal-ads-back-end/src/main/java/com/example/hyperlocalads/service/AdService.java:192 | `%02d` gives at least two digits, exactly two below 100 |
| VmapSchedule.FormatParseRoundTrip | hyperlocal-ads-back-end/src/main/java/com/example/hyperlocalads/service/AdService.java:188-193 | reading a formatted offset back gives the same number of seconds |
| VmapSchedule.MidrollInsideContent | hyperlocal-ads-back-end/src/main/java/com/example/hyperlocalads/service/AdService.java:166-170 | for the break counts used the clamp never engages: each mid-roll is the plain floor of its share of the duration, inside [1, `durInt` − 1] |
| VmapSchedule.MidrollsAscending | hyperlocal-ads-back-end/src/main/java/com/example/hyperlocalads/service/AdService.java:166-170 | mid-roll seconds strictly increase |
| VmapSchedule.ScheduleIsAscending | hyperlocal-ads-back-end/src/main/java/com/example/hyperlocalads/service/AdService.java:164-171 | the schedule is "start" followed by offsets that read back as strictly increasing seconds inside the content |
| VmapXml.AdFor | hyperlocal-ads-back-end/src/main/java/com/example/hyperlocalads/service/AdService.java:203-205 | break i uses ad i, the last ad once the ads run out, and an empty map when there are no ads |
| VmapXml.BreakId | hyperlocal-ads-back-end/src/main/java/com/example/hyperlocalads/service/AdService.java:216-218 | the id is "preroll" exactly for "start" and "postroll" exactly for "end" |
| VmapXml.Breaks | hyperlocal-ads-back-end/src/main/java/com/example/hyperlocalads/service/AdService.java:200-201 | one break per offset, in offset order |
| VmapXml.AppendBreaks | hyperlocal-ads-back-end/src/main/java/com/example/hyperlocalads/service/AdService.java:200-292 | the loop appends the texts of all breaks, in order, to what the builder already holds |
| VmapXml.GenerateVmapXml | hyperlocal-ads-back-end/src/main/java/com/example/hyperlocalads/service/AdService.java:196-296 | the builder yields the VMAP envelope around the breaks' texts |
| VmapXml.DocumentHoldsEachBreak | hyperlocal-ads-back-end/src/main/java/com/example/hyperlocalads/service/AdService.java:201-292 | every break's text appears whole, right after the texts of exactly the breaks before it |
| VmapXml.BreakIdsDistinct | hyperlocal-ads-back-end/src/main/java/com/example/hyperlocalads/service/AdService.java:218 | two mid-roll breaks never share an id |
| VmapXml.CreativesFollowUrls | hyperlocal-ads-back-end/src/main/java/com/example/hyperlocalads/service/AdService.java:207-282 | a companion exactly when the ad has a non-blank image, showing it with the type its extension names; a linear exactly when it has a video or an image; the MP4 video when there is one; for an image-only ad the stub named by `stubLinearUrl`, typed by its extension, or else the default stub as WebM |
| VmapXml.StubTypeByExtension | hyperlocal-ads-back-end/src/main/java/com/example/hyperlocalads/service/AdService.java:245-247 | the stub is typed WebM exactly when its URL ends in ".webm" in any letter case, and MP4 otherwise |
| VmapXml.NoAdsGiveEmptyBreaks | hyperlocal-ads-back-end/src/main/java/com/example/hyperlocalads/service/AdService.java:203-204 | with no ads every break is titled "Ad" and has no creative |
| VmapXml.CompanionTypeByExtension | hyperlocal-ads-back-end/src/main/java/com/example/hyperlocalads/service/AdService.java:264-271 | the type is PNG exactly when the URL ends in ".png" in any letter case; GIF exactly when it ends in ".gif" but not ".png"; JPEG exactly when it ends in neither |
| AdService.GetVmap | hyperlocal-ads-back-end/src/main/java/com/example/hyperlocalads/service/AdService.java:110-181 | the answer is the empty VMAP on any failure or no match, else the document of the matched ads over the duration's schedule |
| AdService.RenderedVmapIsNotEmpty | hyperlocal-ads-back-end/src/main/java/com/example/hyperlocalads/service/AdService.java:184-186 | a generated document, even one without breaks, differs from the empty VMAP |
| AdService.EmptyIffNothingMatched | hyperlocal-ads-back-end/src/main/java/com/example/hyperlocalads/service/AdService.java:151-153 | the empty VMAP is served exactly when matching failed or found nothing |
| AdService.EmptyVmapIffNoMatch | hyperlocal-ads-back-end/src/main/java/com/example/hyperlocalads/service/AdService.java:176-179 | the empty VMAP is served exactly when the geo query fails, a read fails before three matches, or no ad has the viewer in its radius |
| AdService.ServedScheduleShape | hyperlocal-ads-back-end/src/main/java/com/example/hyperlocalads/service/AdService.java:164-171 | a served schedule has `wantedBreaks` breaks: the pre-roll at "start", then mid-rolls numbered by position at strictly increasing times |
| AdService.CreativeFileName | hyperlocal-ads-back-end/src/main/java/com/example/hyperlocalads/service/AdService.java:300 | "video.mp4" exactly for kind "video", otherwise "image.jpg" |
| AdService.GetCreativePath | hyperlocal-ads-back-end/src/main/java/com/example/hyperlocalads/service/AdService.java:299-306 | the path is returned exactly when the file exists, and NotFound otherwise |
| AdService.CreativeLocationsDistinct | hyperlocal-ads-back-end/src/main/java/com/example/hyperlocalads/service/AdService.java:301 | two different ads never share a creative path |
| AdService.CreativeKindChoosesFile | hyperlocal-ads-back-end/src/main/java/com/example/hyperlocalads/service/AdService.java:300-301 | the path ends in "/video.mp4" for kind "video" and in "/image.jpg" otherwise |

## Left out

- The ad SDK (IMA) and its script loader. The manager is reduced to its events and to the outcomes of `getAdsManager`, `getCuePoints`, `init` and `start()`, which are parameters (`managerOk`, `CueSource`, `initOk`, `startOk`). Companion lists are plain records.
- The Shaka player, `loadedmetadata`, and the real video element. The video's time, duration and rate are parameters of the handlers, and `play()`/`pause()` are recorded as commands.
- DOM work in `renderCompanion`: styling, `innerHTML` parsing and image attributes. The slot is modelled as empty or holding one wrapper.
- Real timers and the event loop. Timeouts are a table of due times with an explicit `FireTimer` call, and event order is whatever sequence of calls is made.
- A `timeupdate` dispatched to several listeners. Listeners added by earlier manager loads are never removed, so one dispatch runs the rule several times. The model counts the installed listeners, and each `TimeUpdate` event is one listener's run, so a dispatch to k listeners is k consecutive events.
- When `init` throws, the AD_BREAK_ENDED handler is already registered but the rule it calls is not yet defined. The handler clears `adPlaying` and then fails. The model clears the flag and does not evaluate.
- JavaScript and Java floating point. Times are exact reals.
  - `Duration` keeps NaN, Infinity and 0 apart only where the code tests truthiness or finiteness.
  - `getVmap` treats `duration` as a finite real. NaN and Java's saturating `(int)` cast of huge values are not modelled.
- Java's `Double.parseDouble` is a parameter (`RadiusParser`) and is not modelled.
- JavaStrings.ToLower: only ASCII letters are lowered. Locale-specific and non-ASCII case mappings of `toLowerCase` are not modelled.
- Redis, JPA and the file system.
  - The geo query's outcome, the hash reads (`MetaRead`) and `Files.exists` are inputs.
  - `createAd`, the controller, the Angular services and forms, and the configuration classes are not part of this model.
- Logging and the debug time logger of the earlier page. The commented-out blocks and the earlier page's `startPlayback` are not modelled, because that method uses `adsLoader` before creating it.
- The body of the builder loop appends one break's text as a single value (`RenderBreak`), not fragment by fragment. Only the resulting text is modelled, not the intermediate states of the builder within one pass.
- The description is placed in `<AdTitle>` without XML escaping, and URLs go into CDATA sections unchanged. The model reproduces this verbatim.
- A `null` geo result, or a result list without content, is the same as `Found([])`.
