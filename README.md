# Call-center coaching dashboard: a verified model of its state

The dashboard (`CallCenterDashboard` in `app/page.tsx`) records the agent's
microphone, shows an elapsed-time clock and an audio-level meter, and once a
second may add a canned "AI coaching" suggestion to a feed that keeps the
five most recent entries, newest first. A header switches between three
views: the live call, the post-call analysis and the FHIR data view.

This project models that state and the handlers that change it, and proves
what they promise:

- `time_format.dfy` (module `TimeFormat`): `formatTime` as a function on
  whole seconds, with `Number.toString()` and `padStart(2, "0")` written out.
  An independent reader `ParseTime` turns a label back into seconds. The
  lemmas give the round trip, the `MM:SS` shape below 100 minutes, the
  growing minutes field from 100 minutes on, and `754` ↦ `"12:34"`.
- `suggestions.dfy` (module `Suggestions`): the suggestion record, the pool
  of three canned suggestions, and how one of them is drawn and stamped.
- `feed.dfy` (module `Feed`): the prepend-and-truncate update of the feed.
  The lemmas show that after any sequence of draws the feed holds the newest
  five entries, newest first.
- `badges.dfy` (module `Badges`): the priority-class and type-icon lookups,
  including their default branches.
- `meter.dfy` (module `Meter`): the audio level computed from the
  analyser's byte bins.
- `dashboard.dfy` (module `Dashboard`): the component as a class. Its fields
  are the React state variables. Its methods are start, the one-second tick,
  stop and navigation, each stating the whole new state. `Valid()` is the
  invariant they keep: at most five feed entries, a level in [0, 100], and a
  level of 0 while idle.
- `start_race.dfy` (module `StartRace`): the start and stop handlers as
  events on one UI thread, with the await in `startRecording` made explicit.
  It holds the finding below.

The browser is reduced to parameters:

- whether `getUserMedia` grants the microphone (`granted`);
- the two `Math.random()` values of a tick (`roll`, `pick`, each in [0, 1));
- the id and clock text a draw is stamped with (`Date.now().toString()`,
  `toLocaleTimeString()`);
- the analyser's frequency bins.

The tick is a method that can be called only while recording, because the
interval exists only then.

Three behaviours of the code are easy to miss. The suggestion type admits
`"solution"`, but none of the three templates has it. Start does not clear
the feed, so suggestions from an earlier session stay on screen. Ids are not
guaranteed to be distinct: two draws in the same millisecond get the same
`Date.now()` text.

## Model

| member | source | states |
|---|---|---|
| TimeFormat.FormatTime | app/page.tsx:124-128 | the label is at least five characters with ':' just before a two-character seconds field; its full meaning is carried by FormatTimeRoundTrip, FormatTimeDigits, FormatTimeShape and FormatTimeNeverTruncates below |
| TimeFormat.PadStart2 | app/page.tsx:127 | the padded field has length max(2, original length); PadStart2Pads gives the rest |
| TimeFormat.Decimal | app/page.tsx:127 | `toString()` of a non-negative integer is a non-empty run of digits with no leading zero; it has one digit exactly below 10 and at most two exactly below 100 |
| TimeFormat.PadStart2Pads | app/page.tsx:127 | `padStart(2, "0")` only adds '0's on the left; the original string survives as the suffix and is never truncated |
| TimeFormat.FormatTimeRoundTrip | app/page.tsx:124-128 | every label reads back, as minutes * 60 + seconds, to exactly the seconds it was made from |
| TimeFormat.FormatTimeInjective | app/page.tsx:124-128 | two different elapsed times never show the same label |
| TimeFormat.FormatTimeDigits | app/page.tsx:124-128 | below 100 minutes the label is the two digits of `floor(s / 60)`, then ':', then the two digits of `s % 60` |
| TimeFormat.FormatTimeShape | app/page.tsx:124-128 | below 100 minutes the label has five characters, ':' at index 2, digits elsewhere, and a seconds field between "00" and "59" |
| TimeFormat.FormatTimeNeverTruncates | app/page.tsx:124-128 | from 100 minutes on the label keeps every digit of the minutes and is at least six characters long |
| TimeFormat.FormatTimeExample | app/page.tsx:124-128 | 754 seconds is shown as "12:34" |
| Suggestions.Stamp | app/page.tsx:92 | the spread copy keeps the template's type, message and priority and takes the given id and timestamp |
| Suggestions.Draw | app/page.tsx:90-92 | a drawn suggestion is one of the three templates with only its id and timestamp replaced; DrawCopiesTemplate and DrawDeterminedByIndex say which one |
| Suggestions.TemplateIndex | app/page.tsx:90 | `Math.floor(pick * 3)` is a valid pool index, and index i is chosen exactly when pick lies in [i/3, (i+1)/3) |
| Suggestions.EveryTemplateDrawable | app/page.tsx:90 | each of the three templates is chosen for some random value |
| Suggestions.DrawCopiesTemplate | app/page.tsx:90-92 | a drawn suggestion has the type, message and priority of the chosen template and carries the given id and timestamp |
| Suggestions.StampKeepsOnlyTemplateContent | app/page.tsx:92 | the spread copy keeps only the template's type, message and priority; its own id and timestamp never reach the feed |
| Suggestions.DrawDeterminedByIndex | app/page.tsx:32-54 | the three templates are pairwise distinct, so two draws with the same stamp agree exactly when they chose the same template |
| Feed.Push | app/page.tsx:91-94 | the new entry is at the head, the rest is a prefix of the old feed in its old order, and the length is min(5, old length + 1) |
| Feed.PushAll | app/page.tsx:88-94 | a feed that starts with at most five entries stays at most five after any draws, and the latest draw is always at the head; PushAllKeepsNewest gives the closed form |
| Feed.PushBounded | app/page.tsx:91-94 | from any feed one push leaves at most five entries, and on a feed shorter than five nothing is dropped |
| Feed.PushAllKeepsNewest | app/page.tsx:88-94 | after any sequence of draws the feed is the newest-first list of all entries cut to five, so the oldest entries are evicted first |
| Feed.FeedFromEmpty | app/page.tsx:23 | starting from the empty feed, the feed is the last min(5, n) draws in reverse order of arrival, never more than five |
| Badges.PriorityColor | app/page.tsx:130-141 | the muted default class is returned exactly for "low" and for every string other than "high" and "medium" |
| Badges.TypeIcon | app/page.tsx:143-156 | the speech-bubble icon is returned exactly for strings outside the four types |
| Badges.UnknownPriorityIsDefault | app/page.tsx:138-139 | a priority string outside high/medium/low gets "bg-muted text-muted-foreground" |
| Badges.PriorityColorClasses | app/page.tsx:130-141 | the muted default class is given exactly to "low" and to unknown strings; the three priorities get three different classes |
| Badges.UnknownTypeIsDefault | app/page.tsx:153-154 | a type string outside tone/pace/empathy/solution gets the speech-bubble icon |
| Badges.TypeIconIdentifiesKind | app/page.tsx:143-156 | each of the four suggestion types has its own icon, and none of them is the fallback icon |
| Meter.Level | app/page.tsx:80-85 | the published level is always within [0, 100] |
| Meter.Sum | app/page.tsx:83 | the sum of n byte bins is at most 255 * n; SumZero and SumFull characterise its extremes |
| Meter.LevelIsScaledMean | app/page.tsx:83-84 | the level equals mean / 255 * 100, so the `Math.min(100, …)` cap never changes it |
| Meter.LevelExtremes | app/page.tsx:83-84 | the level is 0 exactly when every bin is 0, and 100 exactly when every bin is 255 |
| Dashboard.CallCenterDashboard.constructor | app/page.tsx:19-24 | the initial state: not recording, clock 0, level 0, empty feed, live view |
| Dashboard.CallCenterDashboard.StartRecording | app/page.tsx:56-100 | granted: recording with the clock at 0, and nothing else changes; refused: no state changes at all; callable only while the start button is enabled |
| Dashboard.CallCenterDashboard.Tick | app/page.tsx:76-96 | the clock advances by exactly one; the level is the meter reading; a roll below 0.1 puts a stamped copy of the picked template at the head of the feed, and any other roll leaves the feed unchanged; the invariant is kept |
| Dashboard.CallCenterDashboard.StopRecording | app/page.tsx:102-122 | not recording and level 0; clock, feed and view keep their values; while idle it changes nothing |
| Dashboard.CallCenterDashboard.Navigate | app/page.tsx:187-200 | the view becomes exactly the chosen page from any state, and the session state is untouched |
| StartRace.Step | app/page.tsx:56-122 | only a grant with the as-written start can leave an interval running without a handle, and at most one per grant; only a grant starts a recording, and it puts the clock back to 0 |
| StartRace.StopLeavesClockRunning | app/page.tsx:56-122 | as written, two starts granted after two clicks and then a stop leave the session idle with an interval still running, and each tick still advances the clock |
| StartRace.StepKeepsSingleTimer | app/page.tsx:56-122 | with the corrected start, every event keeps exactly one interval while recording and none while idle |
| StartRace.ClockOnlyRunsWhileRecording | app/page.tsx:56-122 | with the corrected start, after any interleaving of clicks, grants, refusals, stops and ticks, an interval runs exactly when the session is recording |

## Findings

| source | as written | input that shows it | evidently intended | confidence | as-written member | corrected member |
|---|---|---|---|---|---|---|
| app/page.tsx:56-122 | every granted `startRecording` installs a new interval and overwrites `intervalRef`; `stopRecording` clears only the interval held there; the start button is disabled only after the await | click Start twice before the microphone request resolves, grant both, then click Stop | stop ends every interval, so the elapsed time advances only while recording | medium, not executed | StartRace.StopLeavesClockRunning | StartRace.ClockOnlyRunsWhileRecording |

The corrected start clears any interval already held in `intervalRef`
before installing its own. `Dashboard.CallCenterDashboard` behaves this
way. There, start is one atomic step that is allowed only while idle, and
`Tick` requires that a recording is running.

## Left out

- Browser media plumbing is not modelled. This covers `getUserMedia`, `AudioContext`, `AnalyserNode`, `MediaRecorder`, stopping the tracks and `audioContext.close()`. These are foreign APIs, and only their success or failure enters the model, as `granted`.
- The media resources leaked by the double start are not modelled. In the finding the first microphone stream and audio context are never released. Only the leaked interval is modelled.
- Timers are not modelled. `setInterval`/`clearInterval` scheduling and the unmount cleanup in `useEffect` belong to the runtime. A tick is a method call, allowed only while recording.
- Randomness and time are parameters. This covers `Math.random`, `Date.now()` and `toLocaleTimeString()`. The 10% chance and the uniform choice of template are probabilities and are not stated; only which values lead to which outcome is stated.
- Template timestamps: `mockSuggestions` stamps its templates with the render time. That value never reaches the feed, so the model leaves it empty.
- Meter.Level: computed on exact reals, not IEEE doubles. Rounding in the division and the multiplication is not modelled. The model requires a non-empty bin array, as the analyser always provides; `reduce` without an initial value would throw on an empty one.
- TimeFormat.FormatTime: defined on natural numbers only. The clock never holds anything else; negative or fractional inputs are not modelled.
- Rendering is not modelled. This covers the JSX, the debug logging, and the unused `isPlaying` state.
- The post-call analysis and FHIR data views are not modelled. They display fixed literal data and do no computation.
- Concurrency beyond the single UI thread does not exist in the source. The interleaving of a pending start with other clicks is modelled only in `StartRace`.
