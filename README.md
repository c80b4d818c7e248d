# Music playback on the Jade page, modelled in Dafny

The page (`my-jadey/src/app/page.js`, the `Home` component) plays a
four-track playlist in an `<audio>` element and controls it by clicks on the
photo or the quote. This project models that playback logic:

- the component state `currentTrack`, `isPlaying`, `hasStarted` and
  `clickCount`;
- the handlers `togglePlay`, `nextTrack`, `prevTrack`, the `ended` listener
  and `handleClick` with its 300 ms timers;
- the two effects that load the current track when the index changes and
  play or pause when `isPlaying` changes;
- the status-line text and the placement offsets of the controls tooltip.

Modules, one per concern:

- `JsMath` (`js_math.dfy`): JavaScript's truncating `%`.
- `Playlist` (`playlist.dfy`): the tracks and the circular index arithmetic.
- `Clicks` (`clicks.dfy`): the click classifier.
- `Playback` (`playback.dfy`): the state as a value, one pure transition per
  event, runs of events, and the requests each event sends to the audio
  element.
- `View` (`view.dfy`): the status line and the tooltip offsets.
- `Page` (`page.dfy`): the component as a class `Home` with those fields and
  the audio element as a class `AudioElement` that records what it was asked
  to do. Each `Home` method is proved to match the `Playback` transition and
  to keep the audio element's source equal to the current track's file.

How clicks behave, as written. The timer callback in `handleClick` closes
over the render in which the click happened. It therefore reads that
render's `clickCount`, the value before the click, and that render's
`isPlaying` inside `togglePlay`. Each click schedules its own action:

- counter 0 toggles;
- counter 1 moves forward;
- counter 2 or more moves back.

Every fired action resets the counter to 0. A quick double click therefore
starts the music and then skips forward (`Playback.DoubleClickFromStart`). A
triple click starts, skips forward and comes back (`Playback.TripleClickFromStart`).
The tooltip's "1 click / 2 clicks / 3 clicks" text (lines 123-125) does not
describe this, and the model follows the code.

A pending click is modelled as the action plus the captured `isPlaying`, in a
first-in first-out queue. A `Click` event enqueues, and a `Fire` event runs
the oldest entry. Because of the captured flag, a toggle can act on stale
state (`Playback.StaleToggle`).

`togglePlay` calls `play()`/`pause()` itself, and the `isPlaying` effect
then sends the same request again. The model records both requests
(`Playback.FreshToggle`).

## Model

| member | source | states |
|---|---|---|
| JsMath.Rem | my-jadey/src/app/page.js:71-79 | JavaScript `%` by a positive divisor: the result has the dividend's sign, is smaller than the divisor in magnitude, agrees with the mathematical modulus on non-negative dividends, and on negative ones is the dividend less the divisor times the quotient truncated toward zero |
| JsMath.RemSmall | my-jadey/src/app/page.js:71-79 | on a dividend in [0, 2n) the remainder is the dividend, or the dividend less n once it has reached n |
| Playlist.NextIndex | my-jadey/src/app/page.js:72 | `(i + 1) % n` stays in [0, n) for every valid index of every non-empty playlist |
| Playlist.PrevIndex | my-jadey/src/app/page.js:77 | `(i - 1 + n) % n` stays in [0, n) for every valid index of every non-empty playlist |
| Playlist.NextIndexWraps | my-jadey/src/app/page.js:72 | moving forward goes to i + 1, and from the last index to 0 |
| Playlist.PrevIndexWraps | my-jadey/src/app/page.js:77 | moving back goes to i - 1, and from 0 to the last index |
| Playlist.NextPrevInverse | my-jadey/src/app/page.js:71-79 | forward then back, and back then forward, both return to the starting index, for every n >= 1 |
| Playlist.Advance | my-jadey/src/app/page.js:71-74 | any number of forward moves keeps the index valid |
| Playlist.AdvanceOffset | my-jadey/src/app/page.js:71-74 | up to a full lap, k forward moves add k and wrap once past the end |
| Playback.EndedAdvances | my-jadey/src/app/page.js:43-46 | k `ended` events with the element present move the index k steps forward, as `Playlist.Advance` does, and leave the music playing |
| Playlist.AdvanceShift | my-jadey/src/app/page.js:71-74 | one forward move followed by k more is k + 1 forward moves |
| Playlist.FullLap | my-jadey/src/app/page.js:71-74 | n forward moves in a playlist of n tracks come back to the starting track |
| Clicks.Classify | my-jadey/src/app/page.js:84-86 | captured counter 0 gives toggle, 1 gives next, 2 or more gives previous, each if and only if |
| Playback.TogglePlay | my-jadey/src/app/page.js:59-69 | with the audio element, `isPlaying` becomes the negation of the flag read and `hasStarted` becomes true, and the track and clicks are untouched; without the element, nothing changes |
| Playback.NextTrack | my-jadey/src/app/page.js:71-74 | the index moves forward circularly and stays valid, `isPlaying` becomes true, and `hasStarted` and the clicks are untouched |
| Playback.PrevTrack | my-jadey/src/app/page.js:76-79 | the index moves back circularly and stays valid, `isPlaying` becomes true, and `hasStarted` and the clicks are untouched |
| Playback.Apply | my-jadey/src/app/page.js:84-86 | running a scheduled action keeps the index valid |
| Playback.Step | my-jadey/src/app/page.js:43-88 | every event (click, timer, `ended`) keeps the index valid and never resets `hasStarted` |
| Playback.Run | my-jadey/src/app/page.js:43-88 | every sequence of events keeps the index valid and never resets `hasStarted` once it is true |
| Playback.Effects | my-jadey/src/app/page.js:25-40 | one reload if and only if the track changed, and it comes first; one play if and only if `isPlaying` went from false to true; one pause if and only if it went from true to false; nothing else |
| Playback.Direct | my-jadey/src/app/page.js:59-66 | `togglePlay` itself sends exactly one request, and only when a fired timer runs it with the element present |
| Playback.Requests | my-jadey/src/app/page.js:25-40 | without an audio element no request is sent |
| Playback.StepPreservesValid | my-jadey/src/app/page.js:81-88 | every event keeps the index valid, and keeps the last `clickCount` pending clicks classified with counters 0, 1, 2, ... |
| Playback.RunPreservesValid | my-jadey/src/app/page.js:81-88 | every sequence of events keeps both invariants |
| Playback.InitialValid | my-jadey/src/app/page.js:10-13 | the first render satisfies the invariants, has not started and is not playing |
| Playback.StartsOnlyByToggle | my-jadey/src/app/page.js:59-69 | `hasStarted` turns true on an event if and only if a fired timer runs `togglePlay` with the audio element present |
| Playback.QueuedAt | my-jadey/src/app/page.js:81-86 | the j-th click of a burst starting at counter c was classified with counter c + j |
| Playback.BurstQueues | my-jadey/src/app/page.js:81-86 | k clicks raise the counter by k, append one pending action per click after the earlier ones, and leave track, play state and latch alone |
| Playback.BurstAfterReset | my-jadey/src/app/page.js:81-86 | after a reset, the first click of a burst queues a toggle, the second a move forward, every later one a move back |
| Playback.FireIsApply | my-jadey/src/app/page.js:83-88 | a fired timer runs its action on the state with that click dequeued and the counter reset |
| Playback.FireResets | my-jadey/src/app/page.js:87 | every fired timer resets the counter to 0 and removes exactly its own click |
| Playback.FreshToggle | my-jadey/src/app/page.js:59-69 | a toggle with an up-to-date flag negates `isPlaying`, latches `hasStarted`, keeps the track, and sends its play or pause request twice |
| Playback.StaleToggle | my-jadey/src/app/page.js:59-69 | a toggle whose captured flag is out of date leaves `isPlaying` as it is and sends one request |
| Playback.EndedReloads | my-jadey/src/app/page.js:25-46 | the `ended` event always changes the track, and requests a reload, plus play only when paused |
| Playback.DoubleClickFromStart | my-jadey/src/app/page.js:81-88 | two clicks on a fresh page end on the second track, playing, started, with nothing pending |
| Playback.TripleClickFromStart | my-jadey/src/app/page.js:81-88 | three clicks on a fresh page end back on the first track, playing, started, with nothing pending |
| View.StatusLine | my-jadey/src/app/page.js:143-155 | not started gives the prompt; started and playing gives "Now Playing: " and the current title; started and paused gives "Paused" |
| View.StatusLineTellsState | my-jadey/src/app/page.js:143-155 | equal status lines mean the same started flag, then the same play state, and while playing the same track |
| View.XOffset | my-jadey/src/app/page.js:92 | the x-offset is 10 if and only if `clientX + 150` does not pass `innerWidth`, and -160 otherwise |
| View.YOffset | my-jadey/src/app/page.js:93 | the y-offset is 10 if and only if `clientY + 100` does not pass `innerHeight`, and -110 otherwise |
| View.HoverPosition | my-jadey/src/app/page.js:91-95 | the tooltip position is the pointer shifted by the two offsets computed against the window's inner width and height |
| View.OffsetsFlipOnce | my-jadey/src/app/page.js:91-93 | once the tooltip flips left (up), it stays flipped for every pointer further right (down) |
| Page.AudioElement.Load | my-jadey/src/app/page.js:28 | records a reload and keeps the source |
| Page.AudioElement.Play | my-jadey/src/app/page.js:35 | records a play request and keeps the source |
| Page.AudioElement.Pause | my-jadey/src/app/page.js:37 | records a pause request and keeps the source |
| Page.Home.constructor | my-jadey/src/app/page.js:7-40 | the first render has the initial state; the mount effects load the first track's file and pause |
| Page.Home.Commit | my-jadey/src/app/page.js:25-40 | the effects send exactly the predicted requests, leave the element holding the current track's file, and leave the component state alone |
| Page.Home.TogglePlay | my-jadey/src/app/page.js:59-69 | the state becomes the `togglePlay` transition of the old state; the element gets the direct request followed by the effects' requests |
| Page.Home.NextTrack | my-jadey/src/app/page.js:71-74 | the state becomes the `nextTrack` transition; the element holds the new track's file and gets the effects' requests |
| Page.Home.PrevTrack | my-jadey/src/app/page.js:76-79 | the state becomes the `prevTrack` transition; the element holds the new track's file and gets the effects' requests |
| Page.Home.HandleTrackEnd | my-jadey/src/app/page.js:43-46 | the `ended` listener has exactly the effect of `nextTrack`, on the state and on the element |
| Page.Home.HandleClick | my-jadey/src/app/page.js:81-82 | a click counts and queues its action, matching the `Click` step, and keeps the invariants |
| Page.Home.Fire | my-jadey/src/app/page.js:83-88 | a fired timer matches the `Fire` step on the state and `Requests` on the element, and keeps the invariants |
| Page.DoubleClickOnFreshPage | my-jadey/src/app/page.js:81-88 | two clicks and their timers on a fresh page end on the second track, playing, with the element holding that track's file and having received load, pause, play, play, load |

## Left out

- Rendering: the JSX layout, the CSS classes, the `TextImage` component, and the hover flags `isHovered` and `isTextHovered`. They are presentation only.
- The background `<video>` element. It plays by the browser's `autoPlay` and `loop` with no logic of the page.
- Time. Each 300 ms timer becomes a `Fire` event, and timers fire oldest first. Events are assumed to reach handlers created by the latest render. The setter calls of one handler are assumed to be applied in one render.
- The audio element's behaviour. A blocked `play()` never reaches the state: the effect's call (line 35) catches and logs the rejection, while `togglePlay`'s own call (line 64) has no handler, so its rejection goes unhandled. The `autoPlay` attribute of `<audio>` and the browser's autoplay policy are foreign.
- Page.AudioElement.Play: records the request only; whether playback actually started is not modelled.
- Adding and removing the `ended` listener. Only its effect, `HandleTrackEnd`, is modelled, and only when the element exists.
- Playback.Step: a `Fire` with nothing pending, which the timers never produce, is modelled as changing nothing.
- Pointer coordinates are integers. JavaScript coordinates may be fractional.
- `my-jadey/next.config.js`: static-export build configuration, with no logic.
