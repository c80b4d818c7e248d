/** The playback state of the `Home` component (my-jadey/src/app/page.js:10-13)
    and its transitions, as values. Each pure transition here is what one
    event does to the component's state once React has applied the batched
    setter calls; the `Page` module runs the same transitions on a mutable
    object and an audio element. */
module Playback {
  import opened Playlist
  import opened Clicks

  /** A request the page makes of the audio element; the element's reaction
      (including a rejected `play()` promise) is not fed back. */
  datatype Request = Load | Play | Pause

  /** A click whose timer has not fired yet. The timer's callback closes over
      the render in which the click happened, so it keeps the action chosen
      from that render's counter and that render's `isPlaying`, which
      `togglePlay` reads when the timer fires. */
  datatype Pending = Pending(action: Action, wasPlaying: bool)

  /** `currentTrack`, `isPlaying`, `hasStarted`, `clickCount`, and the clicks
      whose timers are still running, oldest first. */
  datatype State = State(
    currentTrack: int,
    isPlaying: bool,
    hasStarted: bool,
    clickCount: nat,
    pending: seq<Pending>)

  /** What happens to the component: a click on the photo or the quote, the
      oldest pending click timer firing, or the audio element's `ended`
      event. */
  datatype Event = Click | Fire | Ended

  /** The state of the first render. */
  const Initial := State(0, false, false, 0, [])

  ghost predicate InRange(s: State) {
    0 <= s.currentTrack < |Tracks|
  }

  /** The last `clickCount` pending clicks are those made since the last fired
      action, so they were classified with the counter values 0, 1, 2, ... */
  ghost predicate RecentClicks(s: State) {
    s.clickCount <= |s.pending| &&
    forall j :: 0 <= j < s.clickCount ==>
      s.pending[|s.pending| - s.clickCount + j].action == Classify(j)
  }

  ghost predicate Valid(s: State) {
    InRange(s) && RecentClicks(s)
  }

  /** `togglePlay` (lines 59-69) reading `wasPlaying` as its `isPlaying`: with
      an audio element present it flips the flag it read and latches
      `hasStarted`; without one it does nothing. */
  function TogglePlay(s: State, wasPlaying: bool, present: bool): (r: State)
    ensures present ==> r.isPlaying == !wasPlaying && r.hasStarted
    ensures present ==> r.currentTrack == s.currentTrack &&
                        r.clickCount == s.clickCount && r.pending == s.pending
    ensures !present ==> r == s
  {
    if present then s.(isPlaying := !wasPlaying, hasStarted := true) else s
  }

  /** `nextTrack` (lines 71-74), also the `ended` handler (lines 43-46). */
  function NextTrack(s: State): (r: State)
    requires InRange(s)
    ensures InRange(r) && r.isPlaying
    ensures r.currentTrack == if s.currentTrack == |Tracks| - 1 then 0 else s.currentTrack + 1
    ensures r.hasStarted == s.hasStarted && r.clickCount == s.clickCount && r.pending == s.pending
  {
    NextIndexWraps(s.currentTrack, |Tracks|);
    s.(currentTrack := NextIndex(s.currentTrack, |Tracks|), isPlaying := true)
  }

  /** `prevTrack` (lines 76-79). */
  function PrevTrack(s: State): (r: State)
    requires InRange(s)
    ensures InRange(r) && r.isPlaying
    ensures r.currentTrack == if s.currentTrack == 0 then |Tracks| - 1 else s.currentTrack - 1
    ensures r.hasStarted == s.hasStarted && r.clickCount == s.clickCount && r.pending == s.pending
  {
    PrevIndexWraps(s.currentTrack, |Tracks|);
    s.(currentTrack := PrevIndex(s.currentTrack, |Tracks|), isPlaying := true)
  }

  /** What a fired click timer does before its `setClickCount(0)`. */
  function Apply(s: State, p: Pending, present: bool): (r: State)
    requires InRange(s)
    ensures InRange(r)
  {
    match p.action
    case Toggle => TogglePlay(s, p.wasPlaying, present)
    case Next => NextTrack(s)
    case Prev => PrevTrack(s)
  }

  /** One event; `present` says whether the audio element exists. A `Fire`
      with no click pending (which the timers never produce) changes nothing,
      and so does an `ended` event without an audio element, since the
      listener is only attached to an existing element (line 48). */
  function Step(s: State, present: bool, e: Event): (r: State)
    requires InRange(s)
    ensures InRange(r)
    ensures s.hasStarted ==> r.hasStarted
  {
    match e
    case Click =>
      s.(clickCount := s.clickCount + 1,
         pending := s.pending + [Pending(Classify(s.clickCount), s.isPlaying)])
    case Fire =>
      if s.pending == [] then s
      else Apply(s.(pending := s.pending[1..]), s.pending[0], present).(clickCount := 0)
    case Ended =>
      if present then NextTrack(s) else s
  }

  /** A sequence of events, in order. */
  function Run(s: State, present: bool, events: seq<Event>): (r: State)
    requires InRange(s)
    ensures InRange(r)
    ensures s.hasStarted ==> r.hasStarted
    decreases |events|
  {
    if events == [] then s else Run(Step(s, present, events[0]), present, events[1..])
  }

  /** The two audio effects (lines 25-30 and 32-40), run after a render in the
      order they are declared: reload when the track index changed, then play
      or pause when `isPlaying` changed. */
  function Effects(before: State, after: State): (q: seq<Request>)
    ensures Load in q <==> before.currentTrack != after.currentTrack
    ensures Play in q <==> after.isPlaying && !before.isPlaying
    ensures Pause in q <==> before.isPlaying && !after.isPlaying
    ensures |q| == (if before.currentTrack != after.currentTrack then 1 else 0) +
                   (if before.isPlaying != after.isPlaying then 1 else 0)
    ensures Load in q ==> q[0] == Load
  {
    (if before.currentTrack != after.currentTrack then [Load] else []) +
    (if before.isPlaying != after.isPlaying then [if after.isPlaying then Play else Pause] else [])
  }

  /** The request `togglePlay` itself makes (lines 61-65) when a fired click
      runs it. */
  function Direct(s: State, present: bool, e: Event): (q: seq<Request>)
    ensures |q| <= 1
    ensures q != [] <==> present && e == Fire && s.pending != [] && s.pending[0].action == Toggle
  {
    if present && e == Fire && s.pending != [] && s.pending[0].action == Toggle
    then [if s.pending[0].wasPlaying then Pause else Play]
    else []
  }

  /** Every request one event sends to the audio element, in order. */
  function Requests(s: State, present: bool, e: Event): (q: seq<Request>)
    requires InRange(s)
    ensures !present ==> q == []
  {
    if present then Direct(s, present, e) + Effects(s, Step(s, present, e)) else []
  }

  /** Every event keeps the index valid and the record of recent clicks. */
  lemma StepPreservesValid(s: State, present: bool, e: Event)
    requires Valid(s)
    ensures Valid(Step(s, present, e))
  {
    if e == Click {
      var r := Step(s, present, e);
      forall j | 0 <= j < r.clickCount
        ensures r.pending[|r.pending| - r.clickCount + j].action == Classify(j)
      {
        if j < s.clickCount {
          assert r.pending[|r.pending| - r.clickCount + j] == s.pending[|s.pending| - s.clickCount + j];
        }
      }
    }
  }

  /** ... and so does every run of events. */
  lemma {:induction false} RunPreservesValid(s: State, present: bool, events: seq<Event>)
    requires Valid(s)
    ensures Valid(Run(s, present, events))
    decreases |events|
  {
    if events != [] {
      StepPreservesValid(s, present, events[0]);
      RunPreservesValid(Step(s, present, events[0]), present, events[1..]);
    }
  }

  lemma InitialValid()
    ensures Valid(Initial) && !Initial.hasStarted && !Initial.isPlaying
  {
  }

  /** `hasStarted` becomes true exactly when a fired click runs `togglePlay`
      while the audio element exists. */
  lemma StartsOnlyByToggle(s: State, present: bool, e: Event)
    requires InRange(s) && !s.hasStarted
    ensures Step(s, present, e).hasStarted <==>
            present && e == Fire && s.pending != [] && s.pending[0].action == Toggle
  {
  }

  /** The same event k times in a row. */
  function Repeat(e: Event, k: nat): (es: seq<Event>)
    ensures |es| == k && forall j :: 0 <= j < k ==> es[j] == e
  {
    if k == 0 then [] else [e] + Repeat(e, k - 1)
  }

  /** A burst of clicks. */
  function Burst(k: nat): (es: seq<Event>)
    ensures |es| == k && forall j :: 0 <= j < k ==> es[j] == Click
  {
    Repeat(Click, k)
  }

  /** k `ended` events in a row, with the element present, move the index k
      steps forward through the playlist and leave the music playing. */
  lemma {:induction false} EndedAdvances(s: State, k: nat)
    requires InRange(s)
    ensures Run(s, true, Repeat(Ended, k)).currentTrack == Advance(s.currentTrack, |Tracks|, k)
    ensures k > 0 ==> Run(s, true, Repeat(Ended, k)).isPlaying
    decreases k
  {
    if k > 0 {
      var t := Step(s, true, Ended);
      assert Repeat(Ended, k)[1..] == Repeat(Ended, k - 1);
      EndedAdvances(t, k - 1);
      AdvanceShift(s.currentTrack, |Tracks|, k - 1);
      if k - 1 > 0 {
        assert Run(s, true, Repeat(Ended, k)) == Run(t, true, Repeat(Ended, k - 1));
      }
    }
  }

  /** The actions queued by k clicks made while the counter goes from c up,
      each capturing the same `isPlaying` w. */
  function Queued(c: nat, k: nat, w: bool): (q: seq<Pending>)
    ensures |q| == k
    decreases k
  {
    if k == 0 then [] else [Pending(Classify(c), w)] + Queued(c + 1, k - 1, w)
  }

  /** The j-th click of such a burst was classified with the counter value
      c + j. */
  lemma {:induction false} QueuedAt(c: nat, k: nat, w: bool, j: nat)
    requires j < k
    ensures Queued(c, k, w)[j] == Pending(Classify(c + j), w)
    decreases j
  {
    if j > 0 {
      QueuedAt(c + 1, k - 1, w, j - 1);
    }
  }

  /** A burst of k clicks counts up by k and queues one action per click,
      leaving the track and the play state alone. */
  lemma {:induction false} BurstQueues(s: State, present: bool, k: nat)
    requires InRange(s)
    ensures Run(s, present, Burst(k)) ==
            s.(clickCount := s.clickCount + k,
               pending := s.pending + Queued(s.clickCount, k, s.isPlaying))
    decreases k
  {
    if k > 0 {
      var t := Step(s, present, Click);
      assert Burst(k)[1..] == Repeat(Click, k - 1) == Burst(k - 1);
      BurstQueues(t, present, k - 1);
      assert t.pending + Queued(t.clickCount, k - 1, s.isPlaying)
          == s.pending + Queued(s.clickCount, k, s.isPlaying);
    }
  }

  /** Clicks made after a fired action (counter 0): the first queues a
      toggle, the second a move forward, every later one a move back. */
  lemma BurstAfterReset(s: State, present: bool, k: nat, j: nat)
    requires InRange(s) && s.clickCount == 0 && j < k
    ensures var q := Run(s, present, Burst(k)).pending;
            |q| == |s.pending| + k &&
            q[|s.pending| + j].action == if j == 0 then Toggle else if j == 1 then Next else Prev
  {
    BurstQueues(s, present, k);
    QueuedAt(0, k, s.isPlaying, j);
  }

  /** A fired click runs its action on the state with this click taken off
      the queue and the counter already reset; the reset has no effect on the
      audio element. */
  lemma FireIsApply(s: State, present: bool)
    requires InRange(s) && s.pending != []
    ensures var mid := s.(pending := s.pending[1..], clickCount := 0);
            Valid(mid) && Step(s, present, Fire) == Apply(mid, s.pending[0], present)
  {
  }

  /** A fired click always resets the counter, whatever it ran. */
  lemma FireResets(s: State, present: bool)
    requires InRange(s) && s.pending != []
    ensures Step(s, present, Fire).clickCount == 0
    ensures Step(s, present, Fire).pending == s.pending[1..]
  {
  }

  /** A fired toggle whose captured `isPlaying` is still current pauses a
      playing track and plays a paused one, and the request goes out twice:
      once from `togglePlay` and once from the effect on `isPlaying`. */
  lemma FreshToggle(s: State, x: Request)
    requires InRange(s) && s.pending != [] && s.pending[0] == Pending(Toggle, s.isPlaying)
    requires x == if s.isPlaying then Pause else Play
    ensures Step(s, true, Fire).isPlaying == !s.isPlaying
    ensures Step(s, true, Fire).hasStarted
    ensures Step(s, true, Fire).currentTrack == s.currentTrack
    ensures Requests(s, true, Fire) == [x, x]
  {
  }

  /** A fired toggle whose captured `isPlaying` is out of date (a track change
      set it to true after the click) sets `isPlaying` to what it already
      is: the flag does not change and only `togglePlay`'s own request goes
      out. */
  lemma StaleToggle(s: State, x: Request)
    requires InRange(s) && s.pending != [] && s.pending[0] == Pending(Toggle, !s.isPlaying)
    requires x == if s.isPlaying then Play else Pause
    ensures Step(s, true, Fire).isPlaying == s.isPlaying
    ensures Requests(s, true, Fire) == [x]
  {
  }

  /** A track change by the `ended` event reloads the audio element and
      requests play only when the page was paused. */
  lemma EndedReloads(s: State)
    requires InRange(s)
    ensures Step(s, true, Ended).currentTrack != s.currentTrack
    ensures Requests(s, true, Ended) == if s.isPlaying then [Load] else [Load, Play]
  {
  }

  /** Two quick clicks from the first render: the first click's timer starts
      the music, the second's moves to the next track. */
  lemma DoubleClickFromStart()
    ensures Run(Initial, true, [Click, Click, Fire, Fire]) == State(1, true, true, 0, [])
  {
  }

  /** Three quick clicks from the first render: start, next, previous, which
      ends on the first track again. */
  lemma TripleClickFromStart()
    ensures Run(Initial, true, [Click, Click, Click, Fire, Fire, Fire]) == State(0, true, true, 0, [])
  {
  }
}
