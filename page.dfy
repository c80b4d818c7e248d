/** The `Home` component of my-jadey/src/app/page.js as an object: its four
    pieces of state, the clicks whose timers are running, and the `<audio>`
    element it drives. Each method is one event handler followed by the
    render it causes and the effects that render runs; each is proved to do
    to the state what the matching transition of `Playback` does, and to
    send the audio element the requests `Playback` predicts. */
module Page {
  import opened Playlist
  import opened Clicks
  import opened Playback

  /** The `<audio>` element, reduced to its source and a record of the
      requests it has received. */
  class AudioElement {
    var src: string
    var requests: seq<Request>

    constructor ()
      ensures src == "" && requests == []
    {
      src := "";
      requests := [];
    }

    method Load()
      modifies this
      ensures src == old(src) && requests == old(requests) + [Request.Load]
    {
      requests := requests + [Request.Load];
    }

    /** `play()`; whether the browser lets it play is not observed. */
    method Play()
      modifies this
      ensures src == old(src) && requests == old(requests) + [Request.Play]
    {
      requests := requests + [Request.Play];
    }

    method Pause()
      modifies this
      ensures src == old(src) && requests == old(requests) + [Request.Pause]
    {
      requests := requests + [Request.Pause];
    }
  }

  class Home {
    var currentTrack: int
    var isPlaying: bool
    var hasStarted: bool
    var clickCount: nat
    /** The clicks whose 300 ms timers have not fired yet, oldest first. */
    var pending: seq<Pending>
    /** `audioRef.current`: the element, or null when there is none. */
    const audio: AudioElement?

    /** The component's state as a value. */
    function Snapshot(): State
      reads this
    {
      State(currentTrack, isPlaying, hasStarted, clickCount, pending)
    }

    /** The state invariant, and the audio element holding the current
        track's file. */
    ghost predicate Valid()
      reads this, audio
    {
      Playback.Valid(Snapshot()) &&
      (audio != null ==> audio.src == Tracks[currentTrack].src)
    }

    /** The first render: initial state, then both audio effects run once,
        loading the first track and pausing. */
    constructor (element: AudioElement?)
      modifies element
      ensures audio == element
      ensures Valid() && Snapshot() == Initial
      ensures element != null ==> element.requests == old(element.requests) + [Request.Load, Request.Pause]
    {
      currentTrack := 0;
      isPlaying := false;
      hasStarted := false;
      clickCount := 0;
      pending := [];
      audio := element;
      new;
      if audio != null {
        audio.src := Tracks[currentTrack].src;
        audio.Load();
        audio.Pause();
      }
    }

    /** The effects after a render whose previous state was `before`: on a
        track change the current track's file is loaded (line 25-30), on a
        change of `isPlaying` play or pause is requested (lines 32-40). The
        component's own state is left as it is. */
    method Commit(before: State)
      requires InRange(before) && InRange(Snapshot())
      requires audio != null ==> audio.src == Tracks[before.currentTrack].src
      modifies audio
      ensures audio != null ==> audio.src == Tracks[currentTrack].src
      ensures audio != null ==> audio.requests == old(audio.requests) + Effects(before, Snapshot())
    {
      if audio != null {
        if currentTrack != before.currentTrack {
          audio.src := Tracks[currentTrack].src;
          audio.Load();
        }
        if isPlaying != before.isPlaying {
          if isPlaying {
            audio.Play();
          } else {
            audio.Pause();
          }
        }
      }
    }

    /** `togglePlay` as created in a render whose `isPlaying` was
        `wasPlaying`, then the render it causes. */
    method TogglePlay(wasPlaying: bool)
      requires Valid()
      modifies this, audio
      ensures Valid()
      ensures Snapshot() == Playback.TogglePlay(old(Snapshot()), wasPlaying, audio != null)
      ensures audio != null ==>
                audio.requests == old(audio.requests) + [if wasPlaying then Request.Pause else Request.Play] +
                                  Effects(old(Snapshot()), Snapshot())
    {
      var before := Snapshot();
      if audio != null {
        if wasPlaying {
          audio.Pause();
        } else {
          audio.Play();
        }
        isPlaying := !wasPlaying;
        hasStarted := true;
      }
      Commit(before);
    }

    /** `nextTrack`, then the render it causes. */
    method NextTrack()
      requires Valid()
      modifies this, audio
      ensures Valid()
      ensures Snapshot() == Playback.NextTrack(old(Snapshot()))
      ensures audio != null ==> audio.requests == old(audio.requests) + Effects(old(Snapshot()), Snapshot())
    {
      var before := Snapshot();
      currentTrack := NextIndex(currentTrack, |Tracks|);
      isPlaying := true;
      Commit(before);
    }

    /** `prevTrack`, then the render it causes. */
    method PrevTrack()
      requires Valid()
      modifies this, audio
      ensures Valid()
      ensures Snapshot() == Playback.PrevTrack(old(Snapshot()))
      ensures audio != null ==> audio.requests == old(audio.requests) + Effects(old(Snapshot()), Snapshot())
    {
      var before := Snapshot();
      currentTrack := PrevIndex(currentTrack, |Tracks|);
      isPlaying := true;
      Commit(before);
    }

    /** The `ended` listener, attached only when the element exists; it does
        exactly what `nextTrack` does. */
    method HandleTrackEnd()
      requires Valid() && audio != null
      modifies this, audio
      ensures Valid()
      ensures Snapshot() == Playback.NextTrack(old(Snapshot()))
      ensures Snapshot() == Step(old(Snapshot()), true, Ended)
      ensures audio.requests == old(audio.requests) + Requests(old(Snapshot()), true, Ended)
    {
      NextTrack();
    }

    /** `handleClick`: count the click and schedule the action chosen from
        the counter as it was before this click. No audio effect depends on
        the counter, so the element is not touched. */
    method HandleClick()
      requires Valid()
      modifies this
      ensures Valid()
      ensures Snapshot() == Step(old(Snapshot()), audio != null, Click)
    {
      ghost var before := Snapshot();
      pending := pending + [Pending(Classify(clickCount), isPlaying)];
      clickCount := clickCount + 1;
      StepPreservesValid(before, audio != null, Click);
    }

    /** The oldest click timer fires: its action runs with what it captured,
        and the counter is reset; React renders once for both. */
    method Fire()
      requires Valid() && pending != []
      modifies this, audio
      ensures Valid()
      ensures Snapshot() == Step(old(Snapshot()), audio != null, Event.Fire)
      ensures audio != null ==> audio.requests == old(audio.requests) + Requests(old(Snapshot()), true, Event.Fire)
    {
      ghost var before := Snapshot();
      var p := pending[0];
      pending := pending[1..];
      clickCount := 0;
      ghost var mid := Snapshot();
      FireIsApply(before, audio != null);
      match p.action
      case Toggle => TogglePlay(p.wasPlaying);
      case Next => NextTrack();
      case Prev => PrevTrack();
      assert Effects(mid, Snapshot()) == Effects(before, Snapshot());
    }
  }

  /** Two quick clicks on a freshly mounted page: the music starts, then
      moves to the second track; the element is asked to load the first
      track and pause on mount, then to play twice, then to load again. */
  method DoubleClickOnFreshPage() returns (home: Home, element: AudioElement)
    ensures home.Snapshot() == State(1, true, true, 0, [])
    ensures element.src == Tracks[1].src
    ensures element.requests == [Request.Load, Request.Pause, Request.Play, Request.Play, Request.Load]
  {
    element := new AudioElement();
    home := new Home(element);
    home.HandleClick();
    home.HandleClick();
    home.Fire();
    home.Fire();
  }
}
