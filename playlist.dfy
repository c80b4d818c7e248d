/** The page's fixed playlist and the circular arithmetic that moves through it
    (my-jadey/src/app/page.js, `tracks` and the updaters of `nextTrack`,
    `prevTrack` and the `ended` handler). */
module Playlist {
  import JsMath

  /** One entry of the playlist: what the status line shows and what is loaded
      into the audio element. */
  datatype Track = Track(title: string, src: string)

  /** The four tracks, in playlist order. */
  const Tracks: seq<Track> := [
    Track("Co-Pilot", "/music/CoPilot.mp3"),
    Track("Mahika", "/music/Mahika.mp3"),
    Track("Paraluman", "/music/Paraluman.mp3"),
    Track("Sining", "/music/Sining.mp3")
  ]

  /** `(prev + 1) % n`, with JavaScript's remainder. */
  function NextIndex(i: int, n: int): (r: int)
    requires n >= 1
    ensures 0 <= i < n ==> 0 <= r < n
  {
    JsMath.Rem(i + 1, n)
  }

  /** `(prev - 1 + n) % n`, with JavaScript's remainder. */
  function PrevIndex(i: int, n: int): (r: int)
    requires n >= 1
    ensures 0 <= i < n ==> 0 <= r < n
  {
    JsMath.Rem(i - 1 + n, n)
  }

  /** Moving forward steps to the following index and wraps from the last to
      the first. */
  lemma NextIndexWraps(i: int, n: int)
    requires 0 <= i < n
    ensures NextIndex(i, n) == if i == n - 1 then 0 else i + 1
  {
    JsMath.RemSmall(i + 1, n);
  }

  /** Moving backward steps to the preceding index and wraps from the first to
      the last. */
  lemma PrevIndexWraps(i: int, n: int)
    requires 0 <= i < n
    ensures PrevIndex(i, n) == if i == 0 then n - 1 else i - 1
  {
    JsMath.RemSmall(i - 1 + n, n);
  }

  /** Forward then backward, or backward then forward, is the identity on
      every valid index of every non-empty playlist. */
  lemma NextPrevInverse(i: int, n: int)
    requires 0 <= i < n
    ensures PrevIndex(NextIndex(i, n), n) == i
    ensures NextIndex(PrevIndex(i, n), n) == i
  {
    NextIndexWraps(i, n);
    PrevIndexWraps(NextIndex(i, n), n);
    PrevIndexWraps(i, n);
    NextIndexWraps(PrevIndex(i, n), n);
  }

  /** The index reached after k forward moves. */
  function Advance(i: int, n: int, k: nat): (r: int)
    requires n >= 1
    ensures 0 <= i < n ==> 0 <= r < n
  {
    if k == 0 then i else NextIndex(Advance(i, n, k - 1), n)
  }

  /** One forward move followed by k more is k + 1 forward moves. */
  lemma {:induction false} AdvanceShift(i: int, n: int, k: nat)
    requires n >= 1
    ensures Advance(NextIndex(i, n), n, k) == Advance(i, n, k + 1)
    decreases k
  {
    if k > 0 {
      AdvanceShift(i, n, k - 1);
    }
  }

  /** Up to a full lap, k forward moves add k and wrap once past the end. */
  lemma {:induction false} AdvanceOffset(i: int, n: int, k: nat)
    requires 0 <= i < n && k <= n
    ensures Advance(i, n, k) == if i + k < n then i + k else i + k - n
  {
    if k > 0 {
      AdvanceOffset(i, n, k - 1);
      NextIndexWraps(Advance(i, n, k - 1), n);
    }
  }

  /** A full lap of forward moves comes back to the starting track. */
  lemma FullLap(i: int, n: int)
    requires 0 <= i < n
    ensures Advance(i, n, n) == i
  {
    AdvanceOffset(i, n, n);
  }
}
