/** The two pieces of the page's rendering that carry logic: the status line
    under the quote (my-jadey/src/app/page.js:143-155) and where the controls
    tooltip is placed relative to the pointer (lines 91-95). Both are pure
    functions of the component's state and of the pointer event. */
module View {
  import opened Playlist
  import opened Playback

  /** The text shown before the first toggle. */
  const Prompt: string := "\U{1F3B5} Click the photo or quote to start the music"
  /** The text in front of the current track's title while playing. */
  const NowPlaying: string := "\U{1F3B5} Now Playing: "
  /** The text shown while paused. */
  const PausedText: string := "\U{23F8}\U{FE0F} Paused"

  /** The text content of the status paragraph. */
  function StatusLine(s: State): (line: string)
    requires InRange(s)
    ensures !s.hasStarted ==> line == Prompt
    ensures s.hasStarted && s.isPlaying ==> line == NowPlaying + Tracks[s.currentTrack].title
    ensures s.hasStarted && !s.isPlaying ==> line == PausedText
  {
    if s.hasStarted then
      if s.isPlaying then NowPlaying + Tracks[s.currentTrack].title else PausedText
    else Prompt
  }

  /** The three kinds of status line never coincide, and while playing the
      line tells which track it is. */
  lemma StatusLineTellsState(s: State, t: State)
    requires InRange(s) && InRange(t)
    requires StatusLine(s) == StatusLine(t)
    ensures s.hasStarted == t.hasStarted
    ensures s.hasStarted ==> s.isPlaying == t.isPlaying
    ensures s.hasStarted && s.isPlaying ==> s.currentTrack == t.currentTrack
  {
    var a, b := StatusLine(s), StatusLine(t);
    assert Prompt[2] != NowPlaying[2];
    if s.hasStarted && s.isPlaying && t.hasStarted && t.isPlaying {
      var ta, tb := Tracks[s.currentTrack].title, Tracks[t.currentTrack].title;
      assert ta == a[|NowPlaying|..];
      assert tb == b[|NowPlaying|..];
    }
  }

  /** A position in the window, such as the pointer's or the tooltip's. */
  datatype Point = Point(x: int, y: int)

  /** The window's `innerWidth` and `innerHeight`. */
  datatype Size = Size(width: int, height: int)

  /** The tooltip sits 10 pixels right of the pointer while a 150-pixel-wide
      box still fits before the window's right edge, and 160 pixels left of
      it otherwise. */
  function XOffset(clientX: int, innerWidth: int): (dx: int)
    ensures dx == 10 || dx == -160
    ensures dx == 10 <==> clientX + 150 <= innerWidth
  {
    if clientX + 150 > innerWidth then -160 else 10
  }

  /** The tooltip sits 10 pixels below the pointer while a 100-pixel-high
      box still fits above the window's bottom edge, and 110 pixels above it
      otherwise. */
  function YOffset(clientY: int, innerHeight: int): (dy: int)
    ensures dy == 10 || dy == -110
    ensures dy == 10 <==> clientY + 100 <= innerHeight
  {
    if clientY + 100 > innerHeight then -110 else 10
  }

  /** The new `hoverPosition` of `handleMouseMove`: the pointer shifted by
      the two offsets. */
  function HoverPosition(client: Point, inner: Size): (p: Point)
    ensures p.x - client.x == XOffset(client.x, inner.width)
    ensures p.y - client.y == YOffset(client.y, inner.height)
  {
    Point(client.x + XOffset(client.x, inner.width), client.y + YOffset(client.y, inner.height))
  }

  /** Once the pointer is close enough to the right (bottom) edge for the
      tooltip to flip, it stays flipped everywhere beyond. */
  lemma OffsetsFlipOnce(a: Point, b: Point, inner: Size)
    requires a.x <= b.x && a.y <= b.y
    ensures XOffset(a.x, inner.width) == -160 ==> XOffset(b.x, inner.width) == -160
    ensures YOffset(a.y, inner.height) == -110 ==> YOffset(b.y, inner.height) == -110
  {
  }
}
