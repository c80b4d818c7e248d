/** The click classifier of `handleClick` (my-jadey/src/app/page.js:81-88). */
module Clicks {

  /** What a scheduled click will do when its 300 ms timer fires: run
      `togglePlay`, `nextTrack` or `prevTrack`. */
  datatype Action = Toggle | Next | Prev

  /** The action chosen from the counter value the click handler captured,
      that is, the number of clicks seen since the last fired action, NOT
      counting this one. */
  function Classify(count: nat): (a: Action)
    ensures a == Toggle <==> count == 0
    ensures a == Next <==> count == 1
    ensures a == Prev <==> count >= 2
  {
    if count == 0 then Toggle
    else if count == 1 then Next
    else Prev
  }
}
