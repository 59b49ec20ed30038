/** Sequence helpers shared by the audio modules. */
module Sequences {

  /** The pieces of `pieces`, concatenated in order. */
  function Flatten(pieces: seq<seq<int>>): seq<int>
  {
    if pieces == [] then [] else pieces[0] + Flatten(pieces[1..])
  }
}
