/** The side-to-move state machine (class Turn of main.py). */
module Turns {

  datatype Side = White | Black

  /** A new game starts with White to move. */
  const FirstToMove: Side := White

  /** The letter the source stores for a side; piece names carry the same letter. */
  function Letter(s: Side): (c: char)
    ensures c == 'W' || c == 'B'
  {
    if s == White then 'W' else 'B'
  }

  /** Turn.isBlack: the stored letter is `B`. */
  predicate IsBlack(s: Side): (r: bool)
    ensures r <==> Letter(s) == 'B'
  {
    s == Black
  }

  /** Hands the move to the other side. */
  function Toggle(s: Side): (r: Side)
    ensures r != s
    ensures Letter(r) != Letter(s)
  {
    if s == White then Black else White
  }

  /** Two toggles give the move back: the state machine has period two. */
  lemma ToggleTwice(s: Side)
    ensures Toggle(Toggle(s)) == s
  {
  }
}
