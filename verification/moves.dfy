/** Move requests and the move parser (class Move of main.py). The source
    searches the text with the regular expression
    ([A-H])([1-8]) - ([A-H])([1-8]); that one fixed seven-character pattern is
    matched by hand here. */
module Moves {
  import opened Errors
  import opened Coords

  datatype Move = Move(origin: Coord, dest: Coord)

  predicate IsColumnLetter(ch: char) {
    'A' <= ch <= 'H'
  }

  predicate IsRowDigit(ch: char) {
    '1' <= ch <= '8'
  }

  /** Length of the text the pattern matches. */
  const PatternLength := 7

  /** The pattern matches the seven characters of `s` that start at index `i`. */
  predicate MatchesAt(s: string, i: int) {
    && 0 <= i && i + PatternLength <= |s|
    && IsColumnLetter(s[i]) && IsRowDigit(s[i + 1])
    && s[i + 2] == ' ' && s[i + 3] == '-' && s[i + 4] == ' '
    && IsColumnLetter(s[i + 5]) && IsRowDigit(s[i + 6])
  }

  /** The leftmost match that starts at or after `from`, as a search returns it. */
  function FirstMatch(s: string, from: nat): (r: Option<nat>)
    ensures r.Some? ==> from <= r.value && MatchesAt(s, r.value)
    ensures r.Some? ==> forall j :: from <= j < r.value ==> !MatchesAt(s, j)
    ensures r.None? ==> forall j :: from <= j ==> !MatchesAt(s, j)
    decreases |s| - from
  {
    if from + PatternLength > |s| then None
    else if MatchesAt(s, from) then Some(from)
    else FirstMatch(s, from + 1)
  }

  /** The square a column letter and a row digit name: row `digit - 1`,
      column `letter - 'A'`. The checked constructor always accepts it. */
  function SquareOf(letter: char, digit: char): (r: Coord)
    requires IsColumnLetter(letter) && IsRowDigit(digit)
    ensures NewCoord(digit as int - '1' as int, letter as int - 'A' as int) == Ok(r)
  {
    Pos(digit as int - '1' as int, letter as int - 'A' as int)
  }

  /** The move the match starting at `i` spells. */
  function DecodeAt(s: string, i: int): Move
    requires MatchesAt(s, i)
  {
    Move(SquareOf(s[i], s[i + 1]), SquareOf(s[i + 5], s[i + 6]))
  }

  /** `i` is where the leftmost match of the pattern starts. */
  predicate LeftmostMatch(s: string, i: int) {
    MatchesAt(s, i) && forall j :: 0 <= j < i ==> !MatchesAt(s, j)
  }

  /** Move.__init__: the leftmost match of the pattern anywhere in the text
      gives origin and destination; no match is BadFormat and equal ends are
      DegenerateMove. */
  function ParseMove(s: string): (r: Result<Move>)
    ensures r == Err(BadFormat) <==> forall i :: !MatchesAt(s, i)
    ensures r.Err? ==> r.error == BadFormat || r.error == DegenerateMove
    ensures r.Ok? ==> r.value.origin != r.value.dest
    ensures r.Ok? ==> exists i :: LeftmostMatch(s, i) && r.value == DecodeAt(s, i)
    ensures r == Err(DegenerateMove) ==>
              exists i :: LeftmostMatch(s, i) && DecodeAt(s, i).origin == DecodeAt(s, i).dest
  {
    match FirstMatch(s, 0)
    case None => Err(BadFormat)
    case Some(i) =>
      var m := DecodeAt(s, i);
      if m.origin == m.dest then Err(DegenerateMove) else Ok(m)
  }

  function ColumnLetter(col: int): char
    requires 0 <= col < 8
  {
    ('A' as int + col) as char
  }

  function RowDigit(row: int): char
    requires 0 <= row < 8
  {
    ('1' as int + row) as char
  }

  /** The text of a move in the source's input format, e.g. "A2 - A4". */
  function Format(m: Move): (s: string)
    ensures MatchesAt(s, 0) && |s| == PatternLength
  {
    [ColumnLetter(m.origin.col), RowDigit(m.origin.row), ' ', '-', ' ',
     ColumnLetter(m.dest.col), RowDigit(m.dest.row)]
  }

  /** Parsing the formatted text of a non-degenerate move gives the move back,
      and so does parsing it inside any text whose prefix holds no column
      letter: the search is not anchored. */
  lemma ParseFormat(m: Move, prefix: string, suffix: string)
    requires m.origin != m.dest
    requires forall k :: 0 <= k < |prefix| ==> !IsColumnLetter(prefix[k])
    ensures ParseMove(Format(m)) == Ok(m)
    ensures ParseMove(prefix + Format(m) + suffix) == Ok(m)
  {
    var s := prefix + Format(m) + suffix;
    assert s[|prefix|..|prefix| + PatternLength] == Format(m);
    assert MatchesAt(s, |prefix|);
    assert forall j :: 0 <= j < |prefix| ==> !MatchesAt(s, j) by {
      forall j | 0 <= j < |prefix| ensures !MatchesAt(s, j) {
        assert s[j] == prefix[j];
      }
    }
    assert FirstMatch(s, 0) == Some(|prefix|);
    assert FirstMatch(Format(m), 0) == Some(0);
  }

  /** The pattern is upper-case only: the same move typed in lower case is refused. */
  lemma LowerCaseIsBadFormat()
    ensures ParseMove("a2 - a4") == Err(BadFormat)
  {
  }

  /** A move naming one square twice is refused even though the pattern matches. */
  lemma SameSquareIsDegenerate()
    ensures ParseMove("E2 - E2") == Err(DegenerateMove)
  {
    assert MatchesAt("E2 - E2", 0);
  }
}
