/** The input bookkeeping both brush base classes share: where the current press
    started, where the input is now and where it was one move earlier. */
module InputTracking {
  import opened Geometry

  datatype InputPositions = InputPositions(start: Vec2, current: Vec2, previous: Vec2)

  /** A new press at `position`: all three positions collapse onto it */
  function Started(position: Vec2): InputPositions {
    InputPositions(position, position, position)
  }

  /** A move to `position`: the old current becomes previous; the start is kept */
  function Moved(p: InputPositions, position: Vec2): InputPositions {
    p.(previous := p.current, current := position)
  }

  /** A press followed by a sequence of moves */
  function Replay(position: Vec2, moves: seq<Vec2>): InputPositions
    decreases |moves|
  {
    if moves == [] then Started(position)
    else Moved(Replay(position, moves[..|moves| - 1]), moves[|moves| - 1])
  }

  /** However many moves follow a press, the start stays where the press was, current is
      the last move and previous the one before it (the press itself standing in for
      missing moves). */
  lemma {:induction false} ReplayPositions(position: Vec2, moves: seq<Vec2>)
    ensures Replay(position, moves).start == position
    ensures Replay(position, moves).current == if |moves| >= 1 then moves[|moves| - 1] else position
    ensures Replay(position, moves).previous == if |moves| >= 2 then moves[|moves| - 2] else position
    decreases |moves|
  {
    if moves != [] {
      var init := moves[..|moves| - 1];
      ReplayPositions(position, init);
      if |moves| >= 2 {
        assert init[|init| - 1] == moves[|moves| - 2];
      }
    }
  }
}
