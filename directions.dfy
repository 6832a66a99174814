/** The four travel and facing directions of the game (`'l'`, `'r'`, `'u'`, `'d'`). */
module Directions {

  datatype Direction = Left | Right | Up | Down

  /** Column step of a direction: left is -1, right is +1. */
  function DX(d: Direction): int {
    match d
    case Left => -1
    case Right => 1
    case Up => 0
    case Down => 0
  }

  /** Row step of a direction: up is -1, down is +1 (screen rows grow downward). */
  function DY(d: Direction): int {
    match d
    case Left => 0
    case Right => 0
    case Up => -1
    case Down => 1
  }

  /** Every direction moves along exactly one axis by exactly one step. */
  lemma SingleAxis(d: Direction)
    ensures (DX(d) == 0) != (DY(d) == 0)
    ensures DX(d) * DX(d) + DY(d) * DY(d) == 1
  {
  }

  /** The projectile-to-portal direction map: the reverse of a direction. */
  function Opposite(d: Direction): (o: Direction)
    ensures DX(o) == -DX(d) && DY(o) == -DY(d)
    ensures o != d
  {
    match d
    case Left => Right
    case Right => Left
    case Up => Down
    case Down => Up
  }

  /** The map is an involution: l and r swap, u and d swap. */
  lemma OppositeInvolution(d: Direction)
    ensures Opposite(Opposite(d)) == d
  {
  }
}
