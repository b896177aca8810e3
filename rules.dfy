/**
 * The winner rule of one round: the player's symbol against the computer's.
 * The scene stores the symbols as the texture names "Stein", "Papier" and
 * "Schere"; they are the three constructors of `Symbol` here.
 */
module Rules {

  datatype Symbol = Stein | Papier | Schere

  datatype GameResult = Win | Lose | Draw

  /** Place of a symbol on the cycle Stein, Papier, Schere: each is beaten by the next one. */
  function CyclePosition(s: Symbol): int {
    match s
    case Stein => 0
    case Papier => 1
    case Schere => 2
  }

  /** Reference rule: `a` beats `b` exactly when `a` lies one step after `b` on the cycle. */
  predicate Beats(a: Symbol, b: Symbol) {
    (CyclePosition(a) - CyclePosition(b)) % 3 == 1
  }

  /** The result seen from the player's side, as `determineWinner` decides it. */
  function DetermineWinner(player: Symbol, computer: Symbol): (r: GameResult)
    ensures r == Draw <==> player == computer
    ensures r == Win <==> Beats(player, computer)
    ensures r == Lose <==> Beats(computer, player)
  {
    if player == computer then
      Draw
    else if (player == Stein && computer == Schere)
         || (player == Schere && computer == Papier)
         || (player == Papier && computer == Stein) then
      Win
    else
      Lose
  }

  /** The same result seen from the other side of the table. */
  function Mirrored(r: GameResult): GameResult {
    match r
    case Win => Lose
    case Lose => Win
    case Draw => Draw
  }

  /** Exchanging the two choices exchanges win and lose and keeps a draw. */
  lemma SwappingChoicesMirrorsResult(player: Symbol, computer: Symbol)
    ensures DetermineWinner(computer, player) == Mirrored(DetermineWinner(player, computer))
  {
  }

  /** The full 3x3 table, row by row (player first). */
  lemma WinnerTable()
    ensures DetermineWinner(Stein, Stein) == Draw
    ensures DetermineWinner(Stein, Papier) == Lose
    ensures DetermineWinner(Stein, Schere) == Win
    ensures DetermineWinner(Papier, Stein) == Win
    ensures DetermineWinner(Papier, Papier) == Draw
    ensures DetermineWinner(Papier, Schere) == Lose
    ensures DetermineWinner(Schere, Stein) == Lose
    ensures DetermineWinner(Schere, Papier) == Win
    ensures DetermineWinner(Schere, Schere) == Draw
  {
  }

  /** Whatever the player picks, exactly one computer choice beats it and exactly one loses to it. */
  lemma EveryChoiceHasOneWinnerAndOneLoser(player: Symbol)
    ensures exists c :: DetermineWinner(player, c) == Win
    ensures exists c :: DetermineWinner(player, c) == Lose
    ensures forall c, d :: DetermineWinner(player, c) == DetermineWinner(player, d) ==> c == d
  {
    var pair := match player
      case Stein => (Schere, Papier)
      case Papier => (Stein, Schere)
      case Schere => (Papier, Stein);
    assert DetermineWinner(player, pair.0) == Win;
    assert DetermineWinner(player, pair.1) == Lose;
  }
}
