/** The stored game record of `game/models.py` (`Game`): who plays which colour, whose turn
    it is, the result and the clocks of a player-versus-player game. */
module Models {
  import opened Board

  /** A registered user; two users are the same user exactly when their ids agree. */
  datatype User = User(id: nat)

  /** The one-letter colour code stored in `Game.turn`. */
  function ColorCode(c: Color): (r: char)
    ensures r == 'w' || r == 'b'
    ensures c == White <==> r == 'w'
  {
    match c
    case White => 'w'
    case Black => 'b'
  }

  class GameRecord {
    var whitePlayer: Option<User>
    var blackPlayer: Option<User>
    /** 'w' or 'b'. */
    var turn: char
    /** 'ongoing', 'white_win', 'black_win' or 'draw'. */
    var status: string
    /** 'ai' or 'pvp'. */
    var gameType: string
    /** Seconds left on each clock; null until a time control is set. */
    var whiteTimeLeft: Option<int>
    var blackTimeLeft: Option<int>
    var timeIncrement: int
    /** When the last move was made, in microseconds; None before the first move. */
    var lastMoveTime: Option<int>

    /** `get_player_color`: the white seat is looked at first, so a user sitting on both
        sides is white. */
    function PlayerColor(user: User): (r: Option<Color>)
      reads this
      ensures r == Some(White) <==> whitePlayer == Some(user)
      ensures r == Some(Black) <==> whitePlayer != Some(user) && blackPlayer == Some(user)
      ensures r == None <==> whitePlayer != Some(user) && blackPlayer != Some(user)
    {
      if whitePlayer == Some(user) then Some(White)
      else if blackPlayer == Some(user) then Some(Black)
      else None
    }

    /** `is_player_turn`: never for someone who is not a player; for a player, exactly when
        the stored turn is the player's colour. */
    function IsPlayerTurn(user: User): (r: bool)
      reads this
      ensures PlayerColor(user) == None ==> !r
      ensures PlayerColor(user).Some? ==> (r <==> turn == ColorCode(PlayerColor(user).value))
    {
      var playerColor := PlayerColor(user);
      if playerColor.None? then false
      else (turn == 'w' && playerColor.value == White) || (turn == 'b' && playerColor.value == Black)
    }
  }

  /** A user who holds both seats is treated as white: it is that user's turn exactly when
      the stored turn is 'w'. */
  lemma SelfPlayIsWhite(game: GameRecord, user: User)
    requires game.whitePlayer == Some(user) && game.blackPlayer == Some(user)
    ensures game.PlayerColor(user) == Some(White)
    ensures game.IsPlayerTurn(user) <==> game.turn == 'w'
  {
  }

  /** With two different players and a well-formed turn, exactly one of them is to move. */
  lemma OneToMove(game: GameRecord, u: User, v: User)
    requires game.whitePlayer == Some(u) && game.blackPlayer == Some(v) && u != v
    requires game.turn == 'w' || game.turn == 'b'
    ensures game.IsPlayerTurn(u) != game.IsPlayerTurn(v)
    ensures game.IsPlayerTurn(u) <==> game.turn == 'w'
  {
  }
}
