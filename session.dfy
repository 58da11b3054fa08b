/** The server's module-level session record as an object whose fields the
    route handlers update in place. Each handler is proved to do exactly what
    the corresponding function of module Game says. */
module Api {
  import opened Game

  class GameSession {
    var players: seq<Player>
    var winner: Option<int>
    var gameOver: bool

    /** The record the fields hold. */
    function Snapshot(): State
      reads this
    {
      State(players, winner, gameOver)
    }

    ghost predicate Valid()
      reads this
    {
      Inv(Snapshot())
    }

    /** The record as the server creates it at start-up. */
    constructor ()
      ensures Valid()
      ensures Snapshot() == Empty()
    {
      players := [];
      winner := None;
      gameOver := false;
    }

    /** POST /create-player. */
    method CreatePlayer() returns (r: Response)
      modifies this
      ensures Outcome(Snapshot(), r) == Game.CreatePlayer(old(Snapshot()))
      ensures old(Valid()) ==> Valid()
    {
      if gameOver {
        return Html(400, GameOverText);
      }
      if |players| >= MaxPlayers {
        return Html(400, FullText);
      }
      players := players + [Player(|players| + 1, 0)];
      r := Redirect(303, PlayerUrl(|players|));
    }

    /** GET /player/{id}: reads the record and changes nothing. */
    method PlayerPage(id: int) returns (r: Response)
      ensures r == Lookup(Snapshot(), id)
      ensures r.Html? <==> !ValidId(Snapshot(), id)
    {
      if id < 1 || id > |players| {
        return Html(404, NotFoundText);
      }
      r := PlayerView(players[id - 1], gameOver, winner, None);
    }

    /** POST /player/{id}/run. */
    method RunAction(id: int) returns (r: Response)
      modifies this
      ensures Outcome(Snapshot(), r) == Run(old(Snapshot()), id)
      ensures old(Valid()) ==> Valid()
    {
      if id < 1 || id > |players| {
        return Html(404, NotFoundText);
      }
      if gameOver {
        return PlayerView(players[id - 1], true, winner, Some(GameOverMessage(winner)));
      }
      var player := players[id - 1];
      player := player.(steps := player.steps + 1);
      players := players[id - 1 := player];
      if player.steps >= WinningSteps {
        gameOver := true;
        winner := Some(id);
        return PlayerView(player, true, Some(id), Some(WonText));
      }
      r := PlayerView(player, false, None, None);
    }

    /** POST /reset-game. */
    method ResetGame() returns (r: Response)
      modifies this
      ensures Outcome(Snapshot(), r) == Reset(old(Snapshot()))
      ensures Valid()
    {
      players := [];
      winner := None;
      gameOver := false;
      r := Redirect(303, "/admin");
    }
  }

  /** A fresh session driven through the running-and-winning scenario:
      steps 2 for player 1, 1 for player 2, then player 1 wins and player 2
      is told the game is over. */
  method RunningAndWinning() returns (second: Response, third: Response, win: Response, late: Response)
    ensures second == PlayerView(Player(1, 2), false, None, None)
    ensures third == PlayerView(Player(2, 1), false, None, None)
    ensures win == PlayerView(Player(1, 3), true, Some(1), Some("You won!"))
    ensures late == PlayerView(Player(2, 1), true, Some(1), Some("Game Over - Player 1 won!"))
  {
    var g := new GameSession();
    var created := g.CreatePlayer();
    created := g.CreatePlayer();
    var first := g.RunAction(1);
    second := g.RunAction(1);
    third := g.RunAction(2);
    win := g.RunAction(1);
    late := g.RunAction(2);
    assert IntToString(1) == "1";
    assert GameOverMessage(Some(1)) == "Game Over - Player 1 won!";
  }

  /** A fresh session admits two players and refuses a third; after a reset
      it admits player 1 again. */
  method CreateThenReset() returns (first: Response, second: Response, third: Response, again: Response)
    ensures first == Redirect(303, "/player/1") && second == Redirect(303, "/player/2")
    ensures third == Html(400, FullText)
    ensures again == Redirect(303, "/player/1")
  {
    var g := new GameSession();
    first := g.CreatePlayer();
    second := g.CreatePlayer();
    third := g.CreatePlayer();
    var done := g.ResetGame();
    again := g.CreatePlayer();
    assert IntToString(1) == "1" && IntToString(2) == "2";
  }
}
