/** The game session of the AR-Larping "arse" server, as values.

    The server keeps one module-level record with the registered players
    (each an id and a step counter), the winner (if any) and a game-over flag.
    Four route handlers read and change it. This module states each handler
    as a function of the old record giving the response and, for the three
    that change it, the new record, together with the invariant they keep.
 */
module Game {

  datatype Option<+T> = None | Some(value: T)

  /** Steps a player needs to win. */
  const WinningSteps: nat := 3

  /** Players a game admits. */
  const MaxPlayers: nat := 2

  /** One entry of the players list: `{"id": ..., "steps": ...}`. */
  datatype Player = Player(id: int, steps: nat)

  /** The whole session record: players in registration order, the winner's id, the game-over flag. */
  datatype State = State(players: seq<Player>, winner: Option<int>, gameOver: bool)

  /** What a handler answers, without the HTML rendering. */
  datatype Response =
    | Html(status: int, text: string)          // a plain HTML response with a status code
    | Redirect(status: int, url: string)       // a redirect to another page
    | PlayerView(player: Player, gameOver: bool, winner: Option<int>, message: Option<string>)
                                               // the player page, rendered with status 200

  /** The outcome of one handler call: the record afterwards and the response. */
  datatype Outcome = Outcome(next: State, response: Response)

  const GameOverText: string := "Game is over. Cannot create new players."
  const FullText: string := "Maximum number of players reached."
  const NotFoundText: string := "Player not found"
  const WonText: string := "You won!"

  /** The HTTP status a response carries. */
  function StatusOf(r: Response): int
  {
    match r
    case Html(status, _) => status
    case Redirect(status, _) => status
    case PlayerView(_, _, _, _) => 200
  }

  /** Decimal digits of a natural number, as Python's `str` writes them. */
  function NatToString(n: nat): string
    decreases n
  {
    var d := ['0' + (n % 10) as char];
    if n < 10 then d else NatToString(n / 10) + d
  }

  /** An integer in decimal, with a minus sign when negative. */
  function IntToString(i: int): string
  {
    if i < 0 then "-" + NatToString(-i) else NatToString(i)
  }

  /** The text of an absent winner in an f-string. */
  function WinnerToString(w: Option<int>): string
  {
    match w
    case Some(id) => IntToString(id)
    case None => "None"
  }

  function GameOverMessage(w: Option<int>): string
  {
    "Game Over - Player " + WinnerToString(w) + " won!"
  }

  function PlayerUrl(id: int): string
  {
    "/player/" + IntToString(id)
  }

  /** The record at start-up and after a reset. */
  function Empty(): State
  {
    State([], None, false)
  }

  /** The range check both player routes apply to the id in the path. */
  predicate ValidId(s: State, id: int)
  {
    1 <= id <= |s.players|
  }

  /** Ids are exactly 1..n in registration order. */
  predicate IdsSequential(players: seq<Player>)
  {
    forall i :: 0 <= i < |players| ==> players[i].id == i + 1
  }

  /** Before the end nobody has reached the threshold; at the end the winner has
      exactly reached it and everybody else is still below. */
  predicate StepsAgreeWithWinner(s: State)
  {
    if s.gameOver then
      s.winner.Some? && ValidId(s, s.winner.value) &&
      forall i :: 0 <= i < |s.players| ==>
        if i + 1 == s.winner.value then s.players[i].steps == WinningSteps
        else s.players[i].steps < WinningSteps
    else
      forall i :: 0 <= i < |s.players| ==> s.players[i].steps < WinningSteps
  }

  /** The invariant of the session record. */
  predicate Inv(s: State)
  {
    && |s.players| <= MaxPlayers
    && IdsSequential(s.players)
    && (s.gameOver <==> s.winner.Some?)
    && (s.winner.Some? ==> ValidId(s, s.winner.value))
    && StepsAgreeWithWinner(s)
  }

  /** POST /create-player: refused once the game is over or full, otherwise
      appends a player with the next id and no steps and redirects to its page. */
  function CreatePlayer(s: State): (o: Outcome)
    ensures o.response.Html? <==> s.gameOver || |s.players| >= MaxPlayers
    ensures o.response.Html? ==> o.next == s && StatusOf(o.response) == 400
    ensures s.gameOver ==> o.response.text == GameOverText
    ensures !s.gameOver && |s.players| >= MaxPlayers ==> o.response.text == FullText
    ensures !o.response.Html? ==>
      && o.next.players == s.players + [Player(|s.players| + 1, 0)]
      && o.next.winner == s.winner && o.next.gameOver == s.gameOver
      && o.response == Redirect(303, PlayerUrl(|o.next.players|))
    ensures Inv(s) ==> Inv(o.next)
  {
    if s.gameOver then
      Outcome(s, Html(400, GameOverText))
    else if |s.players| >= MaxPlayers then
      Outcome(s, Html(400, FullText))
    else
      var id := |s.players| + 1;
      var next := s.(players := s.players + [Player(id, 0)]);
      Outcome(next, Redirect(303, PlayerUrl(|next.players|)))
  }

  /** GET /player/{id}: the player with its game status, or 404. */
  function Lookup(s: State, id: int): (r: Response)
    ensures r.Html? <==> !ValidId(s, id)
    ensures r.Html? ==> r == Html(404, NotFoundText)
    ensures r.PlayerView? ==>
      && r.player == s.players[id - 1] && r.gameOver == s.gameOver
      && r.winner == s.winner && r.message == None
    ensures Inv(s) && r.PlayerView? ==> r.player.id == id
  {
    if id < 1 || id > |s.players| then Html(404, NotFoundText)
    else PlayerView(s.players[id - 1], s.gameOver, s.winner, None)
  }

  /** The players list with one player's steps raised by one. */
  function Advance(players: seq<Player>, i: nat): (ps: seq<Player>)
    requires i < |players|
    ensures |ps| == |players|
    ensures ps[i] == players[i].(steps := players[i].steps + 1)
    ensures forall j :: 0 <= j < |ps| && j != i ==> ps[j] == players[j]
  {
    players[i := players[i].(steps := players[i].steps + 1)]
  }

  /** POST /player/{id}/run: 404 for an unknown id; once the game is over it
      changes nothing and names the stored winner; otherwise the player takes
      one step and wins on reaching the threshold. */
  function Run(s: State, id: int): (o: Outcome)
    ensures o.response == Html(404, NotFoundText) <==> !ValidId(s, id)
    ensures !ValidId(s, id) || s.gameOver ==> o.next == s
    ensures ValidId(s, id) && s.gameOver ==>
      o.response == PlayerView(s.players[id - 1], true, s.winner, Some(GameOverMessage(s.winner)))
    ensures ValidId(s, id) && !s.gameOver ==>
      && |o.next.players| == |s.players|
      && o.next.players[id - 1].id == s.players[id - 1].id
      && o.next.players[id - 1].steps == s.players[id - 1].steps + 1
      && (forall j :: 0 <= j < |s.players| && j != id - 1 ==> o.next.players[j] == s.players[j])
      && (o.next.gameOver <==> o.next.players[id - 1].steps >= WinningSteps)
      && (o.next.gameOver ==> o.next.winner == Some(id)
                              && o.response == PlayerView(o.next.players[id - 1], true, Some(id), Some(WonText)))
      && (!o.next.gameOver ==> o.next.winner == s.winner
                               && o.response == PlayerView(o.next.players[id - 1], false, None, None))
    ensures Inv(s) ==> Inv(o.next)
  {
    if id < 1 || id > |s.players| then
      Outcome(s, Html(404, NotFoundText))
    else if s.gameOver then
      Outcome(s, PlayerView(s.players[id - 1], true, s.winner, Some(GameOverMessage(s.winner))))
    else
      var players := Advance(s.players, id - 1);
      var player := players[id - 1];
      if player.steps >= WinningSteps then
        Outcome(State(players, Some(id), true), PlayerView(player, true, Some(id), Some(WonText)))
      else
        Outcome(s.(players := players), PlayerView(player, false, None, None))
  }

  /** POST /reset-game: back to the start-up record, redirecting to the admin page. */
  function Reset(s: State): (o: Outcome)
    ensures o.next.players == [] && o.next.winner == None && !o.next.gameOver
    ensures Inv(o.next)
    ensures o.response == Redirect(303, "/admin")
  {
    Outcome(Empty(), Redirect(303, "/admin"))
  }
}
