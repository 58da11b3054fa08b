/** Sequences of requests against one session record, and what holds of
    every such sequence: the invariant, the frozen concluded game, steps that
    never go down, and reset from anywhere. */
module Traces {
  import opened Game

  /** The four routes that read or change the session record. */
  datatype Request = PostCreatePlayer | GetPlayer(id: int) | PostRun(id: int) | PostReset

  /** Dispatch one request to its handler. */
  function Handle(s: State, q: Request): (o: Outcome)
    ensures Inv(s) ==> Inv(o.next)
    ensures q.GetPlayer? ==> o.next == s
    ensures q.PostReset? ==> o.next == Empty()
  {
    match q
    case PostCreatePlayer => CreatePlayer(s)
    case GetPlayer(id) => Outcome(s, Lookup(s, id))
    case PostRun(id) => Run(s, id)
    case PostReset => Reset(s)
  }

  /** The record after handling the requests in order. */
  function Execute(s: State, qs: seq<Request>): State
    decreases |qs|
  {
    if qs == [] then s else Execute(Handle(s, qs[0]).next, qs[1..])
  }

  /** The responses to the requests, in order. */
  function Responses(s: State, qs: seq<Request>): (rs: seq<Response>)
    ensures |rs| == |qs|
    ensures |qs| > 0 ==> rs[0] == Handle(s, qs[0]).response
    decreases |qs|
  {
    if qs == [] then [] else [Handle(s, qs[0]).response] + Responses(Handle(s, qs[0]).next, qs[1..])
  }

  predicate NoReset(qs: seq<Request>)
  {
    forall k :: 0 <= k < |qs| ==> !qs[k].PostReset?
  }

  /** Every sequence of requests keeps the invariant. */
  lemma {:induction false} ExecuteKeepsInv(s: State, qs: seq<Request>)
    requires Inv(s)
    ensures Inv(Execute(s, qs))
    decreases |qs|
  {
    if qs != [] {
      ExecuteKeepsInv(Handle(s, qs[0]).next, qs[1..]);
    }
  }

  /** From start-up, whatever the requests: at most two players, ids 1..n,
      game over exactly when a winner is set, the winner a registered id,
      nobody at the threshold while the game runs and the winner exactly at it after. */
  lemma ReachableIsValid(qs: seq<Request>)
    ensures var t := Execute(Empty(), qs);
      && |t.players| <= MaxPlayers
      && IdsSequential(t.players)
      && (t.gameOver <==> t.winner.Some?)
      && (t.winner.Some? ==> 1 <= t.winner.value <= |t.players|)
      && (!t.gameOver ==> forall i :: 0 <= i < |t.players| ==> t.players[i].steps < WinningSteps)
      && (t.gameOver ==> t.players[t.winner.value - 1].steps == WinningSteps)
  {
    ExecuteKeepsInv(Empty(), qs);
  }

  /** No two players ever both reach the threshold. */
  lemma AtMostOneWinner(qs: seq<Request>, i: nat, j: nat)
    requires var t := Execute(Empty(), qs);
      i < |t.players| && j < |t.players| &&
      t.players[i].steps >= WinningSteps && t.players[j].steps >= WinningSteps
    ensures i == j
  {
    ExecuteKeepsInv(Empty(), qs);
  }

  lemma {:induction false} ExecuteAppend(s: State, qs: seq<Request>, rs: seq<Request>)
    ensures Execute(s, qs + rs) == Execute(Execute(s, qs), rs)
    decreases |qs|
  {
    if qs == [] {
      assert qs + rs == rs;
    } else {
      assert (qs + rs)[0] == qs[0];
      assert (qs + rs)[1..] == qs[1..] + rs;
      ExecuteAppend(Handle(s, qs[0]).next, qs[1..], rs);
    }
  }

  /** A reset after any sequence of requests gives the start-up record. */
  lemma ResetAfterAnything(s: State, qs: seq<Request>)
    ensures Execute(s, qs + [PostReset]) == Empty()
  {
    ExecuteAppend(s, qs, [PostReset]);
  }

  /** Resetting twice is resetting once. */
  lemma ResetIdempotent(s: State)
    ensures Execute(s, [PostReset, PostReset]) == Execute(s, [PostReset])
    ensures Reset(Reset(s).next) == Reset(s)
  {
  }

  /** Once the game is over, no request but a reset changes the record, and
      every player page it produces names the stored winner. */
  lemma {:induction false} ConcludedIsFrozen(s: State, qs: seq<Request>)
    requires s.gameOver && NoReset(qs)
    ensures Execute(s, qs) == s
    ensures forall k :: 0 <= k < |qs| ==>
      var r := Responses(s, qs)[k];
      (r.PlayerView? ==> r.winner == s.winner && r.gameOver) &&
      (qs[k].PostCreatePlayer? ==> r == Html(400, GameOverText))
    decreases |qs|
  {
    if qs != [] {
      assert NoReset(qs[1..]) by {
        forall k | 0 <= k < |qs[1..]| ensures !qs[1..][k].PostReset? {
          assert qs[1..][k] == qs[k + 1];
        }
      }
      ConcludedIsFrozen(s, qs[1..]);
      var rs := Responses(s, qs);
      assert rs[1..] == Responses(s, qs[1..]);
    }
  }

  /** Between resets, players are never removed, ids never change and steps never go down. */
  lemma {:induction false} StepsNeverDecrease(s: State, qs: seq<Request>)
    requires NoReset(qs)
    ensures var t := Execute(s, qs);
      |t.players| >= |s.players| &&
      forall i :: 0 <= i < |s.players| ==>
        t.players[i].id == s.players[i].id && t.players[i].steps >= s.players[i].steps
    decreases |qs|
  {
    if qs != [] {
      var s1 := Handle(s, qs[0]).next;
      assert NoReset(qs[1..]) by {
        forall k | 0 <= k < |qs[1..]| ensures !qs[1..][k].PostReset? {
          assert qs[1..][k] == qs[k + 1];
        }
      }
      assert !qs[0].PostReset?;
      StepsNeverDecrease(s1, qs[1..]);
    }
  }

  /** A run ends the game exactly when it lifts the player from one below the threshold. */
  lemma RunWinsIff(s: State, id: int)
    requires Inv(s) && !s.gameOver && ValidId(s, id)
    ensures Run(s, id).next.gameOver <==> s.players[id - 1].steps == WinningSteps - 1
  {
  }

  /** Handling a request and then the rest, one step at a time. */
  lemma ExecuteCons(s: State, q: Request, qs: seq<Request>)
    ensures Execute(s, [q] + qs) == Execute(Handle(s, q).next, qs)
  {
    assert ([q] + qs)[0] == q;
    assert ([q] + qs)[1..] == qs;
  }

  lemma ResponsesCons(s: State, q: Request, qs: seq<Request>)
    ensures Responses(s, [q] + qs) == [Handle(s, q).response] + Responses(Handle(s, q).next, qs)
  {
    assert ([q] + qs)[0] == q;
    assert ([q] + qs)[1..] == qs;
  }

  /** A player who runs three times from zero, with nobody else running in
      between, is not the winner after one or two runs and is after the third. */
  lemma ThreeRunsWin(s: State, id: int)
    requires Inv(s) && !s.gameOver && ValidId(s, id) && s.players[id - 1].steps == 0
    ensures !Execute(s, [PostRun(id)]).gameOver
    ensures !Execute(s, [PostRun(id), PostRun(id)]).gameOver
    ensures Execute(s, [PostRun(id), PostRun(id), PostRun(id)]).winner == Some(id)
    ensures Responses(s, [PostRun(id), PostRun(id), PostRun(id)])[2] ==
      PlayerView(Player(id, WinningSteps), true, Some(id), Some(WonText))
  {
    var q := PostRun(id);
    var s1 := Run(s, id).next;
    var s2 := Run(s1, id).next;
    var o3 := Run(s2, id);
    ExecuteCons(s2, q, []);
    ExecuteCons(s1, q, []);
    ExecuteCons(s1, q, [q]);
    ExecuteCons(s, q, []);
    ExecuteCons(s, q, [q]);
    ExecuteCons(s, q, [q, q]);
    ResponsesCons(s2, q, []);
    ResponsesCons(s1, q, [q]);
    ResponsesCons(s, q, [q, q]);
    assert [q] + [q] == [q, q];
    assert [q] + [q, q] == [q, q, q];
  }

  /** Two players register, a third is refused. */
  lemma CreatePlayersScenario()
    ensures Responses(Empty(), [PostCreatePlayer, PostCreatePlayer, PostCreatePlayer]) ==
      [Redirect(303, "/player/1"), Redirect(303, "/player/2"), Html(400, FullText)]
  {
    var q := PostCreatePlayer;
    var s1 := State([Player(1, 0)], None, false);
    var s2 := State([Player(1, 0), Player(2, 0)], None, false);
    assert IntToString(1) == "1" && IntToString(2) == "2";
    assert Handle(Empty(), q) == Outcome(s1, Redirect(303, "/player/1"));
    assert Handle(s1, q) == Outcome(s2, Redirect(303, "/player/2"));
    ResponsesCons(s2, q, []);
    ResponsesCons(s1, q, [q]);
    ResponsesCons(Empty(), q, [q, q]);
    assert [q] + [q] == [q, q];
    assert [q] + [q, q] == [q, q, q];
  }

  /** The record after each request of the running-and-winning scenario. */
  function ScenarioState(k: nat): State
  {
    match k
    case 0 => Empty()
    case 1 => State([Player(1, 0)], None, false)
    case 2 => State([Player(1, 0), Player(2, 0)], None, false)
    case 3 => State([Player(1, 1), Player(2, 0)], None, false)
    case 4 => State([Player(1, 2), Player(2, 0)], None, false)
    case 5 => State([Player(1, 2), Player(2, 1)], None, false)
    case _ => State([Player(1, 3), Player(2, 1)], Some(1), true)
  }

  lemma ScenarioRegistration()
    ensures Handle(ScenarioState(0), PostCreatePlayer) == Outcome(ScenarioState(1), Redirect(303, "/player/1"))
    ensures Handle(ScenarioState(1), PostCreatePlayer) == Outcome(ScenarioState(2), Redirect(303, "/player/2"))
  {
    assert IntToString(1) == "1" && IntToString(2) == "2";
  }

  lemma ScenarioRunning()
    ensures Handle(ScenarioState(2), PostRun(1)) == Outcome(ScenarioState(3), PlayerView(Player(1, 1), false, None, None))
    ensures Handle(ScenarioState(3), PostRun(1)) == Outcome(ScenarioState(4), PlayerView(Player(1, 2), false, None, None))
    ensures Handle(ScenarioState(4), PostRun(2)) == Outcome(ScenarioState(5), PlayerView(Player(2, 1), false, None, None))
  {
  }

  lemma ScenarioWinning()
    ensures Handle(ScenarioState(5), PostRun(1)) ==
      Outcome(ScenarioState(6), PlayerView(Player(1, 3), true, Some(1), Some("You won!")))
    ensures Handle(ScenarioState(6), PostRun(2)) ==
      Outcome(ScenarioState(6), PlayerView(Player(2, 1), true, Some(1), Some("Game Over - Player 1 won!")))
  {
    assert IntToString(1) == "1";
    assert GameOverMessage(Some(1)) == "Game Over - Player 1 won!";
  }

  /** Player 1 runs twice, player 2 once, player 1 wins, then player 2 is told the game is over. */
  lemma RunningAndWinningScenario()
    ensures Responses(Empty(), [PostCreatePlayer, PostCreatePlayer,
                                PostRun(1), PostRun(1), PostRun(2), PostRun(1), PostRun(2)]) ==
      [ Redirect(303, "/player/1"), Redirect(303, "/player/2"),
        PlayerView(Player(1, 1), false, None, None),
        PlayerView(Player(1, 2), false, None, None),
        PlayerView(Player(2, 1), false, None, None),
        PlayerView(Player(1, 3), true, Some(1), Some("You won!")),
        PlayerView(Player(2, 1), true, Some(1), Some("Game Over - Player 1 won!")) ]
  {
    var c, r1, r2 := PostCreatePlayer, PostRun(1), PostRun(2);
    var v1, v2 := Redirect(303, "/player/1"), Redirect(303, "/player/2");
    var v3, v4, v5 := PlayerView(Player(1, 1), false, None, None), PlayerView(Player(1, 2), false, None, None),
                      PlayerView(Player(2, 1), false, None, None);
    var v6 := PlayerView(Player(1, 3), true, Some(1), Some("You won!"));
    var v7 := PlayerView(Player(2, 1), true, Some(1), Some("Game Over - Player 1 won!"));
    ScenarioRegistration();
    ScenarioRunning();
    ScenarioWinning();
    ResponsesCons(ScenarioState(6), r2, []);
    assert Responses(ScenarioState(6), [r2]) == [v7];
    ResponsesCons(ScenarioState(5), r1, [r2]);
    assert Responses(ScenarioState(5), [r1, r2]) == [v6, v7];
    ResponsesCons(ScenarioState(4), r2, [r1, r2]);
    assert Responses(ScenarioState(4), [r2, r1, r2]) == [v5, v6, v7];
    ResponsesCons(ScenarioState(3), r1, [r2, r1, r2]);
    assert Responses(ScenarioState(3), [r1, r2, r1, r2]) == [v4, v5, v6, v7];
    ResponsesCons(ScenarioState(2), r1, [r1, r2, r1, r2]);
    assert Responses(ScenarioState(2), [r1, r1, r2, r1, r2]) == [v3, v4, v5, v6, v7];
    ResponsesCons(ScenarioState(1), c, [r1, r1, r2, r1, r2]);
    assert Responses(ScenarioState(1), [c, r1, r1, r2, r1, r2]) == [v2, v3, v4, v5, v6, v7];
    ResponsesCons(ScenarioState(0), c, [c, r1, r1, r2, r1, r2]);
    assert [c] + [c, r1, r1, r2, r1, r2] == [c, c, r1, r1, r2, r1, r2];
  }

  /** A newly registered player's page shows no steps in a running game. */
  lemma PlayerPageScenario()
    ensures Lookup(CreatePlayer(Empty()).next, 1) == PlayerView(Player(1, 0), false, None, None)
  {
  }

  /** An unknown id on an empty session is not found. */
  lemma UnknownPlayerScenario()
    ensures Lookup(Empty(), 99) == Html(404, NotFoundText)
    ensures Run(Empty(), 99) == Outcome(Empty(), Html(404, NotFoundText))
  {
  }
}
