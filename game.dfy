/**
  The round view (src/components/Game.tsx): a local mirror of the round's
  multiplier and of whether a round is live, set by the socket events
  `multiplierUpdate`, `gameStart` and `gameEnd`, and two buttons that emit
  `placeBet` and `cashout` and are enabled only while a round is live.

  The socket handlers and the button clicks are the methods of `GameView`;
  what is emitted is appended to the ghost sequence `emitted`.
 */
module Game {

  /** Payload of `multiplierUpdate` (the `GameData` shape). */
  datatype GameData = GameData(multiplier: real, crashPoint: real)

  /** Payload of `placeBet` (the `UserData` shape). */
  datatype UserData = UserData(userId: int, username: string, amount: real)

  /** A message sent on the socket. */
  datatype Emit =
    | PlaceBetMessage(bet: UserData)
    | CashoutMessage(userId: int, multiplier: real)

  /** The fixed identity of the view (`useState(1)`, `useState("Player1")`). */
  const PlayerId: int := 1
  const PlayerName: string := "Player1"

  /** The fixed stake of the place-bet button. */
  const ManualBetAmount: real := 100.0

  class GameView {
    var multiplier: real
    var gameActive: bool
    const userId: int
    const username: string
    ghost var emitted: seq<Emit>

    /** First render: multiplier 1, no round live, nothing sent. */
    constructor ()
      ensures multiplier == 1.0 && !gameActive
      ensures userId == PlayerId && username == PlayerName
      ensures emitted == []
    {
      multiplier := 1.0;
      gameActive := false;
      userId := PlayerId;
      username := PlayerName;
      emitted := [];
    }

    /** Both buttons carry `disabled={!gameActive}`. */
    predicate ActionsEnabled()
      reads this
    {
      gameActive
    }

    /**
      `multiplierUpdate`: the carried value replaces the multiplier, whatever
      it is (a lower or equal value included); the round flag is untouched.
     */
    method MultiplierUpdate(data: GameData)
      modifies this`multiplier
      ensures multiplier == data.multiplier
    {
      multiplier := data.multiplier;
    }

    /** `gameStart`: a round is live and the multiplier restarts at 1. */
    method GameStart()
      modifies this`gameActive, this`multiplier
      ensures gameActive && multiplier == 1.0
    {
      gameActive := true;
      multiplier := 1.0;
    }

    /** `gameEnd`: the round is over; the last multiplier stays on display. */
    method GameEnd()
      modifies this`gameActive
      ensures !gameActive
    {
      gameActive := false;
    }

    /** `placeBet`: one `placeBet` message with the fixed identity and stake. */
    method PlaceBet()
      modifies this`emitted
      ensures emitted == old(emitted) + [PlaceBetMessage(UserData(userId, username, ManualBetAmount))]
    {
      var betData := UserData(userId, username, ManualBetAmount);
      emitted := emitted + [PlaceBetMessage(betData)];
    }

    /** `cashOut`: one `cashout` message carrying the multiplier shown now. */
    method CashOut()
      modifies this`emitted
      ensures emitted == old(emitted) + [CashoutMessage(userId, multiplier)]
    {
      emitted := emitted + [CashoutMessage(userId, multiplier)];
    }

    /** A click on the place-bet button: a disabled button sends nothing. */
    method ClickPlaceBet()
      modifies this`emitted
      ensures ActionsEnabled() ==>
        emitted == old(emitted) + [PlaceBetMessage(UserData(userId, username, ManualBetAmount))]
      ensures !ActionsEnabled() ==> emitted == old(emitted)
    {
      if ActionsEnabled() {
        PlaceBet();
      }
    }

    /** A click on the cash-out button: a disabled button sends nothing. */
    method ClickCashOut()
      modifies this`emitted
      ensures ActionsEnabled() ==> emitted == old(emitted) + [CashoutMessage(userId, multiplier)]
      ensures !ActionsEnabled() ==> emitted == old(emitted)
    {
      if ActionsEnabled() {
        CashOut();
      }
    }
  }
}
