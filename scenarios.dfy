/**
  Clients that drive the three components through event sequences, using
  only the components' contracts. Each one pins down an observable behaviour
  of the code, including the places where a stricter reading of the game's
  rules would expect something else.
 */
module Scenarios {
  import opened Wrappers
  import opened NumericInput
  import opened Autobet
  import opened Airplane
  import opened Game

  lemma SmallNumbers()
    ensures Accepts("50") && Parse("50") == Val(50.0)
    ensures Accepts("3") && Parse("3") == Val(3.0)
    ensures Accepts("2") && Parse("2") == Val(2.0)
  {
    assert "50"[..1] == "5" && "5"[..0] == "";
    assert "3"[..0] == "" && "2"[..0] == "";
    assert "50"[1..] == "0" && "0"[1..] == "";
  }

  /** Settings "50" / "3" / "2" with "back to base" on a loss, typed into a fresh panel. */
  method ConfiguredPanel(gameActive: bool, countdown: Option<int>) returns (c: AutobetController)
    ensures fresh(c) && c.Valid()
    ensures c.settings == Settings("50", "3", "2", Base, Base)
    ensures c.currentBet == 0 && c.currentStake == 0.0 && !c.isAutobetActive
    ensures c.gameActive == gameActive && c.countdown == countdown
    ensures c.actions == []
  {
    SmallNumbers();
    c := new AutobetController(gameActive, countdown);
    c.InputChange(BaseBet, "50");
    c.InputChange(MaxStake, "3");
    c.InputChange(AutoCashout, "2");
  }

  /**
    The effect runs on every change of the countdown, and the count only
    moves when a result arrives: seven ticks 8, 7, ..., 2 of one countdown
    place seven bets of the same stake.
   */
  method RepeatedTicksInOneCountdown() {
    SmallNumbers();
    var c := ConfiguredPanel(true, None);
    c.StartAutobet();
    assert c.isAutobetActive && c.currentStake == 50.0 && c.currentBet == 0;
    var bet := BetActions(50.0, c.settings);
    assert bet == [SetBetAmount(50.0), PlaceBet(50.0, 2.0)];
    var n := 8;
    while n > 1
      invariant 1 <= n <= 8
      invariant c.Valid() && c.isAutobetActive && c.gameActive
      invariant c.settings == Settings("50", "3", "2", Base, Base)
      invariant c.currentBet == 0 && c.currentStake == 50.0
      invariant c.countdown == (if n == 8 then None else Some(n + 1))
      invariant |c.actions| == 2 * (8 - n)
      invariant forall k :: 0 <= k < 8 - n ==> c.actions[2 * k..2 * k + 2] == bet
      decreases n
    {
      ghost var before := c.actions;
      c.PropsChange(true, Some(n));
      assert c.actions == before + bet;
      forall k | 0 <= k < 8 - (n - 1) ensures c.actions[2 * k..2 * k + 2] == bet {
        if k < 8 - n { assert c.actions[2 * k..2 * k + 2] == before[2 * k..2 * k + 2]; }
      }
      n := n - 1;
    }
    assert |c.actions| == 14;
    // the same prop values again: no re-run, no bet
    c.PropsChange(true, Some(2));
    assert |c.actions| == 14;
  }

  /**
    One window tick and one losing result per round: three bets of 50,
    then the fourth window finds the count at the maximum and stops.
   */
  method ThreeLosingRounds() {
    SmallNumbers();
    var c := ConfiguredPanel(true, None);
    c.StartAutobet();
    var bet := BetActions(50.0, c.settings);
    assert bet == [SetBetAmount(50.0), PlaceBet(50.0, 2.0)];
    var round := 0;
    while round < 3
      invariant 0 <= round <= 3
      invariant c.Valid() && c.isAutobetActive && c.gameActive
      invariant c.settings == Settings("50", "3", "2", Base, Base)
      invariant c.currentBet == round && c.currentStake == 50.0
      invariant c.countdown == (if round == 0 then None else Some(10))
      invariant |c.actions| == 2 * round
      decreases 3 - round
    {
      c.PropsChange(true, Some(5));
      c.BetResult(false, 50.0);
      c.PropsChange(true, Some(10));
      round := round + 1;
    }
    c.PropsChange(true, Some(5));
    assert !c.isAutobetActive && |c.actions| == 6;
  }

  /** A round ending stops the automation; stopping keeps the count and the stake. */
  method GameEndStopsAutobet() {
    SmallNumbers();
    var c := ConfiguredPanel(true, None);
    c.StartAutobet();
    c.PropsChange(true, Some(5));
    c.BetResult(true, 50.0);
    assert c.currentBet == 1 && c.currentStake == 50.0;
    c.PropsChange(false, None);
    assert !c.isAutobetActive && c.currentBet == 1 && c.currentStake == 50.0;
    // a result arriving now changes nothing
    c.BetResult(false, 10.0);
    assert c.currentBet == 1 && c.currentStake == 50.0;
  }

  /** Editing the maximum while running takes effect at the next window: "." stops the automation. */
  method EditingTheMaximumWhileRunning() {
    SmallNumbers();
    var c := ConfiguredPanel(true, None);
    c.StartAutobet();
    assert Accepts(".");
    c.InputChange(MaxStake, ".");
    c.PropsChange(true, Some(6));
    assert !c.isAutobetActive && c.actions == [];
  }

  /** A lower multiplier tick is not ignored: the view shows the last value received. */
  method LateTickOverwrites() {
    var g := new GameView();
    g.GameStart();
    g.MultiplierUpdate(GameData(1.10, 3.0));
    g.MultiplierUpdate(GameData(1.05, 3.0));
    assert g.multiplier == 1.05;
    g.ClickCashOut();
    assert g.emitted == [CashoutMessage(PlayerId, 1.05)];
    g.GameEnd();
    g.ClickPlaceBet();
    g.ClickCashOut();
    assert g.emitted == [CashoutMessage(PlayerId, 1.05)] && g.multiplier == 1.05;
  }

  /**
    The explosion fires once per run: later ticks above the threshold do not
    call `onExplode` again, the timeout hides the plane, and a new round
    opens the latch.
   */
  method OneExplosionPerRun() {
    var a := new AirplaneAnimation(1.0, 2.0, None, false, 0);
    a.SetProps(1.0, 2.0, None, true, 1000);
    assert a.PlaneShown() && a.samplerRunning && a.startTime == Some(1000);
    a.SampleTick(7000);
    assert a.progress == 0.5;
    a.SetProps(2.5, 2.0, None, true, 7050);
    assert a.explosions == 1 && a.showExplosion && !a.PlaneShown();
    a.SetProps(3.0, 2.0, None, true, 7100);
    assert a.explosions == 1;
    a.ExplosionTimerFires();
    assert a.hidePlane && !a.showExplosion && !a.samplerRunning;
    a.SetProps(3.0, 2.0, None, false, 9000);
    assert a.pendingPathResets == 2 && !a.PlaneShown();
    a.PathResetTimerFires();
    a.SetProps(1.0, 2.0, Some(5), false, 9500);
    assert a.Readout() == CountdownReadout(5);
    a.SetProps(1.0, 2.0, None, true, 15000);
    assert !a.hasExploded && a.PlaneShown() && a.startTime == Some(15000);
  }

  /**
    A resize during a round is a run restart: it re-opens the latch, so with
    the multiplier still above the threshold `onExplode` is called again.
   */
  method ResizeRestartsTheRun() {
    var a := new AirplaneAnimation(1.0, 2.0, None, true, 0);
    a.SetProps(2.5, 2.0, None, true, 4000);
    assert a.explosions == 1;
    a.Resize(800.0, 300.0, 4500);
    assert a.animationKey == 1 && a.startTime == Some(4500);
    assert a.explosions == 2;
    a.SetProps(2.5, 2.0, None, false, 5000);
    a.Resize(600.0, 300.0, 6000);
    assert a.animationKey == 1 && a.explosions == 2;
  }

  /**
    The explosion's 800 ms timeout is never cancelled: if the run restarts
    before it fires, it stops the new run's sampler and hides its plane.
   */
  method ExplosionTimeoutOutlivesRestart() {
    var a := new AirplaneAnimation(1.0, 2.0, None, true, 0);
    a.SetProps(2.5, 2.0, None, true, 4000);
    assert a.pendingExplosionTimers == 1;
    a.SetProps(1.0, 2.0, None, true, 4100);
    a.Resize(800.0, 300.0, 4200);
    assert a.samplerRunning && a.PlaneShown();
    a.ExplosionTimerFires();
    assert a.gameActive && !a.samplerRunning && !a.PlaneShown();
  }
}
