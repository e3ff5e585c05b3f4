/**
  The autobet panel (src/components/Autobet.tsx): three text settings, two
  strategies, and a controller that places the current stake during the
  countdown window and adjusts it when a bet result arrives.

  The component's state (`settings`, `currentBet`, `currentStake`,
  `isAutobetActive`) and the props it watches (`gameActive`, `countdown`) are
  the fields of `AutobetController`. Each inbound event is a method: an edit of
  a text field, a radio choice, the start and stop buttons, a new pair of props
  (which re-runs the countdown effect when either prop changed) and a
  `betResult` socket message. What the component sends out (`setBetAmount`,
  `placebet`, the error toast) is appended to the ghost sequence `actions`.
 */
module Autobet {
  import opened Wrappers
  import opened NumericInput

  datatype Strategy = Base | Double

  datatype Settings = Settings(
    baseBet: string,
    maxStake: string,
    autoCashout: string,
    winStrategy: Strategy,
    loseStrategy: Strategy)

  /** The three text inputs of the panel. */
  datatype TextField = BaseBet | MaxStake | AutoCashout

  /** The two radio groups of the panel. */
  datatype StrategyField = WinStrategy | LoseStrategy

  /** What the component does to the outside world. */
  datatype Action =
    | SetBetAmount(amount: real)
    | PlaceBet(amount: real, cashout: real)
    | ErrorToast(message: string)

  const InitialSettings := Settings("", "", "", Base, Base)

  /** Fallback of `autoCashout`, and the least cash-out a start accepts. */
  const MinCashout: real := 1.01

  const InvalidSettingsMessage := "Please enter valid bet settings."

  function FieldValue(st: Settings, key: TextField): string {
    match key
    case BaseBet => st.baseBet
    case MaxStake => st.maxStake
    case AutoCashout => st.autoCashout
  }

  /** `{ ...settings, [key]: value }` for a text field. */
  function WithField(st: Settings, key: TextField, value: string): (r: Settings)
    ensures FieldValue(r, key) == value
    ensures forall k :: k != key ==> FieldValue(r, k) == FieldValue(st, k)
    ensures r.winStrategy == st.winStrategy && r.loseStrategy == st.loseStrategy
  {
    match key
    case BaseBet => st.(baseBet := value)
    case MaxStake => st.(maxStake := value)
    case AutoCashout => st.(autoCashout := value)
  }

  /** `{ ...settings, [strategy]: option }` for a radio group. */
  function WithStrategy(st: Settings, which: StrategyField, option: Strategy): (r: Settings)
    ensures which == WinStrategy ==> r.winStrategy == option && r.loseStrategy == st.loseStrategy
    ensures which == LoseStrategy ==> r.loseStrategy == option && r.winStrategy == st.winStrategy
    ensures forall k :: FieldValue(r, k) == FieldValue(st, k)
  {
    match which
    case WinStrategy => st.(winStrategy := option)
    case LoseStrategy => st.(loseStrategy := option)
  }

  /** Every text field holds a string the input gate admitted. */
  predicate SettingsValid(st: Settings) {
    Accepts(st.baseBet) && Accepts(st.maxStake) && Accepts(st.autoCashout)
  }

  /**
    The check `startAutobet` makes: with `baseBet = Number(baseBet) || 0`,
    `maxStake = Number(maxStake) || 0` and `autoCashout = Number(autoCashout) || 1.01`,
    it refuses when `baseBet <= 0`, `maxStake <= 0` or `autoCashout < 1.01`, and
    otherwise yields the stake to start from.
   */
  function StartCheck(st: Settings): (r: Option<real>)
    requires SettingsValid(st)
    ensures r.Some? ==> r.value > 0.0 && r.value == NumberOr(st.baseBet, 0.0)
  {
    var baseBet := NumberOr(st.baseBet, 0.0);
    var maxStake := NumberOr(st.maxStake, 0.0);
    var autoCashout := NumberOr(st.autoCashout, MinCashout);
    if baseBet <= 0.0 || maxStake <= 0.0 || autoCashout < MinCashout then None
    else Some(baseBet)
  }

  /**
    The start check in terms of the strings the user typed: base bet and
    maximum each need a digit other than 0, and the cash-out either has none
    (so it falls back to 1.01) or reads as at least 1.01.
   */
  lemma StartCheckIff(st: Settings)
    requires SettingsValid(st)
    ensures StartCheck(st).Some? <==>
      && HasNonzeroDigit(st.baseBet)
      && HasNonzeroDigit(st.maxStake)
      && (!HasNonzeroDigit(st.autoCashout) || Parse(st.autoCashout).value >= MinCashout)
  {
  }

  /** A cash-out of exactly 1 is refused, however it is written. */
  lemma StartRejectsCashoutOne(st: Settings)
    requires SettingsValid(st)
    requires st.autoCashout == "1" || st.autoCashout == "1.00"
    ensures StartCheck(st) == None
  {
    if st.autoCashout == "1.00" {
      assert DotIndex("1.00") == 1;
      assert "1.00"[..1] == "1";
      assert "1.00"[2..] == "00";
      assert IntValue("1") == 1 by { assert "1"[..0] == ""; }
      assert FracValue("00") == 0.0;
    } else {
      assert IntValue("1") == 1 by { assert "1"[..0] == ""; }
    }
  }

  /** A cash-out of 1.01, the least accepted value, passes the cash-out check. */
  lemma StartAcceptsCashoutFloor(st: Settings)
    requires SettingsValid(st)
    requires HasNonzeroDigit(st.baseBet) && HasNonzeroDigit(st.maxStake)
    requires st.autoCashout == "1.01"
    ensures StartCheck(st).Some?
  {
    assert DotIndex("1.01") == 1;
    assert "1.01"[..1] == "1";
    assert "1.01"[2..] == "01";
    assert IntValue("1") == 1 by { assert "1"[..0] == ""; }
    assert FracValue("01") == 0.01 by {
      assert "01"[1..] == "1";
      assert FracValue("1") == 0.1 by { assert "1"[1..] == ""; }
    }
  }

  /**
    An empty cash-out, "0", "0.0" or the unparsable "." fall back to 1.01,
    which passes the check: only the base bet and the maximum decide.
   */
  lemma StartWithDefaultCashout(st: Settings)
    requires SettingsValid(st)
    requires !HasNonzeroDigit(st.autoCashout)
    ensures NumberOr(st.autoCashout, MinCashout) == MinCashout
    ensures StartCheck(st).Some? <==> HasNonzeroDigit(st.baseBet) && HasNonzeroDigit(st.maxStake)
  {
  }

  /**
    The countdown window of the effect: `countdown && countdown > 1 && countdown <= 8`
    (the `countdown &&` also rules out null and 0).
   */
  predicate InBettingWindow(countdown: Option<int>)
    ensures InBettingWindow(countdown) <==> countdown.Some? && 2 <= countdown.value <= 8
  {
    countdown.Some? && countdown.value != 0 && countdown.value > 1 && countdown.value <= 8
  }

  /**
    `currentBet < Number(settings.maxStake)`, without a fallback: NaN compares
    false, so the lone dot stops the automation like an empty maximum does.
   */
  predicate BelowCeiling(currentBet: nat, maxStake: string)
    requires Accepts(maxStake)
  {
    match Parse(maxStake)
    case NaN => false
    case Val(v) => (currentBet as real) < v
  }

  /** The ceiling admits a further bet exactly when the maximum reads as more than the count so far. */
  lemma BelowCeilingIff(currentBet: nat, maxStake: string)
    requires Accepts(maxStake)
    ensures BelowCeiling(currentBet, maxStake) <==>
      HasNonzeroDigit(maxStake) && (currentBet as real) < Parse(maxStake).value
  {
  }

  /** The stake strategy chosen for an outcome. */
  function StrategyFor(st: Settings, win: bool): Strategy {
    if win then st.winStrategy else st.loseStrategy
  }

  /**
    The stake `handleBetResult` sets: twice the settled amount under "double",
    the base bet (`Number(baseBet) || 0`) under "base".
   */
  function StakeAfterResult(st: Settings, win: bool, amount: real): (stake: real)
    requires SettingsValid(st)
    ensures StrategyFor(st, win) == Double ==> stake == 2.0 * amount
    ensures StrategyFor(st, win) == Base ==> stake == NumberOr(st.baseBet, 0.0)
  {
    if StrategyFor(st, win) == Double then amount * 2.0 else NumberOr(st.baseBet, 0.0)
  }

  /**
    Under "base", the stake after a result does not depend on the settled
    amount, and is the stake a start from these settings begins with.
   */
  lemma BaseResetsToStartStake(st: Settings, win: bool, amount1: real, amount2: real)
    requires SettingsValid(st)
    requires StrategyFor(st, win) == Base
    ensures StakeAfterResult(st, win, amount1) == StakeAfterResult(st, win, amount2)
    ensures StartCheck(st).Some? ==> StakeAfterResult(st, win, amount1) == StartCheck(st).value
  {
  }

  class AutobetController {
    var settings: Settings
    var currentBet: nat
    var currentStake: real
    var isAutobetActive: bool
    // the props the countdown effect depends on
    var gameActive: bool
    var countdown: Option<int>
    // what has been sent out, oldest first
    ghost var actions: seq<Action>

    ghost predicate Valid()
      reads this
    {
      SettingsValid(settings)
    }

    /** First render; the mount run of the countdown effect changes nothing while inactive. */
    constructor (gameActive: bool, countdown: Option<int>)
      ensures Valid()
      ensures settings == InitialSettings
      ensures currentBet == 0 && currentStake == 0.0 && !isAutobetActive
      ensures this.gameActive == gameActive && this.countdown == countdown
      ensures actions == []
    {
      settings := InitialSettings;
      currentBet := 0;
      currentStake := 0.0;
      isAutobetActive := false;
      this.gameActive := gameActive;
      this.countdown := countdown;
      actions := [];
    }

    /** `handleInputChange`: the edit is stored only if the gate admits it. */
    method InputChange(key: TextField, value: string)
      requires Valid()
      modifies this`settings
      ensures Valid()
      ensures Accepts(value) ==> settings == WithField(old(settings), key, value)
      ensures !Accepts(value) ==> settings == old(settings)
    {
      if Accepts(value) {
        settings := WithField(settings, key, value);
      }
    }

    /** The radio buttons' `onChange`. */
    method ChooseStrategy(which: StrategyField, option: Strategy)
      requires Valid()
      modifies this`settings
      ensures Valid()
      ensures settings == WithStrategy(old(settings), which, option)
    {
      settings := WithStrategy(settings, which, option);
    }

    /** `startAutobet`: refuses invalid settings with a toast and no state change. */
    method StartAutobet()
      requires Valid()
      modifies this`currentBet, this`currentStake, this`isAutobetActive, this`actions
      ensures StartCheck(settings).None? ==>
        && currentBet == old(currentBet) && currentStake == old(currentStake)
        && isAutobetActive == old(isAutobetActive)
        && actions == old(actions) + [ErrorToast(InvalidSettingsMessage)]
      ensures StartCheck(settings).Some? ==>
        && currentBet == 0 && currentStake == StartCheck(settings).value
        && isAutobetActive
        && actions == old(actions)
    {
      var check := StartCheck(settings);
      if check.None? {
        actions := actions + [ErrorToast(InvalidSettingsMessage)];
        return;
      }
      currentBet := 0;
      currentStake := check.value;
      isAutobetActive := true;
    }

    /** `stopAutobet`: the count and the stake are kept. */
    method StopAutobet()
      modifies this`isAutobetActive
      ensures !isAutobetActive
    {
      isAutobetActive := false;
    }

    /**
      A render with props `gameActive` and `countdown`. React re-runs the
      countdown effect only when one of the two differs from the last render;
      each run, inside the window, either places the current stake (if the
      count is below the maximum) or stops; and any run with the game
      inactive stops the automation.
     */
    method PropsChange(gameActive: bool, countdown: Option<int>)
      requires Valid()
      modifies this`gameActive, this`countdown, this`isAutobetActive, this`actions
      ensures this.gameActive == gameActive && this.countdown == countdown
      ensures
        var rerun := gameActive != old(this.gameActive) || countdown != old(this.countdown);
        var window := rerun && old(isAutobetActive) && gameActive && InBettingWindow(countdown);
        var bet := window && BelowCeiling(currentBet, settings.maxStake);
        && (!rerun ==> isAutobetActive == old(isAutobetActive))
        && (rerun && !gameActive ==> !isAutobetActive)
        && (rerun && gameActive ==> isAutobetActive == (old(isAutobetActive) && (window ==> bet)))
        && actions == old(actions) + (if bet then BetActions(currentStake, settings) else [])
    {
      var rerun := gameActive != this.gameActive || countdown != this.countdown;
      this.gameActive := gameActive;
      this.countdown := countdown;
      if rerun {
        CountdownEffect();
      }
    }

    /** The body of the `[gameActive, countdown]` effect. */
    method CountdownEffect()
      requires Valid()
      modifies this`isAutobetActive, this`actions
      ensures
        var window := old(isAutobetActive) && gameActive && InBettingWindow(countdown);
        var bet := window && BelowCeiling(currentBet, settings.maxStake);
        && isAutobetActive == (old(isAutobetActive) && gameActive && (window ==> bet))
        && actions == old(actions) + (if bet then BetActions(currentStake, settings) else [])
    {
      if isAutobetActive && gameActive && InBettingWindow(countdown) {
        if BelowCeiling(currentBet, settings.maxStake) {
          var betAmount := currentStake;
          var cashout := NumberOr(settings.autoCashout, MinCashout);
          actions := actions + [SetBetAmount(betAmount), PlaceBet(betAmount, cashout)];
        } else {
          StopAutobet();
        }
      }
      if !gameActive {
        isAutobetActive := false;
      }
    }

    /**
      `handleBetResult`: ignored while inactive; otherwise the stake follows
      the strategy for the outcome and the count goes up by one.
     */
    method BetResult(win: bool, amount: real)
      requires Valid()
      modifies this`currentStake, this`currentBet
      ensures !isAutobetActive ==> currentStake == old(currentStake) && currentBet == old(currentBet)
      ensures isAutobetActive ==>
        currentStake == StakeAfterResult(settings, win, amount) && currentBet == old(currentBet) + 1
    {
      if !isAutobetActive {
        return;
      }
      currentStake := StakeAfterResult(settings, win, amount);
      currentBet := currentBet + 1;
    }
  }

  /** What one bet of the effect sends: the amount shown, then the bet with its cash-out. */
  function BetActions(stake: real, st: Settings): (r: seq<Action>)
    requires SettingsValid(st)
    ensures |r| == 2 && r[0] == SetBetAmount(stake) && r[1].PlaceBet? && r[1].amount == stake
    ensures !HasNonzeroDigit(st.autoCashout) ==> r[1].cashout == MinCashout
    ensures HasNonzeroDigit(st.autoCashout) ==> r[1].cashout == Parse(st.autoCashout).value
  {
    [SetBetAmount(stake), PlaceBet(stake, NumberOr(st.autoCashout, MinCashout))]
  }
}
