/** The roulette game's state and its actions (roleta/script.js): placing bets, the
    spin button, the per-frame animation step and the settlement that follows it. */
module Roulette {
  import opened Wrappers
  import opened Wheel
  import opened Angles
  import opened Betting
  import opened History

  /** The balance the game starts with. */
  const StartingBalance: int := 500

  /** What the "+500" button adds to the balance. */
  const Credit: int := 500

  /** Animation lengths in milliseconds, at normal speed and in slow motion. */
  const NormalDuration: real := 4500.0
  const SlowDuration: real := 8000.0

  /** The length of the next spin's animation. */
  function AnimDuration(slowMo: bool): (d: real)
    ensures d > 0.0
    ensures slowMo ==> d > NormalDuration
  {
    if slowMo then SlowDuration else NormalDuration
  }

  /** Why a spin is refused. */
  datatype SpinError = SpinAlreadyInProgress | NoActiveBet

  /** JavaScript truthiness of the chosen number: no number and the number 0 are both false. */
  predicate NumberIsTruthy(number: Option<int>) {
    number.Some? && number.value != 0
  }

  /** The spin button's guard: nothing happens while the wheel is turning, and a spin
      needs a chosen number or a chosen colour, the number tested by truthiness. */
  function SpinRefusal(animating: bool, b: Bet): (r: Option<SpinError>)
    ensures r == Some(SpinAlreadyInProgress) <==> animating
    ensures r == Some(NoActiveBet) <==> !animating && b.color.None? && (b.number.None? || b.number == Some(0))
    ensures r == None <==> !animating && (b.color.Some? || (b.number.Some? && b.number.value != 0))
  {
    if animating then Some(SpinAlreadyInProgress)
    else if !NumberIsTruthy(b.number) && b.color.None? then Some(NoActiveBet)
    else None
  }

  /** Because the guard tests the number's truthiness, a bet on zero alone cannot be
      spun, although the number handler accepts it with a positive stake. */
  lemma LoneZeroBetRefused(balance: int, amount: int)
    requires 0 < amount <= balance
    ensures CheckStake(Some(amount), balance) == Success(amount)
    ensures WellFormed(Bet(Some(0), amount, None, 0))
    ensures SpinRefusal(false, Bet(Some(0), amount, None, 0)) == Some(NoActiveBet)
  {
  }

  /** Math.floor(r * n) for a draw r of Math.random(): an index below n. */
  function RandomBelow(r: real, n: nat): (i: int)
    requires 0.0 <= r < 1.0 && n > 0
    ensures 0 <= i < n
  {
    assert r * n as real < n as real by {
      assert n as real - r * n as real == (1.0 - r) * n as real;
    }
    (r * n as real).Floor
  }

  /** The extra whole turns of the wheel: 4 to 6. */
  function WheelTurns(r: real): (k: int)
    requires 0.0 <= r < 1.0
    ensures 4 <= k <= 6
  {
    4 + RandomBelow(r, 3)
  }

  /** The extra whole turns of the ball: 2 to 4. */
  function BallTurns(r: real): (k: int)
    requires 0.0 <= r < 1.0
    ensures 2 <= k <= 4
  {
    2 + RandomBelow(r, 3)
  }

  /** The wheel's random stopping offset, less than half a slice either way. */
  function Jitter(r: real): (j: real)
    requires 0.0 <= r < 1.0
    ensures -Slice / 2.0 <= j < Slice / 2.0
  {
    r * Slice - Slice / 2.0
  }

  /** The raw progress of the animation at time `now`, clamped to at most 1. */
  function Progress(now: real, start: real, duration: real): (t: real)
    requires duration > 0.0
    ensures t <= 1.0
    ensures t == 1.0 <==> now - start >= duration
    ensures start <= now ==> 0.0 <= t
  {
    var elapsed := now - start;
    QuotientBelowOne(elapsed, duration);
    if elapsed / duration < 1.0 then elapsed / duration else 1.0
  }

  /** Dividing by a positive m: the quotient is below 1 exactly when d is below m. */
  lemma QuotientBelowOne(d: real, m: real)
    requires m > 0.0
    ensures d / m < 1.0 <==> d < m
    ensures 0.0 <= d ==> 0.0 <= d / m
  {
    if d < m {
      QuotientOfSmaller(d, m);
    } else {
      QuotientOfLarger(d, m);
    }
  }

  lemma QuotientOfSmaller(d: real, m: real)
    requires m > 0.0 && d < m
    ensures d / m < 1.0
  {
  }

  lemma QuotientOfLarger(d: real, m: real)
    requires m > 0.0 && m <= d
    ensures 1.0 <= d / m
  {
  }

  class Game {
    var balance: int
    var slowMo: bool
    var currentBet: Bet

    var wheelAngle: real
    var ballAngle: real
    var animating: bool
    var animStart: real
    var animDuration: real
    var wheelStart: real
    var wheelEnd: real
    var ballStart: real
    var ballEnd: real
    /** Set when settlement has been scheduled for the running spin. */
    var finishScheduled: bool

    /** The results shown in the history list, newest first. */
    var history: seq<Slot>

    /** The winning index drawn when the running spin started. */
    ghost var winner: int
    /** The ball's extra whole turns for the running spin. */
    ghost var ballTurns: int
    /** The latest time the game has read from the clock. */
    ghost var clock: real

    /** The invariant the actions keep. The end angles of a running spin put the
        ball over the winning slot, and once settlement is scheduled both angles
        rest on their end values. */
    ghost predicate Valid()
      reads this
    {
      && WellFormed(currentBet)
      && |history| <= HistoryCapacity
      && (animating ==>
            && animDuration > 0.0
            && 0 <= winner < SlotCount
            && ballEnd - wheelEnd == TargetCenter(winner) + ballTurns as real * FullTurn)
      && (finishScheduled ==>
            && animating
            && clock - animStart >= animDuration
            && wheelAngle == wheelEnd
            && ballAngle == ballEnd)
    }

    /** The state when the page loads. */
    constructor ()
      ensures Valid()
      ensures balance == StartingBalance && !slowMo && currentBet == NoBet && history == []
      ensures !animating && !finishScheduled && wheelAngle == 0.0 && ballAngle == 0.0
      ensures clock == 0.0
    {
      balance := StartingBalance;
      slowMo := false;
      currentBet := NoBet;
      wheelAngle, ballAngle := 0.0, 0.0;
      animating := false;
      animStart, animDuration := 0.0, 0.0;
      wheelStart, wheelEnd := 0.0, 0.0;
      ballStart, ballEnd := 0.0, 0.0;
      finishScheduled := false;
      history := [];
      winner, ballTurns, clock := 0, 0, 0.0;
    }

    /** The "+500" button. */
    method Inject()
      requires Valid()
      modifies this`balance
      ensures Valid()
      ensures balance == old(balance) + Credit
    {
      balance := balance + Credit;
    }

    /** The slow-motion button: switches the length of the next spins. */
    method ToggleSlowMo()
      requires Valid()
      modifies this`slowMo
      ensures Valid()
      ensures slowMo == !old(slowMo)
    {
      slowMo := !slowMo;
    }

    /** A click on the number of slot `index` of the grid, with `amount` typed in the
        number stake box. Only the number part of the bet changes, and the balance is
        not touched. */
    method PlaceNumberBet(index: nat, amount: Option<int>) returns (outcome: Outcome<BetError>)
      requires Valid() && index < |Slots|
      modifies this`currentBet
      ensures Valid()
      ensures CheckStake(amount, balance).Failure? ==>
                outcome == Fail(CheckStake(amount, balance).error) && currentBet == old(currentBet)
      ensures CheckStake(amount, balance).Success? ==>
                && outcome == Pass
                && currentBet == old(currentBet).(number := Some(Slots[index].n),
                                                  numberAmount := CheckStake(amount, balance).value)
    {
      var checked := CheckStake(amount, balance);
      if checked.Failure? {
        return Fail(checked.error);
      }
      SlotPosition(index);
      currentBet := currentBet.(number := Some(Slots[index].n), numberAmount := checked.value);
      outcome := Pass;
    }

    /** A click on the red, black or green button, with `amount` typed in the colour
        stake box. Only the colour part of the bet changes, and the balance is not
        touched. */
    method PlaceColorBet(color: Color, amount: Option<int>) returns (outcome: Outcome<BetError>)
      requires Valid()
      modifies this`currentBet
      ensures Valid()
      ensures CheckStake(amount, balance).Failure? ==>
                outcome == Fail(CheckStake(amount, balance).error) && currentBet == old(currentBet)
      ensures CheckStake(amount, balance).Success? ==>
                && outcome == Pass
                && currentBet == old(currentBet).(color := Some(color),
                                                  colorAmount := CheckStake(amount, balance).value)
    {
      var checked := CheckStake(amount, balance);
      if checked.Failure? {
        return Fail(checked.error);
      }
      currentBet := currentBet.(color := Some(color), colorAmount := checked.value);
      outcome := Pass;
    }

    /** The spin button. `rWinner`, `rWheel`, `rBall` and `rJitter` are the draws of
        Math.random() and `now` the clock reading. The winner is drawn before the
        animation starts and does not depend on the bet. */
    method RequestSpin(rWinner: real, rWheel: real, rBall: real, rJitter: real, now: real)
      returns (outcome: Outcome<SpinError>)
      requires Valid()
      requires 0.0 <= rWinner < 1.0 && 0.0 <= rWheel < 1.0 && 0.0 <= rBall < 1.0 && 0.0 <= rJitter < 1.0
      requires clock <= now
      modifies this`wheelStart, this`ballStart, this`wheelEnd, this`ballEnd
      modifies this`animDuration, this`animStart, this`animating, this`finishScheduled
      modifies this`winner, this`ballTurns, this`clock
      ensures Valid()
      ensures SpinRefusal(old(animating), old(currentBet)).Some? ==>
                && outcome == Fail(SpinRefusal(old(animating), old(currentBet)).value)
                && unchanged(this)
      ensures SpinRefusal(old(animating), old(currentBet)).None? ==>
                && outcome == Pass
                && animating && !finishScheduled
                && winner == RandomBelow(rWinner, SlotCount)
                && wheelStart == old(wheelAngle) && ballStart == old(ballAngle)
                && wheelEnd == wheelStart + WheelTurns(rWheel) as real * FullTurn + Jitter(rJitter)
                && ballEnd == wheelEnd + TargetCenter(winner) + BallTurns(rBall) as real * FullTurn
                && ballTurns == BallTurns(rBall)
                && wheelAngle == old(wheelAngle) && ballAngle == old(ballAngle)
                && animStart == now && clock == now && animDuration == AnimDuration(slowMo)
                && balance == old(balance) && currentBet == old(currentBet) && history == old(history)
                && slowMo == old(slowMo)
    {
      var refusal := SpinRefusal(animating, currentBet);
      if refusal.Some? {
        return Fail(refusal.value);
      }
      var winnerIndex := RandomBelow(rWinner, SlotCount);
      ScheduleAnimationForWinner(winnerIndex, rWheel, rBall, rJitter, now);
      outcome := Pass;
    }

    /** Sets up the animation that brings the ball over slot `winnerIndex`: the wheel
        turns 4 to 6 extra times plus a small offset, and the ball ends 2 to 4 extra
        turns ahead of the wheel, over the centre of the winning slot. */
    method ScheduleAnimationForWinner(winnerIndex: int, rWheel: real, rBall: real, rJitter: real, now: real)
      requires Valid() && 0 <= winnerIndex < SlotCount
      requires 0.0 <= rWheel < 1.0 && 0.0 <= rBall < 1.0 && 0.0 <= rJitter < 1.0
      requires clock <= now
      modifies this`wheelStart, this`ballStart, this`wheelEnd, this`ballEnd
      modifies this`animDuration, this`animStart, this`animating, this`finishScheduled
      modifies this`winner, this`ballTurns, this`clock
      ensures Valid()
      ensures wheelStart == old(wheelAngle) && ballStart == old(ballAngle)
      ensures wheelEnd == wheelStart + WheelTurns(rWheel) as real * FullTurn + Jitter(rJitter)
      ensures ballEnd == wheelEnd + TargetCenter(winnerIndex) + BallTurns(rBall) as real * FullTurn
      ensures animDuration == AnimDuration(slowMo) && animStart == now && clock == now
      ensures animating && !finishScheduled
      ensures winner == winnerIndex && ballTurns == BallTurns(rBall)
    {
      var wheelRot := WheelTurns(rWheel);
      var ballExtra := BallTurns(rBall);
      wheelStart := wheelAngle;
      ballStart := ballAngle;
      wheelEnd := wheelStart + wheelRot as real * FullTurn + Jitter(rJitter);
      var targetCenter := TargetCenter(winnerIndex);
      ballEnd := wheelEnd + targetCenter + ballExtra as real * FullTurn;
      animDuration := AnimDuration(slowMo);
      animStart := now;
      animating := true;
      finishScheduled := false;
      winner, ballTurns, clock := winnerIndex, ballExtra, now;
    }

    /** One animation frame at time `now`: both angles follow the eased progress from
        their start to their end values, and the first frame that sees the animation
        complete schedules settlement; later frames do not schedule it again. */
    method Tick(now: real) returns (scheduled: bool)
      requires Valid() && clock <= now
      modifies this`wheelAngle, this`ballAngle, this`finishScheduled, this`clock
      ensures Valid()
      ensures clock == now
      ensures !old(animating) ==> wheelAngle == old(wheelAngle) && ballAngle == old(ballAngle)
      ensures old(animating) ==>
                && wheelAngle == Lerp(wheelStart, wheelEnd, EaseOutCubic(Progress(now, animStart, animDuration)))
                && ballAngle == Lerp(ballStart, ballEnd, EaseOutCubic(Progress(now, animStart, animDuration)))
      ensures scheduled <==> old(animating) && !old(finishScheduled) && Progress(now, animStart, animDuration) == 1.0
      ensures finishScheduled == (old(finishScheduled) || scheduled)
    {
      clock := now;
      if !animating {
        return false;
      }
      var tRaw := Progress(now, animStart, animDuration);
      var t := EaseOutCubic(tRaw);
      wheelAngle := Lerp(wheelStart, wheelEnd, t);
      ballAngle := Lerp(ballStart, ballEnd, t);
      scheduled := false;
      if tRaw >= 1.0 && !finishScheduled {
        finishScheduled := true;
        scheduled := true;
      }
    }

    /** Settlement, run once after the frame that scheduled it: reads the slot under
        the ball, records it, takes the stake and pays the winnings in one update,
        and clears the bet and the spin. */
    method Settle() returns (result: Slot)
      requires Valid() && finishScheduled
      modifies this`balance, this`history, this`currentBet, this`animating, this`finishScheduled
      ensures Valid()
      ensures result == Slots[old(winner)]
      ensures balance == SettledBalance(old(balance), old(currentBet), result)
      ensures history == Record(old(history), result)
      ensures currentBet == NoBet && !animating && !finishScheduled
    {
      LandsOnTarget(winner, ballTurns);
      var index := SlotIndexAt(ballAngle - wheelAngle);
      result := Slots[index];
      history := Record(history, result);
      var stake := Stake(currentBet);
      var payout := Payout(currentBet, result);
      balance := balance - stake + payout;
      currentBet := NoBet;
      animating := false;
      finishScheduled := false;
    }
  }

  /** One round from a freshly loaded page: a number bet and a colour bet, a spin
      started at time `start`, the animation frames at the times in `frames`, and the
      settlement if some frame scheduled it. However many frames see the animation
      complete, settlement is scheduled at most once; when it runs it lands on the
      slot drawn at spin time and applies the payout table to the bet. */
  method PlayRound(numberIndex: nat, numberStake: int, color: Color, colorStake: int,
                   rWinner: real, rWheel: real, rBall: real, rJitter: real,
                   start: real, frames: seq<real>)
    returns (schedules: nat, result: Option<Slot>, finalBalance: int)
    requires numberIndex < |Slots|
    requires 0 < numberStake <= StartingBalance && 0 < colorStake <= StartingBalance
    requires 0.0 <= rWinner < 1.0 && 0.0 <= rWheel < 1.0 && 0.0 <= rBall < 1.0 && 0.0 <= rJitter < 1.0
    requires 0.0 <= start
    requires forall i :: 0 <= i < |frames| ==> start <= frames[i]
    requires forall i, j :: 0 <= i < j < |frames| ==> frames[i] <= frames[j]
    ensures schedules <= 1
    ensures schedules == 1 <==> |frames| > 0 && frames[|frames| - 1] - start >= NormalDuration
    ensures schedules == 1 ==>
              && result == Some(Slots[RandomBelow(rWinner, SlotCount)])
              && finalBalance == SettledBalance(StartingBalance,
                                   Bet(Some(Slots[numberIndex].n), numberStake, Some(color), colorStake),
                                   result.value)
    ensures schedules == 0 ==> result == None && finalBalance == StartingBalance
  {
    var game := new Game();
    var placedNumber := game.PlaceNumberBet(numberIndex, Some(numberStake));
    var placedColor := game.PlaceColorBet(color, Some(colorStake));
    ghost var bet := game.currentBet;
    assert bet == Bet(Some(Slots[numberIndex].n), numberStake, Some(color), colorStake);
    var spin := game.RequestSpin(rWinner, rWheel, rBall, rJitter, start);
    ghost var w := game.winner;
    schedules := 0;
    var i := 0;
    while i < |frames|
      invariant 0 <= i <= |frames|
      invariant game.Valid() && game.animating
      invariant game.animStart == start && game.animDuration == NormalDuration
      invariant game.clock == if i == 0 then start else frames[i - 1]
      invariant game.winner == w == RandomBelow(rWinner, SlotCount)
      invariant game.balance == StartingBalance && game.currentBet == bet
      invariant schedules <= 1
      invariant game.finishScheduled <==> schedules == 1
      invariant schedules == 1 <==> i > 0 && frames[i - 1] - start >= NormalDuration
    {
      var scheduled := game.Tick(frames[i]);
      if scheduled {
        schedules := schedules + 1;
      }
      i := i + 1;
    }
    if game.finishScheduled {
      var landed := game.Settle();
      result := Some(landed);
    } else {
      result := None;
    }
    finalBalance := game.balance;
  }
}
