/** The bets of the roulette game and how they are paid
    (roleta/script.js, lines 37-43, 121-129, 148-155 and 304-322). */
module Betting {
  import opened Wrappers
  import opened Wheel

  /** The current bet: an optional number with its stake and an optional colour with
      its stake. An absent part has stake 0. */
  datatype Bet = Bet(number: Option<int>, numberAmount: int, color: Option<Color>, colorAmount: int)

  /** The empty bet the game starts with and resets to after every spin. */
  const NoBet: Bet := Bet(None, 0, None, 0)

  /** The shape of every bet the game builds: a chosen part has a wheel number and a
      positive stake, an absent part has stake 0. */
  predicate WellFormed(b: Bet) {
    && (b.number.None? ==> b.numberAmount == 0)
    && (b.number.Some? ==> 0 <= b.number.value <= 36 && b.numberAmount > 0)
    && (b.color.None? ==> b.colorAmount == 0)
    && (b.color.Some? ==> b.colorAmount > 0)
  }

  /** Why a stake is refused. */
  datatype BetError = InvalidAmount | InsufficientBalance

  /** The check both bet handlers run on the amount typed by the player. `amount` is
      the result of parseInt, None when it is NaN. The amount is checked first, the
      balance second. */
  function CheckStake(amount: Option<int>, balance: int): (r: Result<int, BetError>)
    ensures r.Success? <==> amount.Some? && 0 < amount.value <= balance
    ensures r.Success? ==> r.value == amount.value
    ensures r == Failure(InvalidAmount) <==> amount.None? || amount.value <= 0
    ensures r == Failure(InsufficientBalance) <==> amount.Some? && 0 < amount.value && balance < amount.value
  {
    if amount.None? || amount.value <= 0 then Failure(InvalidAmount)
    else if amount.value > balance then Failure(InsufficientBalance)
    else Success(amount.value)
  }

  /** The total stake of a bet, taken from the balance at settlement. */
  function Stake(b: Bet): int {
    b.numberAmount + b.colorAmount
  }

  /** The multiple of the colour stake paid back when the colour comes up: a green bet
      is paid like a bet on zero, red and black are paid even money. */
  function ColorMultiplier(c: Color): int {
    if c == Green then 36 else 2
  }

  /** What the bank pays back when slot `s` comes up. */
  function Payout(b: Bet, s: Slot): (r: int)
    ensures r == (if b.number == Some(s.n) then 36 * b.numberAmount else 0)
               + (if b.color == Some(s.c) then ColorMultiplier(s.c) * b.colorAmount else 0)
    ensures WellFormed(b) ==> 0 <= r <= 36 * Stake(b)
    ensures WellFormed(b) ==> (r > 0 <==> b.number == Some(s.n) || b.color == Some(s.c))
  {
    var fromNumber := if b.number.Some? && b.number.value == s.n then b.numberAmount * 36 else 0;
    var fromColor :=
      if b.color.None? then 0
      else if b.color.value == Green then (if s.c == Green then b.colorAmount * 36 else 0)
      else if b.color.value == s.c then b.colorAmount * 2
      else 0;
    fromNumber + fromColor
  }

  /** The balance after a spin on slot `s`: the whole stake is taken and the payout
      added, in one step. */
  function SettledBalance(balance: int, b: Bet, s: Slot): (r: int)
    ensures WellFormed(b) ==> balance - Stake(b) <= r <= balance + 35 * Stake(b)
    ensures WellFormed(b) && b.number != Some(s.n) && b.color != Some(s.c) ==> r == balance - Stake(b)
  {
    balance - Stake(b) + Payout(b, s)
  }

  /** The total paid back over the slots of `s`, one spin landing on each. */
  function SumPayout(b: Bet, s: seq<Slot>): int {
    if |s| == 0 then 0 else SumPayout(b, s[..|s| - 1]) + Payout(b, s[|s| - 1])
  }

  /** The number part pays 36 times its stake per slot with that number, the colour
      part its multiple per slot of that colour. */
  lemma {:induction false} SumPayoutByCounts(b: Bet, s: seq<Slot>)
    ensures SumPayout(b, s) == NumberShare(b, s) + ColorShare(b, s)
  {
    if |s| > 0 {
      var init, last := s[..|s| - 1], s[|s| - 1];
      SumPayoutByCounts(b, init);
      NumberShareStep(b, s);
      ColorShareStep(b, s);
    }
  }

  lemma NumberShareStep(b: Bet, s: seq<Slot>)
    requires |s| > 0
    ensures NumberShare(b, s) == NumberShare(b, s[..|s| - 1])
      + (if b.number == Some(s[|s| - 1].n) then 36 * b.numberAmount else 0)
  {
    if b.number.Some? {
      var a, n := 36 * b.numberAmount, b.number.value;
      var d := if s[|s| - 1].n == n then 1 else 0;
      assert CountNumber(s, n) == CountNumber(s[..|s| - 1], n) + d;
      assert a * CountNumber(s, n) == a * CountNumber(s[..|s| - 1], n) + a * d;
    }
  }

  lemma ColorShareStep(b: Bet, s: seq<Slot>)
    requires |s| > 0
    ensures ColorShare(b, s) == ColorShare(b, s[..|s| - 1])
      + (if b.color == Some(s[|s| - 1].c) then ColorMultiplier(s[|s| - 1].c) * b.colorAmount else 0)
  {
    if b.color.Some? {
      var a, c := ColorMultiplier(b.color.value) * b.colorAmount, b.color.value;
      var d := if s[|s| - 1].c == c then 1 else 0;
      assert CountColor(s, c) == CountColor(s[..|s| - 1], c) + d;
      assert a * CountColor(s, c) == a * CountColor(s[..|s| - 1], c) + a * d;
    }
  }

  /** What the number part wins over `s`: 36 times its stake per slot with that number. */
  function NumberShare(b: Bet, s: seq<Slot>): int {
    if b.number.Some? then (36 * b.numberAmount) * CountNumber(s, b.number.value) else 0
  }

  /** What the colour part wins over `s`: its multiple per slot of that colour. */
  function ColorShare(b: Bet, s: seq<Slot>): int {
    if b.color.Some? then (ColorMultiplier(b.color.value) * b.colorAmount) * CountColor(s, b.color.value) else 0
  }

  /** The house edge: summed over the 37 slots of the wheel, every bet is paid back
      36 times its stake, so a spin returns 36/37 of the stake on average. */
  lemma HouseEdge(b: Bet)
    requires WellFormed(b)
    ensures SumPayout(b, Slots) == 36 * Stake(b)
  {
    SumPayoutByCounts(b, Slots);
    ColorCounts();
    if b.number.Some? {
      EachNumberOnce(b.number.value);
    }
  }

  /** Each stake is checked against the balance on its own, so the two stakes together
      may exceed it and a lost spin leaves the balance negative. */
  lemma BalanceCanGoNegative()
    ensures CheckStake(Some(500), 500) == Success(500)
    ensures SettledBalance(500, Bet(Some(17), 500, Some(Red), 500), Slots[0]) == -500
  {
  }

  /** Two worked spins: 50 on 17 and 20 on red when 17 (black) comes up, and 10 on
      green when zero comes up, both from a balance of 500. */
  lemma WorkedExamples()
    ensures Slots[8] == Slot(17, Black)
    ensures Payout(Bet(Some(17), 50, Some(Red), 20), Slots[8]) == 1800
    ensures SettledBalance(500, Bet(Some(17), 50, Some(Red), 20), Slots[8]) == 2230
    ensures Payout(Bet(None, 0, Some(Green), 10), Slots[0]) == 360
    ensures SettledBalance(500, Bet(None, 0, Some(Green), 10), Slots[0]) == 850
  {
  }
}
