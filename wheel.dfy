/** The wheel of the roulette game (roleta/script.js, lines 50-62): the 37 slots of a
    European wheel in clockwise order, each with its number and its colour. */
module Wheel {

  datatype Color = Red | Black | Green

  datatype Slot = Slot(n: int, c: Color)

  /** The wheel in the order the slots are drawn, starting at the zero mark. */
  const Slots: seq<Slot> := [
    Slot(0, Green), Slot(32, Red), Slot(15, Black), Slot(19, Red),
    Slot(4, Black), Slot(21, Red), Slot(2, Black), Slot(25, Red),
    Slot(17, Black), Slot(34, Red), Slot(6, Black), Slot(27, Red),
    Slot(13, Black), Slot(36, Red), Slot(11, Black), Slot(30, Red),
    Slot(8, Black), Slot(23, Red), Slot(10, Black), Slot(5, Red),
    Slot(24, Black), Slot(16, Red), Slot(33, Black), Slot(1, Red),
    Slot(20, Black), Slot(14, Red), Slot(31, Black), Slot(9, Red),
    Slot(22, Black), Slot(18, Red), Slot(29, Black), Slot(7, Red),
    Slot(28, Black), Slot(12, Red), Slot(35, Black), Slot(3, Red),
    Slot(26, Black)
  ]

  const SlotCount: nat := 37

  /** How many slots of `s` have colour `c`. */
  function CountColor(s: seq<Slot>, c: Color): nat {
    if |s| == 0 then 0
    else CountColor(s[..|s| - 1], c) + (if s[|s| - 1].c == c then 1 else 0)
  }

  /** How many slots of `s` carry the number `n`. */
  function CountNumber(s: seq<Slot>, n: int): nat {
    if |s| == 0 then 0
    else CountNumber(s[..|s| - 1], n) + (if s[|s| - 1].n == n then 1 else 0)
  }

  /** The colour pattern of the wheel: zero is green, then red and black alternate. */
  function AlternatingColor(i: nat): Color {
    if i == 0 then Green else if i % 2 == 1 then Red else Black
  }

  /** For each number 0..36, the position of its slot on the wheel (a proof device:
      the inverse of the table). */
  ghost const Position: seq<nat> := [
    0, 23, 6, 35, 4, 19, 10, 31, 16, 27, 18, 14, 33, 12, 25, 2, 21, 8, 29,
    3, 24, 5, 28, 17, 20, 7, 36, 11, 32, 30, 15, 26, 1, 22, 9, 34, 13
  ]

  /** A position on the wheel is one of the 37 concrete positions. */
  lemma Positions(i: int)
    requires 0 <= i < SlotCount
    ensures i == 0 || i == 1 || i == 2 || i == 3 || i == 4 || i == 5 || i == 6 || i == 7 ||
            i == 8 || i == 9 || i == 10 || i == 11 || i == 12 || i == 13 || i == 14 || i == 15 ||
            i == 16 || i == 17 || i == 18 || i == 19 || i == 20 || i == 21 || i == 22 || i == 23 ||
            i == 24 || i == 25 || i == 26 || i == 27 || i == 28 || i == 29 || i == 30 || i == 31 ||
            i == 32 || i == 33 || i == 34 || i == 35 || i == 36
  {
  }

  /** Around the wheel the colours follow zero-green and then red, black, red, ... */
  lemma ColorsAlternate(i: nat)
    requires i < |Slots|
    ensures Slots[i].c == AlternatingColor(i)
  {
    Positions(i);
  }

  /** Every slot carries a number in 0..36, and Position leads back to the slot. */
  lemma SlotPosition(i: nat)
    requires i < |Slots|
    ensures 0 <= Slots[i].n < SlotCount && Position[Slots[i].n] == i
  {
    Positions(i);
  }

  /** Every number in 0..36 is on the slot Position gives for it. */
  lemma PositionSlot(n: int)
    requires 0 <= n < SlotCount
    ensures Position[n] < |Slots| && Slots[Position[n]].n == n
  {
    Positions(n);
  }

  /** In the first k slots, k / 2 are red, the rest but zero are black, and zero is green. */
  lemma ColorCountPrefix(k: nat)
    requires k <= |Slots|
    ensures CountColor(Slots[..k], Red) == k / 2
    ensures CountColor(Slots[..k], Black) == if k == 0 then 0 else (k - 1) / 2
    ensures CountColor(Slots[..k], Green) == if k == 0 then 0 else 1
  {
    forall i | 0 <= i < k
      ensures Slots[..k][i].c == AlternatingColor(i)
    {
      ColorsAlternate(i);
    }
    AlternatingCounts(Slots[..k]);
  }

  /** Any run of slots coloured zero-green, red, black, red, ... holds |s| / 2 red slots,
      (|s| - 1) / 2 black slots and one green slot (none when empty). */
  lemma {:induction false} AlternatingCounts(s: seq<Slot>)
    requires forall i | 0 <= i < |s| :: s[i].c == AlternatingColor(i)
    ensures CountColor(s, Red) == |s| / 2
    ensures CountColor(s, Black) == if |s| == 0 then 0 else (|s| - 1) / 2
    ensures CountColor(s, Green) == if |s| == 0 then 0 else 1
  {
    if |s| > 0 {
      var p := s[..|s| - 1];
      assert forall i | 0 <= i < |p| :: p[i] == s[i];
      AlternatingCounts(p);
    }
  }

  /** The wheel has 18 red slots, 18 black slots and one green slot. */
  lemma ColorCounts()
    ensures |Slots| == 37
    ensures CountColor(Slots, Red) == 18
    ensures CountColor(Slots, Black) == 18
    ensures CountColor(Slots, Green) == 1
  {
    ColorCountPrefix(|Slots|);
    assert Slots[..|Slots|] == Slots;
  }

  /** A number n appears among the first k slots once if its slot is among them, and
      not at all otherwise; numbers outside 0..36 never appear. */
  lemma {:induction false} NumberCountPrefix(k: nat, n: int)
    requires k <= |Slots|
    ensures CountNumber(Slots[..k], n) ==
      if 0 <= n < SlotCount && Position[n] < k then 1 else 0
  {
    if k > 0 {
      NumberCountPrefix(k - 1, n);
      assert Slots[..k][..k - 1] == Slots[..k - 1];
      SlotPosition(k - 1);
      if 0 <= n < SlotCount {
        PositionSlot(n);
      }
    }
  }

  /** Each number 0..36 is on exactly one slot, and no other number is on the wheel. */
  lemma EachNumberOnce(n: int)
    ensures CountNumber(Slots, n) == if 0 <= n <= 36 then 1 else 0
  {
    NumberCountPrefix(|Slots|, n);
    assert Slots[..|Slots|] == Slots;
    if 0 <= n <= 36 {
      PositionSlot(n);
    }
  }

  /** Slot 0 is the only green slot: a slot is green exactly when it carries the number 0. */
  lemma OnlyZeroIsGreen(i: nat)
    requires i < |Slots|
    ensures Slots[i].c == Green <==> Slots[i].n == 0
    ensures Slots[i].c == Green <==> i == 0
  {
    ColorsAlternate(i);
    SlotPosition(i);
  }
}
