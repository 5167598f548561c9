/** The list of recent results shown beside the wheel (roleta/script.js, lines 297-302). */
module History {
  import opened Wheel

  /** The most entries the list keeps. */
  const HistoryCapacity: nat := 60

  /** Settlement's update of the list: the landed slot is put first and, when the list
      then holds more than 60 entries, the last (oldest) one is removed. */
  function Record(h: seq<Slot>, s: Slot): (r: seq<Slot>)
    ensures |r| == if |h| < HistoryCapacity then |h| + 1 else |h|
    ensures |h| <= HistoryCapacity ==> |r| <= HistoryCapacity
    ensures r[0] == s
    ensures r[1..] == h[..|r| - 1]
  {
    var added := [s] + h;
    if |added| > HistoryCapacity then added[..|added| - 1] else added
  }

  /** The list after results `landed` (oldest first), starting from an empty list. */
  function HistoryAfter(landed: seq<Slot>): seq<Slot> {
    if |landed| == 0 then [] else Record(HistoryAfter(landed[..|landed| - 1]), landed[|landed| - 1])
  }

  /** The newest min(|landed|, 60) results, newest first. */
  function NewestFirst(landed: seq<Slot>): (r: seq<Slot>)
    ensures |r| <= HistoryCapacity
  {
    var k := if |landed| < HistoryCapacity then |landed| else HistoryCapacity;
    seq(k, i requires 0 <= i < k => landed[|landed| - 1 - i])
  }

  /** Whatever the results so far, the list shows exactly the 60 newest of them (or all
      of them when there are fewer), newest first. */
  lemma {:induction false} HistoryShowsNewest(landed: seq<Slot>)
    ensures HistoryAfter(landed) == NewestFirst(landed)
  {
    if |landed| > 0 {
      var init := landed[..|landed| - 1];
      HistoryShowsNewest(init);
      var h, r := HistoryAfter(init), HistoryAfter(landed);
      var want := NewestFirst(landed);
      assert |r| == |want|;
      forall i | 0 <= i < |r|
        ensures r[i] == want[i]
      {
        if i > 0 {
          assert r[i] == r[1..][i - 1];
        }
      }
    }
  }
}
