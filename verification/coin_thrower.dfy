/** The coin thrower (components/CoinThrower.tsx): three coins are thrown, the
    inscribed faces are counted, the count gives a line, and the line is
    appended to a reading of at most six throws, which is handed on once it
    holds exactly six. The random coin faces are a parameter. */
module Coins {
  import opened Types

  /** One coin face: 1 for the inscribed (character) face, 0 for the other. */
  newtype Bit = x: int | 0 <= x <= 1

  /** The number of lines in a complete reading. */
  const ReadingLength: nat := 6

  /** The face the component shows before the first throw. */
  const InitialCoins: seq<Bit> := [1, 1, 1]

  /** `coins.reduce((a, b) => a + b, 0)`: the sum of the faces. */
  function Sum(coins: seq<Bit>): (n: int)
    ensures 0 <= n <= |coins|
  {
    if coins == [] then 0 else Sum(coins[..|coins| - 1]) + coins[|coins| - 1] as int
  }

  /** The sum of the faces is the number of inscribed faces. */
  lemma {:induction false} SumCountsInscribed(coins: seq<Bit>)
    ensures Sum(coins) == multiset(coins)[1]
  {
    if coins != [] {
      var init := coins[..|coins| - 1];
      SumCountsInscribed(init);
      assert coins == init + [coins[|coins| - 1]];
    }
  }

  /** The line a count of inscribed faces gives, by the three-coin rule. The
      component starts from `yang` and overwrites it for counts 3, 2, 1 and 0,
      so a count outside 0..3 would stay `yang`. */
  function Classify(count: int): (t: LineType)
    ensures count == 3 ==> t == OldYin
    ensures count == 2 ==> t == Yang
    ensures count == 1 ==> t == Yin
    ensures count == 0 ==> t == OldYang
  {
    if count == 3 then OldYin
    else if count == 2 then Yang
    else if count == 1 then Yin
    else if count == 0 then OldYang
    else Yang
  }

  /** The traditional value of a line: 6 for old yin, 7 for young yang, 8 for
      young yin, 9 for old yang. */
  function Points(t: LineType): (p: int)
    ensures 6 <= p <= 9
    ensures p % 2 == 1 <==> t.IsYang()
    ensures p == 6 || p == 9 <==> t.IsOld()
  {
    match t
    case OldYin => 6
    case Yang => 7
    case Yin => 8
    case OldYang => 9
  }

  /** The count of inscribed faces that gives each line. */
  function CountFor(t: LineType): (count: int)
    ensures 0 <= count <= 3
  {
    9 - Points(t)
  }

  /** The rule written out in the component: an inscribed face is worth 2,
      the other face 3, and the line is the one whose value is the total. */
  lemma ClassifyByPoints(count: int)
    requires 0 <= count <= 3
    ensures Points(Classify(count)) == 2 * count + 3 * (3 - count)
  {
  }

  /** Classification of counts 0..3 is a bijection onto the four line types:
      every line type comes from exactly one count. */
  lemma ClassifyBijective(count: int, t: LineType)
    requires 0 <= count <= 3
    ensures Classify(count) == t <==> count == CountFor(t)
  {
  }

  /** The record one throw produces. */
  function ThrowOf(coins: seq<Bit>): (r: ThrowResult)
    requires |coins| == 3
    ensures 0 <= r.heads <= 3 && r.heads == multiset(coins)[1]
    ensures Points(r.lineType) == 9 - r.heads
  {
    SumCountsInscribed(coins);
    ThrowResult(Sum(coins), Classify(Sum(coins)))
  }

  /** A recorded throw is one three coins can produce. */
  predicate WellFormed(r: ThrowResult) {
    0 <= r.heads <= 3 && r.lineType == Classify(r.heads)
  }

  /** The component's state: the throws so far, whether the coins are in the
      air, and the faces last shown. */
  class CoinThrower {
    var throws: seq<ThrowResult>
    var isSpinning: bool
    var currentCoins: seq<Bit>

    ghost predicate Valid()
      reads this
    {
      |throws| <= ReadingLength &&
      |currentCoins| == 3 &&
      forall i :: 0 <= i < |throws| ==> WellFormed(throws[i])
    }

    constructor ()
      ensures Valid()
      ensures throws == [] && !isSpinning && currentCoins == InitialCoins
    {
      throws := [];
      isSpinning := false;
      currentCoins := InitialCoins;
    }

    /** The click handler's guard and first step: nothing happens once six
        throws are recorded or while the coins are in the air; otherwise the
        coins start spinning. */
    method StartThrow() returns (started: bool)
      requires Valid()
      modifies this`isSpinning
      ensures Valid()
      ensures started <==> |throws| < ReadingLength && !old(isSpinning)
      ensures isSpinning == (old(isSpinning) || started)
    {
      if |throws| >= ReadingLength || isSpinning {
        return false;
      }
      isSpinning := true;
      return true;
    }

    /** The coins land: the faces are shown, the throw is appended, the
        spinning stops, and the reading is handed on when it now holds
        exactly six throws. */
    method Land(coins: seq<Bit>) returns (completed: Option<seq<ThrowResult>>)
      requires Valid() && isSpinning && |throws| < ReadingLength
      requires |coins| == 3
      modifies this
      ensures Valid()
      ensures throws == old(throws) + [ThrowOf(coins)]
      ensures currentCoins == coins && !isSpinning
      ensures completed == if |throws| == ReadingLength then Some(throws) else None
    {
      currentCoins := coins;
      var count := Sum(coins);
      var lineType := Classify(count);
      var updated := throws + [ThrowResult(count, lineType)];
      throws := updated;
      isSpinning := false;
      if |updated| == ReadingLength {
        completed := Some(updated);
      } else {
        completed := None;
      }
    }

    /** One click with the coins' landing taken as one step. */
    method HandleThrow(coins: seq<Bit>) returns (completed: Option<seq<ThrowResult>>)
      requires Valid() && |coins| == 3
      modifies this
      ensures Valid()
      ensures old(|throws| >= ReadingLength || isSpinning) ==>
        throws == old(throws) && isSpinning == old(isSpinning) &&
        currentCoins == old(currentCoins) && completed == None
      ensures old(|throws| < ReadingLength && !isSpinning) ==>
        throws == old(throws) + [ThrowOf(coins)] &&
        !isSpinning && currentCoins == coins &&
        completed == (if |throws| == ReadingLength then Some(throws) else None)
    {
      var started := StartThrow();
      if started {
        completed := Land(coins);
      } else {
        completed := None;
      }
    }
  }
}
