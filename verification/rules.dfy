/**
  The constant rule tables of the bonus programme and the two pure queries
  over them: the tier a point total falls in (`LEVEL_BADGE`) and the progress
  towards the next tier shown on the user dashboard.
 */
module Rules {
  import opened SeqUtil

  /** The activities of `POINT_RULES`; the activity keys form a closed set. */
  datatype Activity = Training | NewClient | CompanyTraining | PrivateTraining | SpecialEvent

  /** The key under which an activity appears in `POINT_RULES` and in ledger entries. */
  function Key(a: Activity): string
  {
    match a
    case Training => "TRAINING"
    case NewClient => "NEW_CLIENT"
    case CompanyTraining => "COMPANY_TRAINING"
    case PrivateTraining => "PRIVATE_TRAINING"
    case SpecialEvent => "SPECIAL_EVENT"
  }

  /** Looking a key up in `POINT_RULES`; an unknown key has no rule. */
  function ParseKey(k: string): (r: Option<Activity>)
    ensures r.Some? ==> Key(r.value) == k
    ensures r.None? ==> forall a: Activity :: Key(a) != k
  {
    if k == "TRAINING" then Some(Training)
    else if k == "NEW_CLIENT" then Some(NewClient)
    else if k == "COMPANY_TRAINING" then Some(CompanyTraining)
    else if k == "PRIVATE_TRAINING" then Some(PrivateTraining)
    else if k == "SPECIAL_EVENT" then Some(SpecialEvent)
    else None
  }

  /** Keys and rule lookup are inverse: every activity is found again under its key. */
  lemma KeyRoundTrip(a: Activity, k: string)
    ensures ParseKey(Key(a)) == Some(a)
    ensures ParseKey(k) == Some(a) <==> Key(a) == k
  {
  }

  /** The fixed point value of an activity; every activity earns something, none more than 75. */
  function Points(a: Activity): (r: nat)
    ensures 1 <= r <= 75
  {
    match a
    case Training => 1
    case NewClient => 50
    case CompanyTraining => 75
    case PrivateTraining => 10
    case SpecialEvent => 5
  }

  /** The rule table read by key, as the handlers look it up. */
  lemma PointsByKey()
    ensures Points(ParseKey("TRAINING").value) == 1
    ensures Points(ParseKey("NEW_CLIENT").value) == 50
    ensures Points(ParseKey("COMPANY_TRAINING").value) == 75
    ensures Points(ParseKey("PRIVATE_TRAINING").value) == 10
    ensures Points(ParseKey("SPECIAL_EVENT").value) == 5
  {
  }

  /** Upper end of a tier: a number, or `Infinity` for the top tier. */
  datatype Bound = AtMost(n: int) | Unbounded

  datatype Reward = Cash(chf: nat) | PrivateSession(count: nat)

  /** One row of `LEVELS`; the display colour is left out. */
  datatype Level = Level(min: int, max: Bound, reward: Reward, title: string)

  /** The total is at least the tier minimum and, for a finite tier, at most its maximum. */
  predicate Contains(l: Level, p: int)
  {
    l.min <= p && (l.max.AtMost? ==> p <= l.max.n)
  }

  const Levels: seq<Level> := [
    Level(100, AtMost(149), Cash(50), "CHF 50"),
    Level(150, AtMost(199), Cash(100), "CHF 100"),
    Level(200, AtMost(249), Cash(200), "CHF 200"),
    Level(250, Unbounded, PrivateSession(1), "1× PT")
  ]

  /**
    A tier table whose ranges follow one another without gap or overlap: each
    finite tier ends one below the next tier's minimum, tiers are non-empty,
    and only the last tier is unbounded.
   */
  ghost predicate Tiling(ls: seq<Level>)
  {
    && |ls| > 0
    && ls[|ls| - 1].max.Unbounded?
    && forall i :: 0 <= i < |ls| - 1 ==>
         ls[i].max == AtMost(ls[i + 1].min - 1) && ls[i].min < ls[i + 1].min
  }

  lemma LevelsTiling()
    ensures Tiling(Levels)
  {
  }

  /** In a tiling, a tier's upper end lies below the minimum of every later tier. */
  lemma {:induction false} TilingOrdered(ls: seq<Level>, i: nat, j: nat)
    requires Tiling(ls)
    requires i < j < |ls|
    ensures ls[i].max.AtMost? && ls[i].max.n < ls[j].min
    decreases j - i
  {
    assert ls[i].max == AtMost(ls[i + 1].min - 1);
    if j > i + 1 {
      assert ls[i + 1].max == AtMost(ls[i + 2].min - 1) && ls[i + 1].min < ls[i + 2].min;
      TilingOrdered(ls, i + 1, j);
    }
  }

  /** A tiling covers exactly the totals from its first minimum upwards. */
  lemma {:induction false} TilingCovers(ls: seq<Level>, p: int)
    requires Tiling(ls)
    ensures p >= ls[0].min <==> exists i :: 0 <= i < |ls| && Contains(ls[i], p)
  {
    if p >= ls[0].min && |ls| > 1 {
      if p >= ls[1].min {
        var tail := ls[1..];
        assert Tiling(tail) by {
          forall i | 0 <= i < |tail| - 1
            ensures tail[i].max == AtMost(tail[i + 1].min - 1) && tail[i].min < tail[i + 1].min
          {
            assert tail[i] == ls[i + 1] && tail[i + 1] == ls[i + 2];
          }
        }
        TilingCovers(tail, p);
        var i :| 0 <= i < |tail| && Contains(tail[i], p);
        assert Contains(ls[i + 1], p);
      } else {
        assert Contains(ls[0], p);
      }
    } else if p >= ls[0].min {
      assert Contains(ls[0], p);
    } else {
      forall i | 0 <= i < |ls|
        ensures !Contains(ls[i], p)
      {
        if i > 0 {
          TilingOrdered(ls, 0, i);
        }
      }
    }
  }

  /** In a tiling, no total lies in two tiers. */
  lemma TilingDisjoint(ls: seq<Level>, p: int, i: nat, j: nat)
    requires Tiling(ls)
    requires i < |ls| && j < |ls|
    requires Contains(ls[i], p) && Contains(ls[j], p)
    ensures i == j
  {
    if i < j {
      TilingOrdered(ls, i, j);
    } else if j < i {
      TilingOrdered(ls, j, i);
    }
  }

  /** `LEVEL_BADGE(points)`: the first tier of `LEVELS` containing the total. */
  function LevelBadge(p: int): (r: Option<Level>)
    ensures r.Some? ==> r.value in Levels && Contains(r.value, p)
    ensures r.None? <==> forall i :: 0 <= i < |Levels| ==> !Contains(Levels[i], p)
  {
    match FindFirst(Levels, l => Contains(l, p))
    case None => None
    case Some(i) => Some(Levels[i])
  }

  /**
    Every total of at least 100 has a tier and every lower total has none;
    the tier returned is the only one whose range holds the total.
   */
  lemma LevelBadgeExactlyOne(p: int)
    ensures LevelBadge(p).Some? <==> p >= 100
    ensures forall i :: 0 <= i < |Levels| && Contains(Levels[i], p) ==> LevelBadge(p) == Some(Levels[i])
  {
    LevelsTiling();
    TilingCovers(Levels, p);
    forall i | 0 <= i < |Levels| && Contains(Levels[i], p)
      ensures LevelBadge(p) == Some(Levels[i])
    {
      var l := LevelBadge(p).value;
      assert Contains(l, p);
      var j :| 0 <= j < |Levels| && Levels[j] == l;
      TilingDisjoint(Levels, p, i, j);
    }
  }

  /** The tier by plain range comparison, e.g. 162 earns the "CHF 100" tier. */
  lemma LevelBadgeRanges(p: int)
    ensures p < 100 ==> LevelBadge(p) == None
    ensures 100 <= p <= 149 ==> LevelBadge(p) == Some(Levels[0])
    ensures 150 <= p <= 199 ==> LevelBadge(p) == Some(Levels[1])
    ensures 200 <= p <= 249 ==> LevelBadge(p) == Some(Levels[2])
    ensures 250 <= p ==> LevelBadge(p) == Some(Levels[3])
    ensures LevelBadge(162).Some? && LevelBadge(162).value.title == "CHF 100"
  {
    LevelBadgeExactlyOne(p);
    LevelBadgeExactlyOne(162);
  }

  /**
    The `nextThreshold` memo of the dashboard: the smallest tier minimum above
    the total, or the total itself when no tier minimum lies above it.
   */
  function NextThreshold(total: int): (r: int)
    ensures (exists i :: 0 <= i < |Levels| && Levels[i].min > total) ==>
              && r > total
              && (exists i :: 0 <= i < |Levels| && Levels[i].min == r)
              && forall i :: 0 <= i < |Levels| && Levels[i].min > total ==> r <= Levels[i].min
    ensures (forall i :: 0 <= i < |Levels| ==> Levels[i].min <= total) ==> r == total
  {
    var mins := seq(|Levels|, i requires 0 <= i < |Levels| => Levels[i].min);
    assert forall i :: 0 <= i < |Levels| ==> mins[i] == Levels[i].min;
    var higher := Filter(mins, m => m > total);
    assert forall i :: 0 <= i < |Levels| && Levels[i].min > total ==> mins[i] in higher;
    if |higher| == 0 then total else Smallest(higher)
  }

  /** The threshold by plain range comparison, as a reference for `NextThreshold`. */
  lemma NextThresholdTable(total: int)
    ensures NextThreshold(total) == if total < 100 then 100
                                    else if total < 150 then 150
                                    else if total < 200 then 200
                                    else if total < 250 then 250
                                    else total
  {
    assert Levels[0].min == 100 && Levels[1].min == 150;
    assert Levels[2].min == 200 && Levels[3].min == 250;
  }

  /** Points still missing to the next threshold, never below zero. */
  function Remaining(total: int): (r: int)
    ensures r >= 0
    ensures r == 0 <==> total >= 250
    ensures total >= 0 ==> r <= 100
    ensures total >= 100 ==> r <= 50
  {
    NextThresholdTable(total);
    var next := NextThreshold(total);
    if next - total > 0 then next - total else 0
  }

  /** The remaining points by plain range comparison, as a reference for `Remaining`. */
  lemma RemainingTable(total: int)
    ensures Remaining(total) == if total < 100 then 100 - total
                                else if total < 150 then 150 - total
                                else if total < 200 then 200 - total
                                else if total < 250 then 250 - total
                                else 0
  {
    NextThresholdTable(total);
  }

  /**
    Progress always aims at the tier right above the current one: below the
    first tier it is the first minimum, inside a bounded tier it is the next
    tier's minimum (162 needs 38 more to reach 200).
   */
  lemma NextThresholdIsNextTier(total: int)
    ensures total < 100 ==> NextThreshold(total) == Levels[0].min
    ensures forall i :: 0 <= i < |Levels| - 1 && LevelBadge(total) == Some(Levels[i]) ==>
              NextThreshold(total) == Levels[i + 1].min
    ensures total >= 250 ==> NextThreshold(total) == total
    ensures NextThreshold(162) == 200 && Remaining(162) == 38
  {
    LevelBadgeRanges(total);
    NextThresholdTable(total);
    NextThresholdTable(162);
  }
}
