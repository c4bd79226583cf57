/** The progress tracker card: the XP needed per level, the in-level
    progress bar and the three most recent achievements. */
module ProgressTracker {

  /** `getXPForLevel(level)`: `level * 100 + (level - 1) * 50`. */
  function XpForLevel(level: int): (r: int)
    ensures r == 150 * level - 50
    ensures level >= 1 ==> r >= 100
  {
    level * 100 + (level - 1) * 50
  }

  /** The requirement grows by 150 per level, so it is strictly increasing. */
  lemma XpForLevelIncreasing(l1: int, l2: int)
    ensures XpForLevel(l1) == 150 * l1 - 50
    ensures l1 < l2 ==> XpForLevel(l1) < XpForLevel(l2)
  {
  }

  /** The threshold the bar starts from: the previous level's requirement,
      or 0 at level 1 and below. */
  function LevelStart(level: int): int {
    if level > 1 then XpForLevel(level - 1) else 0
  }

  /** The divisor of the bar: 100 at level 1, 150 from level 2 on, and never
      zero for any whole level. */
  function LevelRange(level: int): (r: int)
    ensures level == 1 ==> r == 100
    ensures level >= 2 ==> r == 150
    ensures r != 0
  {
    XpForLevel(level) - LevelStart(level)
  }

  function Clamp(x: real): (r: real)
    ensures 0.0 <= r <= 100.0
    ensures 0.0 <= x <= 100.0 ==> r == x
  {
    if x < 0.0 then 0.0 else if x > 100.0 then 100.0 else x
  }

  /** `getCurrentLevelProgress(xp, level)` in exact arithmetic: the share of
      the level's range already covered, as a percentage clamped into
      [0, 100]. */
  function CurrentLevelProgress(xp: int, level: int): (r: real)
    ensures 0.0 <= r <= 100.0
  {
    Clamp(((xp - LevelStart(level)) as real / LevelRange(level) as real) * 100.0)
  }

  /** From level 1 on, the bar is empty at the previous level's threshold,
      full at or above this level's threshold, and never moves backwards as
      XP grows. */
  lemma LevelProgressEnds(xp: int, level: int)
    requires level >= 1
    ensures xp <= LevelStart(level) ==> CurrentLevelProgress(xp, level) == 0.0
    ensures xp >= XpForLevel(level) ==> CurrentLevelProgress(xp, level) == 100.0
  {
    var range := LevelRange(level) as real;
    var x := ((xp - LevelStart(level)) as real / range) * 100.0;
    if xp >= XpForLevel(level) {
      assert (xp - LevelStart(level)) as real >= range;
      assert (xp - LevelStart(level)) as real / range >= 1.0;
    }
    if xp <= LevelStart(level) {
      assert (xp - LevelStart(level)) as real / range <= 0.0;
    }
  }

  lemma LevelProgressMonotone(xp1: int, xp2: int, level: int)
    requires level >= 1 && xp1 <= xp2
    ensures CurrentLevelProgress(xp1, level) <= CurrentLevelProgress(xp2, level)
  {
    var range := LevelRange(level) as real;
    var d1, d2 := (xp1 - LevelStart(level)) as real, (xp2 - LevelStart(level)) as real;
    assert d1 / range <= d2 / range;
  }

  // ----- recent achievements ----------------------------------------------------

  datatype Rarity = Common | Rare | Epic | Legendary

  /** `unlockedAt` in milliseconds since the epoch. */
  datatype Achievement = Achievement(id: string, name: string, description: string, icon: string,
                                     unlockedAt: int, rarity: Rarity)

  /** The order `sort((a, b) => b.unlockedAt - a.unlockedAt)` produces. */
  predicate NewestFirst(s: seq<Achievement>) {
    forall p, q :: 0 <= p < q < |s| ==> s[p].unlockedAt >= s[q].unlockedAt
  }

  /** The in-place sort of `stats.achievements`, newest first; the array
      keeps the same achievements. */
  method SortNewestFirst(a: array<Achievement>)
    modifies a
    ensures NewestFirst(a[..])
    ensures multiset(a[..]) == multiset(old(a[..]))
  {
    var i := 0;
    while i < a.Length
      invariant 0 <= i <= a.Length
      invariant NewestFirst(a[..i])
      invariant multiset(a[..]) == multiset(old(a[..]))
    {
      InsertNewestFirst(a, i);
      i := i + 1;
    }
    assert a[..] == a[..a.Length];
  }

  /** Moves `a[i]` left past the older entries before it. */
  method InsertNewestFirst(a: array<Achievement>, i: int)
    requires 0 <= i < a.Length && NewestFirst(a[..i])
    modifies a
    ensures NewestFirst(a[..i + 1])
    ensures multiset(a[..]) == multiset(old(a[..]))
  {
    var j := i;
    while j > 0 && a[j - 1].unlockedAt < a[j].unlockedAt
      invariant 0 <= j <= i
      invariant forall p, q :: 0 <= p < q <= i && p != j && q != j ==> a[p].unlockedAt >= a[q].unlockedAt
      invariant forall q :: j < q <= i ==> a[j].unlockedAt > a[q].unlockedAt
      invariant multiset(a[..]) == multiset(old(a[..]))
    {
      SwapAdjacent(a, j);
      j := j - 1;
    }
  }

  /** Exchanges `a[j - 1]` and `a[j]`. */
  method SwapAdjacent(a: array<Achievement>, j: int)
    requires 0 < j < a.Length
    modifies a
    ensures a[..] == old(a[..])[j - 1 := old(a[j])][j := old(a[j - 1])]
    ensures multiset(a[..]) == multiset(old(a[..]))
  {
    a[j - 1], a[j] := a[j], a[j - 1];
  }

  /** `recentAchievements`: after the sort, the first three entries — at
      most three, newest first, each one taken from the list, and none of
      the rest newer than any of them. */
  method RecentAchievements(a: array<Achievement>) returns (recent: seq<Achievement>)
    modifies a
    ensures NewestFirst(a[..]) && multiset(a[..]) == multiset(old(a[..]))
    ensures |recent| == if a.Length < 3 then a.Length else 3
    ensures recent == a[..|recent|]
    ensures NewestFirst(recent)
    ensures multiset(recent) <= multiset(old(a[..]))
    ensures forall p, q :: 0 <= p < |recent| <= q < a.Length ==> recent[p].unlockedAt >= a[q].unlockedAt
    ensures forall k :: 0 <= k < a.Length ==> recent[0].unlockedAt >= old(a[k]).unlockedAt
  {
    ghost var before := a[..];
    SortNewestFirst(a);
    var n := if a.Length < 3 then a.Length else 3;
    recent := a[..n];
    TopEntries(before, a[..], n);
  }

  /** What the first `n` entries of a newest-first rearrangement of
      `before` are. */
  lemma TopEntries(before: seq<Achievement>, sorted: seq<Achievement>, n: nat)
    requires NewestFirst(sorted) && multiset(sorted) == multiset(before) && n <= |sorted|
    ensures NewestFirst(sorted[..n])
    ensures multiset(sorted[..n]) <= multiset(before)
    ensures forall p, q :: 0 <= p < n <= q < |sorted| ==> sorted[p].unlockedAt >= sorted[q].unlockedAt
    ensures forall k :: 0 <= k < |before| ==> sorted[0].unlockedAt >= before[k].unlockedAt
  {
    assert sorted == sorted[..n] + sorted[n..];
    forall k | 0 <= k < |before|
      ensures sorted[0].unlockedAt >= before[k].unlockedAt
    {
      assert before[k] in multiset(before);
      FirstIsNewest(sorted, before[k]);
    }
  }

  /** The head of a newest-first list is at least as new as any entry. */
  lemma FirstIsNewest(s: seq<Achievement>, x: Achievement)
    requires NewestFirst(s) && x in multiset(s)
    ensures s[0].unlockedAt >= x.unlockedAt
  {
    var m :| 0 <= m < |s| && s[m] == x;
    assert m == 0 || s[0].unlockedAt >= s[m].unlockedAt;
  }
}
