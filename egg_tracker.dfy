/**
 * Egg location tracking: per colour, a map from the world tile an egg was
 * seen spawning on to the number of eggs seen spawning there.
 */
module EggTracker {

  /** A tile of the game world (x, y and plane); only ever used as a map key. */
  datatype WorldPoint = WorldPoint(x: int, y: int, plane: int)

  /** The number of eggs recorded at `p`; an absent key counts none. */
  function CountAt(m: map<WorldPoint, int>, p: WorldPoint): int
  {
    if p in m then m[p] else 0
  }

  /** Every tile present in the map has at least one egg recorded. */
  predicate CountsPositive(m: map<WorldPoint, int>)
  {
    forall p | p in m :: m[p] >= 1
  }

  /**
   * One spawn recorded at `p`: the count there goes up by one (a new key
   * starts at 1) and every other tile keeps its count.
   */
  function Recorded(m: map<WorldPoint, int>, p: WorldPoint): (r: map<WorldPoint, int>)
    ensures r.Keys == m.Keys + {p}
    ensures CountAt(r, p) == CountAt(m, p) + 1
    ensures forall q :: q != p ==> CountAt(r, q) == CountAt(m, q)
    ensures CountsPositive(m) ==> CountsPositive(r)
  {
    m[p := CountAt(m, p) + 1]
  }

  /** Spawns recorded one after another, in order. */
  function RecordedAll(m: map<WorldPoint, int>, ps: seq<WorldPoint>): map<WorldPoint, int>
    decreases |ps|
  {
    if ps == [] then m else RecordedAll(Recorded(m, ps[0]), ps[1..])
  }

  /**
   * After any series of spawns the count at a tile is its old count plus the
   * number of those spawns that were on that tile: nothing is lost or counted
   * twice, and the count never goes down.
   */
  lemma {:induction false} RecordedAllCounts(m: map<WorldPoint, int>, ps: seq<WorldPoint>, q: WorldPoint)
    ensures CountAt(RecordedAll(m, ps), q) == CountAt(m, q) + multiset(ps)[q]
    decreases |ps|
  {
    if ps != [] {
      RecordedAllCounts(Recorded(m, ps[0]), ps[1..], q);
      assert ps == [ps[0]] + ps[1..];
    }
  }

  /** Starting from an empty map, the count at a tile is the number of spawns seen there. */
  lemma SpawnsCountedFromEmpty(ps: seq<WorldPoint>, q: WorldPoint)
    ensures CountAt(RecordedAll(map[], ps), q) == multiset(ps)[q]
  {
    RecordedAllCounts(map[], ps, q);
  }
}
