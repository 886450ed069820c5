/** The ledger key of a pair of participants: the pair (a, b) with a < b is
    stored under a^2 * b^3.  The encoding is kept exactly, so that the
    collisions it produces at the default population size stay visible. */
module PairKeys {

  /** Population size the simulation uses by default. */
  const DEFAULT_POPULATION := 50

  /** Key of the pair (a, b), meant for 1 <= a < b. */
  function Key(a: int, b: int): (k: int)
    ensures 1 <= a && 1 <= b ==> k >= 1
  {
    a * a * (b * b * b)
  }

  /** No two distinct pairs over [1, n] share a key. */
  ghost predicate KeysInjective(n: int) {
    forall a, b, c, d {:trigger Key(a, b), Key(c, d)} ::
      1 <= a < b <= n && 1 <= c < d <= n && Key(a, b) == Key(c, d) ==> a == c && b == d
  }

  /** (8, 9) and (1, 36) share the slot 46656, so from 36 participants
      on (the default population included) distinct pairs alias. */
  lemma KeysCollide(n: int)
    requires n >= 36
    ensures Key(8, 9) == Key(1, 36) == 46656
    ensures !KeysInjective(n)
  {
    assert Key(8, 9) == 46656;
    assert Key(1, 36) == 46656;
  }

  /** The default population is past the first collision: its ledger
      has shared slots. */
  lemma DefaultPopulationShares()
    ensures !KeysInjective(DEFAULT_POPULATION)
  {
    KeysCollide(DEFAULT_POPULATION);
  }

  /** Three further aliases below the default population. */
  lemma MoreCollisions()
    ensures 48 <= DEFAULT_POPULATION
    ensures Key(8, 10) == Key(1, 40)
    ensures Key(8, 11) == Key(1, 44)
    ensures Key(8, 12) == Key(1, 48)
  {
    assert Key(8, 10) == 64 * 1000;
    assert Key(1, 40) == 64000;
    assert Key(8, 11) == 64 * 1331;
    assert Key(1, 44) == 85184;
    assert Key(8, 12) == 64 * 1728;
    assert Key(1, 48) == 110592;
  }

  /** Four participants still get one slot per pair. */
  lemma SmallPopulationInjective(n: int)
    requires n <= 4
    ensures KeysInjective(n)
  {
    forall a, b, c, d | 1 <= a < b <= n && 1 <= c < d <= n && Key(a, b) == Key(c, d)
      ensures a == c && b == d
    {
      KeyTable(a, b);
      KeyTable(c, d);
    }
  }

  /** The six keys of the pairs over [1, 4]. */
  lemma KeyTable(a: int, b: int)
    requires 1 <= a < b <= 4
    ensures Key(a, b) == (if a == 1 && b == 2 then 8
                          else if a == 1 && b == 3 then 27
                          else if a == 1 && b == 4 then 64
                          else if a == 2 && b == 3 then 108
                          else if a == 2 && b == 4 then 256
                          else 576)
  {
    if a == 1 {
      assert b == 2 || b == 3 || b == 4;
    } else if a == 2 {
      assert b == 3 || b == 4;
    } else {
      assert a == 3 && b == 4;
    }
  }
}
