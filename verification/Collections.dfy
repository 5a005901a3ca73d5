/** Small facts about maps and sets. */
module Collections {

  /** Removing one key after others is removing them all. */
  lemma MinusGrows<K, V>(m: map<K, V>, gone: set<K>, k: K)
    ensures m - (gone + {k}) == (m - gone) - {k}
  {
  }

  /** Removing keys in two goes is removing them all at once. */
  lemma MinusAddsUp<K, V>(m: map<K, V>, gone: set<K>, more: set<K>)
    ensures m - (gone + more) == (m - gone) - more
  {
  }

  lemma {:induction false} SubsetSize<T>(a: set<T>, b: set<T>)
    requires a <= b
    ensures |a| <= |b|
  {
    if a != {} {
      var k :| k in a;
      SubsetSize(a - {k}, b - {k});
    }
  }
}
