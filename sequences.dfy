/** Facts about sequences that several proofs pass to the solver explicitly. */
module Sequences {

  lemma AppendAssoc<T>(a: seq<T>, b: seq<T>, c: seq<T>)
    ensures (a + b) + c == a + (b + c)
  {
  }

  /** Splitting a list in two and sending one more element to either side still splits the longer list. */
  lemma MultisetSnocSplit<T>(g: seq<T>, b: seq<T>, init: seq<T>, last: T, toFirst: bool)
    requires multiset(g) + multiset(b) == multiset(init)
    ensures multiset(g + (if toFirst then [last] else [])) + multiset(b + (if toFirst then [] else [last]))
         == multiset(init + [last])
  {
    assert multiset(init + [last]) == multiset(init) + multiset{last};
    if toFirst {
      assert multiset(g + [last]) == multiset(g) + multiset{last};
      assert b + [] == b;
    } else {
      assert multiset(b + [last]) == multiset(b) + multiset{last};
      assert g + [] == g;
    }
  }
}
