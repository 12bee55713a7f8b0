/** Picking from sets and comparing them member by member. */
module Sets {
  lemma Pick<T>(s: set<T>) returns (x: T)
    requires s != {}
    ensures x in s
  {
    x :| x in s;
  }

  lemma NoRest<T>(a: set<T>, b: set<T>)
    requires a - b == {}
    ensures a <= b
  {
    forall x | x in a
      ensures x in b
    {
      assert x !in a - b;
    }
  }

  lemma Inhabited(s: set<int>)
    requires s != {}
    ensures exists x :: x in s
  {
    var x := Pick(s);
  }

  lemma Subset(a: set<int>, b: set<int>)
    requires forall x :: x in a ==> x in b
    ensures a <= b
  {
    if a - b != {} {
      var x := Pick(a - b);
    }
    NoRest(a, b);
  }

  lemma Same(a: set<int>, b: set<int>)
    requires forall x :: x in a <==> x in b
    ensures a == b
  {
    Subset(a, b);
    Subset(b, a);
  }
}
