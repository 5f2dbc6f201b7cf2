/** Results that concurrent workers append to one list, in whatever order they finish. */
module Pool {
  import opened Text

  /** The results of the workers that have one, in worker order. */
  function Collected<T>(results: seq<Option<T>>): seq<T> {
    if results == [] then []
    else Collected(results[..|results| - 1]) + One(results[|results| - 1])
  }

  function One<T>(result: Option<T>): seq<T> { if result.Some? then [result.value] else [] }

  /** When worker i delivers, exactly its result is added. */
  lemma {:induction false} Delivered<T>(results: seq<Option<T>>, i: nat, x: T)
    requires i < |results| && results[i].None?
    ensures multiset(Collected(results[i := Some(x)])) == multiset(Collected(results)) + multiset{x}
  {
    var n := |results| - 1;
    var after := results[i := Some(x)];
    var front, last := Collected(results[..n]), One(results[n]);
    assert multiset(front + last) == multiset(front) + multiset(last);
    if i == n {
      assert after[..n] == results[..n] && One(after[n]) == [x] && last == [];
      assert front + last == front;
    } else {
      Delivered(results[..n], i, x);
      assert after[..n] == results[..n][i := Some(x)];
      var front' := Collected(after[..n]);
      assert Collected(after) == front' + last;
      assert multiset(front' + last) == multiset(front') + multiset(last);
    }
  }

  lemma {:induction false} CollectedEmpty<T>(results: seq<Option<T>>)
    requires forall i :: 0 <= i < |results| ==> results[i].None?
    ensures Collected(results) == []
  {
    if results != [] {
      CollectedEmpty(results[..|results| - 1]);
    }
  }

  lemma {:induction false} CollectedHas<T>(results: seq<Option<T>>, i: nat)
    requires i < |results| && results[i].Some?
    ensures results[i].value in Collected(results)
  {
    if i < |results| - 1 {
      CollectedHas(results[..|results| - 1], i);
    }
  }

  lemma {:induction false} CollectedFrom<T>(results: seq<Option<T>>, x: T)
    requires x in Collected(results)
    ensures exists i :: 0 <= i < |results| && results[i] == Some(x)
  {
    var n := |results| - 1;
    if x in Collected(results[..n]) {
      CollectedFrom(results[..n], x);
      var i :| 0 <= i < n && results[..n][i] == Some(x);
      assert results[i] == Some(x);
    } else {
      assert results[n] == Some(x);
    }
  }

  /** The list holds one result per worker exactly when every worker has one. */
  lemma {:induction false} CollectedLength<T>(results: seq<Option<T>>)
    ensures |Collected(results)| <= |results|
    ensures |Collected(results)| == |results| <==> forall i :: 0 <= i < |results| ==> results[i].Some?
  {
    if results != [] {
      var n := |results| - 1;
      CollectedLength(results[..n]);
      if |Collected(results)| == |results| {
        forall i | 0 <= i < |results| ensures results[i].Some? {
          if i < n { assert results[..n][i].Some?; }
        }
      }
    }
  }

  /** When every worker has a result, the list holds exactly those. */
  lemma {:induction false} CollectedAll<T>(results: seq<Option<T>>, values: seq<T>)
    requires |values| == |results| && forall i :: 0 <= i < |results| ==> results[i] == Some(values[i])
    ensures Collected(results) == values
  {
    if results != [] {
      var n := |results| - 1;
      CollectedAll(results[..n], values[..n]);
      assert values == values[..n] + [values[n]];
    }
  }
}
