/** waitForCatalogEntry: at most twenty rounds over the planned instances, until one round finds all of their
    templates in the catalog. */
module CatalogWait {

  const ROUNDS: nat := 20

  /** What the catalog answers about an instance in a round. */
  datatype Answer = Available | Missing | Failure

  datatype Outcome = Ready | NotAllAvailable | LookupFailed

  /** The instances' names, and the answers of every round. */
  datatype History = History(names: seq<string>, answers: seq<seq<Answer>>) {
    predicate Valid() { |answers| == ROUNDS && forall r :: 0 <= r < ROUNDS ==> |answers[r]| == |names| }

    predicate Distinct() { forall i, j :: 0 <= i < j < |names| ==> names[i] != names[j] }

    predicate Broken(r: nat)
      requires Valid() && r < ROUNDS
    {
      exists k :: 0 <= k < |names| && answers[r][k].Failure?
    }

    predicate AllThere(r: nat)
      requires Valid() && r < ROUNDS
    {
      forall k :: 0 <= k < |names| ==> answers[r][k].Available?
    }

    /** No later instance among the first n has the same name. */
    predicate LastOf(k: int, n: int)
      requires n <= |names|
    {
      0 <= k < n && forall j :: k < j < n ==> names[j] != names[k]
    }

    /** The pending map is keyed by name, so of several instances of one name only the last one counts. */
    predicate SeenThere(r: nat)
      requires Valid() && r < ROUNDS
    {
      !Broken(r) && forall k :: 0 <= k < |names| && LastOf(k, |names|) ==> answers[r][k].Available?
    }
  }

  /** The names whose last instance so far was missing. */
  function Missed(h: History, r: nat, n: nat): set<string>
    requires h.Valid() && r < ROUNDS && n <= |h.names|
  {
    set k | 0 <= k < n && h.answers[r][k].Missing? && h.LastOf(k, n) :: h.names[k]
  }

  function NamesOf(names: seq<string>): set<string> { set k | 0 <= k < |names| :: names[k] }

  lemma MissedNext(h: History, r: nat, n: nat)
    requires h.Valid() && r < ROUNDS && n < |h.names|
    ensures Missed(h, r, n + 1)
            == Missed(h, r, n) - {h.names[n]} + if h.answers[r][n].Missing? then {h.names[n]} else {}
  {
    var x := h.names[n];
    forall y
      ensures y in Missed(h, r, n + 1) <==> (y in Missed(h, r, n) && y != x) || (y == x && h.answers[r][n].Missing?)
    {
      if y in Missed(h, r, n) && y != x {
        var k :| 0 <= k < n && h.answers[r][k].Missing? && h.LastOf(k, n) && h.names[k] == y;
        assert h.LastOf(k, n + 1);
      }
      if y in Missed(h, r, n + 1) && y != x {
        var k :| 0 <= k < n + 1 && h.answers[r][k].Missing? && h.LastOf(k, n + 1) && h.names[k] == y;
        assert h.LastOf(k, n);
      }
      if y == x && h.answers[r][n].Missing? {
        assert h.LastOf(n, n + 1);
      }
      if y in Missed(h, r, n + 1) && y == x {
        var k :| 0 <= k < n + 1 && h.answers[r][k].Missing? && h.LastOf(k, n + 1) && h.names[k] == y;
        assert k == n;
      }
    }
  }

  lemma NothingMissed(h: History, r: nat)
    requires h.Valid() && r < ROUNDS && !h.Broken(r)
    ensures Missed(h, r, |h.names|) == {} <==> h.SeenThere(r)
  {
    var n := |h.names|;
    if !h.SeenThere(r) {
      var k :| 0 <= k < n && h.LastOf(k, n) && !h.answers[r][k].Available?;
      assert h.names[k] in Missed(h, r, n);
    }
  }

  /** One round: an instance found is flagged and taken off the pending map, one missing is put on it. */
  method Round(h: History, r: nat, before: set<string>, flags: array<bool>) returns (ok: bool, pending: set<string>)
    requires h.Valid() && r < ROUNDS && flags.Length == |h.names| && before <= NamesOf(h.names)
    modifies flags
    ensures ok <==> !h.Broken(r)
    ensures ok ==> pending == Missed(h, r, |h.names|) && pending <= NamesOf(h.names)
    ensures ok ==> forall k :: 0 <= k < flags.Length ==> flags[k] == (old(flags[k]) || h.answers[r][k].Available?)
  {
    pending := before;
    for k := 0 to |h.names|
      invariant pending == Missed(h, r, k) + (before - NamesOf(h.names[..k]))
      invariant forall j :: 0 <= j < k ==> !h.answers[r][j].Failure?
      invariant forall j :: 0 <= j < k ==> flags[j] == (old(flags[j]) || h.answers[r][j].Available?)
      invariant forall j :: k <= j < flags.Length ==> flags[j] == old(flags[j])
    {
      MissedNext(h, r, k);
      NamesNext(h.names, k);
      if h.answers[r][k].Failure? { return false, pending; }
      if h.answers[r][k].Available? {
        flags[k] := true;
        pending := pending - {h.names[k]};
      } else {
        pending := pending + {h.names[k]};
      }
    }
    assert h.names[..|h.names|] == h.names;
    ok := true;
  }

  lemma NamesNext(names: seq<string>, k: nat)
    requires k < |names|
    ensures NamesOf(names[..k + 1]) == NamesOf(names[..k]) + {names[k]}
  {
    assert names[..k + 1] == names[..k] + [names[k]];
    forall y | y in NamesOf(names[..k]) ensures y in NamesOf(names[..k + 1]) {
      var j :| 0 <= j < k && names[..k][j] == y;
      assert names[..k + 1][j] == y;
    }
    assert names[..k + 1][k] == names[k];
  }

  /** After each round the pending map is exactly what that round missed, whatever the rounds before left in it. So
      the wait ends well exactly when some round sees every name there before any lookup has failed, and then the
      instances of that round are flagged. */
  method WaitForCatalogEntry(h: History) returns (outcome: Outcome, flags: array<bool>)
    requires h.Valid()
    ensures outcome.Ready? <==> exists r :: 0 <= r < 20 && h.SeenThere(r) && forall j :: 0 <= j < r ==> !h.Broken(j)
    ensures outcome.LookupFailed? <==>
              exists r :: 0 <= r < 20 && h.Broken(r) && forall j :: 0 <= j < r ==> !h.SeenThere(j)
    ensures fresh(flags) && flags.Length == |h.names|
    ensures outcome.Ready? ==> forall k :: h.LastOf(k, |h.names|) ==> flags[k]
  {
    flags := new bool[|h.names|](_ => false);
    var pending: set<string> := {};
    for r := 0 to ROUNDS
      invariant pending <= NamesOf(h.names)
      invariant forall j :: 0 <= j < r ==> !h.SeenThere(j) && !h.Broken(j)
    {
      var ok;
      ok, pending := Round(h, r, pending, flags);
      if !ok { return LookupFailed, flags; }
      NothingMissed(h, r);
      if pending == {} { return Ready, flags; }
    }
    outcome := NotAllAvailable;
  }

  /** For distinct names, seeing every name means that every instance is there. */
  lemma DistinctSeeAll(h: History, r: nat)
    requires h.Valid() && r < ROUNDS && h.Distinct()
    ensures h.SeenThere(r) <==> h.AllThere(r)
  {
    forall k | 0 <= k < |h.names| ensures h.LastOf(k, |h.names|) { }
  }

  /** With a name twice the wait can end while an instance is missing. */
  lemma DuplicateNameWitness(h: History, name: string)
    requires h.Valid() && h.names == [name, name] && h.answers[0] == [Missing, Available]
    ensures h.SeenThere(0) && !h.AllThere(0)
  {
    assert h.answers[0][0].Missing? && h.answers[0][1].Available?;
    assert h.names[1] == h.names[0];
    assert !h.LastOf(0, |h.names|);
  }
}
