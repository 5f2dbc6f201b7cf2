/** The storage shared by the instances of an application: one volume and one claim of the same size. */
module SharedStorage {
  import opened Text

  // ----- Sizes -----

  /** The capacity string of a size in gigabytes. */
  function Size(n: int): string { Itoa(n) + "Gi" }

  /** Go's division truncates. */
  function Quotient(n: int, d: int): int
    requires d > 0
  {
    if n < 0 then -(-n / d) else n / d
  }

  /** GetStorageGbInt: Ki, Gi or plain numbers; None is an error. */
  function GetStorageGbInt(s: string): Option<int> {
    var suffixed := HasSuffix(s, "Ki") || HasSuffix(s, "Gi");
    match Atoi(if suffixed then s[..|s| - 2] else s)
    case None => None
    case Some(n) => Some(if HasSuffix(s, "Ki") then Quotient(n, 1024) else n)
  }

  /** Sizes in kilobytes are rounded towards zero, plain numbers are gigabytes, and everything else is an error. */
  lemma SizeUnits(n: int)
    requires 0 <= n <= MAX_INT
    ensures GetStorageGbInt(Itoa(n) + "Ki") == Some(n / 1024)
    ensures GetStorageGbInt(Itoa(n)) == Some(n)
    ensures GetStorageGbInt("").None? && GetStorageGbInt("Gi").None?
  {
    AtoiItoa(n);
    var s := Itoa(n) + "Ki";
    assert s[..|s| - 2] == Itoa(n) && s[|s| - 2..] == "Ki";
    assert Itoa(n)[|Itoa(n)| - 1] in Itoa(n);
  }

  lemma SizeRoundTrip(n: int)
    requires -MAX_INT - 1 <= n <= MAX_INT
    ensures GetStorageGbInt(Size(n)) == Some(n)
  {
    AtoiItoa(n);
    var s := Size(n);
    assert s[..|s| - 2] == Itoa(n) && s[|s| - 2] == 'G';
    assert s[|s| - 2..] == "Gi" && s[|s| - 2..][0] == 'G' && "Ki"[0] == 'K';
  }

  // ----- The two objects -----

  /** A claim asks for a size; its status shows one only while it is bound. */
  datatype Claim = Claim(size: string, bound: bool) {
    function Capacity(): string { if bound then size else "" }
  }

  /** The capacity of the volume, and the claim. */
  datatype Shared = Shared(volume: Option<string>, claim: Option<Claim>)

  /** The API calls that may fail. The second lists, made before a deletion, read as empty when they fail. */
  datatype Call = ListClaim | ListVolume | ListClaimAgain | DropClaim | ListVolumeAgain | DropVolume | AwaitGone
                | MakeVolume | MakeClaim | AwaitBound

  type Faults = set<Call>

  datatype Result = Result(shared: Shared, ok: bool, writes: nat)

  /** deletePersistentVolumeClaim, deletePersistentVolume and the wait for the volume to be gone. A volume cannot be
      deleted while it is claimed. */
  function DeleteStorage(s: Shared, f: Faults): Result {
    var dropClaim := s.claim.Some? && ListClaimAgain !in f;
    if dropClaim && DropClaim in f then Result(s, false, 0)
    else
      var unclaimed := if dropClaim then s.(claim := None) else s;
      var writes: nat := if dropClaim then 1 else 0;
      if s.volume.None? then Result(unclaimed, true, writes)
      else if ListVolumeAgain in f then Result(unclaimed, AwaitGone !in f, writes)
      else if unclaimed.claim.Some? || DropVolume in f then Result(unclaimed, false, writes)
      else Result(unclaimed.(volume := None), AwaitGone !in f, writes + 1)
  }

  /** A claim of that name must not exist. */
  function MakeSharedClaim(s: Shared, n: int, f: Faults, writes: nat): Result {
    if s.claim.Some? || MakeClaim in f then Result(s, false, writes)
    else Result(s.(claim := Some(Claim(Size(n), AwaitBound !in f))), AwaitBound !in f, writes + 1)
  }

  /** The last part of CreateSharedStorage, which still looks at the claim as it was listed at the beginning. */
  function MakeShared(s: Shared, listed: Option<Claim>, n: int, f: Faults, writes: nat): Result {
    if s.volume.Some? || MakeVolume in f then Result(s, false, writes)
    else
      var made := s.(volume := Some(Size(n)));
      if listed.None? then MakeSharedClaim(made, n, f, writes + 1)
      else
        match GetStorageGbInt(listed.value.Capacity())
        case None => Result(made, false, writes + 1)
        case Some(size) =>
          if size != n then MakeSharedClaim(made, n, f, writes + 1) else Result(made, true, writes + 1)
  }

  function CreateSharedStorage(s: Shared, n: int, f: Faults): Result {
    if ListClaim in f || ListVolume in f then Result(s, false, 0)
    else if s.volume.None? then MakeShared(s, s.claim, n, f, 0)
    else
      match GetStorageGbInt(s.volume.value)
      case None => Result(s, false, 0)
      case Some(size) =>
        if size == n then
          if s.claim.Some? then Result(s, true, 0) else MakeSharedClaim(s, n, f, 0)
        else
          var d := DeleteStorage(s, f);
          if !d.ok then d else MakeShared(d.shared, s.claim, n, f, d.writes)
  }

  // ----- The client -----

  class Store {
    var shared: Shared
    var writes: nat

    constructor ()
      ensures shared == Shared(None, None) && writes == 0
    {
      shared, writes := Shared(None, None), 0;
    }

    method Delete(f: Faults) returns (ok: bool)
      modifies this
      ensures var r := DeleteStorage(old(shared), f);
              shared == r.shared && ok == r.ok && writes == old(writes) + r.writes
    {
      if shared.claim.Some? && ListClaimAgain !in f {
        if DropClaim in f { return false; }
        shared, writes := shared.(claim := None), writes + 1;
      }
      if shared.volume.None? { return true; }
      if ListVolumeAgain !in f {
        if shared.claim.Some? || DropVolume in f { return false; }
        shared, writes := shared.(volume := None), writes + 1;
      }
      ok := AwaitGone !in f;
    }

    method MakeClaimOf(n: int, f: Faults) returns (ok: bool)
      modifies this
      ensures var r := MakeSharedClaim(old(shared), n, f, old(writes));
              shared == r.shared && ok == r.ok && writes == r.writes
    {
      if shared.claim.Some? || MakeClaim in f { return false; }
      ok := AwaitBound !in f;
      shared, writes := shared.(claim := Some(Claim(Size(n), ok))), writes + 1;
    }

    method Create(n: int, f: Faults) returns (ok: bool)
      modifies this
      ensures var r := CreateSharedStorage(old(shared), n, f);
              shared == r.shared && ok == r.ok && writes == old(writes) + r.writes
    {
      if ListClaim in f { return false; }
      var listed := shared.claim;
      if ListVolume in f { return false; }
      if shared.volume.Some? {
        var size := GetStorageGbInt(shared.volume.value);
        if size.None? { return false; }
        if size.value == n {
          if listed.Some? { return true; }
          ok := MakeClaimOf(n, f);
          return;
        }
        ok := Delete(f);
        if !ok { return; }
      }
      if shared.volume.Some? || MakeVolume in f { return false; }
      shared, writes := shared.(volume := Some(Size(n))), writes + 1;
      if listed.None? {
        ok := MakeClaimOf(n, f);
        return;
      }
      var size := GetStorageGbInt(listed.value.Capacity());
      if size.None? { return false; }
      if size.value == n { return true; }
      ok := MakeClaimOf(n, f);
    }
  }

  // ----- Convergence -----

  predicate InRange(n: int) { -MAX_INT - 1 <= n <= MAX_INT }

  /** A capacity the controller prints. */
  predicate Printed(capacity: string) {
    match GetStorageGbInt(capacity)
    case None => false
    case Some(n) => InRange(n) && capacity == Size(n)
  }

  /** A claim exists only with a volume of the same size. */
  predicate Matching(s: Shared) { s.claim.Some? ==> s.volume == Some(s.claim.value.size) }

  predicate Consistent(s: Shared) { Matching(s) && (s.volume.Some? ==> Printed(s.volume.value)) }

  /** Both objects are there, of that size. */
  predicate Holds(s: Shared, n: int) {
    s.volume == Some(Size(n)) && s.claim.Some? && s.claim.value.size == Size(n)
  }

  /** The requests, and the cluster binding a claim whose wait was given up. */
  datatype Request = Create(size: int) | Delete | Bind

  function Serve(s: Shared, r: Request, f: Faults): Result {
    match r
    case Create(n) => CreateSharedStorage(s, n, f)
    case Delete => DeleteStorage(s, f)
    case Bind =>
      Result(if s.claim.Some? && s.volume.Some? then s.(claim := Some(s.claim.value.(bound := true))) else s, true, 0)
  }

  lemma DeletionKeepsMatching(s: Shared, f: Faults)
    requires Matching(s)
    ensures Matching(DeleteStorage(s, f).shared)
    ensures DeleteStorage(s, f).shared.volume in {s.volume, None}
    ensures DeleteStorage(s, f).shared.volume.None? ==> DeleteStorage(s, f).shared.claim.None?
  {
  }

  /** The last part makes a matching pair or fails, if the claim is gone and was not of the requested size. */
  lemma MakingKeepsMatching(s: Shared, listed: Option<Claim>, n: int, f: Faults, writes: nat)
    requires Matching(s) && (s.volume.None? ==> s.claim.None?)
    requires listed.Some? ==> GetStorageGbInt(listed.value.Capacity()) != Some(n)
    ensures var r := MakeShared(s, listed, n, f, writes);
            && Matching(r.shared) && r.shared.volume in {s.volume, Some(Size(n))}
            && (r.ok ==> Holds(r.shared, n))
  {
  }

  lemma CreationKeepsMatching(s: Shared, n: int, f: Faults)
    requires Matching(s) && (s.volume.Some? ==> Printed(s.volume.value))
    ensures var r := CreateSharedStorage(s, n, f);
            && Matching(r.shared) && r.shared.volume in {s.volume, None, Some(Size(n))}
            && (r.ok ==> Holds(r.shared, n))
  {
    if s.volume.None? {
      MakingKeepsMatching(s, s.claim, n, f, 0);
    } else if GetStorageGbInt(s.volume.value) != Some(n) {
      assert GetStorageGbInt("") == None;
      var d := DeleteStorage(s, f);
      DeletionKeepsMatching(s, f);
      MakingKeepsMatching(d.shared, s.claim, n, f, d.writes);
    }
  }

  lemma SizeIsPrinted(n: int)
    requires InRange(n)
    ensures Printed(Size(n))
  {
    SizeRoundTrip(n);
  }

  lemma ServeKeepsConsistent(s: Shared, r: Request, f: Faults)
    requires Consistent(s) && (r.Create? ==> InRange(r.size))
    ensures Consistent(Serve(s, r, f).shared)
  {
    match r
    case Create(n) =>
      CreationKeepsMatching(s, n, f);
      SizeIsPrinted(n);
    case Delete => DeletionKeepsMatching(s, f);
    case Bind =>
  }

  /** The state after a sequence of requests, each with its own failing calls. */
  function After(requests: seq<(Request, Faults)>): Shared {
    if requests == [] then Shared(None, None)
    else
      var (r, f) := requests[|requests| - 1];
      Serve(After(requests[..|requests| - 1]), r, f).shared
  }

  predicate AllInRange(requests: seq<(Request, Faults)>) {
    forall i :: 0 <= i < |requests| && requests[i].0.Create? ==> InRange(requests[i].0.size)
  }

  /** Whatever is requested and whatever fails, a claim never stands beside a volume of another size. */
  lemma {:induction false} AlwaysConsistent(requests: seq<(Request, Faults)>)
    requires AllInRange(requests)
    ensures Consistent(After(requests))
  {
    if requests != [] {
      var n := |requests| - 1;
      AlwaysConsistent(requests[..n]);
      ServeKeepsConsistent(After(requests[..n]), requests[n].0, requests[n].1);
    }
  }

  /** A creation that succeeds leaves both objects at the requested size. */
  lemma CreationConverges(requests: seq<(Request, Faults)>, n: int, f: Faults)
    requires AllInRange(requests) && InRange(n) && CreateSharedStorage(After(requests), n, f).ok
    ensures Holds(CreateSharedStorage(After(requests), n, f).shared, n)
  {
    AlwaysConsistent(requests);
    CreationKeepsMatching(After(requests), n, f);
  }

  /** A second creation of the same size performs no writes and succeeds unless a list fails. */
  lemma SecondCreationIsSilent(s: Shared, n: int, f: Faults)
    requires InRange(n) && Holds(s, n)
    ensures CreateSharedStorage(s, n, f) == Result(s, ListClaim !in f && ListVolume !in f, 0)
  {
    SizeRoundTrip(n);
  }

  /** A new claim can be made and gets bound. */
  predicate ClaimMade(f: Faults) { MakeClaim !in f && AwaitBound !in f }

  /** From every state that requests can lead to, a creation succeeds exactly when both lists do and: the volume has the
      size and there is a claim or one can be made; or there is none and both can be made; or it has another size, its
      claim was bound, both can be dropped without a failing list, and both can be made. */
  lemma CreationSucceedsExactly(s: Shared, n: int, f: Faults)
    requires Consistent(s) && InRange(n)
    ensures CreateSharedStorage(s, n, f).ok
            <==> ListClaim !in f && ListVolume !in f
                 && (if s.volume.None? then MakeVolume !in f && ClaimMade(f)
                     else if s.volume == Some(Size(n)) then s.claim.Some? || ClaimMade(f)
                     else
                       && (s.claim.Some? ==> s.claim.value.bound && ListClaimAgain !in f && DropClaim !in f)
                       && ListVolumeAgain !in f && DropVolume !in f && AwaitGone !in f
                       && MakeVolume !in f && ClaimMade(f))
  {
    SizeRoundTrip(n);
    assert GetStorageGbInt("") == None;
    if s.volume.Some? {
      assert s.volume == Some(Size(n)) <==> GetStorageGbInt(s.volume.value) == Some(n);
    }
  }

  /** A new claim is bound exactly when the wait for it went through. */
  lemma NewClaimIsBound(s: Shared, n: int, f: Faults)
    requires s.claim.None?
    ensures var c := CreateSharedStorage(s, n, f).shared.claim;
            c.Some? ==> c.value == Claim(Size(n), AwaitBound !in f)
  {
  }

  lemma DeletionSucceedsExactly(s: Shared, f: Faults)
    ensures var dropsClaim := s.claim.Some? && ListClaimAgain !in f;
            DeleteStorage(s, f).ok
            <==> !(dropsClaim && DropClaim in f)
                 && (s.volume.Some? ==>
                       AwaitGone !in f && (ListVolumeAgain in f
                                           || (DropVolume !in f && (s.claim.None? || dropsClaim))))
  {
  }

  lemma WithoutClaim(volume: Option<string>, n: int)
    requires InRange(n) && (volume.Some? ==> GetStorageGbInt(volume.value).Some?)
    ensures var r := CreateSharedStorage(Shared(volume, None), n, {});
            r.ok && (volume.Some? && GetStorageGbInt(volume.value) == Some(n) ==> r.shared.volume == volume)
            && (volume.None? || GetStorageGbInt(volume.value) != Some(n) ==> Holds(r.shared, n))
            && r.shared.claim == Some(Claim(Size(n), true))
  {
  }

  lemma WithoutVolume(claim: Claim, n: int)
    ensures var r := CreateSharedStorage(Shared(None, Some(claim)), n, {});
            && (r.ok <==> GetStorageGbInt(claim.Capacity()) == Some(n))
            && (r.ok ==> r.shared == Shared(Some(Size(n)), Some(claim)))
  {
  }

  lemma WithBoth(volume: string, claim: Claim, n: int)
    requires GetStorageGbInt(volume).Some?
    ensures var r := CreateSharedStorage(Shared(Some(volume), Some(claim)), n, {});
            var listed := GetStorageGbInt(claim.Capacity());
            if GetStorageGbInt(volume) == Some(n) then
              r.ok && r.shared == Shared(Some(volume), Some(claim))
            else
              && (r.ok <==> listed.Some?)
              && (r.ok ==> (Holds(r.shared, n) <==> listed != Some(n)))
  {
  }

  /** From any pair of sizes, even inconsistent ones, a creation without failing calls succeeds exactly when the
      volume has the size already, or there is no claim, or the claim is bound and either there is a volume or the
      claim has the size; an unbound claim makes a change of size fail after the volume has been replaced. And then it
      converges exactly when volume and claim, if both exist, agree on whether they have the requested size. */
  lemma ConvergesExactly(p: Option<int>, k: Option<int>, bound: bool, n: int)
    requires InRange(n) && (p.Some? ==> InRange(p.value)) && (k.Some? ==> InRange(k.value))
    ensures var r := CreateSharedStorage(Sized(p, k, bound), n, {});
            && (r.ok <==> p == Some(n) || k.None? || (bound && (p.Some? || k.value == n)))
            && (r.ok ==> (Holds(r.shared, n) <==> (p.Some? && k.Some? ==> (p.value == n <==> k.value == n))))
  {
    var s := Sized(p, k, bound);
    assert GetStorageGbInt("") == None;
    if p.Some? { SizeRoundTrip(p.value); DifferentSizes(n, p.value); }
    if k.Some? { SizeRoundTrip(k.value); DifferentSizes(n, k.value); }
    if k.None? {
      WithoutClaim(s.volume, n);
    } else if p.None? {
      WithoutVolume(s.claim.value, n);
    } else {
      WithBoth(s.volume.value, s.claim.value, n);
    }
  }

  lemma DifferentSizes(n: int, k: int)
    requires InRange(n) && InRange(k)
    ensures Size(n) == Size(k) <==> n == k
  {
    SizeRoundTrip(n);
    SizeRoundTrip(k);
  }

  function Sized(p: Option<int>, k: Option<int>, bound: bool): Shared {
    Shared(if p.Some? then Some(Size(p.value)) else None,
           if k.Some? then Some(Claim(Size(k.value), bound)) else None)
  }

  /** A deletion that succeeds removes the claim, unless its list failed, and the volume, unless its list failed. */
  lemma DeletionRemoves(s: Shared, f: Faults)
    requires DeleteStorage(s, f).ok
    ensures DeleteStorage(s, f).shared.claim.None? <==> s.claim.None? || ListClaimAgain !in f
    ensures DeleteStorage(s, f).shared.volume.None? <==> s.volume.None? || ListVolumeAgain !in f
  {
  }
}
