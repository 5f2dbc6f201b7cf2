/** The controller's string maps: shared, mutable objects with an in-place merge that also empties its source
    of the excluded keys. */
module AppMap {

  type Strings = map<string, string>

  function Get(m: Strings, key: string): string { if key in m then m[key] else "" }

  predicate HasValue(m: Strings, key: string) { key in m && m[key] != "" }

  function Keys(list: seq<string>): set<string> { set k | k in list }

  class StrMap {
    var entries: Strings

    constructor ()
      ensures entries == map[]
    {
      entries := map[];
    }

    method Add(key: string, value: string)
      modifies this
      ensures entries == old(entries)[key := value]
    {
      entries := entries[key := value];
    }

    method DeleteKey(key: string)
      modifies this
      ensures entries == old(entries) - {key}
    {
      entries := entries - {key};
    }
  }

  method DeleteKeys(m: StrMap, keys: seq<string>)
    modifies m
    ensures m.entries == old(m.entries) - Keys(keys)
  {
    for i := 0 to |keys|
      invariant m.entries == old(m.entries) - Keys(keys[..i])
    {
      if keys[i] in m.entries {
        m.DeleteKey(keys[i]);
      }
      assert Keys(keys[..i + 1]) == Keys(keys[..i]) + {keys[i]};
    }
    assert keys[..|keys|] == keys;
  }

  lemma MoveOne(rest: Strings, seen: Strings, k: string, all: Strings)
    requires rest.Keys !! seen.Keys && rest + seen == all && k in rest
    ensures (rest - {k}).Keys !! seen[k := rest[k]].Keys && (rest - {k}) + seen[k := rest[k]] == all
    ensures (rest - {k}).Keys < rest.Keys
  {
    assert k !in rest - {k};
  }

  /** Ranging over a map visits every key once, in no fixed order. */
  method AddEntries(dst: StrMap, src: Strings)
    modifies dst
    ensures dst.entries == old(dst.entries) + src
  {
    var rest := src;
    ghost var added: Strings := map[];
    while rest.Keys != {}
      invariant rest.Keys !! added.Keys && rest + added == src
      invariant dst.entries == old(dst.entries) + added
      decreases rest.Keys
    {
      var k :| k in rest.Keys;
      MoveOne(rest, added, k, src);
      dst.Add(k, rest[k]);
      added := added[k := rest[k]];
      rest := rest - {k};
    }
    assert added == src;
  }

  /** MapMerge: the excluded keys disappear from the source as well, and the two maps may be one object. */
  method MapMerge(dst: StrMap, src: StrMap, keysToExclude: seq<string>)
    modifies dst, src
    ensures src.entries == old(src.entries) - Keys(keysToExclude)
    ensures dst != src ==> dst.entries == old(dst.entries) + (old(src.entries) - Keys(keysToExclude))
  {
    DeleteKeys(src, keysToExclude);
    AddEntries(dst, src.entries);
  }

  // ----- Values kept from an earlier chart -----

  predicate Contains(s: string, sub: string) {
    |s| >= |sub| && (s[..|sub|] == sub || (s != "" && Contains(s[1..], sub)))
  }

  /** Helm's own annotations are not carried over. */
  predicate Reusable(key: string) { !Contains(key, "create.helm-controller") }

  /** The entries of a map with an earlier map filled in where the map has no value of its own. */
  function Reused(now: Strings, earlier: Strings): (m: Strings)
    ensures m.Keys == now.Keys + earlier.Keys
  {
    now + (earlier - (set k | k in earlier && HasValue(now, k)))
  }

  lemma ReusedStep(now: Strings, seen: Strings, k: string, v: string)
    requires k !in seen
    ensures Reused(now, seen[k := v])
            == if HasValue(Reused(now, seen), k) then Reused(now, seen) else Reused(now, seen)[k := v]
  {
  }

  function OnlyReusable(m: Strings): Strings { m - (set k | k in m && !Reusable(k)) }

  method ReuseEntries(dst: StrMap, earlier: Strings)
    modifies dst
    ensures dst.entries == Reused(old(dst.entries), earlier)
  {
    var rest := earlier;
    ghost var seen: Strings := map[];
    while rest.Keys != {}
      invariant rest.Keys !! seen.Keys && rest + seen == earlier
      invariant dst.entries == Reused(old(dst.entries), seen)
      decreases rest.Keys
    {
      var k :| k in rest.Keys;
      MoveOne(rest, seen, k, earlier);
      ReusedStep(old(dst.entries), seen, k, rest[k]);
      if !HasValue(dst.entries, k) {
        dst.Add(k, rest[k]);
      }
      seen := seen[k := rest[k]];
      rest := rest - {k};
    }
    assert seen == earlier;
  }
}
