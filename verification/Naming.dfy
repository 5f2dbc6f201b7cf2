/** The names of application instances, and the other names that are meant to be the same. */
module Naming {
  import opened Text

  const NAME_LENGTH := 15
  const ROOT_GROUP_LENGTH := 20
  const GROUP_LENGTH := 15

  /** A name that is too long keeps one character less than the limit; a group id keeps its end. */
  function ShortName(name: string): string { if |name| > NAME_LENGTH then name[..NAME_LENGTH - 1] else name }

  function ShortRoot(root: string): string {
    if |root| > ROOT_GROUP_LENGTH then root[..ROOT_GROUP_LENGTH - 1] else root
  }

  function ShortGroup(gid: string): string { if |gid| > GROUP_LENGTH then gid[GROUP_LENGTH - 1..] else gid }

  function Joined(name: string, root: string, gid: string): string {
    if root == "" then name + "-" + gid else name + "-" + root + "-" + gid
  }

  /** The identifier recorded with an instance, which is not shortened. */
  function InstanceId(name: string, root: string, gid: string): string { Joined(name, root, gid) }

  /** The name an instance is deployed under; its chart template has the same name. */
  function InstanceName(name: string, root: string, gid: string): string {
    KubeName(Joined(ShortName(name), ShortRoot(root), ShortGroup(gid)))
  }

  /** The chart DeleteAppMetadata looks for. */
  function MetadataChart(name: string, root: string, gid: string): string { KubeName(Joined(name, root, gid)) }

  predicate Plain(c: char) { !('A' <= c <= 'Z') && c != '_' }

  lemma KubeNameIsPlain(s: string)
    ensures forall i :: 0 <= i < |s| ==> Plain(KubeName(s)[i])
    ensures KubeName(KubeName(s)) == KubeName(s)
  {
    forall i | 0 <= i < |s| ensures Plain(KubeName(s)[i]) {
      LowerIsPlain(s[i]);
    }
  }

  lemma LowerIsPlain(c: char)
    ensures c != '_' ==> Plain(Lower(c))
  {
  }

  lemma KubeNameOfSum(s: string, t: string)
    ensures KubeName(s + t) == KubeName(s) + KubeName(t)
  {
  }

  /** An instance name has no capital letter and no underscore, and fits a label (at most 63 characters, section
      2.3.4 of RFC 1035) for every name and root group when the group id has at most 40. */
  lemma NameFits(name: string, root: string, gid: string)
    requires |gid| <= 40
    ensures |InstanceName(name, root, gid)| <= 63
    ensures forall c :: c in InstanceName(name, root, gid) ==> Plain(c)
  {
    var joined := Joined(ShortName(name), ShortRoot(root), ShortGroup(gid));
    KubeNameIsPlain(joined);
    forall c | c in InstanceName(name, root, gid) ensures Plain(c) {
      var i :| 0 <= i < |joined| && KubeName(joined)[i] == c;
    }
  }

  /** 40 is the limit: with a name and a root group of full length the label fits exactly up to there. */
  lemma FitsExactly(name: string, root: string, gid: string)
    requires |name| == NAME_LENGTH && |root| == ROOT_GROUP_LENGTH
    ensures |InstanceName(name, root, gid)| <= 63 <==> |gid| <= 40
  {
  }

  /** Normalizing changes underscores to dashes and capital letters to small ones, and nothing else. */
  lemma KubeNameExactly(s: string, i: nat)
    requires i < |s|
    ensures s[i] == '_' ==> KubeName(s)[i] == '-'
    ensures 'A' <= s[i] <= 'Z' ==> KubeName(s)[i] as int == s[i] as int + 32
    ensures Plain(s[i]) ==> KubeName(s)[i] == s[i]
  {
  }

  /** What an instance name keeps: the beginning of the application's name and of the root group, which are cut to one
      character less than their limits, and the end of the group id, which loses its first 14 characters. */
  lemma NameKeeps(name: string, root: string, gid: string)
    ensures var kept := if |name| > 15 then name[..14] else name;
            var end := if |gid| > 15 then gid[14..] else gid;
            InstanceName(name, "", gid) == KubeName(kept) + "-" + KubeName(end)
            && (root != "" ==>
                  var group := if |root| > 20 then root[..19] else root;
                  InstanceName(name, root, gid) == KubeName(kept) + "-" + KubeName(group) + "-" + KubeName(end))
  {
    var kept, end := ShortName(name), ShortGroup(gid);
    KubeNameOfSum(kept + "-", end);
    KubeNameOfSum(kept, "-");
    assert KubeName("-") == "-";
    if root != "" {
      KubeNameOfSum(kept + "-" + ShortRoot(root) + "-", end);
      KubeNameOfSum(kept + "-" + ShortRoot(root), "-");
      KubeNameOfSum(kept + "-", ShortRoot(root));
    }
  }

  /** The recorded identifier has all of them in full. */
  lemma IdKeepsAll(name: string, root: string, gid: string)
    ensures InstanceId(name, "", gid) == name + "-" + gid
    ensures root != "" ==> InstanceId(name, root, gid) == name + "-" + root + "-" + gid
  {
  }

  predicate Untouched(name: string, root: string, gid: string) {
    |name| <= NAME_LENGTH && |root| <= ROOT_GROUP_LENGTH && |gid| <= GROUP_LENGTH
  }

  /** The chart that is deleted with the metadata is the chart of the instance exactly when nothing was shortened. */
  lemma ChartFoundExactly(name: string, root: string, gid: string)
    ensures InstanceName(name, root, gid) == MetadataChart(name, root, gid) <==> Untouched(name, root, gid)
  {
    assert |InstanceName(name, root, gid)| == |Joined(ShortName(name), ShortRoot(root), ShortGroup(gid))|;
    assert |MetadataChart(name, root, gid)| == |Joined(name, root, gid)|;
  }

  lemma SamePrefix(p: string, s: string, t: string)
    ensures p + s == p + t <==> s == t
  {
    if p + s == p + t {
      assert (p + s)[|p|..] == s && (p + t)[|p|..] == t;
    }
  }

  /** Two group ids of one request get the same instance name exactly when what is kept of them differs at most in
      capital letters and underscores. */
  lemma CollideExactly(name: string, root: string, gid: string, other: string)
    ensures InstanceName(name, root, gid) == InstanceName(name, root, other)
            <==> KubeName(ShortGroup(gid)) == KubeName(ShortGroup(other))
  {
    var p := if root == "" then ShortName(name) + "-" else ShortName(name) + "-" + ShortRoot(root) + "-";
    assert Joined(ShortName(name), ShortRoot(root), ShortGroup(gid)) == p + ShortGroup(gid);
    assert Joined(ShortName(name), ShortRoot(root), ShortGroup(other)) == p + ShortGroup(other);
    KubeNameOfSum(p, ShortGroup(gid));
    KubeNameOfSum(p, ShortGroup(other));
    SamePrefix(KubeName(p), KubeName(ShortGroup(gid)), KubeName(ShortGroup(other)));
  }

  // ----- Shared storage -----

  function SharedVolume(prefix: string): string { prefix + "-shared-pv" }

  /** DeleteApp removes the volume that an update created exactly when the application name is its own normal form:
      the update uses the normalized name, the deletion the name of the request. */
  lemma SharedVolumeFoundExactly(name: string)
    ensures SharedVolume(name) == SharedVolume(KubeName(name))
            <==> forall i :: 0 <= i < |name| ==> Plain(name[i])
  {
    KubeNameIsPlain(name);
    if SharedVolume(name) == SharedVolume(KubeName(name)) {
      assert SharedVolume(name)[..|name|] == name && SharedVolume(KubeName(name))[..|name|] == KubeName(name);
    }
    if forall i :: 0 <= i < |name| ==> Plain(name[i]) {
      assert KubeName(name) == name;
    }
  }
}
