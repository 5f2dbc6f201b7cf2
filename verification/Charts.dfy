/** The chart repository of one application while an update runs: each planned instance has its old chart copied to
    a backup directory and its new chart written, and a rollback copies the old charts back. */
module Charts {
  import opened Text
  import AppData

  /** A chart directory is named by template and version; an empty version names the whole template directory. */
  datatype Path = Path(template: string, version: string)

  predicate Covers(p: Path, k: Path) { k.template == p.template && (p.version == "" || k.version == p.version) }

  predicate Overlap(p: Path, q: Path) { Covers(p, q) || Covers(q, p) }

  /** The contents of a chart are made from the chart template and the record of the instance. */
  datatype Chart = Chart(chartType: string, data: AppData.Data)

  type Tree = map<Path, Chart>

  function Find(t: Tree, k: Path): Option<Chart> { if k in t then Some(t[k]) else None }

  predicate Exists(t: Tree, p: Path) { exists k :: k in t && Covers(p, k) }

  function Removed(t: Tree, p: Path): Tree { t - (set k | k in t && Covers(p, k)) }

  /** Copying a directory to the same place in another tree merges it into what is there. */
  function Copied(from: Tree, to: Tree, p: Path): Tree { to + (from - (set k | k in from && !Covers(p, k))) }

  /** The chart side of a planned instance. */
  datatype Item = Item(template: string, current: string, requested: string, chart: Chart) {
    function Old(): Path { Path(template, current) }
    function New(): Path { Path(template, requested) }
    function All(): Path { Path(template, "") }
  }

  /** The repository and the backup directory, and which of an instance's directory operations fail. */
  datatype Repo = Repo(charts: Tree, backup: Tree)

  datatype Trouble = Trouble(copy: bool, delete: bool, create: bool)

  // ----- What the loops do -----

  function BackedUp(r: Repo, p: Item): Tree {
    var cleared := Removed(r.backup, p.All());
    if Exists(r.charts, p.Old()) then Copied(r.charts, cleared, p.Old()) else cleared
  }

  function Rewritten(r: Repo, p: Item): Repo {
    Repo(Removed(r.charts, p.New())[p.New() := p.chart], BackedUp(r, p))
  }

  function RewrittenAll(r: Repo, plan: seq<Item>): Repo {
    if plan == [] then r else Rewritten(RewrittenAll(r, plan[..|plan| - 1]), plan[|plan| - 1])
  }

  /** A directory operation of instance i fails: its old chart, if there is one by then, cannot be copied, or its new
      one cannot be deleted or created. */
  predicate Stops(r: Repo, plan: seq<Item>, t: Trouble, i: nat)
    requires i < |plan|
  {
    t.delete || t.create || (t.copy && Exists(RewrittenAll(r, plan[..i]).charts, plan[i].Old()))
  }

  function Restored(charts: Tree, backup: Tree, p: Path): Tree { Copied(backup, Removed(charts, p), p) }

  function RestoredAll(charts: Tree, backup: Tree, list: seq<Path>): Tree {
    if list == [] then charts
    else Restored(RestoredAll(charts, backup, list[..|list| - 1]), backup, list[|list| - 1])
  }

  // ----- The loops -----

  class Store {
    var charts: Tree
    var backup: Tree

    constructor (charts: Tree)
      ensures this.charts == charts && backup == map[]
    {
      this.charts, backup := charts, map[];
    }

    function State(): Repo
      reads this
    {
      Repo(charts, backup)
    }

    method RewriteOne(p: Item, t: Trouble) returns (ok: bool)
      modifies this
      ensures ok ==> State() == Rewritten(old(State()), p)
      ensures ok <==> !(t.copy && Exists(old(charts), p.Old())) && !t.delete && !t.create
    {
      backup := Removed(backup, p.All());
      if Exists(charts, p.Old()) {
        if t.copy { return false; }
        backup := Copied(charts, backup, p.Old());
      }
      if t.delete { return false; }
      charts := Removed(charts, p.New());
      if t.create { return false; }
      charts := charts[p.New() := p.chart];
      ok := true;
    }

    /** The loop before the catalog is synchronized; it stops at the first failing directory operation. */
    method Rewrite(plan: seq<Item>, troubles: seq<Trouble>) returns (ok: bool)
      requires |troubles| == |plan|
      modifies this
      ensures ok ==> State() == RewrittenAll(old(State()), plan)
      ensures ok <==> forall i :: 0 <= i < |plan| ==> !Stops(old(State()), plan, troubles[i], i)
    {
      for i := 0 to |plan|
        invariant State() == RewrittenAll(old(State()), plan[..i])
        invariant forall k :: 0 <= k < i ==> !Stops(old(State()), plan, troubles[k], k)
      {
        assert plan[..i + 1][..i] == plan[..i];
        ok := RewriteOne(plan[i], troubles[i]);
        if !ok { return; }
      }
      assert plan[..|plan|] == plan;
      ok := true;
    }

    /** The loop of the rollback; copying a chart that was not backed up fails. */
    method Restore(list: seq<Path>, troubles: seq<Trouble>) returns (ok: bool)
      requires |troubles| == |list|
      modifies this
      ensures ok ==> charts == RestoredAll(old(charts), backup, list) && backup == old(backup)
      ensures ok <==> forall i :: 0 <= i < |list| ==>
                        Exists(old(backup), list[i]) && !troubles[i].delete && !troubles[i].copy
    {
      for i := 0 to |list|
        invariant backup == old(backup) && charts == RestoredAll(old(charts), backup, list[..i])
        invariant forall k :: 0 <= k < i ==> Exists(backup, list[k]) && !troubles[k].delete && !troubles[k].copy
      {
        assert list[..i + 1][..i] == list[..i];
        if troubles[i].delete { return false; }
        charts := Removed(charts, list[i]);
        if troubles[i].copy || !Exists(backup, list[i]) { return false; }
        charts := Copied(backup, charts, list[i]);
      }
      assert list[..|list|] == list;
      ok := true;
    }
  }

  // ----- What is restored -----

  predicate Rewrites(plan: seq<Item>, k: Path) { exists i :: 0 <= i < |plan| && Covers(plan[i].New(), k) }

  predicate RestoresAt(list: seq<Path>, k: Path) { exists i :: 0 <= i < |list| && Covers(list[i], k) }

  /** No instance's new chart overlaps the old chart of a later instance of the same template. Plans with distinct
      templates are such plans. */
  predicate Undisturbed(plan: seq<Item>) {
    forall i, j :: 0 <= i < j < |plan| ==> !Overlap(plan[i].New(), plan[j].Old())
  }

  predicate DistinctTemplates(plan: seq<Item>) {
    forall i, j :: 0 <= i < j < |plan| ==> plan[i].template != plan[j].template
  }

  lemma DistinctIsUndisturbed(plan: seq<Item>)
    requires DistinctTemplates(plan)
    ensures Undisturbed(plan)
  {
  }

  lemma RewritesMore(plan: seq<Item>, n: nat, k: Path)
    requires n <= |plan|
    ensures Rewrites(plan[..n], k) ==> Rewrites(plan, k)
  {
    if i :| 0 <= i < n && Covers(plan[..n][i].New(), k) {
      assert Covers(plan[i].New(), k);
    }
  }

  /** Charts that are not rewritten stay as they are. */
  lemma {:induction false} RewriteLeaves(r: Repo, plan: seq<Item>, k: Path)
    requires !Rewrites(plan, k)
    ensures Find(RewrittenAll(r, plan).charts, k) == Find(r.charts, k)
  {
    if plan != [] {
      var n := |plan| - 1;
      RewritesMore(plan, n, k);
      RewriteLeaves(r, plan[..n], k);
      assert !Covers(plan[n].New(), k);
    }
  }

  lemma RewrittenAt(r: Repo, p: Item, k: Path)
    ensures Find(Rewritten(r, p).charts, k)
            == if k == p.New() then Some(p.chart) else if Covers(p.New(), k) then None else Find(r.charts, k)
  {
  }

  /** What the loop leaves in a place that it rewrites: the chart of the last instance whose new directory covers it,
      and nothing else of that directory. */
  lemma {:induction false} LastWriteStays(r: Repo, plan: seq<Item>, i: nat, k: Path)
    requires i < |plan| && Covers(plan[i].New(), k)
    requires forall j :: i < j < |plan| ==> !Covers(plan[j].New(), k)
    ensures Find(RewrittenAll(r, plan).charts, k) == if k == plan[i].New() then Some(plan[i].chart) else None
  {
    var n := |plan| - 1;
    RewrittenAt(RewrittenAll(r, plan[..n]), plan[n], k);
    if i < n {
      LastWriteStays(r, plan[..n], i, k);
    }
  }

  lemma NotRewrittenBefore(plan: seq<Item>, n: nat, k: Path)
    requires Undisturbed(plan) && n < |plan| && Covers(plan[n].Old(), k)
    ensures !Rewrites(plan[..n], k)
  {
    forall j | 0 <= j < n ensures !Covers(plan[..n][j].New(), k) {
      assert !Overlap(plan[j].New(), plan[n].Old());
    }
  }

  /** One backup replaces what is kept for the template and nothing else. */
  lemma BackedUpAt(r: Repo, p: Item, k: Path)
    ensures Find(BackedUp(r, p), k)
            == if k.template != p.template then Find(r.backup, k)
               else if Covers(p.Old(), k) then Find(r.charts, k) else None
  {
    assert k.template == p.template ==> Covers(p.All(), k);
  }

  /** After the whole loop, the backup of a template holds the old charts of the last instance of that template, as
      they were when the loop came to it. */
  lemma {:induction false} BackupIsSnapshot(r: Repo, plan: seq<Item>, i: nat, k: Path)
    requires i < |plan| && k.template == plan[i].template
    requires forall j :: i < j < |plan| ==> plan[j].template != plan[i].template
    ensures Find(RewrittenAll(r, plan).backup, k)
            == if Covers(plan[i].Old(), k) then Find(RewrittenAll(r, plan[..i]).charts, k) else None
  {
    var n := |plan| - 1;
    BackedUpAt(RewrittenAll(r, plan[..n]), plan[n], k);
    if i < n {
      BackupIsSnapshot(r, plan[..n], i, k);
      assert plan[..n][..i] == plan[..i];
    }
  }

  /** In an undisturbed plan that is how they were before the loop. */
  lemma BackupHolds(r: Repo, plan: seq<Item>, i: nat, k: Path)
    requires Undisturbed(plan) && i < |plan| && k.template == plan[i].template
    requires forall j :: i < j < |plan| ==> plan[j].template != plan[i].template
    ensures Find(RewrittenAll(r, plan).backup, k) == if Covers(plan[i].Old(), k) then Find(r.charts, k) else None
  {
    BackupIsSnapshot(r, plan, i, k);
    if Covers(plan[i].Old(), k) {
      NotRewrittenBefore(plan, i, k);
      RewriteLeaves(r, plan[..i], k);
    }
  }

  predicate Writes(plan: seq<Item>, c: Chart) { exists j :: 0 <= j < |plan| && plan[j].chart == c }

  lemma WritesMore(plan: seq<Item>, n: nat, c: Chart)
    requires n <= |plan|
    ensures Writes(plan[..n], c) ==> Writes(plan, c)
  {
    if j :| 0 <= j < n && plan[..n][j].chart == c {
      assert plan[j].chart == c;
    }
  }

  /** What is found in a rewritten place has been written by the loop. */
  lemma {:induction false} RewrittenIsNew(r: Repo, plan: seq<Item>, k: Path)
    requires Rewrites(plan, k)
    ensures var c := Find(RewrittenAll(r, plan).charts, k); c.Some? ==> Writes(plan, c.value)
  {
    var n := |plan| - 1;
    if !Covers(plan[n].New(), k) {
      var i :| 0 <= i < |plan| && Covers(plan[i].New(), k);
      assert Covers(plan[..n][i].New(), k);
      RewrittenIsNew(r, plan[..n], k);
      var c := Find(RewrittenAll(r, plan[..n]).charts, k);
      if c.Some? { WritesMore(plan, n, c.value); }
    }
  }

  lemma RestoresMore(list: seq<Path>, n: nat, k: Path)
    requires |list| == n + 1
    ensures RestoresAt(list, k) <==> RestoresAt(list[..n], k) || Covers(list[n], k)
  {
    if i :| 0 <= i < n && Covers(list[..n][i], k) {
      assert Covers(list[i], k);
    }
    if i :| 0 <= i <= n && Covers(list[i], k) {
      assert i < n ==> Covers(list[..n][i], k);
    }
  }

  lemma {:induction false} RestoreCopies(charts: Tree, backup: Tree, list: seq<Path>, k: Path)
    ensures Find(RestoredAll(charts, backup, list), k)
            == if RestoresAt(list, k) then Find(backup, k) else Find(charts, k)
  {
    if list != [] {
      var n := |list| - 1;
      RestoreCopies(charts, backup, list[..n], k);
      RestoresMore(list, n, k);
    }
  }

  /** The last planned instance of a template. */
  lemma {:induction false} LastOf(plan: seq<Item>, template: string) returns (i: nat)
    requires exists j :: 0 <= j < |plan| && plan[j].template == template
    ensures i < |plan| && plan[i].template == template
    ensures forall j :: i < j < |plan| ==> plan[j].template != template
  {
    i := |plan| - 1;
    if plan[i].template != template {
      var j :| 0 <= j < |plan| && plan[j].template == template;
      assert plan[..i][j].template == template;
      i := LastOf(plan[..i], template);
    }
  }

  /** Each chart to be restored is the old chart of every planned instance of its template. */
  predicate BelongsTo(list: seq<Path>, plan: seq<Item>) {
    forall r :: r in list ==>
      && (exists j :: 0 <= j < |plan| && plan[j].template == r.template)
      && (forall j :: 0 <= j < |plan| && plan[j].template == r.template ==> plan[j].current == r.version)
  }

  /** Rewriting the charts of a plan and restoring some of its old charts leaves every chart as it was before,
      except the new charts of the planned instances that are not themselves restored. */
  lemma RollbackRestores(r: Repo, plan: seq<Item>, list: seq<Path>, k: Path)
    requires Undisturbed(plan) && BelongsTo(list, plan)
    requires RestoresAt(list, k) || !Rewrites(plan, k)
    ensures var after := RewrittenAll(r, plan);
            Find(RestoredAll(after.charts, after.backup, list), k) == Find(r.charts, k)
  {
    var after := RewrittenAll(r, plan);
    RestoreCopies(after.charts, after.backup, list, k);
    if RestoresAt(list, k) {
      var l :| 0 <= l < |list| && Covers(list[l], k);
      assert list[l] in list;
      var i := LastOf(plan, k.template);
      BackupHolds(r, plan, i, k);
      assert plan[i].Old() == list[l];
    } else {
      RewriteLeaves(r, plan, k);
    }
  }

  /** Which charts a rollback gets back, for any plan: a chart that is to be restored, and that the update does not
      happen to write again, is as before exactly when the last planned instance of its template has it as its old
      chart and no earlier instance has written over it. */
  lemma ChartRestoredExactly(r: Repo, plan: seq<Item>, list: seq<Path>, i: nat, k: Path)
    requires i < |plan| && k.template == plan[i].template && RestoresAt(list, k)
    requires forall j :: i < j < |plan| ==> plan[j].template != plan[i].template
    requires k in r.charts && !Writes(plan, r.charts[k])
    ensures var after := RewrittenAll(r, plan);
            Find(RestoredAll(after.charts, after.backup, list), k) == Find(r.charts, k)
            <==> Covers(plan[i].Old(), k) && !Rewrites(plan[..i], k)
  {
    var after := RewrittenAll(r, plan);
    RestoreCopies(after.charts, after.backup, list, k);
    BackupIsSnapshot(r, plan, i, k);
    if Rewrites(plan[..i], k) {
      RewrittenIsNew(r, plan[..i], k);
      WritesMore(plan, i, r.charts[k]);
    } else {
      RewriteLeaves(r, plan[..i], k);
    }
  }

  /** When the recorded current version is not the version the rollback asks for, a restored directory gets back
      exactly the part of it that the backed up directory contains. */
  lemma RestoredPart(r: Repo, plan: seq<Item>, list: seq<Path>, i: nat, k: Path)
    requires DistinctTemplates(plan) && i < |plan| && k.template == plan[i].template && RestoresAt(list, k)
    ensures var after := RewrittenAll(r, plan);
            Find(RestoredAll(after.charts, after.backup, list), k) == Find(r.charts, k)
            <==> k !in r.charts || Covers(plan[i].Old(), k)
  {
    var after := RewrittenAll(r, plan);
    DistinctIsUndisturbed(plan);
    RestoreCopies(after.charts, after.backup, list, k);
    BackupHolds(r, plan, i, k);
  }

  /** Two instances of one template whose version does not change, as when a group id is listed twice: the second
      replaces the backup by a copy of the first one's new chart, and the old chart is gone. */
  lemma SharedTemplateWitness(p: Path, old': Chart, a: Item, b: Item)
    requires a.Old() == a.New() == b.Old() == b.New() == p && old' != a.chart
    ensures var after := RewrittenAll(Repo(map[p := old'], map[]), [a, b]);
            && BelongsTo([p], [a, b])
            && Exists(after.backup, p)
            && Find(RestoredAll(after.charts, after.backup, [p]), p) == Some(a.chart)
  {
    var start := Repo(map[p := old'], map[]);
    assert [a, b][..1] == [a] && [a][..0] == [];
    assert RewrittenAll(start, [a]) == Rewritten(RewrittenAll(start, []), a);
    var one := Rewritten(start, a);
    assert p in one.charts && one.charts[p] == a.chart;
    var two := Rewritten(one, b);
    assert RewrittenAll(start, [a, b]) == two;
    assert Covers(p, p);
    assert Find(two.backup, p) == Some(a.chart);
    RestoreCopies(two.charts, two.backup, [p], p);
    assert RestoresAt([p], p) by { assert Covers([p][0], p); }
  }
}
