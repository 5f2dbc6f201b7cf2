/** The cluster upgrade that runs after its handler has answered: it prepares, upgrades all components in parallel,
    the controller last, and finalizes a report and the lock. */
module UpgradeCluster {
  import opened Text
  import opened Pool

  const CONTROLLER := "controller"
  const OK := "OK"
  const ERROR := "ERROR"

  datatype Component = Component(name: string, status: string, message: string)

  datatype Report = Report(status: string, message: string, components: seq<Component>)

  /** What the remote host does: errors carry their text. The attempts belong to the prepared names, in order. */
  datatype Host = Host(session: Option<string>, prepare: Option<string>, names: seq<string>,
                       attempts: seq<Option<string>>, cleanSession: bool, clean: bool)
  {
    predicate Valid() { |attempts| == |names| }
  }

  function EntryOf(name: string, attempt: Option<string>): Component {
    match attempt
    case None => Component(name, OK, "")
    case Some(text) => Component(name, ERROR, text)
  }

  /** The entries of the components other than the controller. */
  function Expected(h: Host): seq<Option<Component>>
    requires h.Valid()
  {
    seq(|h.names|, i requires 0 <= i < |h.names| =>
      if h.names[i] == CONTROLLER then None else Some(EntryOf(h.names[i], h.attempts[i])))
  }

  /** An order in which the component goroutines may finish: each of them once. */
  predicate FinishOrder(h: Host, order: seq<nat>)
    requires h.Valid()
  {
    && (forall k :: 0 <= k < |order| ==> order[k] < |h.names| && h.names[order[k]] != CONTROLLER)
    && (forall k, l :: 0 <= k < l < |order| ==> order[k] != order[l])
    && (forall i :: 0 <= i < |h.names| && h.names[i] != CONTROLLER ==> i in order)
  }

  /** The entries when these goroutines have finished. */
  function Got(h: Host, finished: seq<nat>): seq<Option<Component>>
    requires h.Valid()
  {
    seq(|h.names|, i requires 0 <= i < |h.names| => if i in finished then Expected(h)[i] else None)
  }

  lemma GotNext(h: Host, order: seq<nat>, k: nat)
    requires h.Valid() && FinishOrder(h, order) && k < |order|
    ensures Got(h, order[..k])[order[k]].None?
    ensures Got(h, order[..k + 1])
            == Got(h, order[..k])[order[k] := Some(EntryOf(h.names[order[k]], h.attempts[order[k]]))]
  {
    assert order[..k + 1] == order[..k] + [order[k]];
  }

  lemma GotAll(h: Host, order: seq<nat>)
    requires h.Valid() && FinishOrder(h, order)
    ensures Got(h, order[..|order|]) == Expected(h)
  {
    assert order[..|order|] == order;
  }

  /** Some entry tells of an error; the status of the entry is not looked at. */
  predicate Told(components: seq<Component>) {
    exists i :: 0 <= i < |components| && components[i].message != ""
  }

  /** An entry tells how its component fared: an error with its text, or neither. */
  predicate Tells(c: Component, name: string, attempt: Option<string>) {
    && c.name == name
    && (c.status == "ERROR" <==> attempt.Some?) && (c.status == "OK" <==> attempt.None?)
    && c.message == if attempt.Some? then attempt.value else ""
  }

  predicate TellsOfSome(h: Host, c: Component)
    requires h.Valid()
  {
    exists i :: 0 <= i < |h.names| && h.names[i] != CONTROLLER && Tells(c, h.names[i], h.attempts[i])
  }

  predicate IsTold(h: Host, components: seq<Component>, i: int)
    requires h.Valid() && 0 <= i < |h.names|
  {
    exists k :: 0 <= k < |components| && Tells(components[k], h.names[i], h.attempts[i])
  }

  /** Every entry tells of one of the prepared components other than the controller, and every one of these is told
      of. */
  predicate AllTold(h: Host, components: seq<Component>)
    requires h.Valid()
  {
    && (forall k :: 0 <= k < |components| ==> TellsOfSome(h, components[k]))
    && (forall i {:trigger IsTold(h, components, i)} :: 0 <= i < |h.names| && h.names[i] != CONTROLLER ==>
          IsTold(h, components, i))
  }

  lemma ExpectedAreTold(h: Host, components: seq<Component>)
    requires h.Valid() && multiset(components) == multiset(Collected(Expected(h)))
    ensures AllTold(h, components)
  {
    var e := Expected(h);
    forall k | 0 <= k < |components| ensures TellsOfSome(h, components[k]) {
      assert components[k] in multiset(components);
      assert components[k] in Collected(e);
      CollectedFrom(e, components[k]);
      var i :| 0 <= i < |e| && e[i] == Some(components[k]);
      assert Tells(components[k], h.names[i], h.attempts[i]);
    }
    forall i | 0 <= i < |h.names| && h.names[i] != CONTROLLER ensures IsTold(h, components, i) {
      CollectedHas(e, i);
      assert e[i].value in multiset(components);
      var k :| 0 <= k < |components| && components[k] == e[i].value;
      assert Tells(components[k], h.names[i], h.attempts[i]);
    }
  }

  /** The parallel part is not reached. */
  predicate Early(h: Host) { h.session.Some? || h.prepare.Some? }

  /** A component other than the controller failed with a non-empty text. */
  predicate ComponentFailed(h: Host)
    requires h.Valid()
  {
    exists i :: 0 <= i < |h.names| && h.names[i] != CONTROLLER && h.attempts[i].Some? && h.attempts[i].value != ""
  }

  class Upgrade {
    var status: string
    var message: string
    var components: seq<Component>
    var finalized: nat
    var published: Option<Report>
    var locked: bool
    var crashed: bool

    /** The handler has just taken the lock. */
    constructor ()
      ensures status == OK && message == "" && components == [] && finalized == 0
      ensures published.None? && locked && !crashed
    {
      status, message, components, finalized, published, locked, crashed := OK, "", [], 0, None, true, false;
    }

    /** Without a session the clean command is run on a nil session, which ends the process; when the command fails
        there is no report and the lock stays. */
    method Finalize(h: Host, err: Option<string>)
      requires status == OK && message == "" && published.None? && locked && !crashed
      modifies this
      ensures finalized == old(finalized) + 1 && components == old(components)
      ensures crashed <==> !h.cleanSession
      ensures locked <==> !(h.cleanSession && h.clean)
      ensures published.Some? <==> !locked
      ensures published.Some? ==>
                published.value.components == components
                && (published.value.status == ERROR <==> err.Some? || Told(components))
                && (published.value.status == OK <==> err.None? && !Told(components))
                && published.value.message == (if err.Some? then err.value
                                               else if Told(components) then "AppHoster upgrade failed" else "")
    {
      finalized := finalized + 1;
      if !h.cleanSession { crashed := true; return; }
      if !h.clean { return; }
      if err.Some? {
        status, message := ERROR, err.value;
      } else {
        var k := 0;
        while k < |components| && components[k].message == ""
          invariant 0 <= k <= |components|
          invariant forall j :: 0 <= j < k ==> components[j].message == ""
        {
          k := k + 1;
        }
        if k < |components| {
          status, message := ERROR, "AppHoster upgrade failed";
        }
      }
      published, locked := Some(Report(status, message, components)), false;
    }

    /** The component goroutines, in the order in which they append their entries. */
    method UpgradeComponents(h: Host, order: seq<nat>)
      requires h.Valid() && FinishOrder(h, order) && components == []
      modifies this`components
      ensures multiset(components) == multiset(Collected(Expected(h))) && AllTold(h, components)
    {
      CollectedEmpty(Got(h, order[..0]));
      for k := 0 to |order|
        invariant multiset(components) == multiset(Collected(Got(h, order[..k])))
      {
        var i := order[k];
        GotNext(h, order, k);
        Delivered(Got(h, order[..k]), i, EntryOf(h.names[i], h.attempts[i]));
        components := components + [EntryOf(h.names[i], h.attempts[i])];
      }
      GotAll(h, order);
      ExpectedAreTold(h, components);
    }

    /** All components, the controller last. Its entry is always a success: its deferred report looks at the error as
        it was before the controller was upgraded. */
    method UpgradeAll(h: Host, order: seq<nat>) returns (ghost others: seq<Component>)
      requires h.Valid() && FinishOrder(h, order) && components == []
      modifies this`components
      ensures multiset(others) == multiset(Collected(Expected(h))) && AllTold(h, others)
      ensures components == others + if "controller" in h.names then [Component("controller", "OK", "")] else []
      ensures Told(components) <==> ComponentFailed(h)
    {
      UpgradeComponents(h, order);
      ToldExactly(h, components);
      others := components;
      if CONTROLLER in h.names {
        components := components + [EntryOf(CONTROLLER, None)];
        assert forall i :: 0 <= i < |others| ==> components[i] == others[i];
        assert Told(components) <==> Told(others);
      } else {
        assert others + [] == others;
      }
    }

    /** On every path finalize is reached exactly once. */
    method Run(h: Host, order: seq<nat>) returns (ghost others: seq<Component>)
      requires h.Valid() && FinishOrder(h, order)
      requires status == OK && message == "" && components == [] && published.None? && locked && !crashed
      requires finalized == 0
      modifies this
      ensures finalized == 1
      ensures locked <==> !(h.cleanSession && h.clean)
      ensures published.Some? <==> !locked
      ensures Early(h) ==> components == []
      ensures !Early(h) ==>
                && AllTold(h, others) && multiset(others) == multiset(Collected(Expected(h)))
                && components == others + if "controller" in h.names then [Component("controller", "OK", "")] else []
      ensures published.Some? ==>
                published.value.components == components
                && (published.value.status == "ERROR" <==> Early(h) || ComponentFailed(h))
                && published.value.message == (if h.session.Some? then h.session.value
                                               else if h.prepare.Some? then h.prepare.value
                                               else if ComponentFailed(h) then "AppHoster upgrade failed" else "")
    {
      if h.session.Some? { Finalize(h, h.session); return []; }
      if h.prepare.Some? { Finalize(h, h.prepare); return []; }
      others := UpgradeAll(h, order);
      Finalize(h, None);
    }
  }

  lemma ToldExactly(h: Host, components: seq<Component>)
    requires h.Valid() && multiset(components) == multiset(Collected(Expected(h)))
    ensures Told(components) <==> ComponentFailed(h)
  {
    var e := Expected(h);
    if i :| 0 <= i < |components| && components[i].message != "" {
      assert components[i] in multiset(components);
      assert components[i] in Collected(e);
      CollectedFrom(e, components[i]);
      var j :| 0 <= j < |e| && e[j] == Some(components[i]);
      assert h.attempts[j].Some? && h.attempts[j].value != "";
    }
    if i :| 0 <= i < |h.names| && h.names[i] != CONTROLLER && h.attempts[i].Some? && h.attempts[i].value != "" {
      CollectedHas(e, i);
      var c := e[i].value;
      assert c in multiset(components);
      var k :| 0 <= k < |components| && components[k] == c;
      assert components[k].message != "";
    }
  }

  /** What a published report says does not depend on whether the upgrade of the controller succeeded. */
  lemma ControllerUnnoticed(h: Host, g: Host)
    requires h.Valid() && g == h.(attempts := g.attempts) && |g.attempts| == |h.attempts|
    requires forall i :: 0 <= i < |h.names| && h.names[i] != CONTROLLER ==> g.attempts[i] == h.attempts[i]
    ensures Expected(g) == Expected(h) && (ComponentFailed(g) <==> ComponentFailed(h))
  {
    if i :| 0 <= i < |h.names| && h.names[i] != CONTROLLER && h.attempts[i].Some? && h.attempts[i].value != "" {
      assert g.attempts[i].Some?;
    }
  }
}
