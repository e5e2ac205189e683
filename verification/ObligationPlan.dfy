/** Merging the obligations of the phases: nothing that comes later weakens what is already planned. */
module ObligationPlan {
  import opened Outcomes

  datatype Obligation = Obligation(typ: string, target: string, value: string, phase: string, strictness: int)

  datatype Key = Key(typ: string, target: string)

  datatype Conflict = PhaseConflict | WeakenForbidden

  datatype Outcome = SelectedInitial | Selected | Rejected

  datatype Trace = Trace(key: Key, previous: Option<(string, int)>, incomingPhase: string, incomingStrictness: int, outcome: Outcome)

  datatype Plan = Plan(obligations: seq<Obligation>, conflicts: seq<Conflict>, traces: seq<Trace>)

  function KeyOf(o: Obligation): Key {
    Key(o.typ, o.target)
  }

  // ----- What the plan should hold, key by key -----

  function OfKey(items: seq<Obligation>, key: Key): seq<Obligation> {
    if items == [] then [] else
      OfKey(items[..|items| - 1], key) + if KeyOf(items[|items| - 1]) == key then [items[|items| - 1]] else []
  }

  /** The last pre-tool item of the key and all later items of it. */
  function Considered(preTool: seq<Obligation>, later: seq<Obligation>, key: Key): seq<Obligation> {
    var tools := OfKey(preTool, key);
    (if tools == [] then [] else [tools[|tools| - 1]]) + OfKey(later, key)
  }

  /** The strictest item, and the last of those equally strict. */
  function Strictest(items: seq<Obligation>): Obligation
    requires items != []
  {
    if |items| == 1 then items[0] else
      var best, last := Strictest(items[..|items| - 1]), items[|items| - 1];
      if last.strictness < best.strictness then best else last
  }

  lemma {:induction false} StrictestIsMax(items: seq<Obligation>)
    requires items != []
    ensures Strictest(items) in items && forall o :: o in items ==> o.strictness <= Strictest(items).strictness
  {
    assert items == items[..|items| - 1] + [items[|items| - 1]];
    if |items| > 1 { StrictestIsMax(items[..|items| - 1]); }
  }

  lemma {:induction false} OfKeyMembers(items: seq<Obligation>, key: Key)
    ensures forall o :: o in OfKey(items, key) <==> o in items && KeyOf(o) == key
  {
    if items != [] {
      OfKeyMembers(items[..|items| - 1], key);
      assert items == items[..|items| - 1] + [items[|items| - 1]];
    }
  }

  lemma StrictestOfOne(o: Obligation)
    ensures Strictest([o]) == o
  {
  }

  lemma StrictestSnoc(items: seq<Obligation>, o: Obligation)
    requires items != []
    ensures Strictest(items + [o]) == if o.strictness < Strictest(items).strictness then Strictest(items) else o
  {
    assert (items + [o])[..|items|] == items;
  }

  lemma OfKeySnoc(items: seq<Obligation>, o: Obligation, key: Key)
    ensures OfKey(items + [o], key) == OfKey(items, key) + if KeyOf(o) == key then [o] else []
  {
    assert (items + [o])[..|items|] == items;
  }

  /** One more pre-tool item takes the place of the key's last one. */
  lemma ConsideredTool(tools: seq<Obligation>, o: Obligation, key: Key)
    ensures Considered(tools + [o], [], key) == if KeyOf(o) == key then [o] else Considered(tools, [], key)
  {
    OfKeySnoc(tools, o, key);
  }

  lemma ConsideredLater(preTool: seq<Obligation>, later: seq<Obligation>, o: Obligation, key: Key)
    ensures Considered(preTool, later + [o], key)
         == if KeyOf(o) == key then Considered(preTool, later, key) + [o] else Considered(preTool, later, key)
  {
    OfKeySnoc(later, o, key);
  }

  /** The index holds the strictest item considered of each key met so far. */
  ghost predicate Indexed(index: map<Key, Obligation>, preTool: seq<Obligation>, later: seq<Obligation>) {
    && (forall key :: key in index <==> Considered(preTool, later, key) != [])
    && (forall key :: key in index ==> index[key] == Strictest(Considered(preTool, later, key)))
  }

  /** An item that comes later is rejected exactly if something considered before it is stricter. */
  predicate Weakens(preTool: seq<Obligation>, later: seq<Obligation>, o: Obligation) {
    var before := Considered(preTool, later, KeyOf(o));
    before != [] && o.strictness < Strictest(before).strictness
  }

  function TraceOf(o: Obligation, previous: Option<(string, int)>, outcome: Outcome): Trace {
    Trace(KeyOf(o), previous, o.phase, o.strictness, outcome)
  }

  /** Phase and strictness of what is planned for the key so far. */
  function Standing(preTool: seq<Obligation>, later: seq<Obligation>, key: Key): Option<(string, int)> {
    var before := Considered(preTool, later, key);
    if before == [] then None else Some((Strictest(before).phase, Strictest(before).strictness))
  }

  /** One trace for each input in order, saying what became of it and what it met. */
  ghost predicate Traced(traces: seq<Trace>, preTool: seq<Obligation>, later: seq<Obligation>) {
    && |traces| == |preTool| + |later|
    && (forall i :: 0 <= i < |preTool| ==> traces[i] == TraceOf(preTool[i], None, SelectedInitial))
    && (forall i :: 0 <= i < |later| ==>
          && traces[|preTool| + i].key == KeyOf(later[i])
          && traces[|preTool| + i].incomingPhase == later[i].phase && traces[|preTool| + i].incomingStrictness == later[i].strictness
          && traces[|preTool| + i].previous == Standing(preTool, later[..i], KeyOf(later[i]))
          && traces[|preTool| + i].outcome == if Weakens(preTool, later[..i], later[i]) then Rejected else Selected)
  }

  function Times(kind: Conflict, n: nat): seq<Conflict> {
    seq(n, i => kind)
  }

  function Rejections(traces: seq<Trace>): nat {
    if traces == [] then 0 else Rejections(traces[..|traces| - 1]) + if traces[|traces| - 1].outcome == Rejected then 1 else 0
  }

  // ----- The loops -----

  method TakePreTool(preTool: seq<Obligation>) returns (index: map<Key, Obligation>, traces: seq<Trace>)
    ensures Indexed(index, preTool, []) && Traced(traces, preTool, []) && Rejections(traces) == 0
  {
    hide Considered, Strictest;
    index, traces := map[], [];
    assert preTool[..0] == [];
    assert Indexed(map[], [], []) by { NothingIndexed(); }
    for i := 0 to |preTool|
      invariant Indexed(index, preTool[..i], [])
      invariant |traces| == i && forall n :: 0 <= n < i ==> traces[n] == TraceOf(preTool[n], None, SelectedInitial)
      invariant Rejections(traces) == 0
    {
      var item := preTool[i];
      assert preTool[..i + 1] == preTool[..i] + [item];
      IndexTool(index, preTool[..i], item);
      index := index[KeyOf(item) := item];
      var more := traces + [TraceOf(item, None, SelectedInitial)];
      assert more[..|traces|] == traces;
      traces := more;
    }
    assert preTool[..|preTool|] == preTool;
  }

  lemma NothingIndexed()
    ensures Indexed(map[], [], [])
  {
    forall key ensures Considered([], [], key) == [] { }
  }

  lemma IndexTool(index: map<Key, Obligation>, tools: seq<Obligation>, o: Obligation)
    requires Indexed(index, tools, [])
    ensures Indexed(index[KeyOf(o) := o], tools + [o], [])
  {
    hide Considered, Strictest;
    forall key ensures Considered(tools + [o], [], key) == if KeyOf(o) == key then [o] else Considered(tools, [], key) {
      ConsideredTool(tools, o, key);
    }
    StrictestOfOne(o);
  }

  lemma IndexLater(index: map<Key, Obligation>, preTool: seq<Obligation>, later: seq<Obligation>, o: Obligation)
    requires Indexed(index, preTool, later)
    ensures Indexed(if Weakens(preTool, later, o) then index else index[KeyOf(o) := o], preTool, later + [o])
  {
    hide Considered, Strictest;
    forall key ensures Considered(preTool, later + [o], key)
                    == if KeyOf(o) == key then Considered(preTool, later, key) + [o] else Considered(preTool, later, key)
    {
      ConsideredLater(preTool, later, o, key);
    }
    var before := Considered(preTool, later, KeyOf(o));
    if before != [] {
      StrictestSnoc(before, o);
    } else {
      assert before + [o] == [o];
      StrictestOfOne(o);
    }
  }

  /** The loop over the pre-resume items, and again over the approval items. */
  method TakeLater(ghost preTool: seq<Obligation>, ghost before: seq<Obligation>, items: seq<Obligation>, kind: Conflict,
                   index0: map<Key, Obligation>, traces0: seq<Trace>, conflicts0: seq<Conflict>)
    returns (index: map<Key, Obligation>, traces: seq<Trace>, conflicts: seq<Conflict>)
    requires Indexed(index0, preTool, before) && Traced(traces0, preTool, before)
    ensures Indexed(index, preTool, before + items) && Traced(traces, preTool, before + items)
    ensures Rejections(traces0) <= Rejections(traces) && conflicts == conflicts0 + Times(kind, Rejections(traces) - Rejections(traces0))
  {
    hide Considered, Strictest;
    index, traces, conflicts := index0, traces0, conflicts0;
    assert before + items[..0] == before;
    for i := 0 to |items|
      invariant Indexed(index, preTool, before + items[..i]) && Traced(traces, preTool, before + items[..i])
      invariant Rejections(traces0) <= Rejections(traces) && conflicts == conflicts0 + Times(kind, Rejections(traces) - Rejections(traces0))
    {
      ghost var later := before + items[..i];
      var item := items[i];
      var key := KeyOf(item);
      assert before + items[..i + 1] == later + [item];
      IndexLater(index, preTool, later, item);
      var previous := if key in index then Some((index[key].phase, index[key].strictness)) else None;
      var t: Trace;
      if key in index && item.strictness < index[key].strictness {
        conflicts := conflicts + [kind];
        t := TraceOf(item, previous, Rejected);
      } else {
        index := index[key := item];
        t := TraceOf(item, previous, Selected);
      }
      TraceLater(traces, preTool, later, item, t);
      traces := traces + [t];
    }
    assert items[..|items|] == items;
  }

  lemma TraceLater(traces: seq<Trace>, preTool: seq<Obligation>, later: seq<Obligation>, o: Obligation, t: Trace)
    requires Traced(traces, preTool, later)
    requires t.key == KeyOf(o) && t.incomingPhase == o.phase && t.incomingStrictness == o.strictness
    requires t.previous == Standing(preTool, later, KeyOf(o))
    requires t.outcome == if Weakens(preTool, later, o) then Rejected else Selected
    ensures Traced(traces + [t], preTool, later + [o])
    ensures Rejections(traces + [t]) == Rejections(traces) + if t.outcome == Rejected then 1 else 0
  {
    hide Weakens, Standing;
    var all, ts := later + [o], traces + [t];
    assert ts[..|traces|] == traces;
    assert all[..|later|] == later;
    forall i | 0 <= i < |later| ensures all[..i] == later[..i] { }
  }

  /** The values of the index, in some order. */
  method Collect(index: map<Key, Obligation>) returns (items: seq<Obligation>)
    requires forall key :: key in index ==> KeyOf(index[key]) == key
    ensures forall i, j :: 0 <= i < j < |items| ==> KeyOf(items[i]) != KeyOf(items[j])
    ensures forall o :: o in items <==> KeyOf(o) in index && index[KeyOf(o)] == o
  {
    items := [];
    var todo := index.Keys;
    while todo != {}
      invariant todo <= index.Keys
      invariant forall i, j :: 0 <= i < j < |items| ==> KeyOf(items[i]) != KeyOf(items[j])
      invariant forall o :: o in items <==> KeyOf(o) in index && KeyOf(o) !in todo && index[KeyOf(o)] == o
    {
      var key :| key in todo;
      todo := todo - {key};
      forall i | 0 <= i < |items| ensures KeyOf(items[i]) != key { assert items[i] in items; }
      items := items + [index[key]];
    }
  }

  /**
   * For each key that occurs, the plan holds exactly one obligation: the strictest among the key's last pre-tool item and
   * all its pre-resume and approval items.
   */
  ghost predicate Plans(plan: seq<Obligation>, preTool: seq<Obligation>, later: seq<Obligation>) {
    && (forall i, j :: 0 <= i < j < |plan| ==> KeyOf(plan[i]) != KeyOf(plan[j]))
    && (forall o :: o in plan ==> Considered(preTool, later, KeyOf(o)) != [] && o == Strictest(Considered(preTool, later, KeyOf(o))))
    && (forall x :: x in preTool || x in later ==> exists o :: o in plan && KeyOf(o) == KeyOf(x))
  }

  lemma IndexPlans(index: map<Key, Obligation>, preTool: seq<Obligation>, later: seq<Obligation>, plan: seq<Obligation>)
    requires Indexed(index, preTool, later)
    requires forall i, j :: 0 <= i < j < |plan| ==> KeyOf(plan[i]) != KeyOf(plan[j])
    requires forall o :: o in plan <==> KeyOf(o) in index && index[KeyOf(o)] == o
    ensures Plans(plan, preTool, later)
  {
    hide Strictest;
    forall x | x in preTool || x in later ensures exists o :: o in plan && KeyOf(o) == KeyOf(x) {
      var key := KeyOf(x);
      OfKeyMembers(preTool, key);
      OfKeyMembers(later, key);
      assert x in OfKey(preTool, key) || x in OfKey(later, key);
      assert Considered(preTool, later, key) != [];
      IndexKeys(index, preTool, later, key);
      assert index[key] in plan;
    }
  }

  lemma IndexKeys(index: map<Key, Obligation>, preTool: seq<Obligation>, later: seq<Obligation>, key: Key)
    requires Indexed(index, preTool, later) && key in index
    ensures KeyOf(index[key]) == key
  {
    StrictestIsMax(Considered(preTool, later, key));
    OfKeyMembers(preTool, key);
    OfKeyMembers(later, key);
  }

  /** The traces of the first items do not depend on the items after them. */
  lemma SameBegin(half: seq<Trace>, traces: seq<Trace>, preTool: seq<Obligation>, first: seq<Obligation>, second: seq<Obligation>)
    requires Traced(half, preTool, first) && Traced(traces, preTool, first + second)
    ensures |half| == |preTool| + |first| <= |traces| && traces[..|half|] == half
  {
    hide Weakens, Standing;
    var all := first + second;
    forall i | 0 <= i < |half| ensures traces[i] == half[i] {
      if i >= |preTool| { assert all[..i - |preTool|] == first[..i - |preTool|] && all[i - |preTool|] == first[i - |preTool|]; }
    }
  }

  /** The final order of the obligations is left open. */
  method BuildObligationPlan(preTool: seq<Obligation>, preResume: seq<Obligation>, approval: seq<Obligation>) returns (plan: Plan)
    ensures Plans(plan.obligations, preTool, preResume + approval)
    ensures Traced(plan.traces, preTool, preResume + approval)
    ensures var atResume := Rejections(plan.traces[..|preTool| + |preResume|]);
      && |plan.conflicts| == Rejections(plan.traces) >= atResume
      && forall i :: 0 <= i < |plan.conflicts| ==> plan.conflicts[i] == if i < atResume then PhaseConflict else WeakenForbidden
  {
    hide Indexed, Traced, Rejections, Plans;
    var index, traces := TakePreTool(preTool);
    var conflicts: seq<Conflict>;
    index, traces, conflicts := TakeLater(preTool, [], preResume, PhaseConflict, index, traces, []);
    assert [] + preResume == preResume;
    ghost var half := traces;
    index, traces, conflicts := TakeLater(preTool, preResume, approval, WeakenForbidden, index, traces, conflicts);
    SameBegin(half, traces, preTool, preResume, approval);
    forall key | key in index ensures KeyOf(index[key]) == key { IndexKeys(index, preTool, preResume + approval, key); }
    var items := Collect(index);
    IndexPlans(index, preTool, preResume + approval, items);
    return Plan(items, conflicts, traces);
  }

  // ----- What is planned, item by item -----

  predicate SameKey(a: Obligation, b: Obligation) {
    a.typ == b.typ && a.target == b.target
  }

  /** The item at `i` is the last of its key. */
  ghost predicate LastOfItsKey(items: seq<Obligation>, i: nat) {
    i < |items| && forall j :: i < j < |items| ==> !SameKey(items[j], items[i])
  }

  lemma {:induction false} LastOfKey(items: seq<Obligation>, key: Key) returns (i: nat)
    requires OfKey(items, key) != []
    ensures LastOfItsKey(items, i) && items[i] == OfKey(items, key)[|OfKey(items, key)| - 1] && KeyOf(items[i]) == key
  {
    var init := items[..|items| - 1];
    if KeyOf(items[|items| - 1]) == key { i := |items| - 1; } else { i := LastOfKey(init, key); }
  }

  /** Planned from the later items: none of its key is stricter, and none after it is as strict. */
  ghost predicate FromLater(later: seq<Obligation>, o: Obligation, i: nat) {
    && i < |later| && later[i] == o
    && forall j :: 0 <= j < |later| && SameKey(later[j], o) ==> if j <= i then later[j].strictness <= o.strictness else later[j].strictness < o.strictness
  }

  /** Planned from the pre-tool items: the last of its key, and every later one of the key is weaker. */
  ghost predicate FromTools(preTool: seq<Obligation>, later: seq<Obligation>, o: Obligation, i: nat) {
    && LastOfItsKey(preTool, i) && preTool[i] == o
    && forall j :: 0 <= j < |later| && SameKey(later[j], o) ==> later[j].strictness < o.strictness
  }

  lemma {:induction false} BestIs(preTool: seq<Obligation>, later: seq<Obligation>, key: Key) returns (i: nat)
    requires Considered(preTool, later, key) != []
    ensures var o := Strictest(Considered(preTool, later, key));
      KeyOf(o) == key && (FromLater(later, o, i) || FromTools(preTool, later, o, i))
  {
    hide Strictest;
    if later == [] {
      i := LastOfKey(preTool, key);
      assert Considered(preTool, [], key) == [preTool[i]];
      StrictestOfOne(preTool[i]);
    } else {
      var init, last := later[..|later| - 1], later[|later| - 1];
      assert later == init + [last];
      ConsideredLater(preTool, init, last, key);
      var before := Considered(preTool, init, key);
      if before == [] {
        assert before + [last] == [last];
        StrictestOfOne(last);
        OfKeyMembers(init, key);
        assert forall j :: 0 <= j < |init| ==> init[j] in init;
        i := |init|;
      } else {
        i := BestIs(preTool, init, key);
        hide Considered;
        if KeyOf(last) == key { StrictestSnoc(before, last); }
        if KeyOf(last) == key && last.strictness >= Strictest(before).strictness { i := |init|; }
        assert forall j :: 0 <= j < |init| ==> later[j] == init[j];
      }
    }
  }

  /**
   * Nothing that comes later weakens the plan: each planned obligation is at least as strict as every later item of its
   * type and target and as the last pre-tool one, and it is one of these, the last of the equally strict.
   */
  lemma PlanNeverWeakens(plan: seq<Obligation>, preTool: seq<Obligation>, later: seq<Obligation>, o: Obligation) returns (i: nat)
    requires Plans(plan, preTool, later) && o in plan
    ensures FromLater(later, o, i) || FromTools(preTool, later, o, i)
    ensures forall n: nat :: LastOfItsKey(preTool, n) && SameKey(preTool[n], o) ==> preTool[n].strictness <= o.strictness
  {
    var key := KeyOf(o);
    i := BestIs(preTool, later, key);
    hide FromLater, FromTools;
    forall n: nat | LastOfItsKey(preTool, n) && SameKey(preTool[n], o) ensures preTool[n].strictness <= o.strictness {
      ToolIsConsidered(preTool, later, n);
      StrictestIsMax(Considered(preTool, later, key));
    }
  }

  lemma ToolIsConsidered(preTool: seq<Obligation>, later: seq<Obligation>, n: nat)
    requires LastOfItsKey(preTool, n)
    ensures preTool[n] in Considered(preTool, later, KeyOf(preTool[n]))
  {
    var key := KeyOf(preTool[n]);
    OfKeyMembers(preTool, key);
    assert preTool[n] in OfKey(preTool, key);
    var m := LastOfKey(preTool, key);
    assert m == n;
  }
}
