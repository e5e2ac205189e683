/** The indexes of the evidence kernel agree with its logs after any ingests, deletions and sweeps. */
module EvidenceInvariants {
  import RunOrder
  import opened EvidenceSpec

  // ----- One log -----

  ghost predicate Distinct(es: seq<Event>) {
    forall i, j :: 0 <= i < j < |es| ==> es[i].id != es[j].id
  }

  ghost predicate InOrder(es: seq<Event>) {
    forall i, j :: 0 <= i < j < |es| ==> Sooner(es[i], es[j])
  }

  ghost predicate Numbered(es: seq<Event>) {
    forall i :: 0 <= i < |es| ==> es[i].link.number == i + 1
  }

  /** The log is one chain in the order it was written, and its counters are its fold. */
  ghost predicate RunOk(cfg: EvidenceConfig, r: string, rd: RunData, chain: Chain) {
    && Linked(cfg, rd.events) && Numbered(rd.events) && chain == Head(rd.events)
    && rd.stats == Summary(rd.events)
    && Distinct(rd.events)
    && (forall e :: e in rd.events ==> e.runId == r)
  }

  // ----- The whole kernel -----

  ghost predicate RunsApart(runs: map<string, RunData>) {
    forall r, r' :: r in runs && r' in runs && r != r' ==> Ids(runs[r].events) !! Ids(runs[r'].events)
  }

  /** The index holds exactly the hot events under their ids. */
  ghost predicate IndexOk(runs: map<string, RunData>, byId: map<string, Event>) {
    && (forall id :: id in byId ==> Located(runs, id, byId[id]))
    && (forall r, e :: r in runs && e in runs[r].events ==> e.id in byId && byId[e.id] == e)
  }

  ghost predicate LogsOk(cfg: EvidenceConfig, ev: Evidence) {
    (forall r :: r in ev.runs ==> RunOk(cfg, r, ev.runs[r], ChainAt(ev, r))) && ev.integrity.Keys <= ev.runs.Keys
  }

  ghost predicate EvOk(cfg: EvidenceConfig, ev: Evidence) {
    && LogsOk(cfg, ev)
    && RunsApart(ev.runs)
    && IndexOk(ev.runs, ev.byId)
  }

  // ----- Chaining and folding one more event -----

  lemma IdsSnoc(es: seq<Event>, e: Event)
    ensures Ids(es + [e]) == Ids(es) + {e.id}
  {
    var all := es + [e];
    forall x ensures x in Ids(all) <==> x in Ids(es) + {e.id} {
      if x in Ids(es) { var i :| 0 <= i < |es| && es[i].id == x; assert all[i].id == x; }
      if x == e.id { assert all[|es|].id == x; }
    }
  }

  lemma SnocLinked(cfg: EvidenceConfig, es: seq<Event>, e: Event)
    requires Linked(cfg, es) && Numbered(es)
    ensures Linked(cfg, es + [Stamp(cfg, Head(es), e)]) && Numbered(es + [Stamp(cfg, Head(es), e)])
  {
    var all := es + [Stamp(cfg, Head(es), e)];
    forall i: nat | i < |all| ensures LinkOk(cfg, all, i) {
      if i < |es| { assert LinkOk(cfg, es, i); }
    }
  }

  lemma SummarySnoc(es: seq<Event>, e: Event)
    ensures Summary(es + [e]) == Tally(Summary(es), e)
  {
    assert (es + [e])[..|es|] == es;
  }

  lemma SnocRunOk(cfg: EvidenceConfig, r: string, rd: RunData, chain: Chain, e: Event)
    requires RunOk(cfg, r, rd, chain) && e.runId == r && e.id !in Ids(rd.events)
    ensures var x := Stamp(cfg, chain, e);
      RunOk(cfg, r, RunData(rd.events + [x], Tally(rd.stats, x)), Chain(x.link.hash, x.link.number))
  {
    var x := Stamp(cfg, chain, e);
    SnocLinked(cfg, rd.events, e);
    SummarySnoc(rd.events, x);
    hide Summary, Linked;
    forall i | 0 <= i < |rd.events| ensures rd.events[i].id != e.id { assert rd.events[i].id in Ids(rd.events); }
  }

  // ----- Ingest -----

  lemma NotIndexed(runs: map<string, RunData>, byId: map<string, Event>, id: string, r: string)
    requires IndexOk(runs, byId) && id !in byId && r in runs
    ensures id !in Ids(runs[r].events)
  {
  }

  lemma AppendIndex(runs: map<string, RunData>, byId: map<string, Event>, r: string, rd: RunData, x: Event)
    requires IndexOk(runs, byId) && x.id !in byId && rd.events == DataAt(runs, r).events + [x]
    ensures IndexOk(runs[r := rd], byId[x.id := x])
  {
    var runs', byId' := runs[r := rd], byId[x.id := x];
    forall id | id in byId' ensures Located(runs', id, byId'[id]) {
      if id == x.id {
        assert x in runs'[r].events;
      } else {
        var r0 :| r0 in runs && byId[id] in runs[r0].events;
        assert byId[id] in runs'[r0].events;
      }
    }
    forall r0, e | r0 in runs' && e in runs'[r0].events ensures e.id in byId' && byId'[e.id] == e {
      if r0 != r || e != x {
        var r1 := r0;
        assert e in DataAt(runs, r1).events;
      }
    }
  }

  lemma AppendApart(runs: map<string, RunData>, byId: map<string, Event>, r: string, rd: RunData, x: Event)
    requires RunsApart(runs) && IndexOk(runs, byId) && x.id !in byId && rd.events == DataAt(runs, r).events + [x]
    ensures RunsApart(runs[r := rd])
  {
    var runs' := runs[r := rd];
    IdsSnoc(DataAt(runs, r).events, x);
    forall a, b | a in runs' && b in runs' && a != b ensures Ids(runs'[a].events) !! Ids(runs'[b].events) {
      if a != r { NotIndexed(runs, byId, x.id, a); }
      if b != r { NotIndexed(runs, byId, x.id, b); }
      assert r !in runs ==> Ids(DataAt(runs, r).events) == {};
    }
  }

  lemma AppendLogs(cfg: EvidenceConfig, ev: Evidence, e: Event)
    requires LogsOk(cfg, ev) && e.id !in Ids(HotOf(ev, e.runId))
    ensures LogsOk(cfg, Append(cfg, ev, e))
  {
    var ev', r := Append(cfg, ev, e), e.runId;
    EmptyRunOk(cfg, r);
    hide RunOk;
    assert RunOk(cfg, r, DataAt(ev.runs, r), ChainAt(ev, r));
    SnocRunOk(cfg, r, DataAt(ev.runs, r), ChainAt(ev, r), e);
    hide Stamp, Tally;
    forall a | a in ev'.runs ensures RunOk(cfg, a, ev'.runs[a], ChainAt(ev', a)) {
      if a != r { assert ChainAt(ev', a) == ChainAt(ev, a); }
    }
  }

  lemma AppendOk(cfg: EvidenceConfig, ev: Evidence, e: Event)
    requires EvOk(cfg, ev) && e.id !in ev.byId
    ensures EvOk(cfg, Append(cfg, ev, e))
  {
    hide LogsOk, RunsApart, IndexOk, Tally;
    var ev', r := Append(cfg, ev, e), e.runId;
    assert e.id !in Ids(HotOf(ev, r)) by { if r in ev.runs { NotIndexed(ev.runs, ev.byId, e.id, r); } }
    AppendLogs(cfg, ev, e);
    AppendIndex(ev.runs, ev.byId, r, ev'.runs[r], Stamp(cfg, ChainAt(ev, r), e));
    AppendApart(ev.runs, ev.byId, r, ev'.runs[r], Stamp(cfg, ChainAt(ev, r), e));
  }

  lemma EmptyRunOk(cfg: EvidenceConfig, r: string)
    ensures RunOk(cfg, r, RunData([], NO_STATS), NO_CHAIN)
  {
  }

  lemma OpenApart(runs: map<string, RunData>, r: string)
    requires RunsApart(runs) && r !in runs
    ensures RunsApart(runs[r := RunData([], NO_STATS)])
  {
    assert Ids([]) == {};
  }

  lemma OpenIndex(runs: map<string, RunData>, byId: map<string, Event>, r: string)
    requires IndexOk(runs, byId) && r !in runs
    ensures IndexOk(runs[r := RunData([], NO_STATS)], byId)
  {
    var runs' := runs[r := RunData([], NO_STATS)];
    forall id | id in byId ensures Located(runs', id, byId[id]) {
      var r0 :| r0 in runs && byId[id] in runs[r0].events;
      assert byId[id] in runs'[r0].events;
    }
  }

  lemma OpenLogs(cfg: EvidenceConfig, ev: Evidence, r: string)
    requires LogsOk(cfg, ev) && r !in ev.runs
    ensures LogsOk(cfg, ev.(runs := ev.runs[r := RunData([], NO_STATS)]))
  {
    EmptyRunOk(cfg, r);
    hide RunOk;
    var ev' := ev.(runs := ev.runs[r := RunData([], NO_STATS)]);
    forall a | a in ev'.runs ensures RunOk(cfg, a, ev'.runs[a], ChainAt(ev', a)) { }
  }

  lemma DropOk(cfg: EvidenceConfig, ev: Evidence, r: string)
    requires EvOk(cfg, ev)
    ensures EvOk(cfg, ev.(runs := ev.runs[r := DataAt(ev.runs, r)]))
  {
    hide LogsOk, RunsApart, IndexOk;
    if r in ev.runs {
      assert ev.runs[r := DataAt(ev.runs, r)] == ev.runs;
    } else {
      OpenApart(ev.runs, r);
      OpenIndex(ev.runs, ev.byId, r);
      OpenLogs(cfg, ev, r);
    }
  }

  lemma IngestOk(cfg: EvidenceConfig, ev: Evidence, e: Event, p: Pressure)
    requires EvOk(cfg, ev)
    ensures EvOk(cfg, Ingest(cfg, ev, e, p))
  {
    hide EvOk, Append, Decide;
    if e.id !in ev.byId {
      DropOk(cfg, ev, e.runId);
      AppendOk(cfg, ev, e);
      AppendOk(cfg, ev, Degraded(cfg, e));
    }
  }

  // ----- Sorting and chaining anew -----

  lemma {:induction false} InsertKeeps(es: seq<Event>, e: Event)
    ensures multiset(InsertEvent(es, e)) == multiset(es) + multiset{e} && |InsertEvent(es, e)| == |es| + 1
    ensures forall x :: x in InsertEvent(es, e) <==> x in es || x == e
  {
    if es != [] && !Sooner(es[|es| - 1], e) {
      InsertKeeps(es[..|es| - 1], e);
      assert es == es[..|es| - 1] + [es[|es| - 1]];
    }
  }

  lemma {:induction false} SortKeeps(es: seq<Event>)
    ensures multiset(SortEvents(es)) == multiset(es) && |SortEvents(es)| == |es|
    ensures forall x :: x in SortEvents(es) <==> x in es
  {
    hide InsertEvent;
    if es != [] {
      SortKeeps(es[..|es| - 1]);
      InsertKeeps(SortEvents(es[..|es| - 1]), es[|es| - 1]);
      assert es == es[..|es| - 1] + [es[|es| - 1]];
    }
  }

  lemma SoonerTotal(a: Event, b: Event)
    requires a.id != b.id
    ensures Sooner(a, b) || Sooner(b, a)
  {
    RunOrder.BeforeTotal(a.id, b.id);
  }

  lemma SoonerTransitive(a: Event, b: Event, c: Event)
    requires Sooner(a, b) && Sooner(b, c)
    ensures Sooner(a, c)
  {
    if a.ts == b.ts == c.ts { RunOrder.BeforeTransitive(a.id, b.id, c.id); }
  }

  lemma {:induction false} InsertOrders(es: seq<Event>, e: Event)
    requires InOrder(es) && forall i :: 0 <= i < |es| ==> es[i].id != e.id
    ensures InOrder(InsertEvent(es, e))
  {
    hide Sooner;
    if es == [] {
    } else if Sooner(es[|es| - 1], e) {
      var r := es + [e];
      forall i, j | 0 <= i < j < |r| ensures Sooner(r[i], r[j]) {
        if j == |es| && i < |es| - 1 { SoonerTransitive(es[i], es[|es| - 1], e); }
      }
    } else {
      var init, last := es[..|es| - 1], es[|es| - 1];
      InsertOrders(init, e);
      InsertKeeps(init, e);
      SoonerTotal(last, e);
      var r := InsertEvent(init, e);
      forall i | 0 <= i < |r| ensures Sooner(r[i], last) {
        assert r[i] in r;
        if r[i] != e { var n :| 0 <= n < |init| && init[n] == r[i]; assert Sooner(es[n], es[|es| - 1]); }
      }
    }
  }

  lemma {:induction false} SortOrders(es: seq<Event>)
    requires Distinct(es)
    ensures InOrder(SortEvents(es)) && Distinct(SortEvents(es))
  {
    if es != [] {
      var init, last := es[..|es| - 1], es[|es| - 1];
      SortOrders(init);
      SortKeeps(init);
      var s := SortEvents(init);
      forall i | 0 <= i < |s| ensures s[i].id != last.id { assert s[i] in init; }
      InsertOrders(s, last);
      InsertDistinct(s, last);
    }
  }

  lemma {:induction false} InsertDistinct(es: seq<Event>, e: Event)
    requires Distinct(es) && forall i :: 0 <= i < |es| ==> es[i].id != e.id
    ensures Distinct(InsertEvent(es, e))
  {
    if es != [] && !Sooner(es[|es| - 1], e) {
      var init, last := es[..|es| - 1], es[|es| - 1];
      InsertDistinct(init, e);
      InsertKeeps(init, e);
      var r := InsertEvent(init, e);
      forall i | 0 <= i < |r| ensures r[i].id != last.id { assert r[i] in r; }
    }
  }

  /** An event apart from its place in the chain. */
  function Bare(e: Event): Event {
    e.(link := Link(0, "", ""))
  }

  lemma {:induction false} StampedOk(cfg: EvidenceConfig, es: seq<Event>)
    ensures var s := Stamped(cfg, es);
      && Linked(cfg, s) && Numbered(s) && |s| == |es|
      && forall i :: 0 <= i < |es| ==> Bare(s[i]) == Bare(es[i])
  {
    if es != [] {
      StampedOk(cfg, es[..|es| - 1]);
      SnocLinked(cfg, Stamped(cfg, es[..|es| - 1]), es[|es| - 1]);
    }
  }

  lemma BareIds(es: seq<Event>, es': seq<Event>)
    requires |es| == |es'| && forall i :: 0 <= i < |es| ==> Bare(es'[i]) == Bare(es[i])
    ensures Ids(es') == Ids(es) && (Distinct(es) ==> Distinct(es')) && (InOrder(es) ==> InOrder(es'))
    ensures forall i :: 0 <= i < |es| ==> es'[i].runId == es[i].runId
  {
    forall i | 0 <= i < |es| ensures es'[i].id == es[i].id && es'[i].ts == es[i].ts && es'[i].runId == es[i].runId {
      assert Bare(es'[i]) == Bare(es[i]);
    }
    forall x ensures x in Ids(es) <==> x in Ids(es') {
      if x in Ids(es) { var i :| 0 <= i < |es| && es[i].id == x; assert es'[i].id == x; }
      if x in Ids(es') { var i :| 0 <= i < |es'| && es'[i].id == x; assert es[i].id == x; }
    }
    if InOrder(es) {
      forall i, j | 0 <= i < j < |es'| ensures Sooner(es'[i], es'[j]) { assert Sooner(es[i], es[j]); }
    }
  }

  lemma SortIds(es: seq<Event>)
    ensures Ids(SortEvents(es)) == Ids(es)
  {
    SortKeeps(es);
    var s := SortEvents(es);
    forall x ensures x in Ids(es) <==> x in Ids(s) {
      if x in Ids(es) { var i :| 0 <= i < |es| && es[i].id == x; assert es[i] in s; }
      if x in Ids(s) { var i :| 0 <= i < |s| && s[i].id == x; assert s[i] in es; }
    }
  }

  lemma RefreshedOk(cfg: EvidenceConfig, r: string, es: seq<Event>)
    requires Distinct(es) && forall e :: e in es ==> e.runId == r
    ensures var rd := Refreshed(cfg, es);
      RunOk(cfg, r, rd, Head(rd.events)) && Ids(rd.events) == Ids(es) && InOrder(rd.events) && |rd.events| == |es|
  {
    SortOrders(es);
    SortKeeps(es);
    SortIds(es);
    var s := SortEvents(es);
    StampedOk(cfg, s);
    BareIds(s, Stamped(cfg, s));
    hide SortEvents, Stamped, Summary, Linked, Numbered, InOrder, Distinct;
    var rd := Refreshed(cfg, es);
    forall e | e in rd.events ensures e.runId == r {
      var i :| 0 <= i < |rd.events| && rd.events[i] == e;
      assert s[i] in es;
    }
  }

  /** What a rebuild needs of the logs it starts from. */
  ghost predicate Sound(runs: map<string, RunData>) {
    && (forall r :: r in runs ==> Distinct(runs[r].events) && forall e :: e in runs[r].events ==> e.runId == r)
    && RunsApart(runs)
  }

  lemma ByIdOk(runs: map<string, RunData>)
    requires Sound(runs)
    ensures IndexOk(runs, ById(runs))
  {
    var byId := ById(runs);
    forall id | id in byId ensures Located(runs, id, byId[id]) { }
    forall r, e | r in runs && e in runs[r].events ensures e.id in byId && byId[e.id] == e {
      var i :| 0 <= i < |runs[r].events| && runs[r].events[i] == e;
      assert e.id in AllIds(runs);
      OneEventForId(runs, e.id, r, e, byId[e.id]);
    }
  }

  lemma OneEventForId(runs: map<string, RunData>, id: string, r: string, e: Event, e': Event)
    requires Sound(runs) && r in runs && e in runs[r].events && e.id == id && Located(runs, id, e')
    ensures e' == e
  {
    var r' :| r' in runs && e' in runs[r'].events;
    var i :| 0 <= i < |runs[r].events| && runs[r].events[i] == e;
    var j :| 0 <= j < |runs[r'].events| && runs[r'].events[j] == e';
    assert id in Ids(runs[r].events) && id in Ids(runs[r'].events);
    assert r == r';
    assert Distinct(runs[r].events);
  }

  lemma RebuildRun(cfg: EvidenceConfig, ev: Evidence, r: string)
    requires Sound(ev.runs) && r in ev.runs
    ensures var ev' := Rebuild(cfg, ev);
      && r in ev'.runs && ev'.runs[r] == Refreshed(cfg, ev.runs[r].events)
      && RunOk(cfg, r, ev'.runs[r], ChainAt(ev', r)) && Ids(ev'.runs[r].events) == Ids(ev.runs[r].events) && InOrder(ev'.runs[r].events)
  {
    RefreshedOk(cfg, r, ev.runs[r].events);
    hide Refreshed, RunOk, InOrder, ById;
  }

  lemma RebuildFields(cfg: EvidenceConfig, ev: Evidence)
    ensures var ev' := Rebuild(cfg, ev);
      ev'.runs.Keys == ev.runs.Keys && ev'.integrity.Keys <= ev'.runs.Keys && ev'.byId == ById(ev'.runs)
  {
    hide Refreshed, ById, Head;
  }

  lemma RebuildSound(cfg: EvidenceConfig, ev: Evidence)
    requires Sound(ev.runs)
    ensures Sound(Rebuild(cfg, ev).runs) && LogsOk(cfg, Rebuild(cfg, ev))
  {
    var ev' := Rebuild(cfg, ev);
    RebuildFields(cfg, ev);
    hide Rebuild, ById, Ids, Linked, Numbered, Summary, InOrder, Distinct, ChainAt, Refreshed;
    forall r | r in ev'.runs ensures RunOk(cfg, r, ev'.runs[r], ChainAt(ev', r)) && Ids(ev'.runs[r].events) == Ids(ev.runs[r].events) {
      RebuildRun(cfg, ev, r);
    }
  }

  lemma RebuildOk(cfg: EvidenceConfig, ev: Evidence)
    requires Sound(ev.runs)
    ensures EvOk(cfg, Rebuild(cfg, ev))
    ensures Rebuild(cfg, ev).runs.Keys == ev.runs.Keys
    ensures forall r :: r in ev.runs ==> InOrder(Rebuild(cfg, ev).runs[r].events)
  {
    hide Rebuild, ById, LogsOk, InOrder, IndexOk;
    RebuildSound(cfg, ev);
    RebuildFields(cfg, ev);
    ByIdOk(Rebuild(cfg, ev).runs);
    forall r | r in ev.runs ensures InOrder(Rebuild(cfg, ev).runs[r].events) { RebuildRun(cfg, ev, r); }
  }

  // ----- Deletion and sweep -----

  /** Part of a log, events possibly redacted. */
  ghost predicate PartOf(es': seq<Event>, es: seq<Event>) {
    && Distinct(es')
    && (forall e' :: e' in es' ==> exists e :: e in es && e.id == e'.id && e.runId == e'.runId)
  }

  lemma PartSound(runs: map<string, RunData>, runs': map<string, RunData>)
    requires Sound(runs) && runs'.Keys <= runs.Keys
    requires forall r :: r in runs' ==> PartOf(runs'[r].events, runs[r].events)
    ensures Sound(runs')
  {
    forall r | r in runs' ensures Ids(runs'[r].events) <= Ids(runs[r].events) && forall e :: e in runs'[r].events ==> e.runId == r {
      assert PartOf(runs'[r].events, runs[r].events);
      forall x | x in Ids(runs'[r].events) ensures x in Ids(runs[r].events) {
        var i :| 0 <= i < |runs'[r].events| && runs'[r].events[i].id == x;
        var e :| e in runs[r].events && e.id == x;
        var j :| 0 <= j < |runs[r].events| && runs[r].events[j] == e;
      }
    }
    forall r, r' | r in runs' && r' in runs' && r != r' ensures Ids(runs'[r].events) !! Ids(runs'[r'].events) {
      assert Ids(runs[r].events) !! Ids(runs[r'].events);
    }
  }

  lemma PartSnoc(es': seq<Event>, init: seq<Event>, e: Event, x: Event)
    requires PartOf(es', init) && Distinct(init + [e]) && x.id == e.id && x.runId == e.runId
    ensures PartOf(es', init + [e]) && PartOf(es' + [x], init + [e])
  {
    var es := init + [e];
    forall y | y in es' ensures exists z :: z in es && z.id == y.id && z.runId == y.runId {
      var z :| z in init && z.id == y.id && z.runId == y.runId;
      assert z in es;
    }
    assert e in es;
    forall i | 0 <= i < |es'| ensures es'[i].id != x.id {
      assert es'[i] in es';
      var z :| z in init && z.id == es'[i].id;
      var j :| 0 <= j < |init| && init[j] == z;
      assert es[j].id != es[|init|].id;
    }
  }

  lemma {:induction false} RedactedPart(cfg: EvidenceConfig, es: seq<Event>, tenant: string, prefix: string)
    requires Distinct(es)
    ensures PartOf(Redacted(cfg, es, tenant, prefix), es)
  {
    if es != [] {
      var init, e := es[..|es| - 1], es[|es| - 1];
      RedactedPart(cfg, init, tenant, prefix);
      assert es == init + [e];
      PartSnoc(Redacted(cfg, init, tenant, prefix), init, e, e);
      PartSnoc(Redacted(cfg, init, tenant, prefix), init, e, Tombstoned(cfg, e));
    }
  }

  lemma {:induction false} KeepPart(es: seq<Event>, now: int, max: int)
    requires Distinct(es)
    ensures PartOf(Keep(es, now, max), es)
  {
    if es != [] {
      var init, e := es[..|es| - 1], es[|es| - 1];
      KeepPart(init, now, max);
      assert es == init + [e];
      PartSnoc(Keep(init, now, max), init, e, e);
    }
  }

  lemma WholePart(es: seq<Event>)
    requires Distinct(es)
    ensures PartOf(es, es)
  {
  }

  lemma OkIsSound(cfg: EvidenceConfig, ev: Evidence)
    requires EvOk(cfg, ev)
    ensures Sound(ev.runs)
  {
    hide Linked, Numbered, Summary, IndexOk;
    forall r | r in ev.runs ensures Distinct(ev.runs[r].events) && forall e :: e in ev.runs[r].events ==> e.runId == r {
      assert RunOk(cfg, r, ev.runs[r], ChainAt(ev, r));
    }
  }

  function RedactedRuns(cfg: EvidenceConfig, runs: map<string, RunData>, tenant: string, run: string, prefix: string): map<string, RunData> {
    map r | r in runs :: if run == "" || r == run then runs[r].(events := Redacted(cfg, runs[r].events, tenant, prefix)) else runs[r]
  }

  lemma RedactedSound(cfg: EvidenceConfig, runs: map<string, RunData>, tenant: string, run: string, prefix: string)
    requires Sound(runs)
    ensures Sound(RedactedRuns(cfg, runs, tenant, run, prefix))
  {
    hide RunsApart, Redacted;
    var runs' := RedactedRuns(cfg, runs, tenant, run, prefix);
    forall r | r in runs' ensures PartOf(runs'[r].events, runs[r].events) {
      RedactedPart(cfg, runs[r].events, tenant, prefix);
      WholePart(runs[r].events);
      hide PartOf;
    }
    hide PartOf, Distinct, Sound;
    PartSound(runs, runs');
  }

  lemma DeleteOk(cfg: EvidenceConfig, ev: Evidence, tenant: string, run: string, prefix: string)
    requires EvOk(cfg, ev)
    ensures EvOk(cfg, DeleteByDSAR(cfg, ev, tenant, run, prefix))
    ensures tenant != "" ==> DeleteByDSAR(cfg, ev, tenant, run, prefix).runs.Keys == ev.runs.Keys
    ensures tenant != "" ==> forall r :: r in ev.runs ==> InOrder(DeleteByDSAR(cfg, ev, tenant, run, prefix).runs[r].events)
  {
    if tenant != "" {
      OkIsSound(cfg, ev);
      hide EvOk, InOrder, Sound, Rebuild;
      RedactedSound(cfg, ev.runs, tenant, run, prefix);
      RebuildOk(cfg, ev.(runs := RedactedRuns(cfg, ev.runs, tenant, run, prefix)));
    }
  }

  lemma SweepOk(cfg: EvidenceConfig, ev: Evidence, now: int)
    requires EvOk(cfg, ev)
    ensures EvOk(cfg, SweepRetention(cfg, ev, now))
    ensures forall r :: r in SweepRetention(cfg, ev, now).runs ==> InOrder(SweepRetention(cfg, ev, now).runs[r].events)
  {
    OkIsSound(cfg, ev);
    var a := Archived(cfg, ev, now);
    forall r | r in a.runs ensures PartOf(a.runs[r].events, ev.runs[r].events) {
      KeepPart(ev.runs[r].events, now, cfg.eventRetention);
    }
    hide PartOf, Keep, EvOk, InOrder, WarmAfter, ColdAfter;
    assert a.runs.Keys <= ev.runs.Keys;
    hide Archived;
    PartSound(ev.runs, a.runs);
    RebuildOk(cfg, a);
  }
}
