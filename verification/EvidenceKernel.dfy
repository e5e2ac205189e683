/**
 * The evidence kernel as it is written: logs appended to and filtered in place, archives rotated, indexes rebuilt by loops.
 * Each method is proved to do what its function in EvidenceSpec says.
 */
module EvidenceKernel {
  import opened Outcomes
  import InPlace
  import opened EvidenceSpec
  import opened EvidenceInvariants
  import opened EvidenceRetention

  // ----- In-place work on event lists -----

  method Copied(es: seq<Event>) returns (a: array<Event>)
    ensures fresh(a) && a[..] == es
  {
    a := new Event[|es|](n requires 0 <= n < |es| => es[n]);
  }

  /** The slot at `i` is where `e` goes. */
  lemma {:induction false} InsertAt(es: seq<Event>, e: Event, i: nat)
    requires i <= |es| && (i == 0 || Sooner(es[i - 1], e)) && forall n :: i <= n < |es| ==> !Sooner(es[n], e)
    ensures InsertEvent(es, e) == es[..i] + [e] + es[i..]
  {
    hide Sooner;
    if i < |es| {
      InsertAt(es[..|es| - 1], e, i);
      assert es[..|es| - 1][..i] == es[..i];
      assert es[..|es| - 1][i..] + [es[|es| - 1]] == es[i..];
    } else {
      assert es[..i] == es && es[i..] == [];
    }
  }

  /** Where the entry at `i` belongs among those before it. */
  method PlaceFor(a: array<Event>, i: nat) returns (j: nat)
    requires i < a.Length
    ensures j <= i && (j == 0 || Sooner(a[j - 1], a[i])) && forall n :: j <= n < i ==> !Sooner(a[n], a[i])
  {
    hide Sooner;
    j := i;
    while j > 0 && !Sooner(a[j - 1], a[i])
      invariant 0 <= j <= i && forall n :: j <= n < i ==> !Sooner(a[n], a[i])
    {
      j := j - 1;
    }
  }

  method InsertInPlace(a: array<Event>, i: nat)
    requires i < a.Length
    modifies a
    ensures a[..i + 1] == InsertEvent(old(a[..i]), old(a[i])) && a[i + 1..] == old(a[i + 1..])
  {
    hide InsertEvent, Sooner;
    ghost var s := a[..i];
    var j := PlaceFor(a, i);
    InsertAt(s, a[i], j);
    assert s[..j] == a[..j] && s[j..] == a[j..i];
    InPlace.MoveDown(a, j, i);
  }

  method SortInPlace(a: array<Event>)
    modifies a
    ensures a[..] == SortEvents(old(a[..]))
  {
    ghost var was := a[..];
    for i := 0 to a.Length
      invariant a[..i] == SortEvents(was[..i]) && a[i..] == was[i..]
    {
      assert a[i] == was[i] && a[i + 1..] == was[i + 1..];
      InsertInPlace(a, i);
      assert was[..i + 1][..i] == was[..i];
    }
    assert a[..a.Length] == a[..] && was[..a.Length] == was;
  }

  /** What is still hot is packed at the front; the rest is handed out by age. */
  method SplitHot(cfg: EvidenceConfig, a: array<Event>, now: int) returns (kept: nat, warm: seq<Event>, cold: seq<Event>)
    requires Layered(cfg)
    modifies a
    ensures kept <= a.Length && a[..kept] == Keep(old(a[..]), now, cfg.eventRetention)
    ensures warm == Pick(old(a[..]), now, cfg.eventRetention, cfg.warmRetention)
    ensures cold == Pick(old(a[..]), now, cfg.warmRetention, cfg.coldRetention)
  {
    ghost var was := a[..];
    kept, warm, cold := 0, [], [];
    for i := 0 to a.Length
      invariant kept <= i && forall n :: i <= n < a.Length ==> a[n] == was[n]
      invariant a[..kept] == Keep(was[..i], now, cfg.eventRetention)
      invariant warm == Pick(was[..i], now, cfg.eventRetention, cfg.warmRetention)
      invariant cold == Pick(was[..i], now, cfg.warmRetention, cfg.coldRetention)
    {
      var e := a[i];
      assert was[..i + 1][..i] == was[..i] && e == was[i];
      if e.ts < now - cfg.eventRetention {
        var age := now - e.ts;
        if age <= cfg.warmRetention {
          warm := warm + [e];
        } else if age <= cfg.coldRetention {
          cold := cold + [e];
        }
      } else {
        a[kept] := e;
        assert a[..kept + 1] == Keep(was[..i], now, cfg.eventRetention) + [e];
        kept := kept + 1;
      }
    }
    assert was[..a.Length] == was;
  }

  method SplitWarm(cfg: EvidenceConfig, a: array<Event>, now: int) returns (kept: nat, cold: seq<Event>)
    requires Layered(cfg)
    modifies a
    ensures kept <= a.Length && a[..kept] == Keep(old(a[..]), now, cfg.warmRetention)
    ensures cold == Pick(old(a[..]), now, cfg.warmRetention, cfg.coldRetention)
  {
    ghost var was := a[..];
    kept, cold := 0, [];
    for i := 0 to a.Length
      invariant kept <= i && forall n :: i <= n < a.Length ==> a[n] == was[n]
      invariant a[..kept] == Keep(was[..i], now, cfg.warmRetention)
      invariant cold == Pick(was[..i], now, cfg.warmRetention, cfg.coldRetention)
    {
      var e := a[i];
      assert was[..i + 1][..i] == was[..i] && e == was[i];
      var age := now - e.ts;
      if age <= cfg.warmRetention {
        a[kept] := e;
        assert a[..kept + 1] == Keep(was[..i], now, cfg.warmRetention) + [e];
        kept := kept + 1;
      } else if age <= cfg.coldRetention {
        cold := cold + [e];
      }
    }
    assert was[..a.Length] == was;
  }

  method KeepInPlace(a: array<Event>, now: int, max: int) returns (kept: nat)
    modifies a
    ensures kept <= a.Length && a[..kept] == Keep(old(a[..]), now, max)
  {
    ghost var was := a[..];
    kept := 0;
    for i := 0 to a.Length
      invariant kept <= i && forall n :: i <= n < a.Length ==> a[n] == was[n]
      invariant a[..kept] == Keep(was[..i], now, max)
    {
      var e := a[i];
      assert was[..i + 1][..i] == was[..i] && e == was[i];
      if now - e.ts <= max {
        a[kept] := e;
        assert a[..kept + 1] == Keep(was[..i], now, max) + [e];
        kept := kept + 1;
      }
    }
    assert was[..a.Length] == was;
  }

  method RedactInPlace(cfg: EvidenceConfig, a: array<Event>, tenant: string, prefix: string) returns (kept: nat)
    modifies a
    ensures kept <= a.Length && a[..kept] == Redacted(cfg, old(a[..]), tenant, prefix)
  {
    ghost var was := a[..];
    kept := 0;
    assert Redacted(cfg, was[..0], tenant, prefix) == [];
    hide Redacted, RedactedEvent;
    for i := 0 to a.Length
      invariant kept <= i && forall n :: i <= n < a.Length ==> a[n] == was[n]
      invariant a[..kept] == Redacted(cfg, was[..i], tenant, prefix)
    {
      RedactedMore(cfg, was, i, tenant, prefix);
      var redacted := RedactOne(cfg, a[i], tenant, prefix);
      if redacted.Some? {
        ghost var before := a[..kept];
        a[kept] := redacted.value;
        assert a[..kept + 1] == before + [redacted.value];
        kept := kept + 1;
      }
    }
    assert was[..a.Length] == was;
  }

  /** What becomes of one event, if it stays at all. */
  function RedactedEvent(cfg: EvidenceConfig, e: Event, tenant: string, prefix: string): Option<Event> {
    if !Targeted(tenant, prefix, e) then Some(e)
    else if e.tier == Tier3 && e.grade == Operational then None
    else Some(Tombstoned(cfg, e))
  }

  method RedactOne(cfg: EvidenceConfig, e: Event, tenant: string, prefix: string) returns (r: Option<Event>)
    ensures r == RedactedEvent(cfg, e, tenant, prefix)
  {
    if e.tenant != tenant { return Some(e); }
    if prefix != "" && !(prefix <= e.payloadRef) { return Some(e); }
    if e.tier == Tier3 && e.grade == Operational { return None; }
    var x := e.(payload := Payload("", []), tombstoned := true);
    return Some(x.(payloadHash := cfg.tombstoneHash));
  }

  lemma RedactedMore(cfg: EvidenceConfig, es: seq<Event>, i: nat, tenant: string, prefix: string)
    requires i < |es|
    ensures var r := RedactedEvent(cfg, es[i], tenant, prefix);
      Redacted(cfg, es[..i + 1], tenant, prefix) == Redacted(cfg, es[..i], tenant, prefix) + if r.Some? then [r.value] else []
  {
    assert es[..i + 1][..i] == es[..i];
  }

  method RedactedList(cfg: EvidenceConfig, es: seq<Event>, tenant: string, prefix: string) returns (r: seq<Event>)
    ensures r == Redacted(cfg, es, tenant, prefix)
  {
    hide Redacted;
    var a := Copied(es);
    var kept := RedactInPlace(cfg, a, tenant, prefix);
    return a[..kept];
  }

  method WarmLists(cfg: EvidenceConfig, es: seq<Event>, now: int) returns (kept: seq<Event>, cold: seq<Event>)
    requires Layered(cfg)
    ensures kept == Keep(es, now, cfg.warmRetention) && cold == Pick(es, now, cfg.warmRetention, cfg.coldRetention)
  {
    hide Keep, Pick;
    var a := Copied(es);
    var n: nat;
    n, cold := SplitWarm(cfg, a, now);
    kept := a[..n];
  }

  method HotLists(cfg: EvidenceConfig, es: seq<Event>, now: int) returns (kept: seq<Event>, warm: seq<Event>, cold: seq<Event>)
    requires Layered(cfg)
    ensures kept == Keep(es, now, cfg.eventRetention) && warm == Pick(es, now, cfg.eventRetention, cfg.warmRetention)
    ensures cold == Pick(es, now, cfg.warmRetention, cfg.coldRetention)
  {
    hide Keep, Pick;
    var a := Copied(es);
    var n: nat;
    n, warm, cold := SplitHot(cfg, a, now);
    kept := a[..n];
  }

  method ColdList(es: seq<Event>, now: int, max: int) returns (kept: seq<Event>)
    ensures kept == Keep(es, now, max)
  {
    hide Keep;
    var a := Copied(es);
    var n := KeepInPlace(a, now, max);
    kept := a[..n];
  }

  // ----- Archives as lists -----

  function At(m: map<string, seq<Event>>, r: string): seq<Event> {
    if r in m then m[r] else []
  }

  function Added(m: map<string, seq<Event>>, r: string, es: seq<Event>): (m': map<string, seq<Event>>)
    ensures forall x :: At(m', x) == if x == r then At(m, r) + es else At(m, x)
    ensures NoEmpty(m) ==> NoEmpty(m')
  {
    if es == [] then m else m[r := At(m, r) + es]
  }

  function Joined(es: seq<Event>, waiting: bool, more: seq<Event>): seq<Event> {
    if waiting then es else es + more
  }

  ghost predicate NoEmpty(m: map<string, seq<Event>>) {
    forall r :: r in m ==> m[r] != []
  }

  lemma SameLists(m: map<string, seq<Event>>, m': map<string, seq<Event>>)
    requires NoEmpty(m) && NoEmpty(m') && forall r :: At(m, r) == At(m', r)
    ensures m == m'
  {
    forall r ensures r in m <==> r in m' { assert At(m, r) == At(m', r); }
    forall r | r in m ensures m[r] == m'[r] { assert At(m, r) == At(m', r); }
  }

  lemma ArchivedLists(cfg: EvidenceConfig, ev: Evidence, now: int)
    ensures var a := Archived(cfg, ev, now);
      && NoEmpty(a.warm) && NoEmpty(a.cold)
      && forall r :: At(a.warm, r) == WarmAfter(cfg, ev, r, now) && At(a.cold, r) == ColdAfter(cfg, ev, r, now)
  {
    hide WarmAfter, ColdAfter, Keep;
    var a := Archived(cfg, ev, now);
    forall r ensures At(a.warm, r) == WarmAfter(cfg, ev, r, now) && At(a.cold, r) == ColdAfter(cfg, ev, r, now) {
      if r !in ev.warm && r !in ev.runs { NoWarm(cfg, ev, r, now); }
      if r !in ev.cold && r !in ev.warm && r !in ev.runs { NoCold(cfg, ev, r, now); }
    }
  }

  // ----- Rebuilding -----

  /** A log sorted and chained anew, with its counters, event by event. */
  method RefreshRun(cfg: EvidenceConfig, es: seq<Event>) returns (rd: RunData, chain: Chain)
    ensures rd == Refreshed(cfg, es) && chain == Head(rd.events)
  {
    hide SortEvents, Stamp, Tally, Stamped, Summary;
    var a := Copied(es);
    SortInPlace(a);
    var sorted := a[..];
    var events: seq<Event>, stats := [], NO_STATS;
    chain := NO_CHAIN;
    NothingStamped(cfg);
    assert sorted[..0] == [];
    for i := 0 to |sorted|
      invariant events == Stamped(cfg, sorted[..i]) && chain == Head(events) && stats == Summary(events)
    {
      var e := Stamp(cfg, chain, sorted[i]);
      StampedMore(cfg, sorted, i);
      SummarySnoc(events, e);
      events := events + [e];
      chain := Chain(e.link.hash, e.link.number);
      stats := Tally(stats, e);
    }
    assert sorted[..|sorted|] == sorted;
    return RunData(events, stats), chain;
  }

  lemma NothingStamped(cfg: EvidenceConfig)
    ensures Stamped(cfg, []) == [] && Summary([]) == NO_STATS
  {
  }

  lemma StampedMore(cfg: EvidenceConfig, es: seq<Event>, i: nat)
    requires i < |es|
    ensures Stamped(cfg, es[..i + 1]) == Stamped(cfg, es[..i]) + [Stamp(cfg, Head(Stamped(cfg, es[..i])), es[i])]
  {
    assert es[..i + 1][..i] == es[..i];
  }

  /** Adds the events of one run to the index. */
  method IndexRun(es: seq<Event>, byId0: map<string, Event>) returns (byId: map<string, Event>)
    requires Distinct(es)
    ensures forall id :: id in byId <==> id in byId0 || id in Ids(es)
    ensures forall i :: 0 <= i < |es| ==> es[i].id in byId && byId[es[i].id] == es[i]
    ensures forall id :: id in byId0 && id !in Ids(es) ==> byId[id] == byId0[id]
  {
    byId := byId0;
    for i := 0 to |es|
      invariant forall id :: id in byId <==> id in byId0 || exists n :: 0 <= n < i && es[n].id == id
      invariant forall n :: 0 <= n < i ==> es[n].id in byId && byId[es[n].id] == es[n]
      invariant forall id :: id in byId0 && id !in Ids(es) ==> byId[id] == byId0[id]
    {
      assert es[i].id in Ids(es);
      byId := byId[es[i].id := es[i]];
    }
  }

  lemma IndexIsById(runs: map<string, RunData>, byId: map<string, Event>)
    requires Sound(runs) && IndexOk(runs, byId)
    ensures byId == ById(runs)
  {
    ByIdOk(runs);
    var b := ById(runs);
    hide ById, IndexOk;
    hide Sound;
    forall id | id in byId ensures id in b && byId[id] == b[id] { FoundInBoth(runs, byId, b, id); }
    forall id | id in b ensures id in byId { FoundInBoth(runs, b, byId, id); }
  }

  lemma FoundInBoth(runs: map<string, RunData>, byId: map<string, Event>, other: map<string, Event>, id: string)
    requires IndexOk(runs, byId) && IndexOk(runs, other) && id in byId
    ensures id in other && other[id] == byId[id]
  {
    var r :| r in runs && byId[id] in runs[r].events && byId[id].id == id;
  }

  /** The index covers the runs visited. */
  ghost predicate Covers(runs: map<string, RunData>, visited: set<string>, byId: map<string, Event>) {
    && (forall r, i :: r in visited && r in runs && 0 <= i < |runs[r].events| ==> runs[r].events[i].id in byId && byId[runs[r].events[i].id] == runs[r].events[i])
    && (forall id :: id in byId ==> exists r :: r in visited && r in runs && byId[id] in runs[r].events && byId[id].id == id)
  }

  lemma CoversAll(runs: map<string, RunData>, byId: map<string, Event>)
    requires Covers(runs, runs.Keys, byId)
    ensures IndexOk(runs, byId)
  {
    forall r, e | r in runs && e in runs[r].events ensures e.id in byId && byId[e.id] == e {
      var i :| 0 <= i < |runs[r].events| && runs[r].events[i] == e;
    }
  }

  lemma CoversMore(runs: map<string, RunData>, visited: set<string>, byId: map<string, Event>, r: string, byId': map<string, Event>)
    requires Sound(runs) && Covers(runs, visited, byId) && r in runs && r !in visited && visited <= runs.Keys
    requires forall id :: id in byId' <==> id in byId || id in Ids(runs[r].events)
    requires forall i :: 0 <= i < |runs[r].events| ==> runs[r].events[i].id in byId' && byId'[runs[r].events[i].id] == runs[r].events[i]
    requires forall id :: id in byId && id !in Ids(runs[r].events) ==> byId'[id] == byId[id]
    ensures Covers(runs, visited + {r}, byId')
  {
    forall s, i | s in visited + {r} && s in runs && 0 <= i < |runs[s].events|
      ensures runs[s].events[i].id in byId' && byId'[runs[s].events[i].id] == runs[s].events[i]
    {
      assert runs[s].events[i].id in Ids(runs[s].events);
      if s != r { assert Ids(runs[s].events) !! Ids(runs[r].events); }
    }
    forall id | id in byId' ensures exists s :: s in visited + {r} && s in runs && byId'[id] in runs[s].events && byId'[id].id == id {
      if id in Ids(runs[r].events) {
        var i :| 0 <= i < |runs[r].events| && runs[r].events[i].id == id;
        assert byId'[id] in runs[r].events;
      } else {
        var s :| s in visited && s in runs && byId[id] in runs[s].events && byId[id].id == id;
      }
    }
  }

  /** The loop over the runs: each log refreshed, its events indexed, the head of its chain noted. */
  method RebuildMaps(cfg: EvidenceConfig, runs0: map<string, RunData>, ghost ev: Evidence)
    returns (runs: map<string, RunData>, byId: map<string, Event>, integrity: map<string, Chain>)
    requires Sound(ev.runs) && runs0 == ev.runs
    ensures var ev' := Rebuild(cfg, ev); runs == ev'.runs && byId == ev'.byId && integrity == ev'.integrity
  {
    RebuildSound(cfg, ev);
    RebuildFields(cfg, ev);
    hide Refreshed, ById, Covers, Sound, IndexOk, LogsOk, Rebuild, Rebuilt;
    ghost var target := Rebuild(cfg, ev).runs;
    runs, byId, integrity := map[], map[], map[];
    var todo := runs0.Keys;
    CoversNone(target, byId);
    NoneRebuilt(target);
    assert target.Keys - todo == {};
    while todo != {}
      invariant target.Keys == runs0.Keys && todo <= runs0.Keys
      invariant Rebuilt(target, todo, runs, integrity)
      invariant Covers(target, target.Keys - todo, byId)
    {
      var r :| r in todo;
      RebuildAt(cfg, ev, r);
      var rd, chain := RefreshRun(cfg, runs0[r].events);
      byId := ExtendIndex(target, todo, r, rd.events, byId);
      RebuildOne(target, todo, runs, integrity, r);
      if rd.events != [] { integrity := integrity[r := chain]; }
      runs := runs[r := rd];
      todo := todo - {r};
    }
    RebuildDone(cfg, ev, runs, byId, integrity);
  }

  lemma RebuildDone(cfg: EvidenceConfig, ev: Evidence, runs: map<string, RunData>, byId: map<string, Event>, integrity: map<string, Chain>)
    requires Sound(Rebuild(cfg, ev).runs)
    requires Rebuilt(Rebuild(cfg, ev).runs, {}, runs, integrity) && Covers(Rebuild(cfg, ev).runs, Rebuild(cfg, ev).runs.Keys - {}, byId)
    ensures var ev' := Rebuild(cfg, ev); runs == ev'.runs && byId == ev'.byId && integrity == ev'.integrity
  {
    RebuildFields(cfg, ev);
    hide ById, Covers, Sound, IndexOk, Rebuild, Rebuilt;
    var target := Rebuild(cfg, ev).runs;
    AllRebuilt(target, runs, integrity);
    assert target.Keys - {} == target.Keys;
    CoversAll(target, byId);
    IndexIsById(target, byId);
    RebuildHeads(cfg, ev, integrity);
  }

  /** All runs but those to do are as they are to be, and the heads of their chains are noted. */
  ghost predicate Rebuilt(target: map<string, RunData>, todo: set<string>, runs: map<string, RunData>, integrity: map<string, Chain>) {
    && (forall r :: r in runs <==> r in target && r !in todo)
    && (forall r :: r in runs ==> runs[r] == target[r])
    && (forall r :: r in integrity <==> r in runs && target[r].events != [])
    && (forall r :: r in integrity ==> integrity[r] == Head(target[r].events))
  }

  lemma NoneRebuilt(target: map<string, RunData>)
    ensures Rebuilt(target, target.Keys, map[], map[])
  {
  }

  lemma RebuildOne(target: map<string, RunData>, todo: set<string>, runs: map<string, RunData>, integrity: map<string, Chain>, r: string)
    requires Rebuilt(target, todo, runs, integrity) && r in todo && r in target
    ensures Rebuilt(target, todo - {r}, runs[r := target[r]], if target[r].events == [] then integrity else integrity[r := Head(target[r].events)])
  {
    hide Head;
  }

  lemma AllRebuilt(target: map<string, RunData>, runs: map<string, RunData>, integrity: map<string, Chain>)
    requires Rebuilt(target, {}, runs, integrity)
    ensures runs == target
    ensures forall r :: r in integrity <==> r in target && target[r].events != []
    ensures forall r :: r in integrity ==> integrity[r] == Head(target[r].events)
  {
    hide Head;
  }

  method RedactRuns(cfg: EvidenceConfig, runs0: map<string, RunData>, tenant: string, run: string, prefix: string)
    returns (runs: map<string, RunData>)
    ensures runs == RedactedRuns(cfg, runs0, tenant, run, prefix)
  {
    hide Redacted;
    runs := runs0;
    var todo := runs.Keys;
    while todo != {}
      invariant runs.Keys == runs0.Keys && todo <= runs.Keys
      invariant forall r :: r in runs ==> runs[r] == if r in todo then runs0[r] else RedactedRuns(cfg, runs0, tenant, run, prefix)[r]
    {
      var r :| r in todo;
      todo := todo - {r};
      if run == "" || r == run {
        var es := RedactedList(cfg, runs[r].events, tenant, prefix);
        runs := runs[r := runs[r].(events := es)];
      }
    }
  }

  /** Warm archives give up what is past warm to the cold ones. */
  method RotateWarm(cfg: EvidenceConfig, warm0: map<string, seq<Event>>, cold0: map<string, seq<Event>>, now: int)
    returns (warm: map<string, seq<Event>>, cold: map<string, seq<Event>>)
    requires Layered(cfg)
    ensures forall r :: At(warm, r) == Keep(At(warm0, r), now, cfg.warmRetention)
    ensures forall r :: At(cold, r) == At(cold0, r) + Pick(At(warm0, r), now, cfg.warmRetention, cfg.coldRetention)
    ensures NoEmpty(warm)
  {
    hide Keep, Pick, Rotated, NoEmpty;
    warm, cold := map[], cold0;
    var todo := warm0.Keys;
    NothingRotated(cfg, warm0, cold0, now);
    assert NoEmpty(warm) by { NoneIsNoEmpty(); }
    while todo != {}
      invariant todo <= warm0.Keys && NoEmpty(warm)
      invariant Rotated(cfg, warm0, cold0, now, todo, warm, cold)
    {
      var r :| r in todo;
      var kept, gone := WarmLists(cfg, warm0[r], now);
      RotateOne(cfg, warm0, cold0, now, todo, warm, cold, r);
      cold := Added(cold, r, gone);
      warm := Added(warm, r, kept);
      todo := todo - {r};
    }
    AllRotated(cfg, warm0, cold0, now, warm, cold);
  }

  /** Both archives when all runs but those to do have been rotated. */
  ghost predicate Rotated(cfg: EvidenceConfig, warm0: map<string, seq<Event>>, cold0: map<string, seq<Event>>, now: int, todo: set<string>,
                          warm: map<string, seq<Event>>, cold: map<string, seq<Event>>)
  {
    && (forall r :: At(warm, r) == if r in todo then [] else Keep(At(warm0, r), now, cfg.warmRetention))
    && (forall r :: At(cold, r) == Joined(At(cold0, r), r in todo, Pick(At(warm0, r), now, cfg.warmRetention, cfg.coldRetention)))
  }

  lemma NoneIsNoEmpty()
    ensures NoEmpty(map[])
  {
  }

  lemma NothingRotated(cfg: EvidenceConfig, warm0: map<string, seq<Event>>, cold0: map<string, seq<Event>>, now: int)
    ensures Rotated(cfg, warm0, cold0, now, warm0.Keys, map[], cold0)
  {
    NothingLeft(now, cfg.warmRetention, cfg.coldRetention);
    hide Keep, Pick;
    forall r ensures At(cold0, r) == Joined(At(cold0, r), r in warm0, Pick(At(warm0, r), now, cfg.warmRetention, cfg.coldRetention)) { }
  }

  lemma RotateOne(cfg: EvidenceConfig, warm0: map<string, seq<Event>>, cold0: map<string, seq<Event>>, now: int, todo: set<string>,
                  warm: map<string, seq<Event>>, cold: map<string, seq<Event>>, r: string)
    requires Rotated(cfg, warm0, cold0, now, todo, warm, cold) && r in todo && r in warm0
    ensures Rotated(cfg, warm0, cold0, now, todo - {r}, Added(warm, r, Keep(warm0[r], now, cfg.warmRetention)),
                    Added(cold, r, Pick(warm0[r], now, cfg.warmRetention, cfg.coldRetention)))
  {
    hide Keep, Pick;
    var kept, gone := Keep(warm0[r], now, cfg.warmRetention), Pick(warm0[r], now, cfg.warmRetention, cfg.coldRetention);
    assert At(warm, r) == [] && [] + kept == kept;
    assert At(cold, r) == At(cold0, r);
    hide Added;
    forall x ensures At(Added(cold, r, gone), x) == Joined(At(cold0, x), x in todo - {r}, Pick(At(warm0, x), now, cfg.warmRetention, cfg.coldRetention)) {
      if x != r { assert (x in todo - {r}) == (x in todo); }
    }
  }

  lemma AllRotated(cfg: EvidenceConfig, warm0: map<string, seq<Event>>, cold0: map<string, seq<Event>>, now: int,
                   warm: map<string, seq<Event>>, cold: map<string, seq<Event>>)
    requires Rotated(cfg, warm0, cold0, now, {}, warm, cold)
    ensures forall r :: At(warm, r) == Keep(At(warm0, r), now, cfg.warmRetention)
    ensures forall r :: At(cold, r) == At(cold0, r) + Pick(At(warm0, r), now, cfg.warmRetention, cfg.coldRetention)
  {
    hide Keep, Pick;
  }

  /** Cold archives give up what is past cold. */
  method RotateCold(cfg: EvidenceConfig, cold0: map<string, seq<Event>>, now: int) returns (cold: map<string, seq<Event>>)
    ensures forall r :: At(cold, r) == Keep(At(cold0, r), now, cfg.coldRetention)
    ensures NoEmpty(cold)
  {
    NothingLeft(now, cfg.coldRetention, cfg.coldRetention);
    hide Keep;
    cold := map[];
    var todo := cold0.Keys;
    while todo != {}
      invariant todo <= cold0.Keys && NoEmpty(cold)
      invariant forall r :: At(cold, r) == if r in todo then [] else Keep(At(cold0, r), now, cfg.coldRetention)
    {
      var r :| r in todo;
      todo := todo - {r};
      var kept := ColdList(cold0[r], now, cfg.coldRetention);
      cold := Added(cold, r, kept);
    }
  }

  /** Hot events past their time move to the archives; a run left without any goes. */
  method ArchiveRuns(cfg: EvidenceConfig, runs0: map<string, RunData>, warm0: map<string, seq<Event>>, cold0: map<string, seq<Event>>,
                     ghost ev: Evidence, now: int)
    returns (runs: map<string, RunData>, warm: map<string, seq<Event>>, cold: map<string, seq<Event>>)
    requires Layered(cfg) && ev.runs == runs0 && NoEmpty(warm0) && NoEmpty(cold0)
    ensures forall r :: At(warm, r) == At(warm0, r) + Pick(HotOf(ev, r), now, cfg.eventRetention, cfg.warmRetention)
    ensures forall r :: At(cold, r) == At(cold0, r) + Pick(HotOf(ev, r), now, cfg.warmRetention, cfg.coldRetention)
    ensures NoEmpty(warm) && NoEmpty(cold) && runs == Archived(cfg, ev, now).runs
  {
    hide Keep, Pick, Moved, KeptRuns, NoEmpty;
    runs, warm, cold := map[], warm0, cold0;
    var todo := runs0.Keys;
    NothingMoved(warm0, ev, now, cfg.eventRetention, cfg.warmRetention);
    NothingMoved(cold0, ev, now, cfg.warmRetention, cfg.coldRetention);
    NoneKept(cfg, ev, now);
    while todo != {}
      invariant todo <= runs0.Keys && NoEmpty(warm) && NoEmpty(cold)
      invariant KeptRuns(cfg, ev, now, todo, runs)
      invariant Moved(warm, warm0, ev, now, cfg.eventRetention, cfg.warmRetention, todo)
      invariant Moved(cold, cold0, ev, now, cfg.warmRetention, cfg.coldRetention, todo)
    {
      var r :| r in todo;
      var kept, toWarm, toCold := HotLists(cfg, runs0[r].events, now);
      MoveOne(warm, warm0, ev, now, cfg.eventRetention, cfg.warmRetention, todo, r);
      MoveOne(cold, cold0, ev, now, cfg.warmRetention, cfg.coldRetention, todo, r);
      KeepOne(cfg, ev, now, todo, runs, r);
      warm := Added(warm, r, toWarm);
      cold := Added(cold, r, toCold);
      if kept != [] { runs := runs[r := runs0[r].(events := kept)]; }
      todo := todo - {r};
    }
    AllMoved(warm, warm0, ev, now, cfg.eventRetention, cfg.warmRetention);
    AllMoved(cold, cold0, ev, now, cfg.warmRetention, cfg.coldRetention);
    SameArchived(cfg, ev, now, runs);
  }

  /** An archive when the hot events of that age have been added to it, for all runs but those to do. */
  ghost predicate Moved(m: map<string, seq<Event>>, m0: map<string, seq<Event>>, ev: Evidence, now: int, min: int, max: int, todo: set<string>) {
    forall r :: At(m, r) == Joined(At(m0, r), r in todo, Pick(HotOf(ev, r), now, min, max))
  }

  lemma NothingMoved(m: map<string, seq<Event>>, ev: Evidence, now: int, min: int, max: int)
    ensures Moved(m, m, ev, now, min, max, ev.runs.Keys)
  {
    NothingLeft(now, min, max);
    hide Pick;
    forall r ensures At(m, r) == Joined(At(m, r), r in ev.runs, Pick(HotOf(ev, r), now, min, max)) { }
  }

  lemma MoveOne(m: map<string, seq<Event>>, m0: map<string, seq<Event>>, ev: Evidence, now: int, min: int, max: int, todo: set<string>, r: string)
    requires Moved(m, m0, ev, now, min, max, todo) && r in todo
    ensures Moved(Added(m, r, Pick(HotOf(ev, r), now, min, max)), m0, ev, now, min, max, todo - {r})
  {
    hide Pick;
  }

  lemma AllMoved(m: map<string, seq<Event>>, m0: map<string, seq<Event>>, ev: Evidence, now: int, min: int, max: int)
    requires Moved(m, m0, ev, now, min, max, {})
    ensures forall r :: At(m, r) == At(m0, r) + Pick(HotOf(ev, r), now, min, max)
  {
    hide Pick;
  }

  /** The runs with their hot events still young, all of them but those to do; a run without any is left out. */
  ghost predicate KeptRuns(cfg: EvidenceConfig, ev: Evidence, now: int, todo: set<string>, runs: map<string, RunData>) {
    && (forall r :: r in runs <==> r in ev.runs && r !in todo && Keep(HotOf(ev, r), now, cfg.eventRetention) != [])
    && (forall r :: r in runs ==> runs[r] == ev.runs[r].(events := Keep(HotOf(ev, r), now, cfg.eventRetention)))
  }

  lemma NoneKept(cfg: EvidenceConfig, ev: Evidence, now: int)
    ensures KeptRuns(cfg, ev, now, ev.runs.Keys, map[])
  {
    hide Keep;
  }

  lemma KeepOne(cfg: EvidenceConfig, ev: Evidence, now: int, todo: set<string>, runs: map<string, RunData>, r: string)
    requires KeptRuns(cfg, ev, now, todo, runs) && r in todo && r in ev.runs
    ensures var kept := Keep(HotOf(ev, r), now, cfg.eventRetention);
      KeptRuns(cfg, ev, now, todo - {r}, if kept == [] then runs else runs[r := ev.runs[r].(events := kept)])
  {
    hide Keep;
  }

  lemma SameArchived(cfg: EvidenceConfig, ev: Evidence, now: int, runs: map<string, RunData>)
    requires KeptRuns(cfg, ev, now, {}, runs)
    ensures runs == Archived(cfg, ev, now).runs
  {
    hide Keep, WarmAfter, ColdAfter;
  }

  // ----- The kernel -----

  const DAY := 86400

  function OrDefault(n: int, default: int): int {
    if n <= 0 then default else n
  }

  function Max(a: int, b: int): int {
    if a < b then b else a
  }

  ghost predicate HasDefaults(given: EvidenceConfig, c: EvidenceConfig) {
    && c.eventRetention == OrDefault(given.eventRetention, DAY)
    && c.warmRetention == Max(OrDefault(given.warmRetention, 30 * DAY), c.eventRetention)
    && c.coldRetention == Max(OrDefault(given.coldRetention, 180 * DAY), c.warmRetention)
    && c.maxEvents == OrDefault(given.maxEvents, 2000) && c.maxBytes == OrDefault(given.maxBytes, 8 * 1024 * 1024)
    && c.highLoad == (if given.highLoad <= 0.0 then 0.8 else given.highLoad)
    && c.hash == given.hash && c.tombstoneHash == given.tombstoneHash && c.degradedHash == given.degradedHash
    && c.sampledOut == given.sampledOut
  }

  method Configured(given: EvidenceConfig) returns (c: EvidenceConfig)
    ensures HasDefaults(given, c) && Layered(c)
  {
    var events := if given.maxEvents <= 0 then 2000 else given.maxEvents;
    var bytes := if given.maxBytes <= 0 then 8 * 1024 * 1024 else given.maxBytes;
    var hot := if given.eventRetention <= 0 then DAY else given.eventRetention;
    var warm := if given.warmRetention <= 0 then 30 * DAY else given.warmRetention;
    var cold := if given.coldRetention <= 0 then 180 * DAY else given.coldRetention;
    if warm < hot { warm := hot; }
    if cold < warm { cold := warm; }
    c := given.(eventRetention := hot, warmRetention := warm, coldRetention := cold, maxEvents := events, maxBytes := bytes,
                highLoad := if given.highLoad <= 0.0 then 0.8 else given.highLoad);
  }

  /** An ingest that is no duplicate, told from the record its run then has. */
  lemma OpenedIngest(cfg: EvidenceConfig, ev: Evidence, e: Event, p: Pressure)
    requires e.id !in ev.byId
    ensures var ready := ev.(runs := ev.runs[e.runId := DataAt(ev.runs, e.runId)]);
      Ingest(cfg, ev, e, p) ==
        match Decide(cfg, DataAt(ev.runs, e.runId).stats, e, p)
        case Drop => ready
        case Degrade => Append(cfg, ready, Degraded(cfg, e))
        case Accept => Append(cfg, ready, e)
  {
    hide Decide, Tally, Stamp;
  }

  class Kernel {
    const cfg: EvidenceConfig
    var runs: map<string, RunData>
    var eventsByID: map<string, Event>
    var integrityByRun: map<string, Chain>
    var warmArchiveByRun: map<string, seq<Event>>
    var coldArchiveByRun: map<string, seq<Event>>

    /** The maps as one value. */
    ghost function Now(): Evidence
      reads this
    {
      Evidence(runs, eventsByID, integrityByRun, warmArchiveByRun, coldArchiveByRun)
    }

    /**
     * Settings that are not positive get defaults: retention of 1, 30 and 180 days, 2000 events and 8 MiB for a run, and a
     * high load of 0.8. Each retention time is then raised to the one before.
     */
    constructor (given: EvidenceConfig)
      ensures Now() == NO_EVIDENCE && Layered(cfg) && HasDefaults(given, cfg)
    {
      var c := Configured(given);
      cfg := c;
      runs, eventsByID, integrityByRun, warmArchiveByRun, coldArchiveByRun := map[], map[], map[], map[], map[];
    }

    method AppendIntegrity(e: Event) returns (x: Event)
      modifies `integrityByRun
      ensures x == Stamp(cfg, ChainAt(old(Now()), e.runId), e)
      ensures integrityByRun == old(integrityByRun)[e.runId := Chain(x.link.hash, x.link.number)]
    {
      var state := if e.runId in integrityByRun then integrityByRun[e.runId] else NO_CHAIN;
      var prev, number := state.last, state.count + 1;
      var cur := cfg.hash(LinkContent(prev, e.id, e.typ, e.canonicalHash, e.payloadHash, e.ts));
      x := e.(link := Link(number, prev, cur));
      integrityByRun := integrityByRun[e.runId := Chain(cur, number)];
    }

    method EffectiveBackpressureLevel(p: Pressure, e: Event) returns (level: int)
      ensures level == EffectiveLevel(p, e)
    {
      level := p.level;
      if e.source in p.bySource && p.bySource[e.source] > level { level := p.bySource[e.source]; }
      if e.tenant in p.byTenant && p.byTenant[e.tenant] > level { level := p.byTenant[e.tenant]; }
    }

    method DecideIngestAction(e: Event, p: Pressure) returns (action: Action)
      requires e.runId in runs
      ensures action == Decide(cfg, runs[e.runId].stats, e, p)
    {
      var stats, over := runs[e.runId].stats, false;
      if cfg.maxEvents > 0 && stats.count + 1 > cfg.maxEvents { over := true; }
      if cfg.maxBytes > 0 && stats.bytes + e.bytes > cfg.maxBytes { over := true; }
      if over {
        return if Droppable(e.tier) then Drop else Degrade;
      }
      var level := EffectiveBackpressureLevel(p, e);
      if level == 1 {
        if Droppable(e.tier) && !e.highRisk { return Drop; }
      } else if level == 2 || level == 3 {
        if e.tier != Tier0 && !e.highRisk { return Drop; }
      }
      if p.load >= cfg.highLoad && !e.highRisk {
        if e.tier == Tier2 && cfg.sampledOut(e.id, Tier2) { return Drop; }
        if e.tier == Tier3 && cfg.sampledOut(e.id, Tier3) { return Drop; }
      }
      return Accept;
    }

    /** `answer` is what became of the event, if it is not a duplicate. */
    method IngestEvent(e: Event, p: Pressure) returns (answer: Option<Action>)
      modifies `runs, `eventsByID, `integrityByRun
      ensures Now() == Ingest(cfg, old(Now()), e, p)
      ensures answer == if e.id in old(eventsByID) then None else Some(Decide(cfg, DataAt(old(runs), e.runId).stats, e, p))
    {
      ghost var ev := Now();
      if e.id in eventsByID {
        DuplicateIgnored(cfg, ev, e, p);
        return None;
      }
      EnsureRunData(e.runId);
      var action := DecideIngestAction(e, p);
      OpenedIngest(cfg, ev, e, p);
      hide Ingest, Decide, Append;
      if action == Drop { return Some(Drop); }
      var x := e;
      if action == Degrade {
        x := x.(degraded := true, payload := Payload("", []));
        x := x.(payloadHash := cfg.degradedHash);
      }
      LogEvent(x);
      return Some(action);
    }

    method EnsureRunData(r: string)
      modifies `runs
      ensures runs == old(runs)[r := DataAt(old(runs), r)]
    {
      if r !in runs { runs := runs[r := RunData([], NO_STATS)]; }
    }

    method LogEvent(e: Event)
      requires e.runId in runs
      modifies `runs, `eventsByID, `integrityByRun
      ensures Now() == Append(cfg, old(Now()), e)
    {
      hide Tally;
      var x := AppendIntegrity(e);
      eventsByID := eventsByID[x.id := x];
      var rd := runs[e.runId];
      runs := runs[e.runId := RunData(rd.events + [x], Tally(rd.stats, x))];
    }

    method RebuildDerivedIndexes()
      requires Sound(runs)
      modifies `runs, `eventsByID, `integrityByRun
      ensures Now() == Rebuild(cfg, old(Now()))
    {
      hide Rebuild;
      ghost var ev := Now();
      runs, eventsByID, integrityByRun := RebuildMaps(cfg, runs, ev);
      RebuildRest(cfg, ev);
    }

    /** `None` for a run that is not there, else whether its log passes. */
    method VerifyIntegrity(runId: string) returns (verified: Option<bool>)
      ensures verified == if runId in runs then Some(Verifies(cfg, runs[runId].events)) else None
    {
      if runId !in runs { return None; }
      var a := Copied(runs[runId].events);
      SortInPlace(a);
      var prev := "";
      for i := 0 to a.Length
        invariant prev == HashBefore(a[..], i)
        invariant forall n: nat | n < i :: LinkOk(cfg, a[..], n)
      {
        var e := a[i];
        var wanted := cfg.hash(LinkContent(prev, e.id, e.typ, e.canonicalHash, e.payloadHash, e.ts));
        if e.link.hash != wanted || e.link.prev != prev {
          assert !LinkOk(cfg, a[..], i);
          return Some(false);
        }
        prev := e.link.hash;
      }
      return Some(true);
    }

    method DeleteEventsByDSAR(tenant: string, run: string, prefix: string) returns (ok: bool)
      requires EvOk(cfg, Now())
      modifies `runs, `eventsByID, `integrityByRun
      ensures Now() == DeleteByDSAR(cfg, old(Now()), tenant, run, prefix) && ok == (tenant != "")
    {
      if tenant == "" { return false; }
      OkIsSound(cfg, Now());
      RedactedSound(cfg, runs, tenant, run, prefix);
      hide Redacted, Sound, Rebuild, EvOk;
      runs := RedactRuns(cfg, runs, tenant, run, prefix);
      RebuildDerivedIndexes();
      return true;
    }

    method RotateArchives(now: int)
      requires Layered(cfg)
      modifies `warmArchiveByRun, `coldArchiveByRun
      ensures forall r :: At(warmArchiveByRun, r) == Keep(WarmOf(old(Now()), r), now, cfg.warmRetention)
      ensures forall r :: At(coldArchiveByRun, r) == RotatedCold(cfg, old(Now()), r, now)
      ensures NoEmpty(warmArchiveByRun) && NoEmpty(coldArchiveByRun)
    {
      hide Keep, Pick;
      warmArchiveByRun, coldArchiveByRun := RotateWarm(cfg, warmArchiveByRun, coldArchiveByRun, now);
      coldArchiveByRun := RotateCold(cfg, coldArchiveByRun, now);
    }

    method SweepRetentions(now: int)
      requires EvOk(cfg, Now()) && Layered(cfg)
      modifies this
      ensures Now() == SweepRetention(cfg, old(Now()), now)
    {
      ghost var ev := Now();
      OkIsSound(cfg, ev);
      ArchivedLists(cfg, ev, now);
      assert Sound(Archived(cfg, ev, now).runs) by { ArchivedSound(cfg, ev, now); }
      hide EvOk, Sound, Archived, Rebuild, Keep, Pick;
      RotateArchives(now);
      ghost var mid := Now();
      runs, warmArchiveByRun, coldArchiveByRun := ArchiveRuns(cfg, runs, warmArchiveByRun, coldArchiveByRun, mid, now);
      assert runs == Archived(cfg, ev, now).runs by { SameArchivedRuns(cfg, ev, mid, now); }
      assert warmArchiveByRun == Archived(cfg, ev, now).warm by {
        forall r ensures At(warmArchiveByRun, r) == At(Archived(cfg, ev, now).warm, r) { }
        SameLists(warmArchiveByRun, Archived(cfg, ev, now).warm);
      }
      assert coldArchiveByRun == Archived(cfg, ev, now).cold by {
        forall r ensures At(coldArchiveByRun, r) == At(Archived(cfg, ev, now).cold, r) { }
        SameLists(coldArchiveByRun, Archived(cfg, ev, now).cold);
      }
      assert Now() == Archived(cfg, ev, now) by { OtherFields(cfg, ev, now); }
      RebuildDerivedIndexes();
    }
  }

  method ExtendIndex(ghost runs: map<string, RunData>, ghost todo: set<string>, r: string, es: seq<Event>, byId0: map<string, Event>)
    returns (byId: map<string, Event>)
    requires Sound(runs) && Covers(runs, runs.Keys - todo, byId0) && r in runs && r in todo && runs[r].events == es
    ensures Covers(runs, runs.Keys - (todo - {r}), byId)
  {
    DistinctTarget(runs, r);
    hide Covers, Sound;
    byId := IndexRun(es, byId0);
    CoversMore(runs, runs.Keys - todo, byId0, r, byId);
    assert runs.Keys - todo + {r} == runs.Keys - (todo - {r});
  }

  lemma RebuildAt(cfg: EvidenceConfig, ev: Evidence, r: string)
    requires r in ev.runs
    ensures r in Rebuild(cfg, ev).runs && Rebuild(cfg, ev).runs[r] == Refreshed(cfg, ev.runs[r].events)
  {
    hide Refreshed, ById, Head;
  }

  lemma RebuildHeads(cfg: EvidenceConfig, ev: Evidence, integrity: map<string, Chain>)
    requires forall r :: r in integrity <==> r in Rebuild(cfg, ev).runs && Rebuild(cfg, ev).runs[r].events != []
    requires forall r :: r in integrity ==> integrity[r] == Head(Rebuild(cfg, ev).runs[r].events)
    ensures integrity == Rebuild(cfg, ev).integrity
  {
    hide Refreshed, ById, Head;
  }

  lemma RebuildRest(cfg: EvidenceConfig, ev: Evidence)
    ensures Rebuild(cfg, ev).warm == ev.warm && Rebuild(cfg, ev).cold == ev.cold
  {
    RebuildArchives(cfg, ev);
  }

  lemma CoversNone(runs: map<string, RunData>, byId: map<string, Event>)
    requires byId == map[]
    ensures Covers(runs, {}, byId)
  {
  }

  lemma DistinctTarget(runs: map<string, RunData>, r: string)
    requires Sound(runs) && r in runs
    ensures Distinct(runs[r].events)
  {
  }

  lemma NothingLeft(now: int, min: int, max: int)
    ensures Keep([], now, min) == [] && Pick([], now, min, max) == []
  {
  }

  lemma ArchivedSound(cfg: EvidenceConfig, ev: Evidence, now: int)
    requires Sound(ev.runs)
    ensures Sound(Archived(cfg, ev, now).runs)
  {
    hide RunsApart, Keep, WarmAfter, ColdAfter;
    var a := Archived(cfg, ev, now);
    forall r | r in a.runs ensures PartOf(a.runs[r].events, ev.runs[r].events) {
      KeepPart(ev.runs[r].events, now, cfg.eventRetention);
      hide PartOf;
    }
    assert a.runs.Keys <= ev.runs.Keys;
    hide PartOf, Distinct, Sound, Archived;
    PartSound(ev.runs, a.runs);
  }

  lemma SameArchivedRuns(cfg: EvidenceConfig, ev: Evidence, mid: Evidence, now: int)
    requires mid.runs == ev.runs
    ensures Archived(cfg, mid, now).runs == Archived(cfg, ev, now).runs
  {
    hide Keep, WarmAfter, ColdAfter;
  }

  lemma OtherFields(cfg: EvidenceConfig, ev: Evidence, now: int)
    ensures Archived(cfg, ev, now).byId == ev.byId && Archived(cfg, ev, now).integrity == ev.integrity
  {
    hide Keep, WarmAfter, ColdAfter;
  }
}
