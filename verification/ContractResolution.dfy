/** Which contract a request is held to, what is reported about it, and what a pinned hash guarantees. */
module ContractResolution {
  import opened Outcomes
  import opened ContractSpec
  import opened ContractInvariants
  import opened ContractReplication

  const WILD := Scope("*", "*", "*")

  const DEFAULT_CONTRACT := Contract(["feature_version", "feature_evidence_ref", "feature_producer_id"], "", [], 0, 0.0)

  datatype Binding = Binding(
    key: Option<StorageKey>, version: int, hash: string, schema: string, path: seq<StorageKey>, contract: Contract)

  function OrWild(s: string): string {
    if s == "" then "*" else s
  }

  function NormalScope(s: Scope): Scope {
    Scope(OrWild(s.org), OrWild(s.workspace), OrWild(s.project))
  }

  /** From the request's own scope to the global one. */
  function ScopeCandidates(s: Scope): seq<Scope> {
    var n := NormalScope(s);
    [n, Scope(n.org, n.workspace, "*"), Scope(n.org, "*", "*"), WILD]
  }

  /** The list without the items met before. */
  function Dedup(s: seq<Scope>): seq<Scope> {
    if s == [] then [] else
      var rest := Dedup(s[..|s| - 1]);
      if s[|s| - 1] in s[..|s| - 1] then rest else rest + [s[|s| - 1]]
  }

  function ScopeOrder(s: Scope): seq<Scope> {
    Dedup(ScopeCandidates(s))
  }

  /** Within a scope: risk and phase, risk alone, phase alone, neither. */
  function KeysIn(s: Scope, risk: string, phase: string): (r: seq<StorageKey>)
    ensures |r| == 4
  {
    var (k, p) := (OrWild(risk), OrWild(phase));
    [StorageKey(s, k, p), StorageKey(s, k, "*"), StorageKey(s, "*", p), StorageKey(s, "*", "*")]
  }

  function KeysOver(scopes: seq<Scope>, risk: string, phase: string): seq<StorageKey> {
    if scopes == [] then [] else KeysOver(scopes[..|scopes| - 1], risk, phase) + KeysIn(scopes[|scopes| - 1], risk, phase)
  }

  /** All keys tried, in order. */
  function Candidates(s: Scope, risk: string, phase: string): seq<StorageKey> {
    KeysOver(ScopeOrder(s), risk, phase)
  }

  predicate Enforceable(m: Contracts, key: StorageKey) {
    key in m.active && m.active[key].required != []
  }

  /** The latest entry that is active. */
  function LatestActive(h: seq<Version>): Option<Version> {
    if h == [] then None
    else if h[|h| - 1].status == ActiveVersion then Some(h[|h| - 1])
    else LatestActive(h[..|h| - 1])
  }

  function BindingFor(cfg: ContractConfig, m: Contracts, key: StorageKey, path: seq<StorageKey>): Binding
    requires key in m.active
  {
    var contract, entry := m.active[key], LatestActive(History(m, key));
    if entry.None? || entry.value.version <= 0 then Binding(Some(key), 1, cfg.hash(contract), contract.schema, path, contract)
    else Binding(Some(key), entry.value.version,
                 if entry.value.hash != "" then entry.value.hash else cfg.hash(contract),
                 if entry.value.contract.schema != "" then entry.value.contract.schema else contract.schema, path, contract)
  }

  /** Each scope is tried once, in the order of its first mention. */
  lemma {:induction false} DedupKeeps(s: seq<Scope>)
    ensures forall x :: x in Dedup(s) <==> x in s
    ensures forall i, j :: 0 <= i < j < |Dedup(s)| ==> Dedup(s)[i] != Dedup(s)[j]
    ensures s != [] ==> Dedup(s) != [] && Dedup(s)[0] == s[0]
  {
    if s != [] {
      var init := s[..|s| - 1];
      DedupKeeps(init);
      assert s == init + [s[|s| - 1]];
    }
  }

  // ----- The search -----

  method LatestActiveVersion(h: seq<Version>) returns (entry: Option<Version>)
    ensures entry == LatestActive(h)
  {
    var i := |h|;
    assert h[..|h|] == h;
    while i > 0
      invariant 0 <= i <= |h| && LatestActive(h) == LatestActive(h[..i])
    {
      i := i - 1;
      assert h[..i + 1][..i] == h[..i];
      if h[i].status == ActiveVersion { return Some(h[i]); }
    }
    return None;
  }

  method ScopesInOrder(s: Scope) returns (out: seq<Scope>)
    ensures out == ScopeOrder(s) && |out| > 0
    ensures out[0] == NormalScope(s) && (forall x :: x in out <==> x in ScopeCandidates(s))
    ensures forall i, j :: 0 <= i < j < |out| ==> out[i] != out[j]
  {
    var candidates := ScopeCandidates(s);
    var seen: set<Scope> := {};
    out := [];
    for i := 0 to |candidates|
      invariant out == Dedup(candidates[..i])
      invariant forall x :: x in seen <==> x in candidates[..i]
    {
      assert candidates[..i + 1][..i] == candidates[..i];
      assert candidates[..i + 1] == candidates[..i] + [candidates[i]];
      if candidates[i] !in seen {
        seen := seen + {candidates[i]};
        out := out + [candidates[i]];
      }
    }
    assert candidates[..|candidates|] == candidates;
    DedupKeeps(candidates);
  }

  lemma KeysOverAt(scopes: seq<Scope>, risk: string, phase: string, i: nat)
    requires i < |scopes|
    ensures KeysOver(scopes[..i + 1], risk, phase) == KeysOver(scopes[..i], risk, phase) + KeysIn(scopes[i], risk, phase)
  {
    assert scopes[..i + 1][..i] == scopes[..i];
  }

  lemma {:induction false} KeysOverPrefix(scopes: seq<Scope>, risk: string, phase: string, i: nat)
    requires i <= |scopes|
    ensures KeysOver(scopes[..i], risk, phase) <= KeysOver(scopes, risk, phase)
  {
    hide KeysIn;
    if i < |scopes| {
      var init := scopes[..|scopes| - 1];
      KeysOverPrefix(init, risk, phase, i);
      assert init[..i] == scopes[..i];
    } else {
      assert scopes[..i] == scopes;
    }
  }

  /**
   * The binding is that of the first candidate with a contract to enforce, and its path is exactly the keys tried up to
   * it; without one, every candidate was tried and the default contract is enforced under no hash.
   */
  ghost predicate Resolves(cfg: ContractConfig, m: Contracts, s: Scope, risk: string, phase: string, b: Binding) {
    var all := Candidates(s, risk, phase);
    if b.key.Some? then
      && b.path != [] && b.path <= all && b.key == Some(b.path[|b.path| - 1])
      && Enforceable(m, b.key.value)
      && (forall n :: 0 <= n < |b.path| - 1 ==> !Enforceable(m, b.path[n]))
      && b == BindingFor(cfg, m, b.key.value, b.path)
    else
      b == Binding(None, 0, "", "", all, DEFAULT_CONTRACT) && forall n :: 0 <= n < |all| ==> !Enforceable(m, all[n])
  }

  method ResolveFeatureSignalContract(cfg: ContractConfig, m: Contracts, s: Scope, risk: string, phase: string) returns (b: Binding)
    ensures Resolves(cfg, m, s, risk, phase, b)
  {
    hide KeysIn, KeysOver, BindingFor;
    var scopes := ScopesInOrder(s);
    var path: seq<StorageKey> := [];
    assert KeysOver([], risk, phase) == [] by { NoKeys(risk, phase); }
    assert scopes[..0] == [];
    for i := 0 to |scopes|
      invariant path == KeysOver(scopes[..i], risk, phase)
      invariant forall n :: 0 <= n < |path| ==> !Enforceable(m, path[n])
    {
      var keys := KeysIn(scopes[i], risk, phase);
      ghost var before := path;
      KeysOverAt(scopes, risk, phase, i);
      KeysOverPrefix(scopes, risk, phase, i + 1);
      for j := 0 to |keys|
        invariant path == before + keys[..j]
        invariant forall n :: 0 <= n < |path| ==> !Enforceable(m, path[n])
      {
        var key := keys[j];
        path := path + [key];
        assert keys[..j + 1] == keys[..j] + [key];
        if key in m.active && m.active[key].required != [] {
          assert path <= before + keys;
          var found := Bind(cfg, m, key, path);
          assert BindsTo(found, key, path) by { BindingNames(cfg, m, key, path); }
          return found;
        }
      }
      assert keys[..|keys|] == keys;
    }
    assert scopes[..|scopes|] == scopes;
    return Binding(None, 0, "", "", path, DEFAULT_CONTRACT);
  }

  predicate BindsTo(b: Binding, key: StorageKey, path: seq<StorageKey>) {
    b.key == Some(key) && b.path == path
  }

  lemma BindingNames(cfg: ContractConfig, m: Contracts, key: StorageKey, path: seq<StorageKey>)
    requires key in m.active
    ensures BindsTo(BindingFor(cfg, m, key, path), key, path)
  {
  }

  lemma NoKeys(risk: string, phase: string)
    ensures KeysOver([], risk, phase) == []
  {
  }

  method Bind(cfg: ContractConfig, m: Contracts, key: StorageKey, path: seq<StorageKey>) returns (b: Binding)
    requires key in m.active
    ensures b == BindingFor(cfg, m, key, path)
  {
    var contract := m.active[key];
    var version, hash, schema := 1, cfg.hash(contract), contract.schema;
    var entry := LatestActiveVersion(History(m, key));
    if entry.Some? && entry.value.version > 0 {
      version := entry.value.version;
      if entry.value.hash != "" { hash := entry.value.hash; }
      if entry.value.contract.schema != "" { schema := entry.value.contract.schema; }
    }
    return Binding(Some(key), version, hash, schema, path, contract);
  }

  // ----- The most specific contract -----

  /** Each part of the wider scope is that of the other or stands for any, and they are not the same. */
  predicate Wider(wide: Scope, narrow: Scope) {
    && wide != narrow
    && wide.org in {"*", narrow.org} && wide.workspace in {"*", narrow.workspace} && wide.project in {"*", narrow.project}
  }

  /** The scopes a request is in: its own, its workspace's, its organisation's and the global one; a blank part stands for any. */
  predicate InScope(s: Scope, x: Scope) {
    var (org, workspace, project) := (OrWild(s.org), OrWild(s.workspace), OrWild(s.project));
    x in {Scope(org, workspace, project), Scope(org, workspace, "*"), Scope(org, "*", "*"), Scope("*", "*", "*")}
  }

  /** The key is for the request: a scope it is in, its risk or any, its phase or any. */
  predicate Matches(s: Scope, risk: string, phase: string, key: StorageKey) {
    InScope(s, key.scope) && key.risk in {OrWild(risk), "*"} && key.phase in {OrWild(phase), "*"}
  }

  /** The one key goes before the other: its scope is narrower; or it is the same, and it names the risk; or both do that alike, and it names the phase. */
  predicate Beats(key: StorageKey, other: StorageKey) {
    || Wider(other.scope, key.scope)
    || (key.scope == other.scope && key.risk != "*" && other.risk == "*")
    || (key.scope == other.scope && key.risk == other.risk && key.phase != "*" && other.phase == "*")
  }

  lemma {:induction false} DedupOrder(s: seq<Scope>, i: nat, j: nat) returns (a: nat, b: nat)
    requires i < j < |Dedup(s)|
    ensures a < b < |s| && s[a] == Dedup(s)[i] && s[b] == Dedup(s)[j]
  {
    var init := s[..|s| - 1];
    assert s == init + [s[|s| - 1]];
    if j < |Dedup(init)| {
      a, b := DedupOrder(init, i, j);
    } else {
      DedupKeeps(init);
      assert Dedup(init)[i] in init;
      a :| 0 <= a < |init| && init[a] == Dedup(init)[i];
      b := |init|;
    }
  }

  lemma ScopesWiden(s: Scope, i: nat, j: nat)
    requires i < j < |ScopeOrder(s)|
    ensures Wider(ScopeOrder(s)[j], ScopeOrder(s)[i])
  {
    var c := ScopeCandidates(s);
    hide Dedup;
    DedupKeeps(c);
    var a, b := DedupOrder(c, i, j);
    assert c[a] != c[b];
  }

  lemma ScopesAre(s: Scope, x: Scope)
    ensures x in ScopeOrder(s) <==> InScope(s, x)
  {
    hide Dedup;
    DedupKeeps(ScopeCandidates(s));
  }

  lemma {:induction false} KeysAt(scopes: seq<Scope>, risk: string, phase: string, n: nat)
    requires n < 4 * |scopes|
    ensures |KeysOver(scopes, risk, phase)| == 4 * |scopes|
    ensures KeysOver(scopes, risk, phase)[n] == KeysIn(scopes[n / 4], risk, phase)[n % 4]
  {
    hide KeysIn;
    var init := scopes[..|scopes| - 1];
    KeysSize(init, risk, phase);
    if n < 4 * |init| { KeysAt(init, risk, phase, n); }
  }

  lemma {:induction false} KeysSize(scopes: seq<Scope>, risk: string, phase: string)
    ensures |KeysOver(scopes, risk, phase)| == 4 * |scopes|
  {
    hide KeysIn;
    if scopes != [] { KeysSize(scopes[..|scopes| - 1], risk, phase); }
  }

  /** Where the request names no risk the first key comes twice; otherwise each key goes before those after it. */
  lemma KeysInOrder(x: Scope, risk: string, phase: string, i: nat, j: nat)
    requires i < j < 4
    ensures var keys := KeysIn(x, risk, phase); keys[i] == keys[j] || Beats(keys[i], keys[j]) || (i > 0 && keys[j] == keys[0])
  {
  }

  lemma CandidatesInOrder(s: Scope, risk: string, phase: string, i: nat, j: nat)
    requires i < j < |Candidates(s, risk, phase)|
    ensures var all := Candidates(s, risk, phase);
      all[i] == all[j] || Beats(all[i], all[j]) || exists n :: 0 <= n < i && all[n] == all[j]
  {
    var scopes := ScopeOrder(s);
    KeysSize(scopes, risk, phase);
    KeysAt(scopes, risk, phase, i);
    KeysAt(scopes, risk, phase, j);
    KeysAreIn(scopes[i / 4], risk, phase, i % 4);
    KeysAreIn(scopes[j / 4], risk, phase, j % 4);
    if i / 4 == j / 4 {
      KeysInOrder(scopes[i / 4], risk, phase, i % 4, j % 4);
      KeysAt(scopes, risk, phase, i / 4 * 4);
    } else {
      ScopesWiden(s, i / 4, j / 4);
    }
    hide KeysOver, KeysIn, ScopeOrder, Wider;
  }

  lemma KeysAreIn(x: Scope, risk: string, phase: string, n: nat)
    requires n < 4
    ensures KeysIn(x, risk, phase)[n].scope == x
  {
  }

  lemma CandidatesMatch(s: Scope, risk: string, phase: string, key: StorageKey)
    ensures key in Candidates(s, risk, phase) <==> Matches(s, risk, phase, key)
  {
    var scopes, all := ScopeOrder(s), Candidates(s, risk, phase);
    KeysSize(scopes, risk, phase);
    ScopesAre(s, key.scope);
    if key in all {
      var n :| 0 <= n < |all| && all[n] == key;
      KeysAt(scopes, risk, phase, n);
      assert scopes[n / 4] in scopes;
      ScopesAre(s, scopes[n / 4]);
      hide KeysOver, ScopeOrder, InScope;
    }
    if Matches(s, risk, phase, key) { MatchIsCandidate(s, risk, phase, key); }
  }

  lemma MatchIsCandidate(s: Scope, risk: string, phase: string, key: StorageKey)
    requires Matches(s, risk, phase, key)
    ensures key in Candidates(s, risk, phase)
  {
    var scopes, all := ScopeOrder(s), Candidates(s, risk, phase);
    ScopesAre(s, key.scope);
    hide ScopeOrder, InScope, KeysOver;
    var b := KeyPlace(key, risk, phase);
    hide Matches, KeysIn;
    var a :| 0 <= a < |scopes| && scopes[a] == key.scope;
    KeysAt(scopes, risk, phase, 4 * a + b);
    assert all[4 * a + b] == key;
  }

  lemma KeyPlace(key: StorageKey, risk: string, phase: string) returns (b: nat)
    requires key.risk in {OrWild(risk), "*"} && key.phase in {OrWild(phase), "*"}
    ensures b < 4 && KeysIn(key.scope, risk, phase)[b] == key
  {
    b := if key.risk == OrWild(risk) then (if key.phase == OrWild(phase) then 0 else 1) else if key.phase == OrWild(phase) then 2 else 3;
  }

  /**
   * Resolution, without a search: the contract a request is held to is that of a key for the request that goes before every
   * other key for it under which a contract is enforced; without one, it is the default contract under no hash.
   */
  lemma ResolvesMostSpecific(cfg: ContractConfig, m: Contracts, s: Scope, risk: string, phase: string, b: Binding)
    requires Resolves(cfg, m, s, risk, phase, b)
    ensures b.key.Some? ==>
      && Matches(s, risk, phase, b.key.value) && b.key.value in m.active && m.active[b.key.value].required != [] && b.contract == m.active[b.key.value]
      && forall key :: Matches(s, risk, phase, key) && key in m.active && m.active[key].required != [] ==> key == b.key.value || Beats(b.key.value, key)
    ensures b.key.None? ==>
      && b.contract == Contract(["feature_version", "feature_evidence_ref", "feature_producer_id"], "", [], 0, 0.0) && b.hash == "" && b.version == 0
      && forall key :: Matches(s, risk, phase, key) && key in m.active ==> m.active[key].required == []
  {
    var all := Candidates(s, risk, phase);
    hide Candidates, Matches, Beats, LatestActive;
    if b.key.Some? {
      var at := |b.path| - 1;
      assert all[at] == b.key.value;
      assert b.key.value in all;
      CandidatesMatch(s, risk, phase, b.key.value);
      forall key | Matches(s, risk, phase, key) && Enforceable(m, key) ensures key == b.key.value || Beats(b.key.value, key) {
        CandidatesMatch(s, risk, phase, key);
        var n :| 0 <= n < |all| && all[n] == key;
        assert forall x :: 0 <= x < at ==> all[x] == b.path[x] && !Enforceable(m, all[x]);
        if n > at { CandidatesInOrder(s, risk, phase, at, n); }
      }
    } else {
      forall key | Matches(s, risk, phase, key) && key in m.active ensures m.active[key].required == [] {
        CandidatesMatch(s, risk, phase, key);
        var n :| 0 <= n < |all| && all[n] == key;
        assert !Enforceable(m, all[n]);
      }
    }
  }

  // ----- What is reported -----

  lemma {:induction false} LatestActiveIs(h: seq<Version>)
    ensures LatestActive(h).None? <==> forall i :: 0 <= i < |h| ==> h[i].status != ActiveVersion
    ensures LatestActive(h).Some? ==> LatestActive(h).value in h && LatestActive(h).value.status == ActiveVersion
  {
    if h != [] {
      var init := h[..|h| - 1];
      LatestActiveIs(init);
      assert h == init + [h[|h| - 1]];
      if h[|h| - 1].status != ActiveVersion && LatestActive(init).Some? {
        var i :| 0 <= i < |init| && init[i] == LatestActive(init).value;
        assert h[i].status == ActiveVersion;
      }
    }
  }

  /** On a well-formed snapshot, version, hash and schema reported are those of the contract enforced. */
  lemma ReportIsTrue(cfg: ContractConfig, m: Contracts, s: Scope, risk: string, phase: string, b: Binding)
    requires WellFormed(cfg, m) && Resolves(cfg, m, s, risk, phase, b) && b.key.Some?
    ensures b.contract == m.active[b.key.value] && b.hash == cfg.hash(b.contract) && b.schema == b.contract.schema
    ensures var h := History(m, b.key.value);
      1 <= b.version <= |h| && h[b.version - 1].status == ActiveVersion && h[b.version - 1].contract == b.contract
  {
    var key := b.key.value;
    var h := History(m, key);
    assert KeyOk(cfg, h, ActiveOf(m, key), Scheduled(m, key));
    LatestActiveIs(h);
    assert ActiveOf(m, key).Some?;
    var e := LatestActive(h).value;
    var i :| 0 <= i < |h| && h[i] == e;
    hide Candidates, LatestActive;
  }

  // ----- Pins -----

  /** The pin check of a runtime evaluation; hashes are compared as case-folded strings. */
  predicate PinPasses(pin: string, b: Binding) {
    pin == "" || (b.key.Some? && b.hash == pin)
  }

  /** A request passes exactly if it names no pin, or a contract was found and its hash is the pin. */
  lemma PinIff(cfg: ContractConfig, m: Contracts, s: Scope, risk: string, phase: string, b: Binding, pin: string)
    requires WellFormed(cfg, m) && Resolves(cfg, m, s, risk, phase, b)
    ensures PinPasses(pin, b) <==> pin == "" || (b.key.Some? && cfg.hash(b.contract) == pin)
  {
    hide Resolves, WellFormed;
    if b.key.Some? { ReportIsTrue(cfg, m, s, risk, phase, b); }
  }

  /** With a hash that tells contracts apart, one pin stands for one contract, on any kernels at any versions. */
  lemma PinFixesContract(cfg: ContractConfig, m: Contracts, s: Scope, risk: string, phase: string, b: Binding,
                         m': Contracts, s': Scope, risk': string, phase': string, b': Binding, pin: string)
    requires forall c, c' :: cfg.hash(c) == cfg.hash(c') ==> c == c'
    requires WellFormed(cfg, m) && Resolves(cfg, m, s, risk, phase, b) && PinPasses(pin, b)
    requires WellFormed(cfg, m') && Resolves(cfg, m', s', risk', phase', b') && PinPasses(pin, b') && pin != ""
    ensures b.contract == b'.contract
  {
    hide Resolves, WellFormed;
    PinIff(cfg, m, s, risk, phase, b, pin);
    PinIff(cfg, m', s', risk', phase', b', pin);
  }

  lemma CacheWellFormed(cfg: ContractConfig, buffer: nat, seed: Snapshot, ops: seq<ClusterOp>, i: nat)
    requires buffer > 0 && SoundStart(cfg, Start(buffer, seed), ops) && i < |After(cfg, Start(buffer, seed), ops).replicas|
    ensures WellFormed(cfg, After(cfg, Start(buffer, seed), ops).replicas[i].contracts)
  {
    hide WellFormed, SoundStart;
    SoundStays(cfg, buffer, seed, ops);
    hide After;
  }

  /**
   * Over whole histories: a pin that passes on two kernels, of one cluster or of two, at any points of their histories and
   * for any two requests, holds both requests to the same contract.
   */
  lemma PinHoldsInCluster(cfg: ContractConfig, pin: string,
                          buffer: nat, seed: Snapshot, ops: seq<ClusterOp>, i: nat, s: Scope, risk: string, phase: string, b: Binding,
                          buffer': nat, seed': Snapshot, ops': seq<ClusterOp>, i': nat, s': Scope, risk': string, phase': string, b': Binding)
    requires pin != "" && forall c, c' :: cfg.hash(c) == cfg.hash(c') ==> c == c'
    requires buffer > 0 && SoundStart(cfg, Start(buffer, seed), ops) && i < |After(cfg, Start(buffer, seed), ops).replicas|
    requires Resolves(cfg, After(cfg, Start(buffer, seed), ops).replicas[i].contracts, s, risk, phase, b) && PinPasses(pin, b)
    requires buffer' > 0 && SoundStart(cfg, Start(buffer', seed'), ops') && i' < |After(cfg, Start(buffer', seed'), ops').replicas|
    requires Resolves(cfg, After(cfg, Start(buffer', seed'), ops').replicas[i'].contracts, s', risk', phase', b') && PinPasses(pin, b')
    ensures b.contract == b'.contract && cfg.hash(b.contract) == pin
  {
    hide Resolves, WellFormed, After, SoundStart;
    CacheWellFormed(cfg, buffer, seed, ops, i);
    CacheWellFormed(cfg, buffer', seed', ops', i');
    var m, m' := After(cfg, Start(buffer, seed), ops).replicas[i].contracts, After(cfg, Start(buffer', seed'), ops').replicas[i'].contracts;
    PinIff(cfg, m, s, risk, phase, b, pin);
    PinFixesContract(cfg, m, s, risk, phase, b, m', s', risk', phase', b', pin);
  }
}
