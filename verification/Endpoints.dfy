/**
  * The endpoint plan: which socket bindings a worker plan needs, who owns each
  * one, and whether a binding is private, shared by one service or contested.
  */
module Endpoints {
  import opened Sequences
  import opened Wrappers
  import opened Placement

  datatype Key = Key(host: string, port: int, protocol: string)

  datatype Owner =
    Owner(worker: nat, serviceIndex: nat, instanceIndex: nat, instanceCount: nat, serviceName: string,
          endpointName: string)

  datatype Strategy = PrivateBind | ReusePort | Conflict

  datatype Diagnostic = MissingDefinition | Contested(key: Key)

  datatype Binding = Binding(key: Key, strategy: Strategy, owners: seq<Owner>, diagnostic: Option<Diagnostic>)

  datatype EndpointPlan = EndpointPlan(bindings: seq<Binding>, diagnostics: seq<Diagnostic>)

  /** One listening endpoint of one placed instance. */
  datatype Claim = Claim(key: Key, owner: Owner)

  // ---------- normalising an endpoint ----------

  function Lower(c: char): char {
    if 'A' <= c <= 'Z' then c - 'A' + 'a' else c
  }

  function NormalizeHost(host: string): string {
    if host == "" then "0.0.0.0" else host
  }

  function NormalizeProtocol(protocol: string): string {
    if protocol == "" then "tcp" else seq(|protocol|, i requires 0 <= i < |protocol| => Lower(protocol[i]))
  }

  predicate Listening(e: Endpoint) {
    e.port >= 0 && NormalizeProtocol(e.protocol) != "internal"
  }

  function MakeKey(e: Endpoint): Key {
    Key(NormalizeHost(e.host), e.port, NormalizeProtocol(e.protocol))
  }

  // ---------- the claims of a worker plan ----------

  function OwnerOf(w: nat, inst: Instance, def: Definition, e: Endpoint): Owner {
    Owner(w, inst.serviceIndex, inst.instanceIndex, inst.instanceCount, def.name, e.name)
  }

  function ClaimFor(w: nat, inst: Instance, def: Definition, e: Endpoint): Claim {
    Claim(MakeKey(e), OwnerOf(w, inst, def, e))
  }

  ghost function EndpointClaims(w: nat, inst: Instance, def: Definition, n: nat): seq<Claim>
    requires n <= |def.endpoints|
  {
    if n == 0 then []
    else
      EndpointClaims(w, inst, def, n - 1)
      + if Listening(def.endpoints[n - 1]) then [ClaimFor(w, inst, def, def.endpoints[n - 1])] else []
  }

  ghost function ClaimsOf(w: nat, inst: Instance): seq<Claim> {
    match inst.definition
    case None => []
    case Some(def) => EndpointClaims(w, inst, def, |def.endpoints|)
  }

  ghost function InstanceClaims(worker: WorkerPlan, n: nat): seq<Claim>
    requires n <= |worker.instances|
  {
    if n == 0 then [] else InstanceClaims(worker, n - 1) + ClaimsOf(worker.index, worker.instances[n - 1])
  }

  ghost function Claims(workers: seq<WorkerPlan>, n: nat): seq<Claim>
    requires n <= |workers|
  {
    if n == 0 then [] else Claims(workers, n - 1) + InstanceClaims(workers[n - 1], |workers[n - 1].instances|)
  }

  ghost function InstanceGaps(worker: WorkerPlan, n: nat): seq<Diagnostic>
    requires n <= |worker.instances|
  {
    if n == 0 then []
    else InstanceGaps(worker, n - 1) + if worker.instances[n - 1].definition.None? then [MissingDefinition] else []
  }

  ghost function Gaps(workers: seq<WorkerPlan>, n: nat): seq<Diagnostic>
    requires n <= |workers|
  {
    if n == 0 then [] else Gaps(workers, n - 1) + InstanceGaps(workers[n - 1], |workers[n - 1].instances|)
  }

  /** Where a claim comes from: worker `w`, its instance `k`, endpoint `t`. */
  ghost predicate From(workers: seq<WorkerPlan>, c: Claim, w: nat, k: nat, t: nat) {
    && w < |workers|
    && k < |workers[w].instances|
    && workers[w].instances[k].definition.Some?
    && var def := workers[w].instances[k].definition.value;
       && t < |def.endpoints|
       && Listening(def.endpoints[t])
       && c == ClaimFor(workers[w].index, workers[w].instances[k], def, def.endpoints[t])
  }

  lemma {:induction false} EndpointClaimed(w: nat, inst: Instance, def: Definition, n: nat, t: nat)
    requires t < n <= |def.endpoints| && Listening(def.endpoints[t])
    ensures ClaimFor(w, inst, def, def.endpoints[t]) in EndpointClaims(w, inst, def, n)
  {
    if t < n - 1 {
      EndpointClaimed(w, inst, def, n - 1, t);
    }
  }

  lemma {:induction false} EndpointClaimant(w: nat, inst: Instance, def: Definition, n: nat, c: Claim)
    returns (t: nat)
    requires n <= |def.endpoints| && c in EndpointClaims(w, inst, def, n)
    ensures t < n && Listening(def.endpoints[t]) && c == ClaimFor(w, inst, def, def.endpoints[t])
  {
    if c in EndpointClaims(w, inst, def, n - 1) {
      t := EndpointClaimant(w, inst, def, n - 1, c);
    } else {
      t := n - 1;
    }
  }

  lemma {:induction false} InstanceClaimsGrow(worker: WorkerPlan, n: nat, c: Claim)
    requires 0 < n <= |worker.instances|
    ensures c in InstanceClaims(worker, n) <==>
            c in InstanceClaims(worker, n - 1) || c in ClaimsOf(worker.index, worker.instances[n - 1])
  {
  }

  lemma {:induction false} InstanceClaimed(worker: WorkerPlan, n: nat, k: nat, c: Claim)
    requires k < n <= |worker.instances| && c in ClaimsOf(worker.index, worker.instances[k])
    ensures c in InstanceClaims(worker, n)
  {
    InstanceClaimsGrow(worker, n, c);
    if k < n - 1 {
      InstanceClaimed(worker, n - 1, k, c);
    }
  }

  lemma {:induction false} InstanceClaimant(worker: WorkerPlan, n: nat, c: Claim) returns (k: nat)
    requires n <= |worker.instances| && c in InstanceClaims(worker, n)
    ensures k < n && c in ClaimsOf(worker.index, worker.instances[k])
  {
    InstanceClaimsGrow(worker, n, c);
    if c in InstanceClaims(worker, n - 1) {
      k := InstanceClaimant(worker, n - 1, c);
    } else {
      k := n - 1;
    }
  }

  lemma {:induction false} ClaimsGrow(workers: seq<WorkerPlan>, n: nat, c: Claim)
    requires 0 < n <= |workers|
    ensures c in Claims(workers, n) <==>
            c in Claims(workers, n - 1) || c in InstanceClaims(workers[n - 1], |workers[n - 1].instances|)
  {
  }

  lemma {:induction false} WorkerClaimed(workers: seq<WorkerPlan>, n: nat, w: nat, c: Claim)
    requires w < n <= |workers| && c in InstanceClaims(workers[w], |workers[w].instances|)
    ensures c in Claims(workers, n)
  {
    ClaimsGrow(workers, n, c);
    if w < n - 1 {
      WorkerClaimed(workers, n - 1, w, c);
    }
  }

  lemma {:induction false} WorkerClaimant(workers: seq<WorkerPlan>, n: nat, c: Claim) returns (w: nat)
    requires n <= |workers| && c in Claims(workers, n)
    ensures w < n && c in InstanceClaims(workers[w], |workers[w].instances|)
  {
    ClaimsGrow(workers, n, c);
    if c in Claims(workers, n - 1) {
      w := WorkerClaimant(workers, n - 1, c);
    } else {
      w := n - 1;
    }
  }

  lemma {:induction false} Claimed(workers: seq<WorkerPlan>, c: Claim, w: nat, k: nat, t: nat)
    requires From(workers, c, w, k, t)
    ensures c in Claims(workers, |workers|)
  {
    var inst := workers[w].instances[k];
    EndpointClaimed(workers[w].index, inst, inst.definition.value, |inst.definition.value.endpoints|, t);
    InstanceClaimed(workers[w], |workers[w].instances|, k, c);
    WorkerClaimed(workers, |workers|, w, c);
  }

  lemma {:induction false} Claimant(workers: seq<WorkerPlan>, c: Claim) returns (w: nat, k: nat, t: nat)
    requires c in Claims(workers, |workers|)
    ensures From(workers, c, w, k, t)
  {
    w := WorkerClaimant(workers, |workers|, c);
    k := InstanceClaimant(workers[w], |workers[w].instances|, c);
    var inst := workers[w].instances[k];
    t := EndpointClaimant(workers[w].index, inst, inst.definition.value, |inst.definition.value.endpoints|, c);
  }

  // ---------- grouping claims into bindings ----------

  /** The first binding with this key, or the length when there is none. */
  ghost function Find(bindings: seq<Binding>, key: Key): (r: nat)
    ensures r <= |bindings|
    ensures r < |bindings| ==> bindings[r].key == key
    ensures forall i :: 0 <= i < r ==> bindings[i].key != key
  {
    if bindings == [] then 0
    else if bindings[0].key == key then 0
    else Find(bindings[1..], key) + 1
  }

  ghost function Add(bindings: seq<Binding>, c: Claim): seq<Binding> {
    var k := Find(bindings, c.key);
    if c.key.port != 0 && k < |bindings| then bindings[k := bindings[k].(owners := bindings[k].owners + [c.owner])]
    else bindings + [Binding(c.key, PrivateBind, [c.owner], None)]
  }

  ghost function AddAll(bindings: seq<Binding>, claims: seq<Claim>): seq<Binding> {
    if claims == [] then bindings
    else Add(AddAll(bindings, claims[..|claims| - 1]), claims[|claims| - 1])
  }

  lemma {:induction false} AddAllConcat(bindings: seq<Binding>, xs: seq<Claim>, ys: seq<Claim>)
    ensures AddAll(bindings, xs + ys) == AddAll(AddAll(bindings, xs), ys)
    decreases |ys|
  {
    if ys == [] {
      assert xs + ys == xs;
    } else {
      assert (xs + ys)[..|xs + ys| - 1] == xs + ys[..|ys| - 1];
      AddAllConcat(bindings, xs, ys[..|ys| - 1]);
    }
  }

  lemma {:induction false} AddAllSnoc(bindings: seq<Binding>, xs: seq<Claim>, c: Claim)
    ensures AddAll(bindings, xs + [c]) == Add(AddAll(bindings, xs), c)
  {
    assert (xs + [c])[..|xs + [c]| - 1] == xs;
  }

  /** The owners of all claims on one key, in claim order. */
  ghost function OwnersOf(claims: seq<Claim>, key: Key): seq<Owner> {
    if claims == [] then []
    else
      OwnersOf(claims[..|claims| - 1], key)
      + if claims[|claims| - 1].key == key then [claims[|claims| - 1].owner] else []
  }

  /** The bindings that ask the system for any free port. */
  ghost function Anonymous(bindings: seq<Binding>): seq<Binding> {
    if bindings == [] then []
    else
      Anonymous(bindings[..|bindings| - 1])
      + if bindings[|bindings| - 1].key.port == 0 then [bindings[|bindings| - 1]] else []
  }

  /** One binding of its own for every claim on port zero, in claim order. */
  ghost function AnonymousClaims(claims: seq<Claim>): seq<Binding> {
    if claims == [] then []
    else
      var c := claims[|claims| - 1];
      AnonymousClaims(claims[..|claims| - 1])
      + if c.key.port == 0 then [Binding(c.key, PrivateBind, [c.owner], None)] else []
  }

  ghost predicate Distinct(bindings: seq<Binding>) {
    forall i, j :: 0 <= i < j < |bindings| && bindings[i].key.port != 0 ==> bindings[i].key != bindings[j].key
  }

  ghost predicate Owned(bindings: seq<Binding>, claims: seq<Claim>) {
    forall i :: 0 <= i < |bindings| && bindings[i].key.port != 0 ==>
                  && bindings[i].owners == OwnersOf(claims, bindings[i].key)
                  && bindings[i].owners != []
  }

  ghost predicate Covered(bindings: seq<Binding>, claims: seq<Claim>) {
    forall c :: c in claims ==> Find(bindings, c.key) < |bindings|
  }

  lemma {:induction false} AnonymousUpdate(bindings: seq<Binding>, k: nat, b: Binding)
    requires k < |bindings| && bindings[k].key.port != 0 && b.key.port != 0
    ensures Anonymous(bindings[k := b]) == Anonymous(bindings)
  {
    var updated := bindings[k := b];
    if k == |bindings| - 1 {
      assert updated[..|bindings| - 1] == bindings[..|bindings| - 1];
    } else {
      assert updated[..|bindings| - 1] == bindings[..|bindings| - 1][k := b];
      AnonymousUpdate(bindings[..|bindings| - 1], k, b);
    }
  }

  lemma {:induction false} AnonymousSnoc(bindings: seq<Binding>, b: Binding)
    ensures Anonymous(bindings + [b]) == Anonymous(bindings) + if b.key.port == 0 then [b] else []
  {
    assert (bindings + [b])[..|bindings + [b]| - 1] == bindings;
  }

  lemma {:induction false} OwnersOfNone(claims: seq<Claim>, key: Key)
    requires forall c :: c in claims ==> c.key != key
    ensures OwnersOf(claims, key) == []
  {
    if claims != [] {
      assert claims[|claims| - 1] in claims;
      OwnersOfNone(claims[..|claims| - 1], key);
    }
  }

  lemma {:induction false} OwnersOfHas(claims: seq<Claim>, key: Key, o: Owner)
    ensures o in OwnersOf(claims, key) <==> Claim(key, o) in claims
  {
    if claims != [] {
      var rest, last := claims[..|claims| - 1], claims[|claims| - 1];
      OwnersOfHas(rest, key, o);
      assert claims == rest + [last];
    }
  }

  ghost predicate Grouped(bindings: seq<Binding>, claims: seq<Claim>) {
    && Distinct(bindings)
    && Owned(bindings, claims)
    && Covered(bindings, claims)
    && Anonymous(bindings) == AnonymousClaims(claims)
    && Plain(bindings)
  }

  /**
    * What grouping achieves, for every list of claims: named ports have one
    * binding each, owned by exactly the claims on it; anonymous ports are
    * never shared.
    */
  lemma {:induction false} GroupingCorrect(claims: seq<Claim>)
    ensures Grouped(AddAll([], claims), claims)
  {
    if claims != [] {
      var rest, c := claims[..|claims| - 1], claims[|claims| - 1];
      assert claims == rest + [c];
      GroupingCorrect(rest);
      AddKeepsGrouped(AddAll([], rest), rest, claims, c);
    }
  }

  lemma {:induction false} AddKeepsGrouped(bindings: seq<Binding>, rest: seq<Claim>, claims: seq<Claim>, c: Claim)
    requires Grouped(bindings, rest) && claims == rest + [c]
    ensures Grouped(Add(bindings, c), claims)
  {
    var k := Find(bindings, c.key);
    assert claims[..|claims| - 1] == rest;
    if c.key.port != 0 && k < |bindings| {
      JoinKeepsGrouped(bindings, rest, claims, c);
    } else {
      OpenKeepsGrouped(bindings, rest, claims, c);
    }
  }

  lemma {:induction false} JoinKeepsGrouped(bindings: seq<Binding>, rest: seq<Claim>, claims: seq<Claim>, c: Claim)
    requires Grouped(bindings, rest) && claims == rest + [c] && claims[..|claims| - 1] == rest
    requires c.key.port != 0 && Find(bindings, c.key) < |bindings|
    ensures Grouped(Add(bindings, c), claims)
  {
    var k := Find(bindings, c.key);
    var after := Add(bindings, c);
    AnonymousUpdate(bindings, k, after[k]);
    SameKeys(bindings, after, rest);
    assert Find(after, c.key) < |after| by {
      assert after[k].key == c.key;
    }
    OwnersJoin(bindings, rest, claims, c);
  }

  lemma {:induction false} SameKeys(bindings: seq<Binding>, after: seq<Binding>, claims: seq<Claim>)
    requires |bindings| <= |after| && forall i :: 0 <= i < |bindings| ==> after[i].key == bindings[i].key
    requires Covered(bindings, claims)
    ensures Covered(after, claims)
  {
    forall d | d in claims ensures Find(after, d.key) < |after| {
      var at := Find(bindings, d.key);
      assert after[at].key == d.key;
    }
  }

  lemma {:induction false} OwnersJoin(bindings: seq<Binding>, rest: seq<Claim>, claims: seq<Claim>, c: Claim)
    requires Distinct(bindings) && Owned(bindings, rest) && claims == rest + [c] && claims[..|claims| - 1] == rest
    requires c.key.port != 0 && Find(bindings, c.key) < |bindings|
    ensures Owned(Add(bindings, c), claims)
  {
    var k, after := Find(bindings, c.key), Add(bindings, c);
    forall i | 0 <= i < |after| && after[i].key.port != 0
      ensures after[i].owners == OwnersOf(claims, after[i].key) && after[i].owners != []
    {
      assert bindings[i].owners == OwnersOf(rest, bindings[i].key);
      assert i != k ==> bindings[i].key != c.key;
    }
  }

  lemma {:induction false} OpenKeepsGrouped(bindings: seq<Binding>, rest: seq<Claim>, claims: seq<Claim>, c: Claim)
    requires Grouped(bindings, rest) && claims == rest + [c] && claims[..|claims| - 1] == rest
    requires c.key.port == 0 || Find(bindings, c.key) == |bindings|
    ensures Grouped(Add(bindings, c), claims)
  {
    var b := Binding(c.key, PrivateBind, [c.owner], None);
    assert Add(bindings, c) == bindings + [b];
    AnonymousSnoc(bindings, b);
    DistinctOpen(bindings, b);
    CoveredOpen(bindings, b, rest, claims, c);
    OwnersOpen(bindings, rest, claims, c);
    PlainOpen(bindings, b);
  }

  ghost predicate Plain(bindings: seq<Binding>) {
    forall i :: 0 <= i < |bindings| ==> bindings[i].strategy == PrivateBind && bindings[i].diagnostic == None
  }

  lemma {:induction false} PlainOpen(bindings: seq<Binding>, b: Binding)
    requires Plain(bindings) && b.strategy == PrivateBind && b.diagnostic == None
    ensures Plain(bindings + [b])
  {
  }

  lemma {:induction false} CoveredOpen(bindings: seq<Binding>, b: Binding, rest: seq<Claim>, claims: seq<Claim>,
      c: Claim)
    requires Covered(bindings, rest) && claims == rest + [c] && b.key == c.key
    ensures Covered(bindings + [b], claims)
  {
    var after := bindings + [b];
    SameKeys(bindings, after, rest);
    assert after[|bindings|].key == c.key;
  }

  lemma {:induction false} DistinctOpen(bindings: seq<Binding>, b: Binding)
    requires Distinct(bindings) && (b.key.port == 0 || Find(bindings, b.key) == |bindings|)
    ensures Distinct(bindings + [b])
  {
  }

  lemma {:induction false} OwnersOpen(bindings: seq<Binding>, rest: seq<Claim>, claims: seq<Claim>, c: Claim)
    requires Owned(bindings, rest) && Covered(bindings, rest)
    requires claims == rest + [c] && claims[..|claims| - 1] == rest
    requires c.key.port == 0 || Find(bindings, c.key) == |bindings|
    ensures Owned(bindings + [Binding(c.key, PrivateBind, [c.owner], None)], claims)
  {
    var after := bindings + [Binding(c.key, PrivateBind, [c.owner], None)];
    if c.key.port != 0 {
      OwnersOfNone(rest, c.key);
    }
    forall i | 0 <= i < |after| && after[i].key.port != 0
      ensures after[i].owners == OwnersOf(claims, after[i].key) && after[i].owners != []
    {
      if i < |bindings| {
        assert bindings[i].owners == OwnersOf(rest, bindings[i].key);
      }
    }
  }

  // ---------- classifying a binding ----------

  ghost predicate Apart(a: Owner, b: Owner) {
    a.worker != b.worker || a.serviceIndex != b.serviceIndex || a.instanceIndex != b.instanceIndex
  }

  ghost predicate Replicated(owners: seq<Owner>) {
    exists a, b :: a in owners && b in owners && Apart(a, b)
  }

  ghost predicate Rivals(owners: seq<Owner>) {
    exists a, b :: a in owners && b in owners && a.serviceName != b.serviceName
  }

  ghost function Choose(key: Key, owners: seq<Owner>): Strategy {
    if key.port == 0 || !Replicated(owners) then PrivateBind
    else if Rivals(owners) then Conflict
    else ReusePort
  }

  ghost function Classified(b: Binding): Binding {
    var strategy := Choose(b.key, b.owners);
    b.(strategy := strategy, diagnostic := if strategy.Conflict? then Some(Contested(b.key)) else b.diagnostic)
  }

  lemma {:induction false} SeveralMeansTwo<T>(s: set<T>, x: T)
    requires x in s
    ensures |s| > 1 <==> exists y :: y in s && y != x
  {
    if y :| y in s && y != x {
      assert {x, y} <= s;
      Cardinality({x, y}, s);
      assert |{x, y}| == 2;
    } else {
      assert s == {x};
    }
  }

  lemma {:induction false} Cardinality<T>(a: set<T>, b: set<T>)
    requires a <= b
    ensures |a| <= |b|
  {
    assert b == a + (b - a);
  }

  method AnalyzeBinding(owners: seq<Owner>) returns (replicated: bool, sameService: bool)
    ensures replicated == Replicated(owners)
    ensures sameService == !Rivals(owners)
  {
    replicated, sameService := false, true;
    if owners == [] {
      return;
    }
    var first := owners[0].serviceName;
    var workers: set<nat> := {};
    var slots: set<(nat, nat)> := {};
    for i := 0 to |owners|
      invariant sameService == forall j :: 0 <= j < i ==> owners[j].serviceName == first
      invariant workers == Workers(owners, i) && slots == Slots(owners, i)
      invariant replicated == (|workers| > 1 || |slots| > 1)
    {
      if owners[i].serviceName != first {
        sameService := false;
      }
      workers := workers + {owners[i].worker};
      slots := slots + {(owners[i].serviceIndex, owners[i].instanceIndex)};
      replicated := |workers| > 1 || |slots| > 1;
    }
    SetsShowReplicas(owners);
    NamesShowRivals(owners);
  }

  lemma {:induction false} NamesShowRivals(owners: seq<Owner>)
    requires owners != []
    ensures Rivals(owners) <==> !forall j :: 0 <= j < |owners| ==> owners[j].serviceName == owners[0].serviceName
  {
    assert owners[0] in owners;
  }

  ghost function Workers(owners: seq<Owner>, n: nat): set<nat>
    requires n <= |owners|
  {
    if n == 0 then {} else Workers(owners, n - 1) + {owners[n - 1].worker}
  }

  ghost function Slots(owners: seq<Owner>, n: nat): set<(nat, nat)>
    requires n <= |owners|
  {
    if n == 0 then {} else Slots(owners, n - 1) + {(owners[n - 1].serviceIndex, owners[n - 1].instanceIndex)}
  }

  lemma {:induction false} WorkersAre(owners: seq<Owner>, n: nat, w: nat)
    requires n <= |owners|
    ensures w in Workers(owners, n) <==> exists j :: 0 <= j < n && owners[j].worker == w
  {
    if n > 0 {
      WorkersAre(owners, n - 1, w);
    }
  }

  lemma {:induction false} SlotsAre(owners: seq<Owner>, n: nat, slot: (nat, nat))
    requires n <= |owners|
    ensures slot in Slots(owners, n) <==>
            exists j :: 0 <= j < n && (owners[j].serviceIndex, owners[j].instanceIndex) == slot
  {
    if n > 0 {
      SlotsAre(owners, n - 1, slot);
    }
  }

  lemma {:induction false} SetsShowReplicas(owners: seq<Owner>)
    requires owners != []
    ensures (|Workers(owners, |owners|)| > 1 || |Slots(owners, |owners|)| > 1) == Replicated(owners)
  {
    var o, workers, slots := owners[0], Workers(owners, |owners|), Slots(owners, |owners|);
    WorkersAre(owners, |owners|, o.worker);
    SlotsAre(owners, |owners|, (o.serviceIndex, o.instanceIndex));
    SeveralMeansTwo(workers, o.worker);
    SeveralMeansTwo(slots, (o.serviceIndex, o.instanceIndex));
    if |workers| > 1 {
      var y :| y in workers && y != o.worker;
      WorkersAre(owners, |owners|, y);
      var j :| 0 <= j < |owners| && owners[j].worker == y;
      assert Apart(o, owners[j]);
    } else if |slots| > 1 {
      var y :| y in slots && y != (o.serviceIndex, o.instanceIndex);
      SlotsAre(owners, |owners|, y);
      var j :| 0 <= j < |owners| && (owners[j].serviceIndex, owners[j].instanceIndex) == y;
      assert Apart(o, owners[j]);
    } else {
      forall a | a in owners ensures !Apart(o, a) {
        WorkersAre(owners, |owners|, a.worker);
        SlotsAre(owners, |owners|, (a.serviceIndex, a.instanceIndex));
      }
    }
  }

  method ClassifyBinding(b: Binding) returns (r: Binding)
    requires b.diagnostic == None && b.strategy == PrivateBind
    ensures r == Classified(b)
  {
    if b.owners == [] || b.key.port == 0 {
      return b;
    }
    var replicated, sameService := AnalyzeBinding(b.owners);
    if !replicated {
      r := b.(strategy := PrivateBind);
    } else if sameService {
      r := b.(strategy := ReusePort);
    } else {
      r := b.(strategy := Conflict, diagnostic := Some(Contested(b.key)));
    }
  }

  // ---------- the endpoint plan ----------

  predicate ValidPlan(plan: EndpointPlan) {
    && (forall b :: b in plan.bindings ==> b.strategy != Conflict)
    && plan.diagnostics == []
  }

  ghost function Contests(bindings: seq<Binding>): seq<Diagnostic> {
    if bindings == [] then []
    else
      Contests(bindings[..|bindings| - 1])
      + if bindings[|bindings| - 1].strategy.Conflict? then [Contested(bindings[|bindings| - 1].key)] else []
  }

  ghost predicate IsEndpointPlan(plan: EndpointPlan, workers: seq<WorkerPlan>) {
    var grouped := AddAll([], Claims(workers, |workers|));
    && |plan.bindings| == |grouped|
    && (forall i :: 0 <= i < |grouped| ==> plan.bindings[i] == Classified(grouped[i]))
    && plan.diagnostics == Gaps(workers, |workers|) + Contests(plan.bindings)
  }

  /** The index from keys to bindings agrees with a search of the bindings. */
  ghost predicate Indexed(fixed: map<Key, nat>, bindings: seq<Binding>) {
    && (forall k :: k in fixed ==> k.port != 0 && fixed[k] < |bindings| && bindings[fixed[k]].key == k)
    && (forall i :: 0 <= i < |bindings| && bindings[i].key.port != 0 ==>
                      bindings[i].key in fixed && fixed[bindings[i].key] == i)
  }

  lemma {:induction false} IndexFinds(fixed: map<Key, nat>, bindings: seq<Binding>, key: Key)
    requires Indexed(fixed, bindings) && key.port != 0
    ensures key in fixed ==> Find(bindings, key) == fixed[key]
    ensures key !in fixed ==> Find(bindings, key) == |bindings|
  {
  }

  /** A binding opened empty and then given its first owner. */
  lemma {:induction false} OpenedBinding(before: seq<Binding>, c: Claim)
    ensures var opening := before + [Binding(c.key, PrivateBind, [], None)];
            opening[|before| := opening[|before|].(owners := opening[|before|].owners + [c.owner])]
              == before + [Binding(c.key, PrivateBind, [c.owner], None)]
  {
    assert [] + [c.owner] == [c.owner];
  }

  method ClaimEndpoint(before: seq<Binding>, index: map<Key, nat>, c: Claim)
    returns (bindings: seq<Binding>, fixed: map<Key, nat>)
    requires Indexed(index, before)
    ensures bindings == Add(before, c) && Indexed(fixed, bindings)
  {
    fixed := index;
    if c.key.port == 0 {
      bindings := before + [Binding(c.key, PrivateBind, [], None)];
      var at := |bindings| - 1;
      bindings := bindings[at := bindings[at].(owners := bindings[at].owners + [c.owner])];
      OpenedBinding(before, c);
    } else {
      IndexFinds(fixed, before, c.key);
      bindings := before;
      var at: nat;
      if c.key !in fixed {
        bindings := bindings + [Binding(c.key, PrivateBind, [], None)];
        at := |bindings| - 1;
        fixed := fixed[c.key := at];
      } else {
        at := fixed[c.key];
      }
      bindings := bindings[at := bindings[at].(owners := bindings[at].owners + [c.owner])];
      OpenedBinding(before, c);
    }
  }

  method ClaimInstance(before: seq<Binding>, index: map<Key, nat>, w: nat, inst: Instance, def: Definition)
    returns (bindings: seq<Binding>, fixed: map<Key, nat>)
    requires Indexed(index, before)
    ensures bindings == AddAll(before, EndpointClaims(w, inst, def, |def.endpoints|)) && Indexed(fixed, bindings)
  {
    bindings, fixed := before, index;
    for t := 0 to |def.endpoints|
      invariant bindings == AddAll(before, EndpointClaims(w, inst, def, t)) && Indexed(fixed, bindings)
    {
      var e := def.endpoints[t];
      if Listening(e) {
        AddAllSnoc(before, EndpointClaims(w, inst, def, t), ClaimFor(w, inst, def, e));
        bindings, fixed := ClaimEndpoint(bindings, fixed, ClaimFor(w, inst, def, e));
      } else {
        assert EndpointClaims(w, inst, def, t + 1) == EndpointClaims(w, inst, def, t);
      }
    }
  }

  method ClaimWorker(before: seq<Binding>, index: map<Key, nat>, worker: WorkerPlan)
    returns (bindings: seq<Binding>, fixed: map<Key, nat>, gaps: seq<Diagnostic>)
    requires Indexed(index, before)
    ensures bindings == AddAll(before, InstanceClaims(worker, |worker.instances|)) && Indexed(fixed, bindings)
    ensures gaps == InstanceGaps(worker, |worker.instances|)
  {
    bindings, fixed, gaps := before, index, [];
    for k := 0 to |worker.instances|
      invariant bindings == AddAll(before, InstanceClaims(worker, k)) && Indexed(fixed, bindings)
      invariant gaps == InstanceGaps(worker, k)
    {
      var inst := worker.instances[k];
      AddAllConcat(before, InstanceClaims(worker, k), ClaimsOf(worker.index, inst));
      match inst.definition
      case None => gaps := gaps + [MissingDefinition];
      case Some(def) => bindings, fixed := ClaimInstance(bindings, fixed, worker.index, inst, def);
    }
  }

  /** Every binding classified, and a diagnostic for every contested one. */
  method ClassifyAll(grouped: seq<Binding>) returns (bindings: seq<Binding>, diagnostics: seq<Diagnostic>)
    requires Plain(grouped)
    ensures |bindings| == |grouped| && diagnostics == Contests(bindings)
    ensures forall i :: 0 <= i < |grouped| ==> bindings[i] == Classified(grouped[i])
  {
    bindings, diagnostics := [], [];
    for i := 0 to |grouped|
      invariant |bindings| == i && diagnostics == Contests(bindings)
      invariant forall j :: 0 <= j < i ==> bindings[j] == Classified(grouped[j])
    {
      var b := ClassifyBinding(grouped[i]);
      ContestsSnoc(bindings, b);
      bindings := bindings + [b];
      if b.strategy == Conflict && b.diagnostic.Some? {
        diagnostics := diagnostics + [b.diagnostic.value];
      }
    }
  }

  lemma {:induction false} ContestsSnoc(bindings: seq<Binding>, b: Binding)
    ensures Contests(bindings + [b]) == if b.strategy.Conflict? then Contests(bindings) + [Contested(b.key)]
                                        else Contests(bindings)
  {
    assert (bindings + [b])[..|bindings + [b]| - 1] == bindings;
  }

  method BuildPlan(workers: seq<WorkerPlan>) returns (plan: EndpointPlan)
    ensures IsEndpointPlan(plan, workers)
  {
    var grouped: seq<Binding>, fixed: map<Key, nat>, diagnostics: seq<Diagnostic> := [], map[], [];
    for w := 0 to |workers|
      invariant grouped == AddAll([], Claims(workers, w)) && Indexed(fixed, grouped)
      invariant diagnostics == Gaps(workers, w)
    {
      var gaps;
      AddAllConcat([], Claims(workers, w), InstanceClaims(workers[w], |workers[w].instances|));
      grouped, fixed, gaps := ClaimWorker(grouped, fixed, workers[w]);
      diagnostics := diagnostics + gaps;
    }
    GroupingCorrect(Claims(workers, |workers|));
    var bindings, contests := ClassifyAll(grouped);
    plan := EndpointPlan(bindings, diagnostics + contests);
  }

  predicate Owns(o: Owner, inst: Instance, name: string) {
    o.serviceIndex == inst.serviceIndex && o.instanceIndex == inst.instanceIndex && o.serviceName == name
  }

  ghost predicate NeedsReuse(plan: EndpointPlan, inst: Instance) {
    && inst.definition.Some?
    && exists b, o :: b in plan.bindings && b.strategy == ReusePort && o in b.owners
                      && Owns(o, inst, inst.definition.value.name)
  }

  method ServiceInstanceRequiresReusePort(plan: EndpointPlan, inst: Instance) returns (r: bool)
    ensures r == NeedsReuse(plan, inst)
  {
    if inst.definition.None? {
      return false;
    }
    var name := inst.definition.value.name;
    for i := 0 to |plan.bindings|
      invariant forall b, o :: b in plan.bindings[..i] && b.strategy == ReusePort && o in b.owners ==>
                                 !Owns(o, inst, name)
    {
      var b := plan.bindings[i];
      if b.strategy == ReusePort {
        for j := 0 to |b.owners|
          invariant forall o :: o in b.owners[..j] ==> !Owns(o, inst, name)
        {
          if Owns(b.owners[j], inst, name) {
            assert b in plan.bindings && b.owners[j] in b.owners;
            return true;
          }
        }
        assert b.owners[..|b.owners|] == b.owners;
      }
    }
    assert plan.bindings[..|plan.bindings|] == plan.bindings;
    return false;
  }
}
