/**
  * The worker plan: which worker runs which instance of which service. Data
  * workers come first; every dedicated instance then gets a worker of its own.
  */
module Placement {
  import opened Wrappers
  import opened Arithmetic

  datatype Mode = Singleton | AllWorkers | Sharded | Dedicated | Disabled

  datatype Endpoint = Endpoint(name: string, host: string, port: int, protocol: string)

  datatype Definition = Definition(name: string, mode: Mode, instances: nat, endpoints: seq<Endpoint>)

  datatype Instance =
    Instance(serviceIndex: nat, instanceIndex: nat, instanceCount: nat, definition: Option<Definition>)

  datatype WorkerPlan = WorkerPlan(index: nat, count: nat, dedicated: bool, instances: seq<Instance>)

  function AtLeastOne(n: nat): (r: nat)
    ensures r > 0
  {
    if n == 0 then 1 else n
  }

  /** How many instances of a service a plan with `data` data workers runs. */
  function Copies(def: Definition, data: nat): nat {
    match def.mode
    case Disabled => 0
    case Singleton => 1
    case AllWorkers => data
    case _ => AtLeastOne(def.instances)
  }

  // ---------- counting ----------

  ghost function CountTo<T>(s: seq<T>, p: T -> bool, n: nat): nat
    requires n <= |s|
  {
    if n == 0 then 0 else CountTo(s, p, n - 1) + if p(s[n - 1]) then 1 else 0
  }

  ghost function CountIf<T>(s: seq<T>, p: T -> bool): nat {
    CountTo(s, p, |s|)
  }

  lemma {:induction false} CountSame<T>(s: seq<T>, t: seq<T>, p: T -> bool, n: nat)
    requires n <= |s| && n <= |t| && forall i :: 0 <= i < n ==> s[i] == t[i]
    ensures CountTo(s, p, n) == CountTo(t, p, n)
  {
    if n > 0 {
      CountSame(s, t, p, n - 1);
    }
  }

  lemma {:induction false} CountOnward<T>(a: seq<T>, b: seq<T>, p: T -> bool, n: nat)
    requires n <= |b|
    ensures CountTo(a + b, p, |a| + n) == CountTo(a, p, |a|) + CountTo(b, p, n)
  {
    if n == 0 {
      CountSame(a + b, a, p, |a|);
    } else {
      CountOnward(a, b, p, n - 1);
    }
  }

  lemma {:induction false} CountAppend<T>(a: seq<T>, b: seq<T>, p: T -> bool)
    ensures CountIf(a + b, p) == CountIf(a, p) + CountIf(b, p)
  {
    CountOnward(a, b, p, |b|);
  }

  lemma {:induction false} CountNone<T>(s: seq<T>, p: T -> bool, n: nat)
    requires n <= |s| && forall e :: e in s ==> !p(e)
    ensures CountTo(s, p, n) == 0
  {
    if n > 0 {
      CountNone(s, p, n - 1);
    }
  }

  lemma {:induction false} CountAll<T>(s: seq<T>, p: T -> bool, n: nat)
    requires n <= |s| && forall e :: e in s ==> p(e)
    ensures CountTo(s, p, n) == n
  {
    if n > 0 {
      CountAll(s, p, n - 1);
    }
  }

  lemma {:induction false} CountPositive<T>(s: seq<T>, p: T -> bool, n: nat, k: nat)
    requires k < n <= |s| && p(s[k])
    ensures CountTo(s, p, n) > 0
  {
    if k < n - 1 {
      CountPositive(s, p, n - 1, k);
    }
  }

  lemma {:induction false} CountFinds<T>(s: seq<T>, p: T -> bool, n: nat) returns (k: nat)
    requires n <= |s| && CountTo(s, p, n) > 0
    ensures k < n && p(s[k])
  {
    if p(s[n - 1]) {
      k := n - 1;
    } else {
      k := CountFinds(s, p, n - 1);
    }
  }

  /** Selects instance `j` of service `si`. */
  ghost function Named(si: nat, j: nat): Instance -> bool {
    (e: Instance) => e.serviceIndex == si && e.instanceIndex == j
  }

  /** Selects every instance of service `si`. */
  ghost function Of(si: nat): Instance -> bool {
    (e: Instance) => e.serviceIndex == si
  }

  // ---------- what each worker is meant to run ----------

  /** Those of the first `k` shards that fall to data worker `i`. */
  ghost function Shards(def: Definition, si: nat, data: nat, i: nat, k: nat): seq<Instance>
    requires data > 0
  {
    if k == 0 then []
    else
      Shards(def, si, data, i, k - 1)
      + if (k - 1) % data == i then [Instance(si, k - 1, AtLeastOne(def.instances), Some(def))] else []
  }

  ghost function ServiceOn(def: Definition, si: nat, data: nat, i: nat): seq<Instance>
    requires i < data
  {
    match def.mode
    case Singleton => if i == 0 then [Instance(si, 0, 1, Some(def))] else []
    case AllWorkers => [Instance(si, i, data, Some(def))]
    case Sharded => Shards(def, si, data, i, AtLeastOne(def.instances))
    case _ => []
  }

  ghost function DataInstances(defs: seq<Definition>, data: nat, i: nat, n: nat): seq<Instance>
    requires n <= |defs| && i < data
  {
    if n == 0 then [] else DataInstances(defs, data, i, n - 1) + ServiceOn(defs[n - 1], n - 1, data, i)
  }

  /** The first `k` instances of a dedicated service, in order. */
  ghost function Numbered(def: Definition, si: nat, k: nat): (r: seq<Instance>)
    ensures |r| == k
    ensures forall j :: 0 <= j < k ==> r[j] == Instance(si, j, AtLeastOne(def.instances), Some(def))
  {
    seq(k, j requires 0 <= j < k => Instance(si, j, AtLeastOne(def.instances), Some(def)))
  }

  /** The dedicated instances of the first `n` services, one worker each. */
  ghost function DedicatedTo(defs: seq<Definition>, n: nat): seq<Instance>
    requires n <= |defs|
  {
    if n == 0 then []
    else
      var def := defs[n - 1];
      DedicatedTo(defs, n - 1)
      + if def.mode.Dedicated? then Numbered(def, n - 1, AtLeastOne(def.instances)) else []
  }

  /** The one worker that runs instance `j` of service `si`. */
  ghost function Home(defs: seq<Definition>, data: nat, si: nat, j: nat): nat
    requires si < |defs| && data > 0
  {
    match defs[si].mode
    case AllWorkers => j
    case Sharded => j % data
    case Dedicated => data + |DedicatedTo(defs, si)| + j
    case _ => 0
  }

  // ---------- one service on one data worker ----------

  lemma {:induction false} ShardElements(def: Definition, si: nat, data: nat, i: nat, k: nat, e: Instance)
    requires data > 0 && e in Shards(def, si, data, i, k)
    ensures e == Instance(si, e.instanceIndex, AtLeastOne(def.instances), Some(def)) && e.instanceIndex < k
  {
    if k > 0 && e in Shards(def, si, data, i, k - 1) {
      ShardElements(def, si, data, i, k - 1, e);
    }
  }

  lemma {:induction false} ServiceElements(def: Definition, si: nat, data: nat, i: nat, e: Instance)
    requires i < data && e in ServiceOn(def, si, data, i)
    ensures e == Instance(si, e.instanceIndex, Copies(def, data), Some(def))
    ensures e.instanceIndex < Copies(def, data)
  {
    if def.mode.Sharded? {
      ShardElements(def, si, data, i, AtLeastOne(def.instances), e);
    }
  }

  lemma {:induction false} ShardOnce(def: Definition, si: nat, data: nat, i: nat, k: nat, j: nat)
    requires i < data
    ensures CountIf(Shards(def, si, data, i, k), Named(si, j)) == if j < k && j % data == i then 1 else 0
  {
    if k > 0 {
      ShardOnce(def, si, data, i, k - 1, j);
      var e := Instance(si, k - 1, AtLeastOne(def.instances), Some(def));
      var last := if (k - 1) % data == i then [e] else [];
      CountAppend(Shards(def, si, data, i, k - 1), last, Named(si, j));
      CountOne(e, Named(si, j));
    }
  }

  lemma {:induction false} CountOne<T>(e: T, p: T -> bool)
    ensures CountIf([e], p) == if p(e) then 1 else 0
    ensures CountIf([], p) == 0
  {
    assert CountTo([e], p, 0) == 0;
  }

  lemma {:induction false} ServiceOnce(defs: seq<Definition>, data: nat, s: nat, i: nat, si: nat, j: nat)
    requires i < data && s < |defs|
    ensures CountIf(ServiceOn(defs[s], s, data, i), Named(si, j))
         == if s == si && j < Copies(defs[s], data) && i == Home(defs, data, s, j) then 1 else 0
  {
    var def := defs[s];
    var on := ServiceOn(def, s, data, i);
    if s != si {
      forall e | e in on ensures !Named(si, j)(e) {
        ServiceElements(def, s, data, i, e);
      }
      CountNone(on, Named(si, j), |on|);
    } else {
      match def.mode
      case Singleton => CountOne(Instance(s, 0, 1, Some(def)), Named(si, j));
      case AllWorkers => CountOne(Instance(s, i, data, Some(def)), Named(si, j));
      case Sharded => ShardOnce(def, s, data, i, AtLeastOne(def.instances), j);
      case _ =>
    }
  }

  // ---------- all services on one data worker ----------

  lemma {:induction false} DataCount(defs: seq<Definition>, data: nat, i: nat, n: nat, p: Instance -> bool)
    requires 0 < n <= |defs| && i < data
    ensures CountIf(DataInstances(defs, data, i, n), p)
         == CountIf(DataInstances(defs, data, i, n - 1), p) + CountIf(ServiceOn(defs[n - 1], n - 1, data, i), p)
  {
    CountAppend(DataInstances(defs, data, i, n - 1), ServiceOn(defs[n - 1], n - 1, data, i), p);
  }

  /** When only service `si` is counted, it alone decides what a data worker holds. */
  lemma {:induction false} DataTally(defs: seq<Definition>, data: nat, i: nat, n: nat, p: Instance -> bool, si: nat,
      k: nat)
    requires n <= |defs| && i < data
    requires forall s :: 0 <= s < |defs| ==> CountIf(ServiceOn(defs[s], s, data, i), p) == if s == si then k else 0
    ensures CountIf(DataInstances(defs, data, i, n), p) == if si < n then k else 0
  {
    if n > 0 {
      DataTally(defs, data, i, n - 1, p, si, k);
      DataCount(defs, data, i, n, p);
    }
  }

  lemma {:induction false} DataOnce(defs: seq<Definition>, data: nat, i: nat, si: nat, j: nat)
    requires i < data
    ensures CountIf(DataInstances(defs, data, i, |defs|), Named(si, j))
         == if si < |defs| && j < Copies(defs[si], data) && i == Home(defs, data, si, j) then 1 else 0
  {
    var k := if si < |defs| && j < Copies(defs[si], data) && i == Home(defs, data, si, j) then 1 else 0;
    forall s | 0 <= s < |defs|
      ensures CountIf(ServiceOn(defs[s], s, data, i), Named(si, j)) == if s == si then k else 0
    {
      ServiceOnce(defs, data, s, i, si, j);
    }
    DataTally(defs, data, i, |defs|, Named(si, j), si, k);
  }

  ghost predicate Described(defs: seq<Definition>, data: nat, e: Instance) {
    && e.serviceIndex < |defs|
    && e.definition == Some(defs[e.serviceIndex])
    && e.instanceCount == Copies(defs[e.serviceIndex], data)
    && e.instanceIndex < e.instanceCount
  }

  lemma {:induction false} DataElements(defs: seq<Definition>, data: nat, i: nat, n: nat, e: Instance)
    requires n <= |defs| && i < data && e in DataInstances(defs, data, i, n)
    ensures Described(defs, data, e)
  {
    if n > 0 {
      if e in DataInstances(defs, data, i, n - 1) {
        DataElements(defs, data, i, n - 1, e);
      } else {
        ServiceElements(defs[n - 1], n - 1, data, i, e);
      }
    }
  }

  // ---------- dedicated workers ----------

  ghost predicate DedicatedEntry(defs: seq<Definition>, k: nat, e: Instance) {
    && e.serviceIndex < |defs|
    && defs[e.serviceIndex].mode.Dedicated?
    && e.instanceIndex < AtLeastOne(defs[e.serviceIndex].instances)
    && k == |DedicatedTo(defs, e.serviceIndex)| + e.instanceIndex
    && e == Instance(e.serviceIndex, e.instanceIndex, AtLeastOne(defs[e.serviceIndex].instances),
                     Some(defs[e.serviceIndex]))
  }

  lemma {:induction false} DedicatedAt(defs: seq<Definition>, n: nat, k: nat)
    requires n <= |defs| && k < |DedicatedTo(defs, n)|
    ensures DedicatedEntry(defs, k, DedicatedTo(defs, n)[k])
  {
    if n > 0 && k < |DedicatedTo(defs, n - 1)| {
      DedicatedAt(defs, n - 1, k);
    }
  }

  lemma {:induction false} DedicatedFound(defs: seq<Definition>, n: nat, si: nat, j: nat)
    requires si < n <= |defs| && defs[si].mode.Dedicated? && j < AtLeastOne(defs[si].instances)
    ensures |DedicatedTo(defs, si)| + j < |DedicatedTo(defs, n)|
    ensures DedicatedTo(defs, n)[|DedicatedTo(defs, si)| + j]
         == Instance(si, j, AtLeastOne(defs[si].instances), Some(defs[si]))
  {
    if si < n - 1 {
      DedicatedFound(defs, n - 1, si, j);
    }
  }

  // ---------- the plan ----------

  /** Every worker has its index and holds what the first `n` services give it. */
  ghost predicate Laid(workers: seq<WorkerPlan>, data: nat, defs: seq<Definition>, n: nat)
    requires n <= |defs|
  {
    && |workers| == data + |DedicatedTo(defs, n)|
    && (forall w :: 0 <= w < |workers| ==> workers[w].index == w && workers[w].dedicated == (w >= data))
    && (forall w :: 0 <= w < data ==> workers[w].instances == DataInstances(defs, data, w, n))
    && (forall w :: data <= w < |workers| ==> workers[w].instances == [DedicatedTo(defs, n)[w - data]])
  }

  ghost predicate IsPlan(workers: seq<WorkerPlan>, data: nat, defs: seq<Definition>) {
    && data > 0
    && Laid(workers, data, defs, |defs|)
    && forall w :: 0 <= w < |workers| ==> workers[w].count == |workers|
  }

  /** Instance `j` of service `si` runs once on its home and nowhere else. */
  lemma {:induction false} PlacedOnce(workers: seq<WorkerPlan>, data: nat, defs: seq<Definition>, w: nat, si: nat,
      j: nat)
    requires IsPlan(workers, data, defs) && w < |workers|
    ensures CountIf(workers[w].instances, Named(si, j))
         == if si < |defs| && j < Copies(defs[si], data) && w == Home(defs, data, si, j) then 1 else 0
  {
    if w < data {
      DataOnce(defs, data, w, si, j);
    } else {
      DedicatedAt(defs, |defs|, w - data);
      CountOne(DedicatedTo(defs, |defs|)[w - data], Named(si, j));
      if si < |defs| && j < Copies(defs[si], data) {
        match defs[si].mode
        case Dedicated => DedicatedFound(defs, |defs|, si, j);
        case Sharded => assert j % data < data;
        case _ =>
      }
    }
  }

  /** The home of every instance is a worker of the plan, dedicated exactly when the service is. */
  lemma {:induction false} HomeExists(workers: seq<WorkerPlan>, data: nat, defs: seq<Definition>, si: nat, j: nat)
    requires IsPlan(workers, data, defs) && si < |defs| && j < Copies(defs[si], data)
    ensures Home(defs, data, si, j) < |workers|
    ensures workers[Home(defs, data, si, j)].dedicated == defs[si].mode.Dedicated?
  {
    match defs[si].mode
    case Dedicated => DedicatedFound(defs, |defs|, si, j);
    case Sharded => assert j % data < data;
    case _ =>
  }

  /** Whatever a worker runs is a described instance of some service. */
  lemma {:induction false} PlacedDescribed(workers: seq<WorkerPlan>, data: nat, defs: seq<Definition>, w: nat,
      e: Instance)
    requires IsPlan(workers, data, defs) && w < |workers| && e in workers[w].instances
    ensures Described(defs, data, e) && w == Home(defs, data, e.serviceIndex, e.instanceIndex)
  {
    if w < data {
      DataElements(defs, data, w, |defs|, e);
    } else {
      DedicatedAt(defs, |defs|, w - data);
    }
    var k :| 0 <= k < |workers[w].instances| && workers[w].instances[k] == e;
    CountPositive(workers[w].instances, Named(e.serviceIndex, e.instanceIndex), |workers[w].instances|, k);
    PlacedOnce(workers, data, defs, w, e.serviceIndex, e.instanceIndex);
  }

  /** A dedicated worker runs one instance, of a dedicated service. */
  lemma {:induction false} DedicatedAlone(workers: seq<WorkerPlan>, data: nat, defs: seq<Definition>, w: nat)
    requires IsPlan(workers, data, defs) && w < |workers| && workers[w].dedicated
    ensures |workers[w].instances| == 1
    ensures Described(defs, data, workers[w].instances[0])
    ensures defs[workers[w].instances[0].serviceIndex].mode.Dedicated?
  {
    DedicatedAt(defs, |defs|, w - data);
  }

  // ---------- balance ----------

  lemma {:induction false} ShardLoad(def: Definition, si: nat, data: nat, i: nat, k: nat)
    requires i < data
    ensures |Shards(def, si, data, i, k)| == k / data + if i < k % data then 1 else 0
  {
    if k > 0 {
      ShardLoad(def, si, data, i, k - 1);
      DivisionNext(k - 1, data);
    } else {
      QuotientUnique(0, data, 0, 0);
    }
  }

  lemma {:induction false} DataLoad(defs: seq<Definition>, data: nat, i: nat, si: nat)
    requires i < data
    ensures CountIf(DataInstances(defs, data, i, |defs|), Of(si))
         == if si < |defs| then |ServiceOn(defs[si], si, data, i)| else 0
  {
    var k := if si < |defs| then |ServiceOn(defs[si], si, data, i)| else 0;
    forall s | 0 <= s < |defs| ensures CountIf(ServiceOn(defs[s], s, data, i), Of(si)) == if s == si then k else 0 {
      ServiceLoad(defs[s], s, data, i, si);
    }
    DataTally(defs, data, i, |defs|, Of(si), si, k);
  }

  lemma {:induction false} ServiceLoad(def: Definition, s: nat, data: nat, i: nat, si: nat)
    requires i < data
    ensures CountIf(ServiceOn(def, s, data, i), Of(si)) == if s == si then |ServiceOn(def, s, data, i)| else 0
  {
    var on := ServiceOn(def, s, data, i);
    forall e | e in on ensures Of(si)(e) == (s == si) {
      ServiceElements(def, s, data, i, e);
    }
    if s == si {
      CountAll(on, Of(si), |on|);
    } else {
      CountNone(on, Of(si), |on|);
    }
  }

  /** The shards of a service spread over the data workers to within one. */
  lemma {:induction false} ShardsBalanced(workers: seq<WorkerPlan>, data: nat, defs: seq<Definition>, si: nat, a: nat,
      b: nat)
    requires IsPlan(workers, data, defs) && a < data && b < data
    requires si < |defs| && defs[si].mode.Sharded?
    ensures CountIf(workers[a].instances, Of(si)) <= CountIf(workers[b].instances, Of(si)) + 1
  {
    DataLoad(defs, data, a, si);
    DataLoad(defs, data, b, si);
    ShardLoad(defs[si], si, data, a, AtLeastOne(defs[si].instances));
    ShardLoad(defs[si], si, data, b, AtLeastOne(defs[si].instances));
  }

  // ---------- the planner ----------

  function Assign(worker: WorkerPlan, e: Instance): WorkerPlan {
    worker.(instances := worker.instances + [e])
  }

  lemma {:induction false} LaidData(before: seq<WorkerPlan>, after: seq<WorkerPlan>, data: nat, defs: seq<Definition>,
      n: nat)
    requires n < |defs| && !defs[n].mode.Dedicated?
    requires Laid(before, data, defs, n) && data <= |after| == |before|
    requires forall w :: data <= w < |before| ==> after[w] == before[w]
    requires forall w :: 0 <= w < data ==>
                           after[w] == before[w].(instances := before[w].instances + ServiceOn(defs[n], n, data, w))
    ensures Laid(after, data, defs, n + 1)
  {
    assert DedicatedTo(defs, n + 1) == DedicatedTo(defs, n);
  }

  method PlaceAll(before: seq<WorkerPlan>, data: nat, def: Definition, si: nat) returns (workers: seq<WorkerPlan>)
    requires data <= |before|
    ensures |workers| == |before|
    ensures forall w :: data <= w < |before| ==> workers[w] == before[w]
    ensures forall w :: 0 <= w < data ==> workers[w] == Assign(before[w], Instance(si, w, data, Some(def)))
  {
    workers := before;
    for i := 0 to data
      invariant |workers| == |before|
      invariant forall w :: i <= w < |before| ==> workers[w] == before[w]
      invariant forall w :: 0 <= w < i ==> workers[w] == Assign(before[w], Instance(si, w, data, Some(def)))
    {
      workers := workers[i := Assign(workers[i], Instance(si, i, data, Some(def)))];
    }
  }

  method PlaceShards(before: seq<WorkerPlan>, data: nat, def: Definition, si: nat) returns (workers: seq<WorkerPlan>)
    requires 0 < data <= |before|
    ensures |workers| == |before|
    ensures forall w :: data <= w < |before| ==> workers[w] == before[w]
    ensures forall w :: 0 <= w < data ==>
                          workers[w] == before[w].(instances := before[w].instances
                                                                + Shards(def, si, data, w, AtLeastOne(def.instances)))
  {
    var count := AtLeastOne(def.instances);
    workers := before;
    for j := 0 to count
      invariant |workers| == |before|
      invariant forall w :: data <= w < |before| ==> workers[w] == before[w]
      invariant forall w :: 0 <= w < data ==>
                              workers[w] == before[w].(instances := before[w].instances + Shards(def, si, data, w, j))
    {
      var home := j % data;
      workers := workers[home := Assign(workers[home], Instance(si, j, count, Some(def)))];
    }
  }

  /** A worker added for instance `j` of a dedicated service. */
  ghost predicate Hosts(worker: WorkerPlan, w: nat, def: Definition, si: nat, j: nat) {
    && worker.index == w
    && worker.dedicated
    && worker.instances == [Instance(si, j, AtLeastOne(def.instances), Some(def))]
  }

  method PlaceDedicated(before: seq<WorkerPlan>, def: Definition, si: nat) returns (workers: seq<WorkerPlan>)
    ensures |workers| == |before| + AtLeastOne(def.instances)
    ensures forall w :: 0 <= w < |before| ==> workers[w] == before[w]
    ensures forall w :: |before| <= w < |workers| ==> Hosts(workers[w], w, def, si, w - |before|)
  {
    var count := AtLeastOne(def.instances);
    workers := before;
    for j := 0 to count
      invariant |workers| == |before| + j
      invariant forall w :: 0 <= w < |before| ==> workers[w] == before[w]
      invariant forall w :: |before| <= w < |workers| ==> Hosts(workers[w], w, def, si, w - |before|)
    {
      workers := workers + [WorkerPlan(|workers|, 1, true, [Instance(si, j, count, Some(def))])];
    }
  }

  lemma {:induction false} LaidDedicated(before: seq<WorkerPlan>, after: seq<WorkerPlan>, data: nat,
      defs: seq<Definition>, n: nat)
    requires n < |defs| && defs[n].mode.Dedicated?
    requires Laid(before, data, defs, n) && |after| == |before| + AtLeastOne(defs[n].instances)
    requires forall w :: 0 <= w < |before| ==> after[w] == before[w]
    requires forall w :: |before| <= w < |after| ==> Hosts(after[w], w, defs[n], n, w - |before|)
    ensures Laid(after, data, defs, n + 1)
  {
    var old', new' := DedicatedTo(defs, n), DedicatedTo(defs, n + 1);
    assert new' == old' + Numbered(defs[n], n, AtLeastOne(defs[n].instances));
    forall w | 0 <= w < data ensures after[w].instances == DataInstances(defs, data, w, n + 1) {
      assert after[w] == before[w];
      assert ServiceOn(defs[n], n, data, w) == [];
    }
    forall w | data <= w < |after| ensures after[w].instances == [new'[w - data]] {
      if w >= |before| {
        assert Hosts(after[w], w, defs[n], n, w - |before|);
      }
    }
  }

  method PlaceService(before: seq<WorkerPlan>, data: nat, defs: seq<Definition>, si: nat)
    returns (workers: seq<WorkerPlan>)
    requires si < |defs| && data > 0 && Laid(before, data, defs, si)
    ensures Laid(workers, data, defs, si + 1)
  {
    var def := defs[si];
    match def.mode
    case Disabled =>
      workers := before;
      LaidData(before, workers, data, defs, si);
    case Singleton =>
      workers := before[0 := Assign(before[0], Instance(si, 0, 1, Some(def)))];
      LaidData(before, workers, data, defs, si);
    case AllWorkers =>
      workers := PlaceAll(before, data, def, si);
      LaidData(before, workers, data, defs, si);
    case Sharded =>
      workers := PlaceShards(before, data, def, si);
      LaidData(before, workers, data, defs, si);
    case Dedicated =>
      workers := PlaceDedicated(before, def, si);
      LaidDedicated(before, workers, data, defs, si);
  }

  /** Builds the worker plan; a worker count of zero means one data worker. */
  method BuildWorkerPlan(workerCount: nat, defs: seq<Definition>) returns (workers: seq<WorkerPlan>)
    ensures IsPlan(workers, AtLeastOne(workerCount), defs)
  {
    var data := AtLeastOne(workerCount);
    workers := [];
    for i := 0 to data
      invariant |workers| == i
      invariant forall w :: 0 <= w < i ==> workers[w] == WorkerPlan(w, data, false, [])
    {
      workers := workers + [WorkerPlan(i, data, false, [])];
    }
    for si := 0 to |defs|
      invariant Laid(workers, data, defs, si)
    {
      workers := PlaceService(workers, data, defs, si);
    }
    var total := |workers|;
    ghost var placed := workers;
    for i := 0 to total
      invariant |workers| == total
      invariant forall w :: 0 <= w < i ==> workers[w] == placed[w].(count := total)
      invariant forall w :: i <= w < total ==> workers[w] == placed[w]
    {
      workers := workers[i := workers[i].(count := total)];
    }
  }
}
