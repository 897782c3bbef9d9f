/**
  * The worker plan and the endpoint plan together: what the endpoint plan of a
  * built worker plan says about the service definitions it started from.
  */
module ServicePlan {
  import opened Wrappers
  import opened Placement
  import opened Endpoints

  /** A placed service listens on this key. */
  ghost predicate Serves(defs: seq<Definition>, data: nat, si: nat, key: Key) {
    && si < |defs|
    && Copies(defs[si], data) > 0
    && exists e :: e in defs[si].endpoints && Listening(e) && MakeKey(e) == key
  }

  /** Two services of different names both listen on one named port. */
  ghost predicate Clash(defs: seq<Definition>, data: nat, si: nat, sj: nat, key: Key) {
    && key.port != 0
    && Serves(defs, data, si, key)
    && Serves(defs, data, sj, key)
    && defs[si].name != defs[sj].name
  }

  ghost predicate Listed(defs: seq<Definition>, data: nat, key: Key, o: Owner) {
    && data > 0
    && Serves(defs, data, o.serviceIndex, key)
    && o.serviceName == defs[o.serviceIndex].name
    && o.instanceIndex < Copies(defs[o.serviceIndex], data)
    && o.worker == Home(defs, data, o.serviceIndex, o.instanceIndex)
  }

  // ---------- claims and services ----------

  lemma {:induction false} ClaimIsListed(workers: seq<WorkerPlan>, data: nat, defs: seq<Definition>, key: Key, o: Owner)
    requires IsPlan(workers, data, defs) && Claim(key, o) in Claims(workers, |workers|)
    ensures Listed(defs, data, key, o)
  {
    var w, k, t := Claimant(workers, Claim(key, o));
    var inst := workers[w].instances[k];
    PlacedDescribed(workers, data, defs, w, inst);
    assert inst.definition.value.endpoints[t] in defs[inst.serviceIndex].endpoints;
  }

  lemma {:induction false} ListedIsClaimed(workers: seq<WorkerPlan>, data: nat, defs: seq<Definition>, si: nat,
      j: nat, key: Key)
    returns (o: Owner)
    requires IsPlan(workers, data, defs) && Serves(defs, data, si, key) && j < Copies(defs[si], data)
    ensures Claim(key, o) in Claims(workers, |workers|)
    ensures o.serviceIndex == si && o.instanceIndex == j && o.serviceName == defs[si].name
  {
    HomeExists(workers, data, defs, si, j);
    var w := Home(defs, data, si, j);
    PlacedOnce(workers, data, defs, w, si, j);
    var k := CountFinds(workers[w].instances, Named(si, j), |workers[w].instances|);
    var inst := workers[w].instances[k];
    PlacedDescribed(workers, data, defs, w, inst);
    var e :| e in defs[si].endpoints && Listening(e) && MakeKey(e) == key;
    var t :| 0 <= t < |defs[si].endpoints| && defs[si].endpoints[t] == e;
    o := OwnerOf(workers[w].index, inst, defs[si], e);
    Claimed(workers, Claim(key, o), w, k, t);
  }

  // ---------- bindings and claims ----------

  /** The one binding of a claimed named port, with all its owners. */
  lemma {:induction false} BindingOf(plan: EndpointPlan, workers: seq<WorkerPlan>, key: Key, o: Owner)
      returns (b: Binding)
    requires IsEndpointPlan(plan, workers) && key.port != 0 && Claim(key, o) in Claims(workers, |workers|)
    ensures b in plan.bindings && b.key == key && b.owners == OwnersOf(Claims(workers, |workers|), key)
    ensures b.strategy == Choose(key, b.owners)
  {
    var claims := Claims(workers, |workers|);
    GroupingCorrect(claims);
    var i := Find(AddAll([], claims), key);
    assert Claim(key, o).key == key;
    b := plan.bindings[i];
    assert b == Classified(AddAll([], claims)[i]);
  }

  /** A binding that is not private has a named port and is owned by exactly the claims on it. */
  lemma {:induction false} SharedBinding(plan: EndpointPlan, workers: seq<WorkerPlan>, b: Binding)
    requires IsEndpointPlan(plan, workers) && b in plan.bindings && b.strategy != PrivateBind
    ensures b.key.port != 0 && b.owners == OwnersOf(Claims(workers, |workers|), b.key)
    ensures b.strategy == Choose(b.key, b.owners)
  {
    var claims := Claims(workers, |workers|);
    GroupingCorrect(claims);
    var i :| 0 <= i < |plan.bindings| && plan.bindings[i] == b;
    assert b == Classified(AddAll([], claims)[i]);
  }

  /** A listening endpoint on port zero never shares its binding, whatever else is claimed. */
  lemma {:induction false} PortZeroIsPrivate(plan: EndpointPlan, workers: seq<WorkerPlan>, i: nat)
    requires IsEndpointPlan(plan, workers) && i < |plan.bindings| && plan.bindings[i].key.port == 0
    ensures plan.bindings[i].strategy == PrivateBind && |plan.bindings[i].owners| == 1
    ensures Claim(plan.bindings[i].key, plan.bindings[i].owners[0]) in Claims(workers, |workers|)
  {
    var claims := Claims(workers, |workers|);
    var grouped := AddAll([], claims);
    GroupingCorrect(claims);
    AnonymousHas(grouped, i);
    AnonymousIsClaim(claims, grouped[i]);
  }

  lemma {:induction false} AnonymousHas(bindings: seq<Binding>, i: nat)
    requires i < |bindings| && bindings[i].key.port == 0
    ensures bindings[i] in Anonymous(bindings)
  {
    if i < |bindings| - 1 {
      AnonymousHas(bindings[..|bindings| - 1], i);
    }
  }

  lemma {:induction false} AnonymousIsClaim(claims: seq<Claim>, b: Binding)
    requires b in AnonymousClaims(claims)
    ensures |b.owners| == 1 && Claim(b.key, b.owners[0]) in claims
  {
    if b in AnonymousClaims(claims[..|claims| - 1]) {
      AnonymousIsClaim(claims[..|claims| - 1], b);
    }
  }

  // ---------- validity ----------

  ghost predicate Defined(worker: WorkerPlan) {
    forall e :: e in worker.instances ==> e.definition.Some?
  }

  lemma {:induction false} NoInstanceGaps(worker: WorkerPlan, n: nat)
    requires n <= |worker.instances| && Defined(worker)
    ensures InstanceGaps(worker, n) == []
  {
    if n > 0 {
      NoInstanceGaps(worker, n - 1);
      assert worker.instances[n - 1] in worker.instances;
    }
  }

  lemma {:induction false} NoGaps(workers: seq<WorkerPlan>, n: nat)
    requires n <= |workers| && forall w :: 0 <= w < |workers| ==> Defined(workers[w])
    ensures Gaps(workers, n) == []
  {
    if n > 0 {
      NoGaps(workers, n - 1);
      NoInstanceGaps(workers[n - 1], |workers[n - 1].instances|);
    }
  }

  lemma {:induction false} AllDefined(workers: seq<WorkerPlan>, data: nat, defs: seq<Definition>)
    requires IsPlan(workers, data, defs)
    ensures forall w :: 0 <= w < |workers| ==> Defined(workers[w])
  {
    forall w, e | 0 <= w < |workers| && e in workers[w].instances ensures e.definition.Some? {
      PlacedDescribed(workers, data, defs, w, e);
    }
  }

  lemma {:induction false} NoContests(bindings: seq<Binding>)
    requires forall b :: b in bindings ==> b.strategy != Conflict
    ensures Contests(bindings) == []
  {
    if bindings != [] {
      assert bindings[|bindings| - 1] in bindings;
      NoContests(bindings[..|bindings| - 1]);
    }
  }

  /**
    * For any worker plan at all: rejected exactly when an instance has no
    * definition or some named port is replicated under several service names.
    */
  lemma {:induction false} ValidIffUncontested(plan: EndpointPlan, workers: seq<WorkerPlan>)
    requires IsEndpointPlan(plan, workers)
    ensures ValidPlan(plan) <==>
            && Gaps(workers, |workers|) == []
            && forall c :: c in Claims(workers, |workers|) && c.key.port != 0 ==>
                             var owners := OwnersOf(Claims(workers, |workers|), c.key);
                             !(Replicated(owners) && Rivals(owners))
  {
    var claims := Claims(workers, |workers|);
    if ValidPlan(plan) {
      forall c | c in claims && c.key.port != 0
        ensures !(Replicated(OwnersOf(claims, c.key)) && Rivals(OwnersOf(claims, c.key)))
      {
        assert Claim(c.key, c.owner) == c;
        var b := BindingOf(plan, workers, c.key, c.owner);
      }
    } else if forall b :: b in plan.bindings ==> b.strategy != Conflict {
      NoContests(plan.bindings);
    } else {
      var b :| b in plan.bindings && b.strategy == Conflict;
      SharedBinding(plan, workers, b);
      var o :| o in b.owners;
      OwnersOfHas(claims, b.key, o);
    }
  }

  lemma {:induction false} ClashIsConflict(plan: EndpointPlan, workers: seq<WorkerPlan>, data: nat,
      defs: seq<Definition>, si: nat, sj: nat, key: Key)
    requires IsPlan(workers, data, defs) && IsEndpointPlan(plan, workers) && Clash(defs, data, si, sj, key)
    ensures exists b :: b in plan.bindings && b.strategy == Conflict
  {
    var claims := Claims(workers, |workers|);
    var a := ListedIsClaimed(workers, data, defs, si, 0, key);
    var z := ListedIsClaimed(workers, data, defs, sj, 0, key);
    var b := BindingOf(plan, workers, key, a);
    OwnersOfHas(claims, key, a);
    OwnersOfHas(claims, key, z);
    assert Apart(a, z);
  }

  lemma {:induction false} ConflictIsClash(plan: EndpointPlan, workers: seq<WorkerPlan>, data: nat,
      defs: seq<Definition>, b: Binding)
    requires IsPlan(workers, data, defs) && IsEndpointPlan(plan, workers)
    requires b in plan.bindings && b.strategy == Conflict
    ensures exists si, sj, key :: Clash(defs, data, si, sj, key)
  {
    var claims := Claims(workers, |workers|);
    SharedBinding(plan, workers, b);
    var x, y :| x in b.owners && y in b.owners && x.serviceName != y.serviceName;
    OwnersOfHas(claims, b.key, x);
    OwnersOfHas(claims, b.key, y);
    ClaimIsListed(workers, data, defs, b.key, x);
    ClaimIsListed(workers, data, defs, b.key, y);
    assert Clash(defs, data, x.serviceIndex, y.serviceIndex, b.key);
  }

  /**
    * The endpoint plan of a built worker plan is rejected exactly when two
    * placed services of different names listen on the same named port.
    */
  lemma {:induction false} ValidIffNoClash(plan: EndpointPlan, workers: seq<WorkerPlan>, data: nat,
      defs: seq<Definition>)
    requires IsPlan(workers, data, defs) && IsEndpointPlan(plan, workers)
    ensures ValidPlan(plan) <==> !exists si, sj, key :: Clash(defs, data, si, sj, key)
  {
    if si, sj, key :| Clash(defs, data, si, sj, key) {
      ClashIsConflict(plan, workers, data, defs, si, sj, key);
    } else {
      forall b | b in plan.bindings ensures b.strategy != Conflict {
        if b.strategy == Conflict {
          ConflictIsClash(plan, workers, data, defs, b);
        }
      }
      AllDefined(workers, data, defs);
      NoGaps(workers, |workers|);
      NoContests(plan.bindings);
    }
  }

  // ---------- port sharing ----------

  /** The service listens on this named port, and so does another instance of it or of a namesake. */
  ghost predicate Shares(defs: seq<Definition>, data: nat, si: nat, key: Key) {
    && key.port != 0
    && Serves(defs, data, si, key)
    && (Copies(defs[si], data) > 1 || exists sj :: Namesake(defs, data, si, sj, key))
  }

  ghost predicate Namesake(defs: seq<Definition>, data: nat, si: nat, sj: nat, key: Key)
    requires si < |defs|
  {
    sj != si && Serves(defs, data, sj, key) && defs[sj].name == defs[si].name
  }

  lemma {:induction false} SharingBinds(plan: EndpointPlan, workers: seq<WorkerPlan>, data: nat, defs: seq<Definition>,
      inst: Instance, key: Key)
    requires IsPlan(workers, data, defs) && IsEndpointPlan(plan, workers) && ValidPlan(plan)
    requires Described(defs, data, inst) && Shares(defs, data, inst.serviceIndex, key)
    ensures NeedsReuse(plan, inst)
  {
    var claims, si, j := Claims(workers, |workers|), inst.serviceIndex, inst.instanceIndex;
    var a := ListedIsClaimed(workers, data, defs, si, j, key);
    var z;
    if Copies(defs[si], data) > 1 {
      z := ListedIsClaimed(workers, data, defs, si, if j == 0 then 1 else 0, key);
    } else {
      var sj :| Namesake(defs, data, si, sj, key);
      z := ListedIsClaimed(workers, data, defs, sj, 0, key);
    }
    var b := BindingOf(plan, workers, key, a);
    OwnersOfHas(claims, key, a);
    OwnersOfHas(claims, key, z);
    assert Apart(a, z);
    assert Owns(a, inst, defs[si].name);
  }

  lemma {:induction false} BindingIsShared(plan: EndpointPlan, workers: seq<WorkerPlan>, data: nat,
      defs: seq<Definition>, inst: Instance)
    requires IsPlan(workers, data, defs) && IsEndpointPlan(plan, workers)
    requires Described(defs, data, inst) && NeedsReuse(plan, inst)
    ensures exists key :: Shares(defs, data, inst.serviceIndex, key)
  {
    var claims, si := Claims(workers, |workers|), inst.serviceIndex;
    var b, o :| b in plan.bindings && b.strategy == ReusePort && o in b.owners
                && Owns(o, inst, inst.definition.value.name);
    SharedBinding(plan, workers, b);
    var x, y :| x in b.owners && y in b.owners && Apart(x, y);
    OwnerListed(workers, data, defs, b, o);
    OwnerListed(workers, data, defs, b, x);
    OwnerListed(workers, data, defs, b, y);
    assert x.serviceName == o.serviceName && y.serviceName == o.serviceName;
    if x.serviceIndex != si {
      assert Namesake(defs, data, si, x.serviceIndex, b.key);
    } else if y.serviceIndex != si {
      assert Namesake(defs, data, si, y.serviceIndex, b.key);
    }
    assert Shares(defs, data, si, b.key);
  }

  lemma {:induction false} OwnerListed(workers: seq<WorkerPlan>, data: nat, defs: seq<Definition>, b: Binding, o: Owner)
    requires IsPlan(workers, data, defs) && b.owners == OwnersOf(Claims(workers, |workers|), b.key) && o in b.owners
    ensures Listed(defs, data, b.key, o)
  {
    OwnersOfHas(Claims(workers, |workers|), b.key, o);
    ClaimIsListed(workers, data, defs, b.key, o);
  }

  /**
    * In an accepted plan an instance must share its port exactly when its service listens on a
    * named port on which another instance, of the same service or of a namesake, listens too.
    */
  lemma {:induction false} ReuseIffShared(plan: EndpointPlan, workers: seq<WorkerPlan>, data: nat,
      defs: seq<Definition>, w: nat, inst: Instance)
    requires IsPlan(workers, data, defs) && IsEndpointPlan(plan, workers) && ValidPlan(plan)
    requires w < |workers| && inst in workers[w].instances
    ensures NeedsReuse(plan, inst) <==> exists key :: Shares(defs, data, inst.serviceIndex, key)
  {
    PlacedDescribed(workers, data, defs, w, inst);
    if NeedsReuse(plan, inst) {
      BindingIsShared(plan, workers, data, defs, inst);
    } else if key :| Shares(defs, data, inst.serviceIndex, key) {
      SharingBinds(plan, workers, data, defs, inst, key);
    }
  }

  ghost predicate UniqueNames(defs: seq<Definition>) {
    forall i, j :: 0 <= i < |defs| && 0 <= j < |defs| && defs[i].name == defs[j].name ==> i == j
  }

  ghost predicate NamedPort(def: Definition) {
    exists e :: e in def.endpoints && Listening(e) && e.port != 0
  }

  lemma {:induction false} UniqueShares(defs: seq<Definition>, data: nat, si: nat)
    requires UniqueNames(defs) && si < |defs| && Copies(defs[si], data) > 0
    ensures (exists key :: Shares(defs, data, si, key)) <==> Copies(defs[si], data) > 1 && NamedPort(defs[si])
  {
    if key :| Shares(defs, data, si, key) {
      var e :| e in defs[si].endpoints && Listening(e) && MakeKey(e) == key;
    } else if NamedPort(defs[si]) {
      var e :| e in defs[si].endpoints && Listening(e) && e.port != 0;
      assert Serves(defs, data, si, MakeKey(e));
      assert !Shares(defs, data, si, MakeKey(e));
    }
  }

  /**
    * With unique service names: exactly when the service listens on a named port and runs more
    * than once.
    */
  lemma {:induction false} ReuseIffReplicated(plan: EndpointPlan, workers: seq<WorkerPlan>, data: nat,
      defs: seq<Definition>, w: nat, inst: Instance)
    requires IsPlan(workers, data, defs) && IsEndpointPlan(plan, workers) && ValidPlan(plan) && UniqueNames(defs)
    requires w < |workers| && inst in workers[w].instances
    ensures Described(defs, data, inst)
    ensures NeedsReuse(plan, inst) <==> inst.instanceCount > 1 && NamedPort(defs[inst.serviceIndex])
  {
    PlacedDescribed(workers, data, defs, w, inst);
    ReuseIffShared(plan, workers, data, defs, w, inst);
    UniqueShares(defs, data, inst.serviceIndex);
  }

  /** Two services of one name, each run once, that listen on one named port. */
  function Namesakes(): (defs: seq<Definition>)
    ensures |defs| == 2 && defs[0] == defs[1]
  {
    var web := Definition("web", Singleton, 1, [Endpoint("http", "0.0.0.0", 80, "tcp")]);
    [web, web]
  }

  lemma {:induction false} NamesakesServe(data: nat, si: nat, sj: nat)
    requires si < 2 && sj < 2 && si != sj
    ensures exists key :: Shares(Namesakes(), data, si, key)
    ensures Copies(Namesakes()[si], data) == 1
  {
    var e := Namesakes()[si].endpoints[0];
    assert e in Namesakes()[si].endpoints && e in Namesakes()[sj].endpoints;
    assert NormalizeProtocol(e.protocol) != "internal" by {
      assert NormalizeProtocol("tcp") == "tcp";
    }
    assert Namesake(Namesakes(), data, si, sj, MakeKey(e));
    assert Shares(Namesakes(), data, si, MakeKey(e));
  }

  /**
    * So replication is not what decides: every plan of the namesakes is accepted, and both their
    * instances must share the port although neither service runs more than once.
    */
  lemma {:induction false} NamesakesShare(plan: EndpointPlan, workers: seq<WorkerPlan>, data: nat, si: nat)
      returns (w: nat, inst: Instance)
    requires IsPlan(workers, data, Namesakes()) && IsEndpointPlan(plan, workers) && si < 2
    ensures ValidPlan(plan) && w < |workers| && inst in workers[w].instances
    ensures inst.serviceIndex == si && inst.instanceCount == 1 && NeedsReuse(plan, inst)
  {
    var defs := Namesakes();
    NamesakesServe(data, si, 1 - si);
    ValidIffNoClash(plan, workers, data, defs);
    HomeExists(workers, data, defs, si, 0);
    w := Home(defs, data, si, 0);
    PlacedOnce(workers, data, defs, w, si, 0);
    var k := CountFinds(workers[w].instances, Named(si, 0), |workers[w].instances|);
    inst := workers[w].instances[k];
    PlacedDescribed(workers, data, defs, w, inst);
    ReuseIffShared(plan, workers, data, defs, w, inst);
  }
}
