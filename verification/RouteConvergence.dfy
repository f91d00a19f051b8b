/** One whole reconcile of a route that exists, without failures: it brings Mailgun in line with
    the spec where it can, and the next one has nothing left to do. */
module RouteConvergence {
  import opened Basics
  import opened Kube
  import opened RouteProtocol
  import opened RouteLife
  import Acc = Account

  /** At most `calls` calls, all of them answered. */
  ghost function Finish(s: State, calls: nat): State
    decreases calls
  {
    if calls == 0 || s.worker.Idle? then s else Finish(Step(s, NEXT), calls - 1)
  }

  /** A reconcile of the resource at `key` without failures. */
  ghost function Pass(s: State, key: Key): State {
    Finish(Step(s, Start(key)), 5)
  }

  ghost predicate GateOpen(a: Acc.Account, domain: string) {
    var r := Acc.GetDomain(a, domain).reply;
    domain == "" || (r.DomainBody? && r.domain.state == Acc.ACTIVE)
  }

  /** A live resource whose id is stored and whose finalizer is not on yet. */
  ghost predicate Unpinned(obj: RouteCR) {
    !obj.deleting && RouteFinalizer !in obj.finalizers
  }

  /** A resource with its route on Mailgun and its domain, if it names one, active: live, or under
      deletion without our finalizer.  Where the finalizer has yet to be added the cache must show
      the stored version, or the update is refused. */
  ghost predicate Established(s: State, key: Key, obj: RouteCR) {
    && s.worker.Idle? && Get(s.api, key) == Found(obj) && HasId(obj)
    && (obj.deleting ==> RouteFinalizer !in obj.finalizers)
    && (Unpinned(obj) ==> key in s.api.objs && s.api.objs[key] == obj)
    && Shows(s.acct, IdOf(obj)) && GateOpen(s.acct, DomainOf(obj.spec))
  }

  /** The resource, and the API server, once the finalizer is seen to. */
  ghost function WithPin(s: State, obj: RouteCR): RouteCR {
    if Unpinned(obj) then obj.(finalizers := obj.finalizers + {RouteFinalizer}, rv := s.api.clock + 1) else obj
  }

  ghost function PinnedApi(s: State, key: Key, obj: RouteCR): RouteApi {
    if Unpinned(obj) then Put(s.api, key, obj.(finalizers := obj.finalizers + {RouteFinalizer})) else s.api
  }

  /** The cache catches up with the finalizer, if one was added. */
  ghost function CaughtUp(s: State, added: bool): State {
    if added && |s.api.past| > 0 then Step(s, SyncCache(|s.api.past| - 1)) else s
  }

  /** The account after the gate was asked. */
  ghost function PastGate(a: Acc.Account, domain: string): Acc.Account {
    if domain == "" then a else Acc.GetDomain(a, domain).account
  }

  lemma GateStaysOpen(a: Acc.Account, domain: string)
    requires GateOpen(a, domain)
    ensures GateOpen(PastGate(a, domain), domain)
    ensures PastGate(PastGate(a, domain), domain) == PastGate(a, domain)
    ensures PastGate(a, domain).routes == a.routes && PastGate(a, domain).failRoutes == a.failRoutes
  {
    if domain != "" {
      var k := Acc.Find(a.domains, domain);
      Acc.FindRewritten(a.domains, k, Acc.GetDomain(a, domain).reply.domain, domain);
    }
  }

  /** The read, and the finalizer. */
  lemma Reading(s: State, key: Key, obj: RouteCR)
    requires Established(s, key, obj)
    ensures Pass(s, key) == Finish(s.(api := PinnedApi(s, key, obj), worker := Gate(key, WithPin(s, obj))), if Unpinned(obj) then 3 else 4)
  {
    var s1 := Step(s, Start(key));
    assert s1.worker == Busy(key, AtGet, BLANK, BLANK);
    var s2 := Step(s1, NEXT);
    assert Finish(s1, 5) == Finish(s2, 4);
    if Unpinned(obj) {
      var mem := obj.(finalizers := obj.finalizers + {RouteFinalizer});
      assert s2 == s.(worker := Busy(key, AtAddFinalizer, mem, obj));
      assert mem.finalizers != obj.finalizers;
      assert Step(s2, NEXT) == s.(api := PinnedApi(s, key, obj), worker := Gate(key, WithPin(s, obj)));
      assert Finish(s2, 4) == Finish(Step(s2, NEXT), 3);
    } else {
      assert s2 == s.(worker := Gate(key, obj));
    }
  }

  /** The gate. */
  lemma Gating(s: State, key: Key, obj: RouteCR, calls: nat)
    requires s.worker == Gate(key, obj) && HasId(obj) && GateOpen(s.acct, DomainOf(obj.spec)) && calls >= 1
    ensures var f := s.(acct := PastGate(s.acct, DomainOf(obj.spec)), worker := Busy(key, AtFetch, obj, obj));
            Finish(s, calls) == Finish(f, if DomainOf(obj.spec) == "" then calls else calls - 1)
  {
    if DomainOf(obj.spec) != "" {
      assert s.worker == Busy(key, AtGate, obj, obj);
      assert Finish(s, calls) == Finish(Step(s, NEXT), calls - 1);
    }
  }

  lemma ComparingFinishes(f: State, calls: nat)
    requires f.worker.Busy? && f.worker.pc.AtFetch? && Shows(f.acct, IdOf(f.worker.mem)) && calls >= 2
    ensures Finish(f, calls) == Compared(f)
  {
    PassUpdates(f);
    var g := Step(f, NEXT);
    assert Finish(f, calls) == Finish(g, calls - 1);
    if g.worker.Busy? { assert Finish(g, calls - 1) == Finish(Step(g, NEXT), calls - 2); }
  }

  /** The state in which the existing route is about to be fetched. */
  ghost function BeforeFetch(s: State, key: Key, obj: RouteCR): State {
    var p := WithPin(s, obj);
    s.(api := PinnedApi(s, key, obj), acct := PastGate(s.acct, DomainOf(obj.spec)), worker := Busy(key, AtFetch, p, p))
  }

  lemma PassCompares(s: State, key: Key, obj: RouteCR)
    requires Established(s, key, obj)
    ensures Pass(s, key) == Compared(BeforeFetch(s, key, obj))
  {
    GateStaysOpen(s.acct, DomainOf(obj.spec));
    Reading(s, key, obj);
    var g := s.(api := PinnedApi(s, key, obj), worker := Gate(key, WithPin(s, obj)));
    var calls := if Unpinned(obj) then 3 else 4;
    Gating(g, key, WithPin(s, obj), calls);
    ComparingFinishes(BeforeFetch(s, key, obj), if DomainOf(obj.spec) == "" then calls else calls - 1);
  }

  /** What the cache shows after the pass. */
  lemma Catching(s: State, s': State, key: Key, obj: RouteCR)
    requires Established(s, key, obj) && s'.api == PinnedApi(s, key, obj)
    ensures var t := CaughtUp(s', Unpinned(obj));
            && t == s'.(api := t.api) && Get(t.api, key) == Found(WithPin(s, obj))
            && key in s.api.past[s.api.seen]
  {
    if Unpinned(obj) {
      var api := s'.api;
      assert api.past[|api.past| - 1] == api.objs;
      assert api.objs[key] == WithPin(s, obj);
    }
  }

  lemma SameDomains(a: Acc.Account, a': Acc.Account, domain: string)
    requires a' == a.(routes := a'.routes) && GateOpen(a, domain) && PastGate(a, domain) == a
    ensures GateOpen(a', domain) && PastGate(a', domain) == a'
  {
  }

  lemma SecondPass(s': State, f: State, key: Key, obj: RouteCR)
    requires f.worker == Busy(key, AtFetch, obj, obj) && Shows(f.acct, IdOf(obj)) && s' == Compared(f)
    ensures Compared(s'.(worker := f.worker)) == s'
  {
    PassConverges(f);
    PassGh(f);
    PassGh(s'.(worker := f.worker));
  }

  /** Comparing and updating leave nothing in the history. */
  lemma PassGh(f: State)
    requires f.worker.Busy? && f.worker.pc.AtFetch? && Shows(f.acct, IdOf(f.worker.mem))
    ensures Compared(f).gh == f.gh
  {
  }

  /** The first pass. */
  lemma PassAgrees(s: State, key: Key, obj: RouteCR)
    requires Established(s, key, obj)
    ensures var id := IdOf(obj);
            var s' := Pass(s, key);
            && s'.worker == Idle(Quiet) && s'.api == PinnedApi(s, key, obj) && Shows(s'.acct, id)
            && Taken(s.acct.routes[id], obj.spec, s'.acct.routes[id])
            && (InLine(s'.acct.routes[id], obj.spec) <==> !Wanting(s.acct.routes[id], obj.spec))
            && s'.acct.routes == s.acct.routes[id := s'.acct.routes[id]]
            && s'.acct == PastGate(s.acct, DomainOf(obj.spec)).(routes := s'.acct.routes)
  {
    GateStaysOpen(s.acct, DomainOf(obj.spec));
    PassCompares(s, key, obj);
    PassConverges(BeforeFetch(s, key, obj));
  }

  /** The state the second pass starts from. */
  lemma PassEstablishes(s: State, key: Key, obj: RouteCR)
    requires Established(s, key, obj)
    ensures var s' := Pass(s, key);
            var t := CaughtUp(s', Unpinned(obj));
            && Established(t, key, WithPin(s, obj)) && !Unpinned(WithPin(s, obj))
            && t == s'.(api := t.api) && PastGate(t.acct, DomainOf(obj.spec)) == t.acct
  {
    var domain := DomainOf(obj.spec);
    var s' := Pass(s, key);
    PassAgrees(s, key, obj);
    GateStaysOpen(s.acct, domain);
    SameDomains(PastGate(s.acct, domain), s'.acct, domain);
    Catching(s, s', key, obj);
  }

  lemma ComparingIgnoresApi(f: State, api: RouteApi)
    requires f.worker.Busy? && f.worker.pc.AtFetch? && Shows(f.acct, IdOf(f.worker.mem))
    ensures Compared(f.(api := api)) == Compared(f).(api := api)
  {
    PassUpdates(f);
    PassUpdates(f.(api := api));
    PassGh(f);
    PassGh(f.(api := api));
  }

  /** The second pass. */
  lemma SecondPassRests(s: State, key: Key, obj: RouteCR)
    requires Established(s, key, obj)
    ensures var t := CaughtUp(Pass(s, key), Unpinned(obj)); Pass(t, key) == t
  {
    var p, t := WithPin(s, obj), CaughtUp(Pass(s, key), Unpinned(obj));
    var f := BeforeFetch(s, key, obj);
    PassEstablishes(s, key, obj);
    PassCompares(s, key, obj);
    PassCompares(t, key, p);
    GateStaysOpen(s.acct, DomainOf(obj.spec));
    ComparingIgnoresApi(f, t.api);
    SecondPass(t, f.(api := t.api), key, p);
    assert BeforeFetch(t, key, p) == t.(worker := f.worker);
  }

  /** One failure-free reconcile of an existing route, from the read to the last call: it ends
      quietly, with the finalizer on if the resource is live; every field of the spec that is not
      empty or zero is then the route's, so that Mailgun is in line with the spec exactly when no
      other field differs; it touches no other route; and the next one, once the cache shows the
      finalizer, changes nothing more. */
  lemma ReconcileConverges(s: State, key: Key, obj: RouteCR)
    requires Established(s, key, obj)
    ensures var id, p := IdOf(obj), WithPin(s, obj);
            var s' := Pass(s, key);
            && s'.worker == Idle(Quiet) && s'.api == PinnedApi(s, key, obj) && id in s'.acct.routes
            && Taken(s.acct.routes[id], obj.spec, s'.acct.routes[id])
            && (InLine(s'.acct.routes[id], obj.spec) <==> !Wanting(s.acct.routes[id], obj.spec))
            && s'.acct.routes == s.acct.routes[id := s'.acct.routes[id]]
            && (var t := CaughtUp(s', Unpinned(obj)); Established(t, key, p) && !Unpinned(p) && Pass(t, key) == t)
  {
    PassAgrees(s, key, obj);
    PassEstablishes(s, key, obj);
    SecondPassRests(s, key, obj);
  }
}
