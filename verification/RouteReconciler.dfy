/** The Route reconciler as it is written, over a Route updated in place; `Client` is the world
    it talks to, as in module DomainReconciler. */
module RouteReconciler {
  import opened Basics
  import opened RouteProtocol
  import RouteInvariants
  import RouteOrphans
  import RouteLife
  import Acc = Account
  import opened Runs
  import Kube

  class Client {
    var s: State
    ghost var trace: seq<State>
    ghost var run: seq<Action>

    ghost predicate Valid()
      reads this
    {
      IsRun(trace, run) && s == trace[|run|]
    }

    /** The run went on. */
    twostate predicate Later()
      reads this
    {
      old(run) <= run && old(trace) <= trace
    }

    constructor (world: State)
      requires Init(world)
      ensures Valid() && s == world
    {
      s, trace, run := world, [world], [];
    }

    method Take(a: Action)
      requires Valid()
      modifies this
      ensures Valid() && s == Step(old(s), a) && run == old(run) + [a] && old(trace) <= trace
    {
      TraceGrows(Step, trace, run, a);
      s := Step(s, a);
      trace, run := trace + [s], run + [a];
    }

    method Meanwhile()
      requires Valid()
      modifies this
      ensures Valid() && s.worker == old(s.worker) && Later()
    {
      var others: seq<Action> := *;
      for i := 0 to |others|
        invariant Valid() && s.worker == old(s.worker) && Later()
      {
        if !(others[i].Work? || others[i].Start? || others[i].Crash?) {
          Take(others[i]);
        }
      }
    }

    method Begin(key: Key)
      requires Valid() && s.worker.Idle?
      modifies this
      ensures Valid() && s.worker == Busy(key, AtGet, BLANK, BLANK) && Later()
    {
      Take(Start(key));
    }

    /** One remote call: the call the machine is about to make, and no other. */
    method Call(op: Op) returns (reply: Reply)
      requires Valid() && s.worker.Busy? && op == OpOf(s.worker)
      modifies this
      ensures Valid() && Later() && s.worker == Resume(old(s.worker), reply)
    {
      Meanwhile();
      var fate: Kube.Fate := *;
      var random: string := *;
      reply := Perform(s, op, fate, random).reply;
      Take(Work(fate, random));
    }
  }

  /** Whatever is proved of all runs holds in every state a client went through. */
  lemma ClientsAreSafe(client: Client, i: nat)
    requires client.Valid() && i <= |client.run|
    ensures var s := client.trace[i];
            && RouteInvariants.Ground(s) && RouteLife.GateHeld(s)
            && (FreshRun(client.trace, client.run) ==>
                  RouteLife.Honest(s) && forall t | t in s.gh.made && t in s.acct.routes :: RouteOrphans.OnePlace(s, t))
  {
    var trace, run := client.trace, client.run;
    RouteInvariants.RunsKeepGround(trace, run, i);
    RouteLife.RoutesWaitForTheirDomain(trace, run, i);
    if FreshRun(trace, run) {
      RouteLife.RunsStayHonest(trace, run, i);
      forall t | t in client.trace[i].gh.made && t in client.trace[i].acct.routes
        ensures RouteOrphans.OnePlace(client.trace[i], t)
      {
        RouteOrphans.RoutesAreAccounted(trace, run, i, t);
      }
    }
  }

  /** A Route in memory. */
  class Route {
    const key: Key
    var uid: nat
    var rv: nat
    var deleting: bool
    var finalizers: set<Kube.Finalizer>
    var spec: RouteSpec
    var status: RouteStatus

    function Value(): RouteCR
      reads this
    {
      Kube.Obj(uid, rv, deleting, finalizers, spec, status)
    }

    constructor (key: Key)
      ensures this.key == key && Value() == BLANK
    {
      this.key := key;
      uid, rv, deleting := BLANK.uid, BLANK.rv, BLANK.deleting;
      finalizers, spec, status := BLANK.finalizers, BLANK.spec, BLANK.status;
    }

    /** Fills the object from an answer of the API server. */
    method Load(obj: RouteCR)
      modifies this
      ensures Value() == obj
    {
      uid, rv, deleting := obj.uid, obj.rv, obj.deleting;
      finalizers, spec, status := obj.finalizers, obj.spec, obj.status;
    }
  }

  /** The worker stands before call `pc` with the object in memory, based on version `base`. */
  ghost predicate Stands(w: Worker, pc: Pc, key: Key, mem: RouteCR, base: RouteCR) {
    w == Busy(key, pc, mem, base)
  }

  class RouteReconciler {
    const client: Client

    constructor (client: Client)
      ensures this.client == client
    {
      this.client := client;
    }

    /** `Update`: on success the object in memory becomes the stored one. */
    method Update(route: Route) returns (ok: bool, ghost reply: Reply)
      requires client.Valid() && client.s.worker.Busy? && OpOf(client.s.worker) == UpdateCR(route.key, route.Value())
      modifies client, route
      ensures client.Valid() && client.Later() && ok == reply.RObj?
      ensures client.s.worker == Resume(old(client.s.worker), reply)
      ensures route.Value() == if ok then reply.obj else old(route.Value())
    {
      var r := client.Call(UpdateCR(route.key, route.Value()));
      ok, reply := r.RObj?, r;
      if r.RObj? { route.Load(r.obj); }
    }

    /** `Status().Update`. */
    method StatusUpdate(route: Route) returns (ok: bool, ghost reply: Reply)
      requires client.Valid() && client.s.worker.Busy? && OpOf(client.s.worker) == StatusCR(route.key, route.Value())
      modifies client, route
      ensures client.Valid() && client.Later() && ok == reply.RObj?
      ensures client.s.worker == Resume(old(client.s.worker), reply)
      ensures route.Value() == if ok then reply.obj else old(route.Value())
    {
      var r := client.Call(StatusCR(route.key, route.Value()));
      ok, reply := r.RObj?, r;
      if r.RObj? { route.Load(r.obj); }
    }

    /** One pass over the resource at `key`: exactly the run of the machine from its start to its
        result. */
    method Reconcile(key: Key) returns (result: Result)
      requires client.Valid() && client.s.worker.Idle?
      modifies client
      ensures client.Valid() && client.Later()
      ensures client.s.worker == Idle(result)
    {
      client.Begin(key);
      var route := new Route(key);
      var fetched := client.Call(GetCR(key));
      if !fetched.RObj? {
        return if fetched.RNotFound? then Quiet else Error;
      }
      route.Load(fetched.obj);
      if !route.deleting {
        if Kube.RouteFinalizer !in route.finalizers {
          if route.status.routeID.Some? && |route.status.routeID.value| > 0 {
            route.finalizers := route.finalizers + {Kube.RouteFinalizer};
            var updated, _ := Update(route);
            if !updated {
              return Error;
            }
          }
        }
      } else {
        if Kube.RouteFinalizer in route.finalizers {
          result := Delete(route);
          return;
        }
      }
      result := PassGate(route);
    }

    /** The deletion half. */
    method Delete(route: Route) returns (result: Result)
      requires client.Valid() && route.deleting && Kube.RouteFinalizer in route.finalizers
      requires client.s.worker == Fetched(route.key, route.Value())
      modifies client, route
      ensures client.Valid() && client.Later()
      ensures client.s.worker == Idle(result)
    {
      if route.status.routeID.None? {
        route.finalizers := route.finalizers - {Kube.RouteFinalizer};
        var updated, _ := Update(route);
        return if updated then Quiet else Error;
      }
      var found := client.Call(MgGetRoute(route.status.routeID.value));
      if found.RRoute? {
        var deleted := client.Call(MgDeleteRoute(route.status.routeID.value));
        if !deleted.RDone? {
          route.status := route.status.(mailgunError := Some(NotDeleted));
          var _, _ := StatusUpdate(route);
          return Error;
        }
      }
      route.finalizers := route.finalizers - {Kube.RouteFinalizer};
      var updated, _ := Update(route);
      result := if updated then Quiet else Error;
    }

    /** Waits for the domain, where the spec names one. */
    method PassGate(route: Route) returns (result: Result)
      requires client.Valid() && client.s.worker == Gate(route.key, route.Value())
      modifies client, route
      ensures client.Valid() && client.Later()
      ensures client.s.worker == Idle(result)
    {
      var routeDomain := "";
      if route.spec.domain.Some? && |route.spec.domain.value| > 0 {
        routeDomain := route.spec.domain.value;
      }
      if |routeDomain| > 0 {
        var found := client.Call(MgGetDomain(routeDomain));
        if !found.RDomain? || found.state != "active" {
          route.status := route.status.(mailgunError := Some(if found.RDomain? then DomainInactive else DomainMissing));
          var stored, _ := StatusUpdate(route);
          return if stored then RequeueAfter(5) else Error;
        }
      }
      result := Sync(route);
    }

    /** Updates the route the resource records, or creates one. */
    method Sync(route: Route) returns (result: Result)
      requires client.Valid() && client.s.worker == Converge(route.key, route.Value())
      modifies client, route
      ensures client.Valid() && client.Later()
      ensures client.s.worker == Idle(result)
    {
      var request := Acc.MgRoute("", 0, route.spec.actions, route.spec.description, route.spec.expression);
      if route.spec.priority.Some? && route.spec.priority.value != 0 {
        request := request.(priority := route.spec.priority.value);
      }
      if route.status.routeID.Some? && |route.status.routeID.value| > 0 {
        result := UpdateExisting(route, request);
      } else {
        result := Create(route, request);
      }
    }

    method UpdateExisting(route: Route, request: Acc.MgRoute) returns (result: Result)
      requires client.Valid() && request == Request(route.spec) && HasId(route.Value())
      requires Stands(client.s.worker, AtFetch, route.key, route.Value(), route.Value())
      modifies client, route
      ensures client.Valid() && client.Later()
      ensures client.s.worker == Idle(result)
    {
      var found := client.Call(MgGetRoute(route.status.routeID.value));
      if !found.RRoute? {
        return Quiet;
      }
      var exist := found.route;
      var update := false;
      if exist.description != request.description || exist.expression != request.expression
         || |exist.actions| != |request.actions| || exist.priority != request.priority {
        update := true;
      }
      if update {
        var updated := client.Call(MgUpdateRoute(route.status.routeID.value, request));
        if !updated.RRoute? {
          route.status := route.status.(mailgunError := Some(NotUpdated));
          var _, _ := StatusUpdate(route);
          return Error;
        }
      }
      result := Quiet;
    }

    /** The route first, its id next, the finalizer last. */
    method Create(route: Route, request: Acc.MgRoute) returns (result: Result)
      requires client.Valid() && request == Request(route.spec)
      requires Stands(client.s.worker, AtCreate, route.key, route.Value(), route.Value())
      modifies client, route
      ensures client.Valid() && client.Later()
      ensures client.s.worker == Idle(result)
    {
      var created := client.Call(MgCreateRoute(request));
      if !created.RRoute? {
        route.status := route.status.(mailgunError := Some(NotCreated));
        var reported, _ := StatusUpdate(route);
        return if reported then RequeueAfter(1) else Error;
      }
      route.status := route.status.(routeID := Some(created.route.id));
      var stored, _ := StatusUpdate(route);
      if !stored {
        return Error;
      }
      ghost var base := route.Value();
      if Kube.RouteFinalizer !in route.finalizers {
        route.finalizers := route.finalizers + {Kube.RouteFinalizer};
      }
      assert route.finalizers == base.finalizers + {Kube.RouteFinalizer};
      var pinned, _ := Update(route);
      result := if pinned then Quiet else Error;
    }
  }
}
