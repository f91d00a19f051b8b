/** The life of a Route resource: which steps lose a route, that routes wait for their domain,
    that no resource is forgotten, and that an update brings Mailgun in line. */
module RouteLife {
  import opened Basics
  import opened Kube
  import opened Runs
  import opened RouteProtocol
  import opened RouteInvariants
  import opened RouteOrphans
  import Acc = Account

  // ----- the steps that lose a route -----

  ghost predicate Stray(s: State, t: string) {
    t in s.gh.made && t in s.acct.routes && Hand(s.worker) != Some(t) && !Recorded(s.api.objs, s.gh.made, t)
  }

  ghost predicate NoStrays(s: State) {
    forall t :: !Stray(s, t)
  }

  ghost predicate RemovesLast(api: RouteApi, key: Key, a: Action) {
    && key in api.objs
    && (a.DeleteCR? ==> !api.objs[key].deleting && api.objs[key].finalizers == {})
    && (a.SetFinalizers? ==>
          && api.objs[key].deleting && api.objs[key].finalizers != {}
          && RouteFinalizer !in api.objs[key].finalizers && a.others - {RouteFinalizer} == {})
  }

  /** A creation whose answer is lost; an id that is not stored, or a crash before it is; and the
      removal of a resource whose route is still there, by a user while our finalizer is not on it,
      or by the operator's own last write of a deletion. */
  ghost predicate Loses(s: State, a: Action) {
    match a
    case Work(fate, _) =>
      && s.worker.Busy?
      && var w := s.worker;
         var current := w.key in s.api.objs && s.api.objs[w.key] == w.base;
         || (w.pc.AtCreate? && fate == FailsAfter && w.mem.spec.description != "fail")
         || (w.pc.AtStoreId? && (fate == FailsBefore || !current) && IdOf(w.mem) in s.acct.routes)
         || (w.pc.AtDropFinalizer? && fate != FailsBefore && current && w.base.finalizers == {RouteFinalizer}
             && IdOf(w.base) in s.acct.routes)
    case Crash => s.worker.Busy? && s.worker.pc.AtStoreId? && IdOf(s.worker.mem) in s.acct.routes
    case DeleteCR(key) => RemovesLast(s.api, key, a) && HasId(s.api.objs[key]) && IdOf(s.api.objs[key]) in s.acct.routes
    case SetFinalizers(key, _) => RemovesLast(s.api, key, a) && HasId(s.api.objs[key]) && IdOf(s.api.objs[key]) in s.acct.routes
    case _ => false
  }

  /** No route charged so far is on Mailgun. */
  ghost predicate ChargesGone(charged: Losses, routes: map<string, Acc.MgRoute>) {
    forall t | t in charged :: t !in routes
  }

  lemma StraysAreCharged(s: State)
    requires Books(s)
    ensures NoStrays(s) <==> ChargesGone(s.gh.charged, s.acct.routes)
  {
    forall t | t in s.gh.made && t in s.acct.routes
      ensures Stray(s, t) <==> t in s.gh.charged
    {
      BooksBalance(s, t);
    }
  }

  lemma CreateLoses(s: State, fate: Fate, random: string)
    requires Books(s) && Fresh(s, Work(fate, random)) && s.worker.Busy? && s.worker.pc.AtCreate?
    requires ChargesGone(s.gh.charged, s.acct.routes)
    ensures var s' := WorkStep(s, fate, random);
            ChargesGone(s'.gh.charged, s'.acct.routes) <==> !Loses(s, Work(fate, random))
  {
    CreationShape(s, fate, random);
    var s' := WorkStep(s, fate, random);
    var name := RouteName(random);
    assert name in s'.acct.routes <==> fate != FailsBefore && s.worker.mem.spec.description != "fail";
    if name in s'.acct.routes && name in s'.gh.charged {
      assert !ChargesGone(s'.gh.charged, s'.acct.routes);
    }
  }

  lemma StoreLoses(s: State, fate: Fate, random: string)
    requires Ground(s) && Books(s) && s.worker.Busy? && s.worker.pc.AtStoreId?
    requires ChargesGone(s.gh.charged, s.acct.routes)
    ensures var s' := WorkStep(s, fate, random);
            ChargesGone(s'.gh.charged, s'.acct.routes) <==> !Loses(s, Work(fate, random))
  {
    StoreShape(s, fate, random);
    StoreLands(s, fate, random);
    var s' := WorkStep(s, fate, random);
    var t := IdOf(s.worker.mem);
    if Loses(s, Work(fate, random)) { assert t in s'.gh.charged && t in s'.acct.routes; }
  }

  lemma StoreLands(s: State, fate: Fate, random: string)
    requires Ground(s) && s.worker.Busy? && s.worker.pc.AtStoreId?
    ensures var w := s.worker;
            WorkStep(s, fate, random).api.clock != s.api.clock
            <==> fate != FailsBefore && w.key in s.api.objs && s.api.objs[w.key] == w.base
  {
    var w := s.worker;
    assert w.mem.status != w.base.status by { assert HasId(w.mem) && !HasId(w.base); }
  }

  lemma DropLoses(s: State, fate: Fate, random: string)
    requires Ground(s) && Books(s) && s.worker.Busy? && s.worker.pc.AtDropFinalizer?
    requires ChargesGone(s.gh.charged, s.acct.routes)
    ensures var s' := WorkStep(s, fate, random);
            ChargesGone(s'.gh.charged, s'.acct.routes) <==> !Loses(s, Work(fate, random))
  {
    var w, s' := s.worker, WorkStep(s, fate, random);
    DropRemoves(s, fate, random);
    var t := IdOf(w.base);
    if Loses(s, Work(fate, random)) { assert t in s'.gh.charged && t in s'.acct.routes; }
  }

  lemma DropRemoves(s: State, fate: Fate, random: string)
    requires Ground(s) && s.worker.Busy? && s.worker.pc.AtDropFinalizer?
    ensures var w, s' := s.worker, WorkStep(s, fate, random);
            && s'.acct == s.acct && s'.gh.charged == ChargeGone(s, w.key, s'.api, DroppedAfterLie)
            && (w.key in s.api.objs && w.key !in s'.api.objs
                <==> fate != FailsBefore && w.key in s.api.objs && s.api.objs[w.key] == w.base && w.base.finalizers == {RouteFinalizer})
  {
    var w := s.worker;
    assert w.mem.finalizers == {} <==> w.base.finalizers == {RouteFinalizer};
    assert w.mem.finalizers != w.base.finalizers;
  }

  lemma PlainCallLosesNothing(s: State, fate: Fate, random: string)
    requires Ground(s) && Books(s) && s.worker.Busy? && IsPlain(s.worker.pc)
    requires ChargesGone(s.gh.charged, s.acct.routes)
    ensures var s' := WorkStep(s, fate, random); ChargesGone(s'.gh.charged, s'.acct.routes)
  {
    var d := Perform(s, OpOf(s.worker), fate, random);
    PlainRequestReturnsNone(s, fate, random);
    PlainNotes(s, d.state, d.reply, random);
  }

  lemma UserLoses(s: State, a: Action)
    requires Books(s) && ChargesGone(s.gh.charged, s.acct.routes) && (a.DeleteCR? || a.SetFinalizers?)
    ensures var s' := Step(s, a);
            ChargesGone(s'.gh.charged, s'.acct.routes) <==> !Loses(s, a)
  {
    var s' := Step(s, a);
    UserRemoves(s, a);
    if Loses(s, a) { assert IdOf(s.api.objs[a.key]) in s'.gh.charged; }
  }

  lemma UserRemoves(s: State, a: Action)
    requires a.DeleteCR? || a.SetFinalizers?
    ensures a.key in s.api.objs && a.key !in Step(s, a).api.objs <==> RemovesLast(s.api, a.key, a)
  {
    if a.SetFinalizers? && a.key in s.api.objs {
      var obj := s.api.objs[a.key];
      var kept := (a.others - {RouteFinalizer}) + (obj.finalizers * {RouteFinalizer});
      assert kept == {} <==> RouteFinalizer !in obj.finalizers && a.others - {RouteFinalizer} == {};
    }
  }

  lemma StepLoses(s: State, a: Action)
    requires Ground(s) && Books(s) && Fresh(s, a) && NoStrays(s)
    ensures NoStrays(Step(s, a)) <==> !Loses(s, a)
  {
    StepKeepsBooks(s, a);
    StraysAreCharged(s);
    StraysAreCharged(Step(s, a));
    match a {
      case Work(fate, random) =>
        if s.worker.Busy? {
          if s.worker.pc.AtCreate? { CreateLoses(s, fate, random); }
          else if s.worker.pc.AtStoreId? { StoreLoses(s, fate, random); }
          else if s.worker.pc.AtDropFinalizer? { DropLoses(s, fate, random); }
          else { PlainCallLosesNothing(s, fate, random); }
        }
      case DeleteCR(_) => UserLoses(s, a);
      case SetFinalizers(_, _) => UserLoses(s, a);
      case Crash => CrashLoses(s);
      case Mailgun(r) => ServeReturnsNone(s.acct, r, s.gh.made);
      case _ =>
    }
  }

  lemma CrashLoses(s: State)
    requires Books(s) && ChargesGone(s.gh.charged, s.acct.routes)
    ensures ChargesGone(Step(s, Crash).gh.charged, s.acct.routes) <==> !Loses(s, Crash)
  {
    if Loses(s, Crash) { assert IdOf(s.worker.mem) in Step(s, Crash).gh.charged; }
  }

  /** From a state of any run without stray routes, the next step leaves one if and only if it is
      one of those. */
  lemma StraysComeFrom(trace: seq<State>, run: seq<Action>, i: nat)
    requires IsRun(trace, run) && FreshRun(trace, run) && i < |run| && NoStrays(trace[i])
    ensures NoStrays(trace[i + 1]) <==> !Loses(trace[i], run[i])
  {
    RunsKeepGround(trace, run, i);
    RunsKeepBooks(trace, run, i);
    Advance(Step, trace, run, i);
    StepLoses(trace[i], run[i]);
  }

  // ----- deletions -----

  ghost predicate IdMade(gh: History, obj: RouteCR) {
    HasId(obj) ==> IdOf(obj) in gh.made
  }

  /** Every id ever stored was given out to the operator. */
  ghost predicate PastIdsMade(gh: History, api: RouteApi) {
    forall i, k | 0 <= i < |api.past| && k in api.past[i] :: IdMade(gh, api.past[i][k])
  }

  /** After an honest probe the route is gone when the finalizer goes. */
  ghost predicate Honest(s: State) {
    && PastIdsMade(s.gh, s.api)
    && (s.worker.Busy? && !s.worker.pc.AtGet? ==> IdMade(s.gh, s.worker.base) && IdMade(s.gh, s.worker.mem))
    && (s.worker.Busy? && s.worker.pc.AtDropFinalizer? && !s.gh.lied ==> IdOf(s.worker.base) !in s.acct.routes)
  }

  ghost predicate MadeGrows(gh: History, gh': History) {
    forall t | t in gh.made :: t in gh'.made
  }

  lemma CommitIdsMade(gh: History, gh': History, api: RouteApi, objs: Stored)
    requires PastIdsMade(gh, api) && MadeGrows(gh, gh') && forall k | k in objs :: IdMade(gh', objs[k])
    ensures PastIdsMade(gh', Commit(api, objs))
  {
  }

  lemma CallIdsMade(s: State, fate: Fate, random: string)
    requires Ground(s) && Honest(s) && s.worker.Busy?
    ensures PastIdsMade(s.gh, Perform(s, OpOf(s.worker), fate, random).state.api)
  {
    var w := s.worker;
    var api' := Perform(s, OpOf(w), fate, random).state.api;
    CallSteps(s, fate, random);
    CallTouches(s, fate, random);
    assert s.api.past[|s.api.past| - 1] == s.api.objs;
    if IsUpdate(w.pc) {
      UpdateAnswer(s.api, w.key, w.mem, w.base, fate);
    } else if IsStatus(w.pc) {
      StatusAnswer(s.api, w.key, w.mem, w.base, fate);
    }
    if api' != s.api {
      assert forall k | k in api'.objs :: IdMade(s.gh, api'.objs[k]);
      CommitIdsMade(s.gh, s.gh, s.api, api'.objs);
    }
  }

  /** The reads and answers that may put an id in the worker's hands. */
  lemma WorkerIdsMade(s: State, fate: Fate, random: string)
    requires Ground(s) && Honest(s) && s.worker.Busy? && !s.worker.pc.AtGet?
    requires s.worker.pc.AtCreate? ==> RouteName(random) !in s.acct.routes
    ensures var s' := WorkStep(s, fate, random);
            s'.worker.Busy? ==> IdMade(s'.gh, s'.worker.base) && IdMade(s'.gh, s'.worker.mem)
  {
    var d := Perform(s, OpOf(s.worker), fate, random);
    CallFits(s, fate, random);
    if s.worker.pc.AtCreate? { CreationShape(s, fate, random); }
  }

  lemma ReadIdsMade(s: State, fate: Fate, random: string)
    requires Ground(s) && Honest(s) && s.worker.Busy? && s.worker.pc.AtGet?
    ensures var s' := WorkStep(s, fate, random);
            s'.gh == s.gh && (s'.worker.Busy? ==> IdMade(s.gh, s'.worker.base) && IdMade(s.gh, s'.worker.mem))
  {
    var d := Perform(s, OpOf(s.worker), fate, random);
    if d.reply.RObj? { assert IdMade(s.gh, d.reply.obj); }
  }

  lemma ProbesAreHonest(s: State, fate: Fate, random: string)
    requires Ground(s) && s.worker.Busy?
    ensures var s' := WorkStep(s, fate, random);
            s'.worker.Busy? && s'.worker.pc.AtDropFinalizer? && !s'.gh.lied ==> IdOf(s'.worker.base) !in s'.acct.routes
  {
  }

  lemma WorkStaysHonest(s: State, fate: Fate, random: string)
    requires Ground(s) && Honest(s) && s.worker.Busy? && Fresh(s, Work(fate, random))
    ensures Honest(WorkStep(s, fate, random))
  {
    CallIdsMade(s, fate, random);
    ProbesAreHonest(s, fate, random);
    if s.worker.pc.AtGet? { ReadIdsMade(s, fate, random); } else { WorkerIdsMade(s, fate, random); }
  }

  lemma UserStaysHonest(s: State, a: Action)
    requires Ground(s) && Honest(s) && (a.CreateCR? || a.EditCR? || a.DeleteCR? || a.SetFinalizers?)
    ensures Honest(Step(s, a))
  {
    var s' := Step(s, a);
    UserSteps(s, a);
    UserKeepsRecords(s, a);
    assert s.api.past[|s.api.past| - 1] == s.api.objs;
    if s'.api != s.api {
      forall k | k in s'.api.objs
        ensures IdMade(s'.gh, s'.api.objs[k])
      {
        assert HasId(s'.api.objs[k]) ==> k in s.api.objs && IdMade(s.gh, s.api.objs[k]);
      }
      CommitIdsMade(s.gh, s'.gh, s.api, s'.api.objs);
    }
  }

  lemma StepStaysHonest(s: State, a: Action)
    requires Ground(s) && Honest(s) && Fresh(s, a)
    ensures Honest(Step(s, a))
  {
    match a {
      case Work(fate, random) => if s.worker.Busy? { WorkStaysHonest(s, fate, random); }
      case CreateCR(_, _, _) => UserStaysHonest(s, a);
      case EditCR(_, _) => UserStaysHonest(s, a);
      case DeleteCR(_) => UserStaysHonest(s, a);
      case SetFinalizers(_, _) => UserStaysHonest(s, a);
      case Mailgun(r) => ServeReturnsNone(s.acct, r, s.gh.made);
      case _ =>
    }
  }

  lemma {:induction false} RunsStayHonest(trace: seq<State>, run: seq<Action>, i: nat)
    requires IsRun(trace, run) && i <= |run| && FreshRun(trace, run)
    ensures Honest(trace[i])
  {
    if i > 0 {
      Advance(Step, trace, run, i - 1);
      RunsStayHonest(trace, run, i - 1);
      RunsKeepGround(trace, run, i - 1);
      StepStaysHonest(trace[i - 1], run[i - 1]);
    }
  }

  /** The last write of a deletion loses a route only if the probe before it answered falsely. */
  lemma OnlyALieDropsARoute(trace: seq<State>, run: seq<Action>, i: nat)
    requires IsRun(trace, run) && FreshRun(trace, run) && i < |run|
    requires run[i].Work? && trace[i].worker.Busy? && trace[i].worker.pc.AtDropFinalizer?
    requires trace[i + 1].gh.charged != trace[i].gh.charged
    ensures trace[i].gh.lied
  {
    RunsStayHonest(trace, run, i);
    RunsKeepGround(trace, run, i);
    Advance(Step, trace, run, i);
    DropRemoves(trace[i], run[i].fate, run[i].random);
  }

  // ----- gating -----

  /** Routes and the worker past the gate have an active domain. */
  ghost predicate GateHeld(s: State) {
    && (forall t | t in s.gh.gated :: s.gh.gated[t] in s.acct.active)
    && (s.worker.Busy? && (s.worker.pc.AtCreate? || s.worker.pc.AtFetch?) ==>
          forall d :: s.worker.mem.spec.domain == Some(d) && d != "" ==> d in s.acct.active)
  }

  lemma RequestKeepsActive(a: Acc.Account, r: Acc.Request)
    requires !r.Activate?
    ensures Acc.Serve(a, r).active == a.active
  {
  }

  lemma CallsKeepActive(s: State, fate: Fate, random: string)
    requires s.worker.Busy? && !s.worker.pc.AtDropNil?
    ensures Perform(s, OpOf(s.worker), fate, random).state.acct.active == s.acct.active
  {
    CallTouches(s, fate, random);
    RequestKeepsActive(s.acct, RequestOf(s.worker, random));
  }

  lemma WorkHoldsGate(s: State, fate: Fate, random: string)
    requires Ground(s) && GateHeld(s) && s.worker.Busy?
    ensures GateHeld(WorkStep(s, fate, random))
  {
    CallsKeepActive(s, fate, random);
    PassesGate(s, fate, random);
  }

  /** Nothing gets past the gate but a domain Mailgun reports active. */
  lemma PassesGate(s: State, fate: Fate, random: string)
    requires Ground(s) && s.worker.Busy?
    ensures var w' := WorkStep(s, fate, random).worker;
            w'.Busy? && (w'.pc.AtCreate? || w'.pc.AtFetch?) ==>
              forall d :: w'.mem.spec.domain == Some(d) && d != "" ==> d in s.acct.active
  {
    if s.worker.pc.AtGate? { Acc.ReportsAreTrue(s.acct, DomainOf(s.worker.mem.spec)); }
  }

  lemma StepHoldsGate(s: State, a: Action)
    requires Ground(s) && GateHeld(s)
    ensures GateHeld(Step(s, a))
  {
    match a {
      case Work(fate, random) => if s.worker.Busy? { WorkHoldsGate(s, fate, random); }
      case Mailgun(r) => Acc.ServeGrows(s.acct, r);
      case _ =>
    }
  }

  /** In every state of every run, each route created for a resource that names a domain has that
      domain among those Mailgun was told to activate. */
  lemma {:induction false} RoutesWaitForTheirDomain(trace: seq<State>, run: seq<Action>, i: nat)
    requires IsRun(trace, run) && i <= |run|
    ensures GateHeld(trace[i])
  {
    if i > 0 {
      Advance(Step, trace, run, i - 1);
      RoutesWaitForTheirDomain(trace, run, i - 1);
      RunsKeepGround(trace, run, i - 1);
      StepHoldsGate(trace[i - 1], run[i - 1]);
    }
  }

  // ----- no lost wakeup -----

  /** Nothing is left to do for this uid. */
  ghost predicate Finished(api: RouteApi, key: Key, uid: nat) {
    key in api.objs && api.objs[key].uid == uid ==>
      HasId(api.objs[key]) || (api.objs[key].deleting && RouteFinalizer !in api.objs[key].finalizers)
  }

  lemma QuietComesFrom(w: Worker, r: Reply)
    requires w.Busy? && !w.pc.AtGet? && Resume(w, r) == Idle(Quiet)
    ensures w.pc.AtFetch? || w.pc.AtUpdateRoute? || (r.RObj? && (w.pc.AtPin? || w.pc.AtDropFinalizer? || w.pc.AtDropNil?))
  {
  }

  /** A reconcile that returns no error and no delay found no resource in the cache, or leaves the
      one it worked on gone, or under deletion without our finalizer, or with its id stored. */
  lemma NoLostWakeup(trace: seq<State>, run: seq<Action>, i: nat)
    requires IsRun(trace, run) && i < |run|
    requires run[i].Work? && trace[i].worker.Busy? && trace[i + 1].worker == Idle(Quiet)
    ensures var e, e' := trace[i], trace[i + 1];
            if e.worker.pc.AtGet? then Get(e.api, e.worker.key).Missing? else Finished(e'.api, e.worker.key, e.worker.base.uid)
  {
    RunsKeepGround(trace, run, i);
    Advance(Step, trace, run, i);
    if !trace[i].worker.pc.AtGet? {
      QuietAfterCall(trace[i], run[i].fate, run[i].random);
    } else {
      QuietRead(trace[i], run[i].fate, run[i].random);
    }
  }

  lemma QuietRead(s: State, fate: Fate, random: string)
    requires s.worker.Busy? && s.worker.pc.AtGet? && WorkStep(s, fate, random).worker == Idle(Quiet)
    ensures Get(s.api, s.worker.key).Missing?
  {
  }

  lemma QuietAfterCall(s: State, fate: Fate, random: string)
    requires Ground(s) && s.worker.Busy? && !s.worker.pc.AtGet? && WorkStep(s, fate, random).worker == Idle(Quiet)
    ensures Finished(WorkStep(s, fate, random).api, s.worker.key, s.worker.base.uid)
  {
    var w := s.worker;
    var d := Perform(s, OpOf(w), fate, random);
    QuietComesFrom(w, d.reply);
    CallTouches(s, fate, random);
    if IsUpdate(w.pc) {
      UpdateAnswer(s.api, w.key, w.mem, w.base, fate);
    } else {
      assert HasId(w.base) && SameIdAt(s.api, w.key, w.base);
    }
  }

  ghost predicate SameIdAt(api: RouteApi, key: Key, base: RouteCR) {
    key in api.objs ==> SameId(base, api.objs[key])
  }

  // ----- convergence -----

  /** A field the client leaves out of an update because it is empty or zero, though the route on
      Mailgun has another value. */
  ghost predicate Unsendable(existing: Acc.MgRoute, request: Acc.MgRoute) {
    || (request.description == "" && existing.description != "")
    || (request.expression == "" && existing.expression != "")
    || (request.priority == 0 && existing.priority != 0)
    || ((|request.actions| == 0 || request.actions[0] == "") && |existing.actions| != |request.actions|)
  }

  /** One update brings the route in line with the request exactly when every field that differs
      can be sent. */
  lemma UpdateAgrees(existing: Acc.MgRoute, request: Acc.MgRoute)
    ensures Differs(Acc.Merge(existing, Acc.UpdateForm(request)), request) <==> Unsendable(existing, request)
  {
  }

  lemma MergeTwice(existing: Acc.MgRoute, request: Acc.MgRoute)
    ensures var form := Acc.UpdateForm(request);
            Acc.Merge(Acc.Merge(existing, form), form) == Acc.Merge(existing, form)
  {
  }

  /** The route `id` of the account, as the probe shows it. */
  ghost predicate Shows(a: Acc.Account, id: string) {
    id != "" && id in a.routes && !Acc.Fails(a, "get", id)
  }

  const NEXT := Work(Fine, "")

  /** The half of a reconcile that compares and updates, without failures. */
  ghost function Compared(s: State): State {
    if Step(s, NEXT).worker.Idle? then Step(s, NEXT) else Step(Step(s, NEXT), NEXT)
  }

  /** The route says what the spec says, where the controller looks: description, expression,
      priority (none is zero) and number of actions. */
  ghost predicate InLine(r: Acc.MgRoute, spec: RouteSpec) {
    && r.description == spec.description && r.expression == spec.expression && |r.actions| == |spec.actions|
    && match spec.priority
       case Some(p) => r.priority == p
       case None => r.priority == 0
  }

  ghost predicate HasActions(spec: RouteSpec) {
    |spec.actions| > 0 && spec.actions[0] != ""
  }

  ghost predicate HasPriority(spec: RouteSpec) {
    spec.priority != None && spec.priority != Some(0)
  }

  /** A field the spec leaves empty or zero, though the route has something else there. */
  ghost predicate Wanting(existing: Acc.MgRoute, spec: RouteSpec) {
    || (spec.description == "" && existing.description != "")
    || (spec.expression == "" && existing.expression != "")
    || (!HasPriority(spec) && existing.priority != 0)
    || (!HasActions(spec) && |existing.actions| != |spec.actions|)
  }

  /** Field by field: the spec's value where it has one, the route's own where it does not. */
  ghost predicate Taken(existing: Acc.MgRoute, spec: RouteSpec, after: Acc.MgRoute) {
    && after.id == existing.id
    && after.description == (if spec.description != "" then spec.description else existing.description)
    && after.expression == (if spec.expression != "" then spec.expression else existing.expression)
    && after.priority == (if HasPriority(spec) then spec.priority.value else existing.priority)
    && (if HasActions(spec) then |after.actions| == |spec.actions| else after.actions == existing.actions)
    && (HasActions(spec) && !InLine(existing, spec) ==> after.actions == spec.actions)
  }

  lemma RequestSays(existing: Acc.MgRoute, spec: RouteSpec)
    ensures Differs(existing, Request(spec)) <==> !InLine(existing, spec)
    ensures Unsendable(existing, Request(spec)) <==> Wanting(existing, spec)
    ensures !InLine(existing, spec) ==> Taken(existing, spec, Acc.Merge(existing, Acc.UpdateForm(Request(spec))))
    ensures InLine(existing, spec) ==> Taken(existing, spec, existing)
  {
  }

  /** A failure-free pass over a route that exists ends quietly; every field of the spec that is not
      empty or zero is then the route's, so that it is in line with the spec exactly when no other
      field differs; it touches no other route, and a second pass changes nothing more; if the first
      left Mailgun in line, the second sends no update. */
  lemma PassConverges(s: State)
    requires s.worker.Busy? && s.worker.pc.AtFetch? && Shows(s.acct, IdOf(s.worker.mem))
    ensures var id, spec := IdOf(s.worker.mem), s.worker.mem.spec;
            var s' := Compared(s);
            && s'.worker == Idle(Quiet) && s'.api == s.api && Shows(s'.acct, id)
            && s'.acct == s.acct.(routes := s.acct.routes[id := s'.acct.routes[id]])
            && Taken(s.acct.routes[id], spec, s'.acct.routes[id])
            && (InLine(s'.acct.routes[id], spec) <==> !Wanting(s.acct.routes[id], spec))
            && (var again := Compared(s'.(worker := s.worker)); again.acct == s'.acct && again.worker == Idle(Quiet))
            && (Step(s'.(worker := s.worker), NEXT).worker.Idle? <==> !Wanting(s.acct.routes[id], spec))
  {
    var id, spec := IdOf(s.worker.mem), s.worker.mem.spec;
    var existing := s.acct.routes[id];
    UpdateAgrees(existing, Request(spec));
    MergeTwice(existing, Request(spec));
    PassUpdates(s);
    PassUpdates(Compared(s).(worker := s.worker));
    RequestSays(existing, spec);
    RequestSays(Compared(s).acct.routes[id], spec);
  }

  lemma PassUpdates(s: State)
    requires s.worker.Busy? && s.worker.pc.AtFetch? && Shows(s.acct, IdOf(s.worker.mem))
    ensures var id, request := IdOf(s.worker.mem), Request(s.worker.mem.spec);
            var existing := s.acct.routes[id];
            var s' := Compared(s);
            && s'.worker == Idle(Quiet) && s'.api == s.api
            && (Step(s, NEXT).worker.Idle? <==> !Differs(existing, request))
            && s'.acct == (if Differs(existing, request)
                           then s.acct.(routes := s.acct.routes[id := Acc.Merge(existing, Acc.UpdateForm(request))]) else s.acct)
  {
    var s1 := Step(s, NEXT);
    assert s1.acct == s.acct && s1.api == s.api;
  }
}
