/** Route orphan accounting: along every run each route the operator created and Mailgun still
    has is in the worker's hands, or recorded in a stored resource, or charged to the event that
    lost it, and never two of these at once. */
module RouteOrphans {
  import opened Basics
  import opened Kube
  import opened Runs
  import opened RouteProtocol
  import opened RouteInvariants
  import Acc = Account

  type Ids = map<string, Id>
  type Losses = map<string, Leak>
  type Stored = Objs<RouteSpec, RouteStatus>

  // ----- the statement -----

  /** The id the worker is about to store. */
  ghost function Hand(w: Worker): Option<string> {
    if w.Busy? && w.pc.AtStoreId? then Some(IdOf(w.mem)) else None
  }

  ghost predicate Recorded(objs: Stored, made: Ids, t: string) {
    t in made && made[t].key in objs && objs[made[t].key].uid == made[t].uid
    && objs[made[t].key].status.routeID == Some(t)
  }

  /** Exactly one of the three. */
  ghost predicate OnePlace(s: State, t: string) {
    var inHand, recorded, charged := Hand(s.worker) == Some(t), Recorded(s.api.objs, s.gh.made, t), t in s.gh.charged;
    && (inHand || recorded || charged)
    && !(inHand && recorded) && !(inHand && charged) && !(recorded && charged)
  }

  // ----- the invariant -----

  /** A recorded id was given out for the resource that records it, and is not lost. */
  ghost predicate RecordsTrue(objs: Stored, made: Ids, charged: Losses) {
    forall k | k in objs && HasId(objs[k]) ::
      var t := IdOf(objs[k]); t in made && made[t] == Id(k, objs[k].uid) && t !in charged
  }

  ghost predicate Accounted(objs: Stored, routes: map<string, Acc.MgRoute>, made: Ids, charged: Losses, hand: Option<string>) {
    forall t | t in made && t in routes && t !in charged :: hand == Some(t) || Recorded(objs, made, t)
  }

  ghost predicate HandTrue(objs: Stored, made: Ids, charged: Losses, w: Worker) {
    w.Busy? && w.pc.AtStoreId? ==>
      var t := IdOf(w.mem);
      && t in made && made[t] == Me(w) && t !in charged
      && forall k | k in objs :: objs[k].status.routeID != Some(t)
  }

  ghost predicate NamesOk(made: Ids, charged: Losses) {
    (forall t | t in made :: |t| > 0) && (forall t | t in charged :: t in made)
  }

  ghost predicate Books(s: State) {
    && RecordsTrue(s.api.objs, s.gh.made, s.gh.charged)
    && Accounted(s.api.objs, s.acct.routes, s.gh.made, s.gh.charged, Hand(s.worker))
    && HandTrue(s.api.objs, s.gh.made, s.gh.charged, s.worker)
    && NamesOk(s.gh.made, s.gh.charged)
  }

  lemma BooksBalance(s: State, t: string)
    requires Books(s) && t in s.gh.made && t in s.acct.routes
    ensures OnePlace(s, t)
  {
    if Recorded(s.api.objs, s.gh.made, t) {
      assert HasId(s.api.objs[s.gh.made[t].key]);
    }
  }

  // ----- changes of the store -----

  /** The same ids under the same resources; a new resource has none. */
  ghost predicate SameRecords(objs: Stored, objs': Stored) {
    && (forall k | k in objs' && HasId(objs'[k]) ::
          k in objs && objs[k].uid == objs'[k].uid && objs[k].status.routeID == objs'[k].status.routeID)
    && (forall k | k in objs && HasId(objs[k]) ::
          k in objs' && objs[k].uid == objs'[k].uid && objs[k].status.routeID == objs'[k].status.routeID)
  }

  /** The resource at `key` is gone, and nothing else changed. */
  ghost predicate Lost(objs: Stored, objs': Stored, key: Key) {
    key in objs && objs' == objs - {key}
  }

  lemma RecordsTravel(objs: Stored, objs': Stored, routes: map<string, Acc.MgRoute>, made: Ids, charged: Losses, w: Worker)
    requires RecordsTrue(objs, made, charged) && Accounted(objs, routes, made, charged, Hand(w)) && HandTrue(objs, made, charged, w)
    requires NamesOk(made, charged) && SameRecords(objs, objs')
    ensures RecordsTrue(objs', made, charged) && Accounted(objs', routes, made, charged, Hand(w)) && HandTrue(objs', made, charged, w)
  {
    forall t | t in made && t in routes && t !in charged && Recorded(objs, made, t)
      ensures Recorded(objs', made, t)
    {
      assert HasId(objs[made[t].key]);
    }
    if w.Busy? && w.pc.AtStoreId? {
      forall k | k in objs'
        ensures objs'[k].status.routeID != Some(IdOf(w.mem))
      {
        assert |IdOf(w.mem)| > 0;
        if objs'[k].status.routeID == Some(IdOf(w.mem)) { assert HasId(objs'[k]); }
      }
    }
  }

  /** What a vanished resource recorded is charged. */
  lemma LossIsCharged(s: State, key: Key, api': RouteApi, leak: Leak)
    requires Books(s) && Lost(s.api.objs, api'.objs, key)
    ensures var charged := ChargeGone(s, key, api', leak);
            && RecordsTrue(api'.objs, s.gh.made, charged) && HandTrue(api'.objs, s.gh.made, charged, s.worker)
            && Accounted(api'.objs, s.acct.routes, s.gh.made, charged, Hand(s.worker)) && NamesOk(s.gh.made, charged)
  {
    var charged := ChargeGone(s, key, api', leak);
    forall t | t in s.gh.made && t in s.acct.routes && t !in charged
      ensures Hand(s.worker) == Some(t) || Recorded(api'.objs, s.gh.made, t)
    {
      assert t !in s.gh.charged;
      assert !(Recorded(s.api.objs, s.gh.made, t) && s.gh.made[t].key == key);
    }
  }

  // ----- changes on Mailgun -----

  /** No route of the operator's comes back. */
  ghost predicate NoneReturns(routes: map<string, Acc.MgRoute>, routes': map<string, Acc.MgRoute>, made: Ids) {
    forall t | t in routes' && t in made :: t in routes
  }

  lemma ServeReturnsNone(a: Acc.Account, r: Acc.Request, made: Ids)
    requires r.NewRoute? ==> r.id !in made
    ensures NoneReturns(a.routes, Acc.Serve(a, r).routes, made)
  {
  }

  // ----- the worker's calls -----

  /** Calls other than a creation, the storing of the id, and the last write of a deletion. */
  ghost predicate IsPlain(pc: Pc) {
    !pc.AtCreate? && !pc.AtStoreId? && !pc.AtDropFinalizer?
  }

  lemma PlainWriteKeepsRecords(s: State, fate: Fate, random: string)
    requires Ground(s) && s.worker.Busy? && IsPlain(s.worker.pc)
    ensures SameRecords(s.api.objs, Perform(s, OpOf(s.worker), fate, random).state.api.objs)
  {
    var w := s.worker;
    CallTouches(s, fate, random);
    if IsUpdate(w.pc) {
      UpdateAnswer(s.api, w.key, w.mem, w.base, fate);
      assert RouteFinalizer in w.mem.finalizers;
    } else if IsStatus(w.pc) {
      StatusAnswer(s.api, w.key, w.mem, w.base, fate);
    }
  }

  lemma PlainRequestReturnsNone(s: State, fate: Fate, random: string)
    requires Ground(s) && s.worker.Busy? && IsPlain(s.worker.pc)
    ensures NoneReturns(s.acct.routes, Perform(s, OpOf(s.worker), fate, random).state.acct.routes, s.gh.made)
  {
    CallTouches(s, fate, random);
    ServeReturnsNone(s.acct, RequestOf(s.worker, random), s.gh.made);
  }

  lemma PlainNotes(s: State, s': State, r: Reply, random: string)
    requires s.worker.Busy? && IsPlain(s.worker.pc)
    ensures Note(s, s', r, random).made == s.gh.made && Note(s, s', r, random).charged == s.gh.charged
    ensures Hand(s.worker) == None && Hand(Resume(s.worker, r)) == None
  {
  }

  lemma PlainCallBooks(s: State, fate: Fate, random: string)
    requires Ground(s) && Books(s) && s.worker.Busy? && IsPlain(s.worker.pc)
    ensures Books(WorkStep(s, fate, random))
  {
    var s' := WorkStep(s, fate, random);
    var d := Perform(s, OpOf(s.worker), fate, random);
    PlainWriteKeepsRecords(s, fate, random);
    PlainRequestReturnsNone(s, fate, random);
    PlainNotes(s, d.state, d.reply, random);
    RecordsTravel(s.api.objs, s'.api.objs, s.acct.routes, s.gh.made, s.gh.charged, s.worker);
  }

  lemma DropBooks(s: State, fate: Fate, random: string)
    requires Ground(s) && Books(s) && s.worker.Busy? && s.worker.pc.AtDropFinalizer?
    ensures Books(WorkStep(s, fate, random))
  {
    var w := s.worker;
    var s' := WorkStep(s, fate, random);
    DropShape(s.api, w.key, w.base, fate, RouteFinalizer);
    if s'.api == s.api || w.key in s'.api.objs {
      RecordsTravel(s.api.objs, s'.api.objs, s.acct.routes, s.gh.made, s.gh.charged, w);
    } else {
      assert s'.api.objs == s.api.objs - {w.key};
      LossIsCharged(s, w.key, s'.api, DroppedAfterLie);
    }
  }

  /** What a creation does to the routes. */
  lemma CreationShape(s: State, fate: Fate, random: string)
    requires s.worker.Busy? && s.worker.pc.AtCreate? && RouteName(random) !in s.acct.routes
    ensures var name, s' := RouteName(random), WorkStep(s, fate, random);
            && s'.api == s.api
            && (s'.acct.routes.Keys == s.acct.routes.Keys || s'.acct.routes.Keys == s.acct.routes.Keys + {name})
            && (if name in s'.acct.routes then
                  && s'.gh.made == s.gh.made[name := Me(s.worker)]
                  && (if s'.worker.Busy? && s'.worker.pc.AtStoreId? then
                        Hand(s'.worker) == Some(name) && Me(s'.worker) == Me(s.worker) && s'.gh.charged == s.gh.charged
                      else s'.gh.charged == s.gh.charged[name := LostAnswer])
                else s'.gh.made == s.gh.made && s'.gh.charged == s.gh.charged && Hand(s'.worker) == None)
  {
  }

  lemma CreateBooks(s: State, fate: Fate, random: string)
    requires Books(s) && Fresh(s, Work(fate, random)) && s.worker.Busy? && s.worker.pc.AtCreate?
    ensures Books(WorkStep(s, fate, random))
  {
    var name, s' := RouteName(random), WorkStep(s, fate, random);
    CreationShape(s, fate, random);
    var made', charged' := s'.gh.made, s'.gh.charged;
    forall k | k in s.api.objs
      ensures s.api.objs[k].status.routeID != Some(name)
    {
      if s.api.objs[k].status.routeID == Some(name) { assert HasId(s.api.objs[k]); }
    }
    forall t | t in made' && t in s'.acct.routes && t !in charged'
      ensures Hand(s'.worker) == Some(t) || Recorded(s'.api.objs, made', t)
    {
      if t != name {
        assert t in s.gh.made && t in s.acct.routes && t !in s.gh.charged && Hand(s.worker) == None;
        assert Recorded(s.api.objs, s.gh.made, t);
      }
    }
  }

  lemma StoreShape(s: State, fate: Fate, random: string)
    requires Ground(s) && s.worker.Busy? && s.worker.pc.AtStoreId?
    ensures var w, s' := s.worker, WorkStep(s, fate, random);
            && s'.acct == s.acct && s'.gh.made == s.gh.made && Hand(s'.worker) == None
            && (if s'.api.clock == s.api.clock then
                  s'.api == s.api && s'.gh.charged == Charge(s.gh.charged, s.acct, IdOf(w.mem), LostStatusWrite)
                else
                  && w.key in s.api.objs && s.api.objs[w.key] == w.base && s'.gh.charged == s.gh.charged
                  && s'.api.objs == s.api.objs[w.key := w.mem.(rv := s'.api.clock)])
  {
    var w := s.worker;
    StatusAnswer(s.api, w.key, w.mem, w.base, fate);
  }

  lemma StoreBooks(s: State, fate: Fate, random: string)
    requires Ground(s) && Books(s) && s.worker.Busy? && s.worker.pc.AtStoreId?
    ensures Books(WorkStep(s, fate, random))
  {
    var w, s' := s.worker, WorkStep(s, fate, random);
    StoreShape(s, fate, random);
    forall t | t in s'.gh.made && t in s'.acct.routes && t !in s'.gh.charged
      ensures Recorded(s'.api.objs, s'.gh.made, t)
    {
      assert t !in s.gh.charged;
      if t == IdOf(w.mem) {
        assert s'.api.clock != s.api.clock;
      } else {
        assert Recorded(s.api.objs, s.gh.made, t);
      }
    }
    assert RecordsTrue(s'.api.objs, s'.gh.made, s'.gh.charged) by {
      forall k | k in s'.api.objs && HasId(s'.api.objs[k])
        ensures var t := IdOf(s'.api.objs[k]); t in s.gh.made && s.gh.made[t] == Id(k, s'.api.objs[k].uid) && t !in s'.gh.charged
      {
      }
    }
  }

  // ----- everybody else -----

  lemma EditKeepsRecords(s: State, a: Action)
    requires a.CreateCR? || a.EditCR?
    ensures SameRecords(s.api.objs, Step(s, a).api.objs) && Step(s, a).gh == s.gh
  {
  }

  lemma RemovalKeepsRecords(s: State, a: Action)
    requires a.DeleteCR? || a.SetFinalizers?
    ensures SameRecords(s.api.objs, Step(s, a).api.objs) || Lost(s.api.objs, Step(s, a).api.objs, a.key)
  {
  }

  lemma RemovalNotes(s: State, a: Action)
    requires a.DeleteCR? || a.SetFinalizers?
    ensures var s' := Step(s, a);
            && s'.gh.made == s.gh.made && s'.gh.charged == ChargeGone(s, a.key, s'.api, RemovedUnheld)
            && (SameRecords(s.api.objs, s'.api.objs) ==> s'.gh.charged == s.gh.charged)
  {
  }

  lemma UserKeepsRecords(s: State, a: Action)
    requires a.CreateCR? || a.EditCR? || a.DeleteCR? || a.SetFinalizers?
    ensures var s' := Step(s, a);
            && s'.acct == s.acct && s'.worker == s.worker && s'.gh.made == s.gh.made
            && (|| (SameRecords(s.api.objs, s'.api.objs) && s'.gh.charged == s.gh.charged)
                || ((a.DeleteCR? || a.SetFinalizers?) && Lost(s.api.objs, s'.api.objs, a.key)
                    && s'.gh.charged == ChargeGone(s, a.key, s'.api, RemovedUnheld)))
  {
    if a.CreateCR? || a.EditCR? {
      EditKeepsRecords(s, a);
    } else {
      RemovalKeepsRecords(s, a);
      RemovalNotes(s, a);
    }
  }

  lemma UserBooks(s: State, a: Action)
    requires Ground(s) && Books(s) && (a.CreateCR? || a.EditCR? || a.DeleteCR? || a.SetFinalizers?)
    ensures Books(Step(s, a))
  {
    var s' := Step(s, a);
    UserKeepsRecords(s, a);
    if SameRecords(s.api.objs, s'.api.objs) && s'.gh.charged == s.gh.charged {
      RecordsTravel(s.api.objs, s'.api.objs, s.acct.routes, s.gh.made, s.gh.charged, s.worker);
    } else {
      LossIsCharged(s, a.key, s'.api, RemovedUnheld);
    }
  }

  lemma CrashBooks(s: State)
    requires Books(s)
    ensures Books(Step(s, Crash))
  {
    var s' := Step(s, Crash);
    forall t | t in s'.gh.made && t in s'.acct.routes && t !in s'.gh.charged
      ensures Recorded(s'.api.objs, s'.gh.made, t)
    {
      assert t !in s.gh.charged;
      assert Hand(s.worker) == Some(t) || Recorded(s.api.objs, s.gh.made, t);
    }
  }

  lemma MailgunBooks(s: State, r: Acc.Request)
    requires Books(s) && Fresh(s, Mailgun(r))
    ensures Books(Step(s, Mailgun(r)))
  {
    ServeReturnsNone(s.acct, r, s.gh.made);
  }

  lemma StepKeepsBooks(s: State, a: Action)
    requires Ground(s) && Books(s) && Fresh(s, a)
    ensures Books(Step(s, a))
  {
    match a {
      case Work(fate, random) =>
        if s.worker.Busy? {
          if s.worker.pc.AtCreate? { CreateBooks(s, fate, random); }
          else if s.worker.pc.AtStoreId? { StoreBooks(s, fate, random); }
          else if s.worker.pc.AtDropFinalizer? { DropBooks(s, fate, random); }
          else { PlainCallBooks(s, fate, random); }
        }
      case Crash => CrashBooks(s);
      case CreateCR(_, _, _) => UserBooks(s, a);
      case EditCR(_, _) => UserBooks(s, a);
      case DeleteCR(_) => UserBooks(s, a);
      case SetFinalizers(_, _) => UserBooks(s, a);
      case Mailgun(r) => MailgunBooks(s, r);
      case _ =>
    }
  }

  lemma {:induction false} RunsKeepBooks(trace: seq<State>, run: seq<Action>, i: nat)
    requires IsRun(trace, run) && i <= |run| && FreshRun(trace, run)
    ensures Books(trace[i])
  {
    if i > 0 {
      Advance(Step, trace, run, i - 1);
      RunsKeepBooks(trace, run, i - 1);
      RunsKeepGround(trace, run, i - 1);
      StepKeepsBooks(trace[i - 1], run[i - 1]);
    }
  }

  /** Every route the operator created and Mailgun still has is in exactly one place: in the
      worker's hands, recorded in a stored resource, or charged to one logged event. */
  lemma RoutesAreAccounted(trace: seq<State>, run: seq<Action>, i: nat, t: string)
    requires IsRun(trace, run) && i <= |run| && FreshRun(trace, run)
    requires t in trace[i].gh.made && t in trace[i].acct.routes
    ensures OnePlace(trace[i], t)
  {
    RunsKeepBooks(trace, run, i);
    BooksBalance(trace[i], t);
  }

  /** So as long as nothing is charged, a resting controller leaves at most one route for each
      resource, the one it records, and none for a resource that is gone. */
  lemma UnchargedRunsLeaveOneRoute(trace: seq<State>, run: seq<Action>, i: nat, t: string, u: string)
    requires IsRun(trace, run) && i <= |run| && FreshRun(trace, run)
    requires trace[i].worker.Idle? && trace[i].gh.charged == map[]
    requires var e := trace[i]; t in e.gh.made && t in e.acct.routes && u in e.gh.made && u in e.acct.routes
    ensures Recorded(trace[i].api.objs, trace[i].gh.made, t)
    ensures trace[i].gh.made[t] == trace[i].gh.made[u] ==> t == u
  {
    RoutesAreAccounted(trace, run, i, t);
    RoutesAreAccounted(trace, run, i, u);
  }
}
