/** What every state of every run of the Route controller has in common. */
module RouteInvariants {
  import opened Basics
  import opened Kube
  import opened Runs
  import opened RouteProtocol
  import Acc = Account

  // ----- the object in memory -----

  ghost predicate OnlyError(mem: RouteCR, base: RouteCR) {
    mem == base.(status := base.status.(mailgunError := mem.status.mailgunError))
  }

  ghost predicate Pinned(obj: RouteCR) {
    RouteFinalizer in obj.finalizers && HasId(obj) && obj.deleting
  }

  /** How the object in memory differs from the version it was read as, at each call; the branch
      for a finalizer without an id is never entered. */
  ghost predicate Shape(w: Worker)
    requires w.Busy? && !w.pc.AtGet?
  {
    var mem, base := w.mem, w.base;
    match w.pc
    case AtAddFinalizer => mem == base.(finalizers := base.finalizers + {RouteFinalizer}) && HasId(base) && !base.deleting
    case AtDropNil => false
    case AtDeleteProbe => mem == base && Pinned(base)
    case AtDeleteRoute => mem == base && Pinned(base)
    case AtReportDelete => OnlyError(mem, base) && Pinned(base)
    case AtDropFinalizer => mem == base.(finalizers := base.finalizers - {RouteFinalizer}) && Pinned(base)
    case AtGate => mem == base
    case AtReportGate => OnlyError(mem, base)
    case AtFetch => mem == base && HasId(base)
    case AtUpdateRoute => mem == base && HasId(base)
    case AtReportUpdate => OnlyError(mem, base) && HasId(base)
    case AtCreate => mem == base && !HasId(base)
    case AtReportCreate => OnlyError(mem, base) && !HasId(base)
    case AtStoreId => mem == base.(status := base.status.(routeID := mem.status.routeID)) && HasId(mem) && !HasId(base)
    case AtPin => mem == base.(finalizers := base.finalizers + {RouteFinalizer}) && HasId(base)
  }

  // ----- the versions -----

  /** A stored finalizer stands for a stored id. */
  ghost predicate IdBeforeFinalizer(obj: RouteCR) {
    RouteFinalizer in obj.finalizers ==> HasId(obj)
  }

  /** An id once stored stays as long as the resource. */
  ghost predicate SameId(from: RouteCR, to: RouteCR) {
    from.uid == to.uid && HasId(from) ==> to.status.routeID == from.status.routeID
  }

  ghost predicate VersionsOk(api: RouteApi) {
    forall i, k | 0 <= i < |api.past| && k in api.past[i] :: IdBeforeFinalizer(api.past[i][k])
  }

  ghost predicate IdsStay(api: RouteApi) {
    forall i, j, k | 0 <= i <= j < |api.past| && k in api.past[i] && k in api.past[j] ::
      SameId(api.past[i][k], api.past[j][k])
  }

  ghost predicate Known(api: RouteApi, key: Key, base: RouteCR) {
    Version(api, key, base) && IdBeforeFinalizer(base) && (key in api.objs ==> SameId(base, api.objs[key]))
  }

  ghost predicate SoundApi(api: RouteApi) {
    Consistent(api) && VersionsOk(api) && IdsStay(api)
  }

  ghost predicate Ground(s: State) {
    && SoundApi(s.api) && Acc.Sane(s.acct)
    && (s.worker.Busy? && !s.worker.pc.AtGet? ==> Shape(s.worker) && Known(s.api, s.worker.key, s.worker.base))
  }

  // ----- one commit -----

  /** A lawful commit that pins nothing without an id and changes no id. */
  ghost predicate Careful(api: RouteApi, objs: Objs<RouteSpec, RouteStatus>) {
    && Lawful(api, objs)
    && (forall k | k in objs :: IdBeforeFinalizer(objs[k]))
    && (forall k | k in objs && k in api.objs :: SameId(api.objs[k], objs[k]))
  }

  lemma CommitSound(api: RouteApi, objs: Objs<RouteSpec, RouteStatus>)
    requires SoundApi(api) && Careful(api, objs)
    ensures SoundApi(Commit(api, objs))
  {
    CommitConsistent(api, objs);
    var api' := Commit(api, objs);
    var n := |api.past|;
    assert api.past[n - 1] == api.objs;
    forall i, j, k | 0 <= i <= j < |api'.past| && k in api'.past[i] && k in api'.past[j]
      ensures SameId(api'.past[i][k], api'.past[j][k])
    {
      if i < n {
        assert api'.past[i] == api.past[i];
        if j < n {
          assert api'.past[j] == api.past[j];
        } else if k in api.objs {
          assert SameId(api.past[i][k], api.past[n - 1][k]);
        }
      }
    }
  }

  lemma CommitKnown(api: RouteApi, objs: Objs<RouteSpec, RouteStatus>, key: Key, base: RouteCR)
    requires SoundApi(api) && Careful(api, objs) && Known(api, key, base)
    ensures Known(Commit(api, objs), key, base)
  {
    CommitVersion(api, objs, key, base);
  }

  /** One step of anybody at the API server. */
  ghost predicate Steps(api: RouteApi, api': RouteApi) {
    api' == api || (api' == Commit(api, api'.objs) && Careful(api, api'.objs))
  }

  lemma StepsSound(api: RouteApi, api': RouteApi)
    requires SoundApi(api) && Steps(api, api')
    ensures SoundApi(api')
  {
    if api' != api { CommitSound(api, api'.objs); }
  }

  lemma StepsKnown(api: RouteApi, api': RouteApi, key: Key, base: RouteCR)
    requires SoundApi(api) && Steps(api, api') && Known(api, key, base)
    ensures Known(api', key, base)
  {
    if api' != api { CommitKnown(api, api'.objs, key, base); }
  }

  // ----- the worker's calls -----

  ghost predicate IsUpdate(pc: Pc) {
    pc.AtAddFinalizer? || pc.AtDropFinalizer? || pc.AtPin?
  }

  ghost predicate IsStatus(pc: Pc) {
    pc.AtReportDelete? || pc.AtReportGate? || pc.AtReportUpdate? || pc.AtReportCreate? || pc.AtStoreId?
  }

  lemma UpdateSteps(api: RouteApi, w: Worker, fate: Fate)
    requires SoundApi(api) && w.Busy? && IsUpdate(w.pc) && Shape(w) && Known(api, w.key, w.base)
    ensures Steps(api, Under(fate, api, Update(api, w.key, w.mem)).api)
  {
    UpdateIsLawful(api, w.key, w.mem, fate);
    UpdateAnswer(api, w.key, w.mem, w.base, fate);
    assert api.past[|api.past| - 1] == api.objs;
  }

  lemma StatusSteps(api: RouteApi, w: Worker, fate: Fate)
    requires SoundApi(api) && w.Busy? && IsStatus(w.pc) && Shape(w) && Known(api, w.key, w.base)
    ensures Steps(api, Under(fate, api, StatusUpdate(api, w.key, w.mem)).api)
  {
    StatusIsLawful(api, w.key, w.mem, fate);
    StatusAnswer(api, w.key, w.mem, w.base, fate);
    assert api.past[|api.past| - 1] == api.objs;
  }

  /** Which part of the world a call touches. */
  lemma CallTouchesApi(s: State, fate: Fate, random: string)
    requires s.worker.Busy? && !s.worker.pc.AtDropNil?
    ensures var w := s.worker;
            Perform(s, OpOf(w), fate, random).state.api
            == (if IsUpdate(w.pc) then Under(fate, s.api, Update(s.api, w.key, w.mem)).api
                else if IsStatus(w.pc) then Under(fate, s.api, StatusUpdate(s.api, w.key, w.mem)).api
                else s.api)
  {
  }

  lemma CallTouchesAccount(s: State, fate: Fate, random: string)
    requires s.worker.Busy? && !s.worker.pc.AtDropNil?
    ensures var s' := Perform(s, OpOf(s.worker), fate, random).state;
            && s'.worker == s.worker && s'.gh == s.gh
            && (s'.acct == s.acct || s'.acct == Acc.Serve(s.acct, RequestOf(s.worker, random)))
  {
  }

  lemma CallTouches(s: State, fate: Fate, random: string)
    requires s.worker.Busy? && !s.worker.pc.AtDropNil?
    ensures var w := s.worker;
            var s' := Perform(s, OpOf(w), fate, random).state;
            && s'.worker == s.worker && s'.gh == s.gh
            && s'.api == (if IsUpdate(w.pc) then Under(fate, s.api, Update(s.api, w.key, w.mem)).api
                          else if IsStatus(w.pc) then Under(fate, s.api, StatusUpdate(s.api, w.key, w.mem)).api
                          else s.api)
            && (s'.acct == s.acct || s'.acct == Acc.Serve(s.acct, RequestOf(w, random)))
  {
    CallTouchesApi(s, fate, random);
    CallTouchesAccount(s, fate, random);
  }

  /** The request a call makes of Mailgun. */
  ghost function RequestOf(w: Worker, random: string): Acc.Request
    requires w.Busy?
  {
    match w.pc
    case AtGate => Acc.Read(DomainOf(w.mem.spec))
    case AtDeleteRoute => Acc.RemoveRoute(IdOf(w.mem))
    case AtUpdateRoute => Acc.ChangeRoute(IdOf(w.mem), Acc.UpdateForm(Request(w.mem.spec)))
    case AtCreate => Acc.NewRoute(Acc.CreateForm(Request(w.mem.spec)), RouteName(random))
    case _ => Acc.ReadRoute(IdOf(w.mem))
  }

  lemma CallSteps(s: State, fate: Fate, random: string)
    requires Ground(s) && s.worker.Busy?
    ensures var s' := Perform(s, OpOf(s.worker), fate, random).state;
            Steps(s.api, s'.api) && Acc.Sane(s'.acct)
  {
    CallTouches(s, fate, random);
    Acc.ServeStaysSane(s.acct, RequestOf(s.worker, random));
    if IsUpdate(s.worker.pc) {
      UpdateSteps(s.api, s.worker, fate);
    } else if IsStatus(s.worker.pc) {
      StatusSteps(s.api, s.worker, fate);
    }
  }

  /** What an answered write hands back. */
  ghost predicate Fits(w: Worker, r: Reply)
    requires w.Busy?
  {
    && (r.RObj? && IsUpdate(w.pc) ==> r.obj == w.mem.(status := w.base.status, rv := r.obj.rv))
    && (r.RObj? && IsStatus(w.pc) ==> r.obj == w.mem.(rv := r.obj.rv))
    && (r.RRoute? && w.pc.AtCreate? ==> |r.route.id| > 0)
  }

  /** The object a write answers with is the stored one, unless the write removed it. */
  ghost predicate Answered(w: Worker, api: RouteApi, r: Reply)
    requires w.Busy?
  {
    r.RObj? && !w.pc.AtDropFinalizer? ==> Version(api, w.key, r.obj) && w.key in api.objs && api.objs[w.key] == r.obj
  }

  lemma UpdateFits(s: State, fate: Fate, random: string)
    requires s.worker.Busy? && IsUpdate(s.worker.pc) && Shape(s.worker) && Known(s.api, s.worker.key, s.worker.base)
    ensures var d := Perform(s, OpOf(s.worker), fate, random);
            Fits(s.worker, d.reply) && Answered(s.worker, d.state.api, d.reply)
  {
    var w := s.worker;
    if !w.pc.AtDropFinalizer? { assert RouteFinalizer in w.mem.finalizers; }
    UpdateAnswer(s.api, w.key, w.mem, w.base, fate);
  }

  lemma StatusFits(s: State, fate: Fate, random: string)
    requires s.worker.Busy? && IsStatus(s.worker.pc) && Shape(s.worker) && Known(s.api, s.worker.key, s.worker.base)
    ensures var d := Perform(s, OpOf(s.worker), fate, random);
            Fits(s.worker, d.reply) && Answered(s.worker, d.state.api, d.reply)
  {
    StatusAnswer(s.api, s.worker.key, s.worker.mem, s.worker.base, fate);
  }

  lemma OthersFit(s: State, fate: Fate, random: string)
    requires s.worker.Busy? && !s.worker.pc.AtGet? && !s.worker.pc.AtDropNil? && !IsUpdate(s.worker.pc) && !IsStatus(s.worker.pc)
    ensures var d := Perform(s, OpOf(s.worker), fate, random);
            Fits(s.worker, d.reply) && !d.reply.RObj?
  {
  }

  lemma CallFits(s: State, fate: Fate, random: string)
    requires Ground(s) && s.worker.Busy? && !s.worker.pc.AtGet?
    ensures var d := Perform(s, OpOf(s.worker), fate, random);
            Fits(s.worker, d.reply) && Answered(s.worker, d.state.api, d.reply)
  {
    if IsUpdate(s.worker.pc) {
      UpdateFits(s, fate, random);
    } else if IsStatus(s.worker.pc) {
      StatusFits(s, fate, random);
    } else {
      OthersFit(s, fate, random);
    }
  }

  /** Between two calls the object in memory keeps the form its place in the code gives it. */
  lemma ResumeContinues(w: Worker, r: Reply)
    requires w.Busy? && !w.pc.AtGet? && Shape(w) && Fits(w, r) && IdBeforeFinalizer(w.base)
    ensures var w' := Resume(w, r);
            w'.Busy? ==> && !w'.pc.AtGet? && Shape(w') && w'.key == w.key && w'.base.uid == w.base.uid
                         && (w'.base == w.base || (r == RObj(w'.base) && !w.pc.AtDropFinalizer?))
                         && IdBeforeFinalizer(w'.base)
  {
  }

  lemma ReadingContinues(key: Key, obj: RouteCR)
    requires IdBeforeFinalizer(obj)
    ensures var w := Fetched(key, obj); w.Busy? && !w.pc.AtGet? && Shape(w) && w.key == key && w.base == obj
  {
  }

  lemma ReadIsKnown(api: RouteApi, key: Key)
    requires SoundApi(api) && Get(api, key).Found?
    ensures Known(api, key, Get(api, key).obj)
  {
    ReadIsVersion(api, key);
    assert api.past[|api.past| - 1] == api.objs;
  }

  lemma GetKeepsGround(s: State, fate: Fate, random: string)
    requires Ground(s) && s.worker.Busy? && s.worker.pc.AtGet?
    ensures Ground(WorkStep(s, fate, random))
  {
    var d := Perform(s, OpOf(s.worker), fate, random);
    if d.reply.RObj? {
      ReadIsKnown(s.api, s.worker.key);
      ReadingContinues(s.worker.key, d.reply.obj);
    }
  }

  lemma CallKeepsGround(s: State, fate: Fate, random: string)
    requires Ground(s) && s.worker.Busy? && !s.worker.pc.AtGet?
    ensures Ground(WorkStep(s, fate, random))
  {
    var w := s.worker;
    var d := Perform(s, OpOf(w), fate, random);
    CallSteps(s, fate, random);
    CallFits(s, fate, random);
    ResumeContinues(w, d.reply);
    StepsSound(s.api, d.state.api);
    StepsKnown(s.api, d.state.api, w.key, w.base);
  }

  // ----- everybody else -----

  lemma UserSteps(s: State, a: Action)
    requires SoundApi(s.api) && (a.CreateCR? || a.EditCR? || a.DeleteCR? || a.SetFinalizers?)
    ensures Steps(s.api, Step(s, a).api)
  {
    match a {
      case CreateCR(key, spec, others) =>
        CreateMoves(s.api, key, RouteFinalizer, spec, NO_STATUS, others - {RouteFinalizer});
      case EditCR(key, spec) => EditMoves(s.api, key, RouteFinalizer, spec);
      case DeleteCR(key) => DeleteMoves(s.api, key, RouteFinalizer);
      case SetFinalizers(key, others) => SetOthersMoves(s.api, key, RouteFinalizer, others);
    }
    UserIsCareful(s, a);
  }

  lemma UserIsCareful(s: State, a: Action)
    requires SoundApi(s.api) && (a.CreateCR? || a.EditCR? || a.DeleteCR? || a.SetFinalizers?)
    ensures var api' := Step(s, a).api;
            && (forall k | k in api'.objs :: IdBeforeFinalizer(api'.objs[k]))
            && (forall k | k in api'.objs && k in s.api.objs :: SameId(s.api.objs[k], api'.objs[k]))
  {
    assert s.api.past[|s.api.past| - 1] == s.api.objs;
  }

  lemma StepKeepsGround(s: State, a: Action)
    requires Ground(s)
    ensures Ground(Step(s, a))
  {
    match a {
      case Work(fate, random) =>
        if s.worker.Busy? {
          if s.worker.pc.AtGet? { GetKeepsGround(s, fate, random); } else { CallKeepsGround(s, fate, random); }
        }
      case Mailgun(request) => Acc.ServeStaysSane(s.acct, request);
      case CreateCR(_, _, _) => UserKeepsGround(s, a);
      case EditCR(_, _) => UserKeepsGround(s, a);
      case DeleteCR(_) => UserKeepsGround(s, a);
      case SetFinalizers(_, _) => UserKeepsGround(s, a);
      case _ =>
    }
  }

  lemma UserKeepsGround(s: State, a: Action)
    requires Ground(s) && (a.CreateCR? || a.EditCR? || a.DeleteCR? || a.SetFinalizers?)
    ensures Ground(Step(s, a))
  {
    UserSteps(s, a);
    StepsSound(s.api, Step(s, a).api);
    if s.worker.Busy? && !s.worker.pc.AtGet? {
      StepsKnown(s.api, Step(s, a).api, s.worker.key, s.worker.base);
    }
  }

  lemma {:induction false} RunsKeepGround(trace: seq<State>, run: seq<Action>, i: nat)
    requires IsRun(trace, run) && i <= |run|
    ensures Ground(trace[i])
  {
    if i > 0 {
      RunsKeepGround(trace, run, i - 1);
      Advance(Step, trace, run, i - 1);
      StepKeepsGround(trace[i - 1], run[i - 1]);
    }
  }

  /** In every state of every run a stored finalizer stands for a stored id, in the cache as on the
      server; so the branch for a resource without one is never entered, and no deletion reads an
      id that is not there. */
  lemma FinalizersStandForIds(trace: seq<State>, run: seq<Action>, i: nat)
    requires IsRun(trace, run) && i <= |run|
    ensures var e := trace[i];
            && VersionsOk(e.api)
            && (e.worker.Busy? ==> !e.worker.pc.AtDropNil?)
            && (e.worker.Busy? && (e.worker.pc.AtDeleteProbe? || e.worker.pc.AtDeleteRoute?) ==> HasId(e.worker.mem))
  {
    RunsKeepGround(trace, run, i);
  }
}
