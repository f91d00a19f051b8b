/** The Route controller as a machine that makes one remote call per step, in the way of module
    DomainProtocol.  A Route creates its route on Mailgun first, stores the id next, and takes
    its finalizer last.

    Mailgun ids are fresh: `FreshRun` says of a run that no id is given out twice. */
module RouteProtocol {
  import opened Basics
  import opened Kube
  import opened Runs
  import Acc = Account

  // ----- the resource -----

  datatype Trouble = DomainMissing | DomainInactive | NotCreated | NotUpdated | NotDeleted

  datatype RouteSpec = RouteSpec(
    description: string, expression: string, actions: seq<string>, priority: Option<int>, domain: Option<string>)

  datatype RouteStatus = RouteStatus(routeID: Option<string>, mailgunError: Option<Trouble>)

  type RouteCR = Obj<RouteSpec, RouteStatus>
  type RouteApi = Api<RouteSpec, RouteStatus>

  const NO_STATUS := RouteStatus(None, None)

  predicate HasId(obj: RouteCR) {
    obj.status.routeID.Some? && |obj.status.routeID.value| > 0
  }

  function IdOf(obj: RouteCR): string {
    if obj.status.routeID.Some? then obj.status.routeID.value else ""
  }

  /** The domain a route waits for, or the empty string. */
  function DomainOf(spec: RouteSpec): string {
    OrDefault(spec.domain, "")
  }

  // ----- the worker -----

  datatype Result = Quiet | RequeueAfter(minutes: nat) | Error

  datatype Pc =
    | AtGet | AtAddFinalizer
    | AtDropNil | AtDeleteProbe | AtDeleteRoute | AtReportDelete | AtDropFinalizer
    | AtGate | AtReportGate
    | AtFetch | AtUpdateRoute | AtReportUpdate
    | AtCreate | AtReportCreate | AtStoreId | AtPin

  datatype Worker = Idle(last: Result) | Busy(key: Key, pc: Pc, mem: RouteCR, base: RouteCR)

  const BLANK := Obj(0, 0, false, {}, RouteSpec("", "", [], None, None), NO_STATUS)

  datatype Op =
    | GetCR(key: Key) | UpdateCR(key: Key, obj: RouteCR) | StatusCR(key: Key, obj: RouteCR)
    | MgGetDomain(name: string)
    | MgGetRoute(id: string) | MgDeleteRoute(id: string)
    | MgUpdateRoute(id: string, request: Acc.MgRoute) | MgCreateRoute(request: Acc.MgRoute)

  datatype Reply = RErr | RNotFound | RDone | RObj(obj: RouteCR) | RDomain(state: string) | RRoute(route: Acc.MgRoute)

  // ----- the history -----

  datatype Id = Id(key: Key, uid: nat)

  /** How a route of the operator's gets lost: its creation was carried out and the answer lost;
      its id was not stored; the resource went before the finalizer was on, or after it was off;
      or the finalizer went although the route was there. */
  datatype Leak = LostAnswer | LostStatusWrite | RemovedUnheld | DroppedAfterLie

  datatype History = History(
    made: map<string, Id>,        // routes the operator created, and for which resource
    gated: map<string, string>,   // the domain each of them waited for, if any
    charged: map<string, Leak>,   // the lost ones
    lied: bool)                   // the last deletion probe failed although the route was there

  const NO_HISTORY := History(map[], map[], map[], false)

  datatype State = State(api: RouteApi, acct: Acc.Account, worker: Worker, gh: History)

  // ----- the calls -----

  /** What a spec asks Mailgun for; a priority of zero is as good as none. */
  function Request(spec: RouteSpec): Acc.MgRoute {
    Acc.MgRoute("", if spec.priority.Some? then spec.priority.value else 0, spec.actions, spec.description, spec.expression)
  }

  /** Actions are compared by their number only. */
  predicate Differs(existing: Acc.MgRoute, request: Acc.MgRoute) {
    || existing.description != request.description
    || existing.expression != request.expression
    || |existing.actions| != |request.actions|
    || existing.priority != request.priority
  }

  function OpOf(w: Worker): Op
    requires w.Busy?
  {
    match w.pc
    case AtGet => GetCR(w.key)
    case AtAddFinalizer => UpdateCR(w.key, w.mem)
    case AtDropNil => UpdateCR(w.key, w.mem)
    case AtDeleteProbe => MgGetRoute(IdOf(w.mem))
    case AtDeleteRoute => MgDeleteRoute(IdOf(w.mem))
    case AtReportDelete => StatusCR(w.key, w.mem)
    case AtDropFinalizer => UpdateCR(w.key, w.mem)
    case AtGate => MgGetDomain(DomainOf(w.mem.spec))
    case AtReportGate => StatusCR(w.key, w.mem)
    case AtFetch => MgGetRoute(IdOf(w.mem))
    case AtUpdateRoute => MgUpdateRoute(IdOf(w.mem), Request(w.mem.spec))
    case AtReportUpdate => StatusCR(w.key, w.mem)
    case AtCreate => MgCreateRoute(Request(w.mem.spec))
    case AtReportCreate => StatusCR(w.key, w.mem)
    case AtStoreId => StatusCR(w.key, w.mem)
    case AtPin => UpdateCR(w.key, w.mem)
  }

  datatype Done = Done(state: State, reply: Reply)

  function AnswerReply(a: Answer<RouteSpec, RouteStatus>): Reply {
    match a
    case Found(obj) => RObj(obj)
    case Missing => RNotFound
    case Refused => RErr
  }

  function Written(s: State, w: Write<RouteSpec, RouteStatus>): Done {
    Done(s.(api := w.api), AnswerReply(w.answer))
  }

  function MgReply(r: Acc.Reply): Reply {
    match r
    case DomainBody(c) => RDomain(c.state)
    case RouteBody(route) => RRoute(route)
    case Message => RDone
    case HttpError(_) => RErr
  }

  function Asked(s: State, fate: Fate, r: Acc.Response): Done {
    match fate
    case Fine => Done(s.(acct := r.account), MgReply(r.reply))
    case FailsBefore => Done(s, RErr)
    case FailsAfter => Done(s.(acct := r.account), RErr)
  }

  function RouteName(random: string): string {
    "route-" + random
  }

  /** One remote call; `random` is what the id of a new route is made of. */
  function Perform(s: State, op: Op, fate: Fate, random: string): Done {
    match op
    case GetCR(key) => if fate == Fine then Done(s, AnswerReply(Get(s.api, key))) else Done(s, RErr)
    case UpdateCR(key, obj) => Written(s, Under(fate, s.api, Update(s.api, key, obj)))
    case StatusCR(key, obj) => Written(s, Under(fate, s.api, StatusUpdate(s.api, key, obj)))
    case MgGetDomain(name) => Asked(s, fate, Acc.GetDomain(s.acct, name))
    case MgGetRoute(id) => Asked(s, fate, Acc.GetRoute(s.acct, id))
    case MgDeleteRoute(id) => Asked(s, fate, Acc.DeleteRoute(s.acct, id))
    case MgUpdateRoute(id, request) => Asked(s, fate, Acc.UpdateRoute(s.acct, id, Acc.UpdateForm(request)))
    case MgCreateRoute(request) => Asked(s, fate, Acc.CreateRoute(s.acct, Acc.CreateForm(request), RouteName(random)))
  }

  // ----- the reconciler's own moves -----

  function WithError(obj: RouteCR, trouble: Trouble): RouteCR {
    obj.(status := obj.status.(mailgunError := Some(trouble)))
  }

  function Dropping(w: Worker, pc: Pc): Worker
    requires w.Busy?
  {
    w.(pc := pc, mem := w.mem.(finalizers := w.mem.finalizers - {RouteFinalizer}))
  }

  function Fetched(key: Key, obj: RouteCR): Worker {
    if !obj.deleting then
      if RouteFinalizer !in obj.finalizers && HasId(obj) then
        Busy(key, AtAddFinalizer, obj.(finalizers := obj.finalizers + {RouteFinalizer}), obj)
      else Gate(key, obj)
    else if RouteFinalizer in obj.finalizers then
      if obj.status.routeID.None? then Dropping(Busy(key, AtGet, obj, obj), AtDropNil)
      else Busy(key, AtDeleteProbe, obj, obj)
    else Gate(key, obj)
  }

  function Gate(key: Key, obj: RouteCR): Worker {
    if |DomainOf(obj.spec)| > 0 then Busy(key, AtGate, obj, obj) else Converge(key, obj)
  }

  function Converge(key: Key, obj: RouteCR): Worker {
    if HasId(obj) then Busy(key, AtFetch, obj, obj) else Busy(key, AtCreate, obj, obj)
  }

  function Resume(w: Worker, r: Reply): Worker
    requires w.Busy?
  {
    match w.pc
    case AtGet => if r.RObj? then Fetched(w.key, r.obj) else if r.RNotFound? then Idle(Quiet) else Idle(Error)
    case AtAddFinalizer => if r.RObj? then Gate(w.key, r.obj) else Idle(Error)
    case AtDropNil => if r.RObj? then Idle(Quiet) else Idle(Error)
    case AtDeleteProbe => if r.RRoute? then w.(pc := AtDeleteRoute) else Dropping(w, AtDropFinalizer)
    case AtDeleteRoute => if r.RDone? then Dropping(w, AtDropFinalizer) else w.(pc := AtReportDelete, mem := WithError(w.mem, NotDeleted))
    case AtReportDelete => Idle(Error)
    case AtDropFinalizer => if r.RObj? then Idle(Quiet) else Idle(Error)
    case AtGate =>
      if !r.RDomain? then w.(pc := AtReportGate, mem := WithError(w.mem, DomainMissing))
      else if r.state != Acc.ACTIVE then w.(pc := AtReportGate, mem := WithError(w.mem, DomainInactive))
      else Converge(w.key, w.mem)
    case AtReportGate => if r.RObj? then Idle(RequeueAfter(5)) else Idle(Error)
    case AtFetch => if r.RRoute? && Differs(r.route, Request(w.mem.spec)) then w.(pc := AtUpdateRoute) else Idle(Quiet)
    case AtUpdateRoute => if r.RRoute? then Idle(Quiet) else w.(pc := AtReportUpdate, mem := WithError(w.mem, NotUpdated))
    case AtReportUpdate => Idle(Error)
    case AtCreate =>
      if r.RRoute? then w.(pc := AtStoreId, mem := w.mem.(status := w.mem.status.(routeID := Some(r.route.id))))
      else w.(pc := AtReportCreate, mem := WithError(w.mem, NotCreated))
    case AtReportCreate => if r.RObj? then Idle(RequeueAfter(1)) else Idle(Error)
    case AtStoreId =>
      if r.RObj? then Busy(w.key, AtPin, r.obj.(finalizers := r.obj.finalizers + {RouteFinalizer}), r.obj) else Idle(Error)
    case AtPin => if r.RObj? then Idle(Quiet) else Idle(Error)
  }

  // ----- what the history notes -----

  function Me(w: Worker): Id
    requires w.Busy?
  {
    Id(w.key, w.base.uid)
  }

  function Charge(charged: map<string, Leak>, a: Acc.Account, id: string, leak: Leak): map<string, Leak> {
    if id in a.routes then charged[id := leak] else charged
  }

  /** The resource at `key` is gone, and what it recorded with it. */
  function ChargeGone(s: State, key: Key, api': RouteApi, leak: Leak): map<string, Leak> {
    if key in s.api.objs && key !in api'.objs && HasId(s.api.objs[key])
    then Charge(s.gh.charged, s.acct, IdOf(s.api.objs[key]), leak) else s.gh.charged
  }

  predicate Made(s: State, s': State, random: string)
    requires s.worker.Busy?
  {
    s.worker.pc.AtCreate? && RouteName(random) in s'.acct.routes && RouteName(random) !in s.acct.routes
  }

  predicate Landed(s: State, s': State) {
    s'.api.clock != s.api.clock
  }

  function ChargedAfter(s: State, s': State, r: Reply, random: string): map<string, Leak>
    requires s.worker.Busy?
  {
    var w := s.worker;
    if Made(s, s', random) && !r.RRoute? then s.gh.charged[RouteName(random) := LostAnswer]
    else if w.pc.AtStoreId? && !Landed(s, s') then Charge(s.gh.charged, s.acct, IdOf(w.mem), LostStatusWrite)
    else if w.pc.AtDropFinalizer? then ChargeGone(s, w.key, s'.api, DroppedAfterLie)
    else s.gh.charged
  }

  function Note(s: State, s': State, r: Reply, random: string): History
    requires s.worker.Busy?
  {
    var w, gh, name := s.worker, s.gh, RouteName(random);
    History(
      if Made(s, s', random) then gh.made[name := Me(w)] else gh.made,
      if Made(s, s', random) && w.mem.spec.domain.Some? && |w.mem.spec.domain.value| > 0
      then gh.gated[name := w.mem.spec.domain.value] else gh.gated,
      ChargedAfter(s, s', r, random),
      if w.pc.AtDeleteProbe? then !r.RRoute? && IdOf(w.mem) in s.acct.routes else gh.lied)
  }

  // ----- actions -----

  datatype Action =
    | Work(fate: Fate, random: string)
    | Start(key: Key)
    | Crash
    | SyncCache(to: nat)
    | CreateCR(key: Key, spec: RouteSpec, others: set<Finalizer>)
    | EditCR(key: Key, spec: RouteSpec)
    | DeleteCR(key: Key)
    | SetFinalizers(key: Key, others: set<Finalizer>)
    | Mailgun(request: Acc.Request)

  function WorkStep(s: State, fate: Fate, random: string): State {
    if s.worker.Idle? then s
    else
      var d := Perform(s, OpOf(s.worker), fate, random);
      d.state.(worker := Resume(s.worker, d.reply), gh := Note(s, d.state, d.reply, random))
  }

  function Step(s: State, a: Action): State {
    match a
    case Work(fate, random) => WorkStep(s, fate, random)
    case Start(key) => if s.worker.Idle? then s.(worker := Busy(key, AtGet, BLANK, BLANK)) else s
    case Crash =>
      s.(worker := Idle(Error),
         gh := if s.worker.Busy? && s.worker.pc.AtStoreId?
               then s.gh.(charged := Charge(s.gh.charged, s.acct, IdOf(s.worker.mem), LostStatusWrite)) else s.gh)
    case SyncCache(to) => s.(api := Sync(s.api, to))
    case CreateCR(key, spec, others) => s.(api := UserCreate(s.api, key, spec, NO_STATUS, others - {RouteFinalizer}))
    case EditCR(key, spec) => s.(api := UserEdit(s.api, key, spec))
    case DeleteCR(key) =>
      var api' := UserDelete(s.api, key);
      s.(api := api', gh := s.gh.(charged := ChargeGone(s, key, api', RemovedUnheld)))
    case SetFinalizers(key, others) =>
      var api' := SetOthers(s.api, key, RouteFinalizer, others);
      s.(api := api', gh := s.gh.(charged := ChargeGone(s, key, api', RemovedUnheld)))
    case Mailgun(request) => s.(acct := Acc.Serve(s.acct, request))
  }

  /** The id a creation is about to get was never given out. */
  ghost predicate Fresh(s: State, a: Action) {
    && (a.Work? && s.worker.Busy? && s.worker.pc.AtCreate? ==>
          RouteName(a.random) !in s.gh.made && RouteName(a.random) !in s.acct.routes)
    && (a.Mailgun? && a.request.NewRoute? ==> a.request.id !in s.gh.made)
  }

  ghost predicate FreshRun(trace: seq<State>, run: seq<Action>) {
    |trace| == |run| + 1 && forall i | 0 <= i < |run| :: Fresh(trace[i], run[i])
  }

  ghost predicate Init(s: State) {
    s.api == Empty() && s.worker.Idle? && s.gh == NO_HISTORY && Acc.Sane(s.acct)
  }

  /** `trace` lists the states of a run from the beginning. */
  ghost predicate IsRun(trace: seq<State>, run: seq<Action>) {
    Traces(Step, trace, run) && Init(trace[0])
  }
}
