/** The Domain controller as a machine that makes one remote call per step.

    A state holds the API server, the DNSEndpoints, the Secrets, the Mailgun account and the
    one worker of the controller.  An action is the worker's next call under some fate, the
    start of a reconcile, a crash, a cache refresh, or something a user, another controller or
    another client of Mailgun does.  `Step` is total, so every list of actions is a run.

    `gh` is a history no step reads: it records who created what and what went wrong. */
module DomainProtocol {
  import opened Basics
  import opened Kube
  import opened Runs
  import opened Dns
  import Acc = Account
  import Config

  // ----- the resource -----

  datatype Phase = Unset | Created | Failed | Processing | Activated

  /** The kind of the message in `mailgun_error`. */
  datatype Trouble = AlreadyExists | NotCreated | NotOnMailgun | EndpointKept | DomainKept

  datatype DomainSpec = DomainSpec(
    domain: string,
    externalDNS: Option<bool>, externalDNSRecords: seq<Endpoint>,
    dkimKeySize: Option<int>, forceDKIMAuthority: Option<bool>, wildcard: Option<bool>, spamAction: Option<string>,
    exportCredentials: Option<bool>, exportSecretName: Option<string>,
    exportSecretLoginKey: Option<string>, exportSecretPasswordKey: Option<string>,
    forceMXCheck: Option<bool>)

  datatype DomainStatus = DomainStatus(
    state: Phase, notManaged: bool, sending: seq<DnsRecord>, receiving: seq<DnsRecord>, domainState: string,
    mailgunError: Option<Trouble>, lastValidation: Option<nat>, validationCount: Option<nat>, dnsCreated: bool)

  type DomainCR = Obj<DomainSpec, DomainStatus>
  type DomainApi = Api<DomainSpec, DomainStatus>

  const NO_STATUS := DomainStatus(Unset, false, [], [], "", None, None, None, false)

  datatype Secret = Secret(data: map<string, string>, rv: nat)

  datatype CreateOptions = CreateOptions(
    dkimKeySize: int, forceDKIMAuthority: bool, wildcard: bool, spamAction: string, password: string)

  // ----- the worker -----

  /** What a reconcile returns: nothing, a delay, an error, or a nil dereference. */
  datatype Result = Quiet | Requeue(delay: int) | Error | Panic

  /** Where a reconcile stands: before which remote call. */
  datatype Pc =
    | AtGet | AtAddFinalizer
    | AtGetEndpoint | AtDeleteEndpoint(found: bool) | AtReportEndpoint | AtDeleteProbe | AtDeleteDomain | AtReportDelete | AtDropFinalizer
    | AtProbe | AtSettle | AtCreate
    | AtSecretCheck(login: string, password: string)
    | AtSecretGet(login: string, password: string, seen: bool)
    | AtSecretCreate(login: string, password: string, seen: bool)
    | AtSecretUpdate(secret: Secret)
    | AtStoreRecords | AtCreateEndpoint | AtStoreEndpoint | AtLookup | AtVerify | AtCheckMX | AtStoreRound

  /** `mem` is the object in memory, `base` the version of it last read or written. */
  datatype Worker = Idle(last: Result) | Busy(key: Key, pc: Pc, mem: DomainCR, base: DomainCR)

  const BLANK := Obj(0, 0, false, {}, DomainSpec("", None, [], None, None, None, None, None, None, None, None, None), NO_STATUS)

  datatype Op =
    | GetCR(key: Key) | UpdateCR(key: Key, obj: DomainCR) | StatusCR(key: Key, obj: DomainCR)
    | GetEndpoint(key: Key) | DeleteEndpoint(target: Option<Key>) | CreateEndpoint(key: Key, endpoints: seq<Endpoint>)
    | MgGet(name: string) | MgCreate(name: string, options: CreateOptions) | MgVerify(name: string) | MgDelete(name: string)
    | GetSecret(key: Key) | CreateSecret(key: Key, data: map<string, string>, versioned: bool) | UpdateSecret(key: Key, secret: Secret)

  datatype Reply =
    | RErr | RNotFound | RDone | RObj(obj: DomainCR) | RDomain(domain: Acc.Container) | RState(state: string)
    | RSecret(secret: Secret)

  // ----- the history -----

  datatype Id = Id(key: Key, uid: nat)

  /** Why a Mailgun domain of the operator's may be left without a custom resource holding it. */
  datatype Cause = DuplicateName | NotHeld | DomainEdited | DroppedAfterLie

  datatype History = History(
    origin: map<nat, Id>,         // stamps of the domains the operator created, and for which resource
    charged: map<nat, Cause>,     // those of them that may be orphans
    lied: bool,                   // the last deletion probe failed although the domain was there
    named: map<Id, string>,       // the domain each resource named first
    edited: set<Id>,              // resources whose spec.domain was edited
    lateEdits: set<Id>,           // resources edited in domain or MX check after activation
    creates: map<Id, nat>,        // creations that took effect
    excused: set<Id>,             // resources a second creation is excused for
    removed: set<Id>,             // resources the operator deleted a domain for
    verifies: map<Id, nat>, landed: map<Id, nat>,    // verification calls; rounds whose status was stored
    rounds: map<Id, nat>, fails: map<Id, nat>)       // deletion rounds run to their end; calls that failed in them

  const NO_HISTORY := History(map[], map[], false, map[], {}, {}, map[], {}, {}, map[], map[], map[], map[])

  function At(m: map<Id, nat>, id: Id): nat {
    if id in m then m[id] else 0
  }

  function Bump(m: map<Id, nat>, id: Id): map<Id, nat> {
    m[id := At(m, id) + 1]
  }

  /** The credentials of a created domain: the login Mailgun answered, and the password sent. */
  datatype Issue = Issue(login: string, password: string)

  /** The records Mailgun answered to a reconcile of a resource. */
  datatype Shown = Shown(id: Id, receiving: seq<Acc.MgRecord>, sending: seq<Acc.MgRecord>)

  /** What the calls of the reconciles brought, which no step reads either. */
  datatype Log = Log(issued: map<Id, Issue>, shown: set<Shown>, published: map<Id, seq<Endpoint>>)

  const NO_LOG := Log(map[], {}, map[])

  datatype State = State(
    api: DomainApi, endpoints: map<Key, seq<Endpoint>>, secrets: map<Key, Secret>, secretClock: nat,
    acct: Acc.Account, worker: Worker, verifySecs: int, gh: History, log: Log)

  // ----- the calls -----

  function OptionsFor(spec: DomainSpec, password: string): CreateOptions {
    CreateOptions(
      if spec.dkimKeySize.Some? && spec.dkimKeySize.value > 0 then spec.dkimKeySize.value else 0,
      IsSet(spec.forceDKIMAuthority), IsSet(spec.wildcard), OrDefault(spec.spamAction, ""), password)
  }

  function SecretKey(w: Worker): Key
    requires w.Busy?
  {
    Key(w.key.namespace, if w.base.spec.exportSecretName.Some? then w.base.spec.exportSecretName.value else "")
  }

  function Credentials(spec: DomainSpec, login: string, password: string, data: map<string, string>): map<string, string> {
    data[OrDefault(spec.exportSecretPasswordKey, "smtp-password") := password]
        [OrDefault(spec.exportSecretLoginKey, "smtp-login") := login]
  }

  /** The call the worker is about to make. */
  function OpOf(w: Worker, password: string): Op
    requires w.Busy?
  {
    match w.pc
    case AtGet => GetCR(w.key)
    case AtAddFinalizer => UpdateCR(w.key, w.mem)
    case AtGetEndpoint => GetEndpoint(w.key)
    case AtDeleteEndpoint(found) => DeleteEndpoint(if found then Some(w.key) else None)
    case AtReportEndpoint => UpdateCR(w.key, w.mem)
    case AtDeleteProbe => MgGet(w.mem.spec.domain)
    case AtDeleteDomain => MgDelete(w.mem.spec.domain)
    case AtReportDelete => StatusCR(w.key, w.mem)
    case AtDropFinalizer => UpdateCR(w.key, w.mem)
    case AtProbe => MgGet(w.mem.spec.domain)
    case AtSettle => StatusCR(w.key, w.mem)
    case AtCreate => MgCreate(w.mem.spec.domain, OptionsFor(w.mem.spec, password))
    case AtSecretCheck(_, _) => GetSecret(SecretKey(w))
    case AtSecretGet(_, _, _) => GetSecret(SecretKey(w))
    case AtSecretCreate(login, pw, seen) => CreateSecret(SecretKey(w), Credentials(w.mem.spec, login, pw, map[]), seen)
    case AtSecretUpdate(secret) => UpdateSecret(SecretKey(w), secret)
    case AtStoreRecords => StatusCR(w.key, w.mem)
    case AtCreateEndpoint =>
      CreateEndpoint(w.key, Compile(w.mem.spec.domain, w.mem.status.receiving + w.mem.status.sending, w.mem.spec.externalDNSRecords))
    case AtStoreEndpoint => StatusCR(w.key, w.mem)
    case AtLookup => MgGet(w.mem.spec.domain)
    case AtVerify => MgVerify(w.mem.spec.domain)
    case AtCheckMX => MgGet(w.mem.spec.domain)
    case AtStoreRound => StatusCR(w.key, w.mem)
  }

  datatype Done = Done(state: State, reply: Reply)

  function AnswerReply(a: Answer<DomainSpec, DomainStatus>): Reply {
    match a
    case Found(obj) => RObj(obj)
    case Missing => RNotFound
    case Refused => RErr
  }

  function Written(s: State, w: Write<DomainSpec, DomainStatus>): Done {
    Done(s.(api := w.api), AnswerReply(w.answer))
  }

  /** A change elsewhere than on the API server under a given fate. */
  function Fated(s: State, fate: Fate, s': State, reply: Reply): Done {
    match fate
    case Fine => Done(s', reply)
    case FailsBefore => Done(s, RErr)
    case FailsAfter => Done(s', RErr)
  }

  function MgReply(r: Acc.Reply): Reply {
    match r
    case DomainBody(c) => RDomain(c)
    case RouteBody(_) => RErr
    case Message => RDone
    case HttpError(_) => RErr
  }

  function Asked(s: State, fate: Fate, r: Acc.Response): Done {
    Fated(s, fate, s.(acct := r.account), MgReply(r.reply))
  }

  /** One remote call, carried out under a fate.  A DNSEndpoint that was not found is deleted under
      no name at all, which the API server refuses. */
  function Perform(s: State, op: Op, fate: Fate): Done {
    match op
    case GetCR(key) => if fate == Fine then Done(s, AnswerReply(Get(s.api, key))) else Done(s, RErr)
    case UpdateCR(key, obj) => Written(s, Under(fate, s.api, Update(s.api, key, obj)))
    case StatusCR(key, obj) => Written(s, Under(fate, s.api, StatusUpdate(s.api, key, obj)))
    case GetEndpoint(key) =>
      if fate != Fine then Done(s, RErr) else Done(s, if key in s.endpoints then RDone else RNotFound)
    case DeleteEndpoint(None) => Done(s, RErr)
    case DeleteEndpoint(Some(key)) =>
      Fated(s, fate, s.(endpoints := s.endpoints - {key}), if key in s.endpoints then RDone else RNotFound)
    case CreateEndpoint(key, endpoints) =>
      if key in s.endpoints then Done(s, RErr) else Fated(s, fate, s.(endpoints := s.endpoints[key := endpoints]), RDone)
    case MgGet(name) => Asked(s, fate, Acc.GetDomain(s.acct, name))
    case MgCreate(name, _) => Asked(s, fate, Acc.CreateDomain(s.acct, name))
    case MgVerify(name) =>
      var r := Acc.VerifyDomain(s.acct, name);
      Fated(s, fate, s.(acct := r.account), if r.reply.DomainBody? then RState(r.reply.domain.state) else RErr)
    case MgDelete(name) => Asked(s, fate, Acc.DeleteDomain(s.acct, name))
    case GetSecret(key) =>
      if fate != Fine then Done(s, RErr) else Done(s, if key in s.secrets then RSecret(s.secrets[key]) else RNotFound)
    case CreateSecret(key, data, versioned) =>
      if key in s.secrets || versioned then Done(s, RErr)
      else Fated(s, fate, s.(secrets := s.secrets[key := Secret(data, s.secretClock + 1)], secretClock := s.secretClock + 1), RDone)
    case UpdateSecret(key, secret) =>
      if key !in s.secrets || s.secrets[key].rv != secret.rv then Done(s, RErr)
      else Fated(s, fate, s.(secrets := s.secrets[key := Secret(secret.data, s.secretClock + 1)], secretClock := s.secretClock + 1), RDone)
  }

  // ----- the reconciler's own moves -----

  function WithState(obj: DomainCR, state: Phase, trouble: Option<Trouble>): DomainCR {
    obj.(status := obj.status.(state := state, mailgunError := trouble))
  }

  function NotOurs(obj: DomainCR): DomainCR {
    obj.(status := obj.status.(notManaged := true, state := Failed, mailgunError := Some(AlreadyExists)))
  }

  function Recorded(obj: DomainCR, c: Acc.Container): DomainCR {
    obj.(status := obj.status.(sending := FromMailgun(c.sending), receiving := FromMailgun(c.receiving)))
  }

  /** After the finalizer is settled: create a new domain, or go on with a known one. */
  function Main(key: Key, obj: DomainCR): Worker {
    if obj.status.state == Unset then Busy(key, AtProbe, obj, obj) else Tail(key, obj, obj)
  }

  function Tail(key: Key, mem: DomainCR, base: DomainCR): Worker {
    if mem.status.state == Failed || mem.status.state == Activated then Idle(Quiet)
    else if IsSet(mem.spec.externalDNS) && !mem.status.dnsCreated then Busy(key, AtCreateEndpoint, mem, base)
    else Busy(key, AtLookup, mem, base)
  }

  function Fetched(key: Key, obj: DomainCR): Worker {
    if !obj.deleting then
      if DomainFinalizer !in obj.finalizers then
        Busy(key, AtAddFinalizer, obj.(finalizers := obj.finalizers + {DomainFinalizer}), obj)
      else Main(key, obj)
    else if DomainFinalizer in obj.finalizers then Busy(key, AtGetEndpoint, obj, obj)
    else Main(key, obj)
  }

  function CreateFailed(w: Worker): Worker
    requires w.Busy?
  {
    w.(pc := AtSettle, mem := WithState(w.mem, Failed, Some(NotCreated)))
  }

  function CreatedOnMailgun(w: Worker, c: Acc.Container, password: string): Worker
    requires w.Busy?
  {
    var mem := Recorded(w.mem, c);
    var w' := w.(mem := mem.(status := mem.status.(domainState := c.state)));
    if !IsSet(w.mem.spec.exportCredentials) then w'.(pc := AtStoreRecords)
    else if w.mem.spec.exportSecretName.None? then Idle(Panic)
    else w'.(pc := AtSecretCheck(c.smtpLogin, password))
  }

  function Dropping(w: Worker): Worker
    requires w.Busy?
  {
    w.(pc := AtDropFinalizer, mem := w.mem.(finalizers := w.mem.finalizers - {DomainFinalizer}))
  }

  /** The status after one verification that answered `state` at time `now`. */
  function Validated(obj: DomainCR, state: string, now: nat): DomainCR {
    var n := if obj.status.validationCount.Some? then obj.status.validationCount.value else 0;
    obj.(status := obj.status.(domainState := state, lastValidation := Some(now), validationCount := Some(n + 1)))
  }

  predicate AllValid(c: Acc.Container) {
    |c.receiving| > 0 && forall j | 0 <= j < |c.receiving| :: c.receiving[j].valid == Acc.VALID_DNS
  }

  /** Where the reply to the pending call takes the reconcile. */
  function Resume(w: Worker, r: Reply, password: string, now: nat, verifySecs: int): Worker
    requires w.Busy?
  {
    match w.pc
    case AtGet => if r.RObj? then Fetched(w.key, r.obj) else if r.RNotFound? then Idle(Quiet) else Idle(Error)
    case AtAddFinalizer => if r.RObj? then Main(w.key, r.obj) else Idle(Error)
    case AtGetEndpoint => if r.RErr? then Idle(Error) else w.(pc := AtDeleteEndpoint(r.RDone?))
    case AtDeleteEndpoint(_) =>
      if r.RDone? then w.(pc := AtDeleteProbe)
      else w.(pc := AtReportEndpoint, mem := w.mem.(status := w.mem.status.(mailgunError := Some(EndpointKept))))
    case AtReportEndpoint => if r.RObj? then Busy(w.key, AtDeleteProbe, r.obj, r.obj) else Idle(Error)
    case AtDeleteProbe => if r.RDomain? then w.(pc := AtDeleteDomain) else Dropping(w)
    case AtDeleteDomain =>
      if r.RDone? then Dropping(w) else w.(pc := AtReportDelete, mem := WithState(w.mem, Failed, Some(DomainKept)))
    case AtReportDelete => Idle(Error)
    case AtDropFinalizer => if r.RObj? then Idle(Quiet) else Idle(Error)
    case AtProbe => if r.RDomain? then w.(pc := AtSettle, mem := NotOurs(w.mem)) else w.(pc := AtCreate)
    case AtSettle => if r.RObj? then Idle(Quiet) else Idle(Error)
    case AtCreate => if r.RDomain? then CreatedOnMailgun(w, r.domain, password) else CreateFailed(w)
    case AtSecretCheck(login, pw) =>
      if r.RErr? then CreateFailed(w) else w.(pc := AtSecretGet(login, pw, r.RSecret?))
    case AtSecretGet(login, pw, seen) =>
      if r.RNotFound? then w.(pc := AtSecretCreate(login, pw, seen))
      else if r.RSecret? then
        var data := Credentials(w.mem.spec, login, pw, r.secret.data);
        if data == r.secret.data then w.(pc := AtStoreRecords) else w.(pc := AtSecretUpdate(r.secret.(data := data)))
      else CreateFailed(w)
    case AtSecretCreate(_, _, _) => if r.RDone? then w.(pc := AtStoreRecords) else CreateFailed(w)
    case AtSecretUpdate(_) => if r.RDone? then w.(pc := AtStoreRecords) else CreateFailed(w)
    case AtStoreRecords =>
      if r.RObj? then Tail(w.key, r.obj.(status := r.obj.status.(state := Created)), r.obj) else CreateFailed(w)
    case AtCreateEndpoint =>
      if r.RDone? then w.(pc := AtStoreEndpoint, mem := w.mem.(status := w.mem.status.(dnsCreated := true))) else Idle(Error)
    case AtStoreEndpoint => if r.RObj? then Busy(w.key, AtLookup, r.obj, r.obj) else Idle(Error)
    case AtLookup =>
      if r.RDomain? then w.(pc := AtVerify, mem := Recorded(w.mem, r.domain))
      else w.(pc := AtSettle, mem := WithState(w.mem, Failed, Some(NotOnMailgun)))
    case AtVerify =>
      if !r.RState? then Idle(Error)
      else
        var mem := Validated(w.mem, r.state, now);
        if r.state != Acc.ACTIVE then w.(pc := AtStoreRound, mem := mem)
        else if IsSet(w.mem.spec.forceMXCheck) then w.(pc := AtCheckMX, mem := mem)
        else w.(pc := AtStoreRound, mem := mem.(status := mem.status.(state := Activated)))
    case AtCheckMX =>
      if r.RDomain? && AllValid(r.domain) then
        w.(pc := AtStoreRound, mem := w.mem.(status := w.mem.status.(state := Activated)))
      else w.(pc := AtStoreRound)
    case AtStoreRound => if r.RObj? then Idle(Requeue(Config.Delay(verifySecs))) else Idle(Error)
  }

  // ----- what the history notes -----

  predicate Stamped(list: seq<Acc.Container>, t: nat) {
    exists i | 0 <= i < |list| :: list[i].createdAt == t
  }

  function Me(w: Worker): Id
    requires w.Busy?
  {
    Id(w.key, w.base.uid)
  }

  /** Charges every domain of `id` that is on Mailgun and not charged yet. */
  function ChargeAll(gh: History, list: seq<Acc.Container>, id: Id, cause: Cause): map<nat, Cause> {
    (map t | t in gh.origin && gh.origin[t] == id && Stamped(list, t) :: cause) + gh.charged
  }

  /** Somebody takes the first domain called `name` away: its creator may create it again. */
  function Bereaved(gh: History, a: Acc.Account, name: string, sparing: set<Id>): set<Id> {
    var k := Acc.Find(a.domains, name);
    if k < |a.domains| && a.domains[k].createdAt in gh.origin then {gh.origin[a.domains[k].createdAt]} - sparing else {}
  }

  predicate HeldFor(api: DomainApi, id: Id, name: string) {
    && id.key in api.objs && api.objs[id.key].uid == id.uid
    && DomainFinalizer in api.objs[id.key].finalizers && api.objs[id.key].spec.domain == name
  }

  /** The call from `s` to `s'` made Mailgun list a new domain, or took one off the list. */
  predicate Made(s: State, s': State)
    requires s.worker.Busy?
  {
    s.worker.pc.AtCreate? && |s'.acct.domains| > |s.acct.domains|
  }

  predicate Took(s: State, s': State)
    requires s.worker.Busy?
  {
    s.worker.pc.AtDeleteDomain? && |s'.acct.domains| < |s.acct.domains|
  }

  predicate Landed(s: State, s': State) {
    s'.api.clock != s.api.clock
  }

  function OriginAfter(s: State, s': State): map<nat, Id>
    requires s.worker.Busy?
  {
    if Made(s, s') then s.gh.origin[s.acct.clock := Me(s.worker)] else s.gh.origin
  }

  /** A domain created under a listed name, or for a resource that does not hold it, is charged at
      once; what is left when the finalizer goes is charged then. */
  function ChargedAfter(s: State, s': State): map<nat, Cause>
    requires s.worker.Busy?
  {
    var name := s.worker.mem.spec.domain;
    if Made(s, s') then
      if Acc.Lists(s.acct, name) then s.gh.charged[s.acct.clock := DuplicateName]
      else if !HeldFor(s.api, Me(s.worker), name) then s.gh.charged[s.acct.clock := NotHeld]
      else s.gh.charged
    else if s.worker.pc.AtDropFinalizer? && Landed(s, s') then
      ChargeAll(s.gh, s.acct.domains, Me(s.worker), DroppedAfterLie)
    else s.gh.charged
  }

  function LiedAfter(s: State, r: Reply): bool
    requires s.worker.Busy?
  {
    if s.worker.pc.AtDeleteProbe? then !r.RDomain? && Acc.Lists(s.acct, s.worker.mem.spec.domain) else s.gh.lied
  }

  function ExcusedAfter(s: State, s': State, r: Reply): set<Id>
    requires s.worker.Busy?
  {
    var w := s.worker;
    if Made(s, s') && w.base.deleting then s.gh.excused + {Me(w)}
    else if w.pc.AtProbe? && !r.RDomain? && Acc.Lists(s.acct, w.mem.spec.domain) then s.gh.excused + {Me(w)}
    else if Took(s, s') then s.gh.excused + Bereaved(s.gh, s.acct, w.mem.spec.domain, {Me(w)})
    else s.gh.excused
  }

  /** A deletion round returns. */
  predicate RoundEnds(pc: Pc, r: Reply) {
    (pc.AtGetEndpoint? && r.RErr?) || (pc.AtReportEndpoint? && !r.RObj?) || pc.AtReportDelete? || pc.AtDropFinalizer?
  }

  /** A call of a deletion round fails, other than the two whose failure the round ignores. */
  predicate CallFails(pc: Pc, r: Reply) {
    (pc.AtGetEndpoint? && r.RErr?) || (pc.AtReportEndpoint? && !r.RObj?) || (pc.AtDeleteDomain? && !r.RDone?)
    || (pc.AtDropFinalizer? && !r.RObj?)
  }

  /** What the history learns from the call taking `s` to `s'` with reply `r`. */
  function Note(s: State, s': State, r: Reply): History
    requires s.worker.Busy?
  {
    var gh, pc, me := s.gh, s.worker.pc, Me(s.worker);
    History(
      OriginAfter(s, s'), ChargedAfter(s, s'), LiedAfter(s, r),
      gh.named, gh.edited, gh.lateEdits,
      if Made(s, s') then Bump(gh.creates, me) else gh.creates,
      ExcusedAfter(s, s', r),
      if Took(s, s') then gh.removed + {me} else gh.removed,
      if pc.AtVerify? then Bump(gh.verifies, me) else gh.verifies,
      if pc.AtStoreRound? && Landed(s, s') then Bump(gh.landed, me) else gh.landed,
      if RoundEnds(pc, r) then Bump(gh.rounds, me) else gh.rounds,
      if CallFails(pc, r) then Bump(gh.fails, me) else gh.fails)
  }

  /** What the log learns from the call `op` of resource `me` and its reply. */
  function LogAfter(log: Log, me: Id, op: Op, r: Reply): Log {
    Log(if op.MgCreate? && r.RDomain? then log.issued[me := Issue(r.domain.smtpLogin, op.options.password)] else log.issued,
        if r.RDomain? then log.shown + {Shown(me, r.domain.receiving, r.domain.sending)} else log.shown,
        if op.CreateEndpoint? && r.RDone? then log.published[me := op.endpoints] else log.published)
  }

  predicate Renames(api: DomainApi, key: Key, spec: DomainSpec) {
    key in api.objs && spec.domain != api.objs[key].spec.domain
  }

  predicate EditsLate(api: DomainApi, key: Key, spec: DomainSpec) {
    && key in api.objs && api.objs[key].status.state == Activated
    && (Renames(api, key, spec) || spec.forceMXCheck != api.objs[key].spec.forceMXCheck)
  }

  function NoteEdit(s: State, key: Key, spec: DomainSpec): History {
    var gh := s.gh;
    var id := Id(key, if key in s.api.objs then s.api.objs[key].uid else 0);
    gh.(charged := if Renames(s.api, key, spec) then ChargeAll(gh, s.acct.domains, id, DomainEdited) else gh.charged,
        edited := if Renames(s.api, key, spec) then gh.edited + {id} else gh.edited,
        lateEdits := if EditsLate(s.api, key, spec) then gh.lateEdits + {id} else gh.lateEdits)
  }

  // ----- actions -----

  datatype Action =
    | Work(fate: Fate, password: string, now: nat)
    | Start(key: Key)
    | Crash
    | SyncCache(to: nat)
    | CreateCR(key: Key, spec: DomainSpec, others: set<Finalizer>)
    | EditCR(key: Key, spec: DomainSpec)
    | DeleteCR(key: Key)
    | SetFinalizers(key: Key, others: set<Finalizer>)
    | Mailgun(request: Acc.Request)
    | SetEndpoint(key: Key, endpoints: Option<seq<Endpoint>>)
    | SetSecret(key: Key, data: Option<map<string, string>>)

  function WorkStep(s: State, fate: Fate, password: string, now: nat): State {
    if s.worker.Idle? then s
    else
      var d := Perform(s, OpOf(s.worker, password), fate);
      d.state.(worker := Resume(s.worker, d.reply, password, now, s.verifySecs), gh := Note(s, d.state, d.reply),
               log := LogAfter(s.log, Me(s.worker), OpOf(s.worker, password), d.reply))
  }

  function Step(s: State, a: Action): State {
    match a
    case Work(fate, password, now) => WorkStep(s, fate, password, now)
    case Start(key) => if s.worker.Idle? then s.(worker := Busy(key, AtGet, BLANK, BLANK)) else s
    case Crash => s.(worker := Idle(Error))
    case SyncCache(to) => s.(api := Sync(s.api, to))
    case CreateCR(key, spec, others) =>
      if key in s.api.objs then s
      else s.(api := UserCreate(s.api, key, spec, NO_STATUS, others - {DomainFinalizer}),
              gh := s.gh.(named := s.gh.named[Id(key, s.api.clock + 1) := spec.domain]))
    case EditCR(key, spec) => s.(api := UserEdit(s.api, key, spec), gh := NoteEdit(s, key, spec))
    case DeleteCR(key) => s.(api := UserDelete(s.api, key))
    case SetFinalizers(key, others) => s.(api := SetOthers(s.api, key, DomainFinalizer, others))
    case Mailgun(request) =>
      s.(acct := Acc.Serve(s.acct, request),
         gh := if request.Drop? || (request.Delete? && request.name !in s.acct.failed)
               then s.gh.(excused := s.gh.excused + Bereaved(s.gh, s.acct, request.name, {})) else s.gh)
    case SetEndpoint(key, endpoints) =>
      s.(endpoints := if endpoints.Some? then s.endpoints[key := endpoints.value] else s.endpoints - {key})
    case SetSecret(key, data) =>
      s.(secrets := if data.Some? then s.secrets[key := Secret(data.value, s.secretClock + 1)] else s.secrets - {key},
         secretClock := s.secretClock + 1)
  }

  /** No custom resource yet, an idle worker, and a Mailgun account that may hold anything. */
  ghost predicate Init(s: State) {
    && s.api == Empty() && s.worker.Idle? && s.gh == NO_HISTORY && s.log == NO_LOG && Acc.Sane(s.acct)
  }

  /** `trace` lists the states of a run from the beginning. */
  ghost predicate IsRun(trace: seq<State>, run: seq<Action>) {
    Traces(Step, trace, run) && Init(trace[0])
  }
}
