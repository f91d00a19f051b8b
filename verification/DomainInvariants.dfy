/** What every state of every run of the Domain controller has in common: the ground the main
    theorems stand on. */
module DomainInvariants {
  import opened Basics
  import opened Kube
  import opened Runs
  import opened DomainProtocol
  import Acc = Account

  // ----- the object in memory -----

  /** Only the status differs, and the mark "not managed" is never taken off. */
  ghost predicate OnlyStatus(mem: DomainCR, base: DomainCR) {
    mem == base.(status := mem.status) && (base.status.notManaged ==> mem.status.notManaged)
  }

  ghost predicate SameRounds(mem: DomainStatus, base: DomainStatus) {
    mem.validationCount == base.validationCount && mem.lastValidation == base.lastValidation
  }

  /** A live object carries the finalizer, and one under deletion does not: the objects that
      reach the creating half of a reconcile. */
  ghost predicate Entitled(base: DomainCR) {
    DomainFinalizer in base.finalizers <==> !base.deleting
  }

  ghost predicate Doomed(base: DomainCR) {
    DomainFinalizer in base.finalizers && base.deleting
  }

  ghost predicate Fresh(state: Phase) {
    state == Unset || state == Created
  }

  ghost predicate InCreation(pc: Pc) {
    pc.AtSecretCheck? || pc.AtSecretGet? || pc.AtSecretCreate? || pc.AtSecretUpdate? || pc.AtStoreRecords?
  }

  ghost predicate InDeletion(pc: Pc) {
    pc.AtGetEndpoint? || pc.AtDeleteEndpoint? || pc.AtReportEndpoint? || pc.AtDeleteProbe? || pc.AtDeleteDomain?
    || pc.AtReportDelete? || pc.AtDropFinalizer?
  }

  /** How the object in memory differs from the version it was read as, at each call. */
  ghost predicate Shape(w: Worker)
    requires w.Busy? && !w.pc.AtGet?
  {
    var mem, base := w.mem, w.base;
    match w.pc
    case AtAddFinalizer =>
      mem == base.(finalizers := base.finalizers + {DomainFinalizer}) && DomainFinalizer !in base.finalizers && !base.deleting
    case AtGetEndpoint => mem == base && Doomed(base)
    case AtDeleteEndpoint(_) => mem == base && Doomed(base)
    case AtReportEndpoint => OnlyStatus(mem, base) && Doomed(base)
    case AtDeleteProbe => mem == base && Doomed(base)
    case AtDeleteDomain => mem == base && Doomed(base)
    case AtReportDelete => mem == WithState(base, Failed, Some(DomainKept)) && Doomed(base)
    case AtDropFinalizer => mem == base.(finalizers := base.finalizers - {DomainFinalizer}) && Doomed(base)
    case AtProbe => mem == base && Entitled(base) && base.status.state == Unset
    case AtCreate => mem == base && Entitled(base) && base.status.state == Unset
    case AtSettle =>
      && OnlyStatus(mem, base) && Entitled(base) && mem.status.state == Failed && Fresh(base.status.state)
      && SameRounds(mem.status, base.status)
    case AtCreateEndpoint =>
      && OnlyStatus(mem, base) && Entitled(base) && mem.status.state == Created && Fresh(base.status.state)
      && SameRounds(mem.status, base.status) && mem.status.dnsCreated == base.status.dnsCreated
    case AtStoreEndpoint =>
      && OnlyStatus(mem, base) && Entitled(base) && mem.status.state == Created && Fresh(base.status.state)
      && SameRounds(mem.status, base.status)
    case AtLookup =>
      && OnlyStatus(mem, base) && Entitled(base) && mem.status.state == Created && Fresh(base.status.state)
      && SameRounds(mem.status, base.status)
    case AtVerify =>
      && OnlyStatus(mem, base) && Entitled(base) && mem.status.state == Created && Fresh(base.status.state)
      && SameRounds(mem.status, base.status)
    case AtCheckMX =>
      && OnlyStatus(mem, base) && Entitled(base) && mem.status.state == Created && Fresh(base.status.state)
      && OneMore(mem, base)
    case AtStoreRound =>
      && OnlyStatus(mem, base) && Entitled(base) && Fresh(base.status.state) && OneMore(mem, base)
      && (mem.status.state == Created || mem.status.state == Activated)
    case _ =>
      && OnlyStatus(mem, base) && Entitled(base) && base.status.state == Unset && mem.status.state == Unset
      && SameRounds(mem.status, base.status) && mem.status.dnsCreated == base.status.dnsCreated
  }

  /** One verification round more than the version has. */
  ghost predicate OneMore(mem: DomainCR, base: DomainCR) {
    && mem.status.lastValidation.Some?
    && mem.status.validationCount
       == Some(1 + if base.status.validationCount.Some? then base.status.validationCount.value else 0)
  }

  // ----- every version ever stored -----

  ghost predicate StatusOk(t: DomainStatus) {
    && t.state != Processing
    && (t.dnsCreated ==> t.state != Unset)
    && (t.validationCount.Some? <==> t.lastValidation.Some?)
  }

  ghost predicate VersionsOk(api: DomainApi) {
    forall i, k | 0 <= i < |api.past| && k in api.past[i] :: StatusOk(api.past[i][k].status)
  }

  // ----- the ground -----

  /** What the worker knows about the server between two calls. */
  ghost predicate Standing(s: State)
    requires s.worker.Busy? && !s.worker.pc.AtGet?
  {
    var w := s.worker;
    && Version(s.api, w.key, w.base) && StatusOk(w.base.status)
    && (InDeletion(w.pc) ==> Condemned(s.api, w.key, w.base.uid))
    && ((w.pc.AtProbe? || w.pc.AtCreate?) && DomainFinalizer in w.base.finalizers ==>
          Holds(s.api, w.key, w.base.uid, DomainFinalizer))
  }

  ghost predicate Ground(s: State) {
    && Sound(s.api, DomainFinalizer) && VersionsOk(s.api) && Acc.Sane(s.acct)
    && (s.worker.Busy? && !s.worker.pc.AtGet? ==> Shape(s.worker) && Standing(s))
  }

  lemma InitGround(s: State)
    requires Init(s)
    ensures Ground(s)
  {
  }

  // ----- the server's side of a call -----

  lemma CommitVersionsOk(api: DomainApi, objs: Objs<DomainSpec, DomainStatus>)
    requires Consistent(api) && VersionsOk(api)
    requires forall k | k in objs :: (k in api.objs && objs[k].status == api.objs[k].status) || StatusOk(objs[k].status)
    ensures VersionsOk(Commit(api, objs))
  {
    assert api.past[|api.past| - 1] == api.objs;
  }

  /** The three kinds of write on the resource: one that keeps the finalizer, the one that drops
      it, and a status write. */
  lemma UpdateKeeps(api: DomainApi, key: Key, mem: DomainCR, base: DomainCR, fate: Fate)
    requires Sound(api, DomainFinalizer) && VersionsOk(api) && Version(api, key, base)
    requires mem.rv == base.rv && mem.uid == base.uid && DomainFinalizer in mem.finalizers
    ensures var api' := Under(fate, api, Update(api, key, mem)).api;
            && Sound(api', DomainFinalizer) && VersionsOk(api')
            && (Condemned(api, key, base.uid) ==> Condemned(api', key, base.uid))
            && Version(api', key, base)
  {
    var api' := Under(fate, api, Update(api, key, mem)).api;
    UpdateMoves(api, key, mem, fate, DomainFinalizer);
    MoveKeeps(api, api', DomainFinalizer, key, base);
    UpdateAnswer(api, key, mem, base, fate);
    if api' != api { CommitVersionsOk(api, api'.objs); }
  }

  lemma DropUpdateKeeps(api: DomainApi, key: Key, base: DomainCR, fate: Fate)
    requires Sound(api, DomainFinalizer) && VersionsOk(api) && Version(api, key, base)
    requires Doomed(base) && Condemned(api, key, base.uid)
    ensures var api' := Under(fate, api, Update(api, key, base.(finalizers := base.finalizers - {DomainFinalizer}))).api;
            Sound(api', DomainFinalizer) && VersionsOk(api') && Condemned(api', key, base.uid)
  {
    var api' := Under(fate, api, Update(api, key, base.(finalizers := base.finalizers - {DomainFinalizer}))).api;
    DropShape(api, key, base, fate, DomainFinalizer);
    if api' != api {
      DropKeeps(api, api', key, base, DomainFinalizer);
      CommitVersionsOk(api, api'.objs);
    }
  }

  lemma StatusKeeps(api: DomainApi, key: Key, mem: DomainCR, base: DomainCR, fate: Fate)
    requires Sound(api, DomainFinalizer) && VersionsOk(api) && Version(api, key, base)
    requires mem.rv == base.rv && mem.uid == base.uid && StatusOk(mem.status)
    ensures var api' := Under(fate, api, StatusUpdate(api, key, mem)).api;
            && Sound(api', DomainFinalizer) && VersionsOk(api') && Version(api', key, base)
            && (Condemned(api, key, base.uid) ==> Condemned(api', key, base.uid))
            && (Holds(api, key, base.uid, DomainFinalizer) ==> Holds(api', key, base.uid, DomainFinalizer))
  {
    var api' := Under(fate, api, StatusUpdate(api, key, mem)).api;
    StatusMoves(api, key, mem, fate, DomainFinalizer);
    MoveKeeps(api, api', DomainFinalizer, key, base);
    StatusAnswer(api, key, mem, base, fate);
    if api' != api { CommitVersionsOk(api, api'.objs); }
  }

  lemma StatusVersions(api: DomainApi, key: Key, mem: DomainCR, base: DomainCR, fate: Fate)
    requires Sound(api, DomainFinalizer) && VersionsOk(api) && Version(api, key, base)
    requires mem.rv == base.rv && mem.uid == base.uid && StatusOk(mem.status)
    ensures Version(Under(fate, api, StatusUpdate(api, key, mem)).api, key, base)
  {
    StatusKeeps(api, key, mem, base, fate);
  }

  /** Which part of the world a call can touch. */
  lemma CallTouches(s: State, fate: Fate, password: string)
    requires s.worker.Busy?
    ensures var w, op := s.worker, OpOf(s.worker, password);
            var s' := Perform(s, op, fate).state;
            && s'.api == (if op.UpdateCR? then Under(fate, s.api, Update(s.api, w.key, w.mem)).api
                          else if op.StatusCR? then Under(fate, s.api, StatusUpdate(s.api, w.key, w.mem)).api
                          else s.api)
            && (op.UpdateCR? <==> IsUpdate(w.pc)) && (op.StatusCR? <==> IsStatus(w.pc))
            && (s'.acct == s.acct
                || (op.MgGet? && s'.acct == Acc.GetDomain(s.acct, op.name).account)
                || (op.MgCreate? && s'.acct == Acc.CreateDomain(s.acct, op.name).account)
                || (op.MgVerify? && s'.acct == Acc.VerifyDomain(s.acct, op.name).account)
                || (op.MgDelete? && s'.acct == Acc.DeleteDomain(s.acct, op.name).account))
  {
  }

  lemma AccountKeeps(s: State, fate: Fate, password: string)
    requires Acc.Sane(s.acct) && s.worker.Busy?
    ensures Acc.Sane(Perform(s, OpOf(s.worker, password), fate).state.acct)
  {
    CallTouches(s, fate, password);
    var op := OpOf(s.worker, password);
    if op.MgGet? || op.MgCreate? || op.MgVerify? || op.MgDelete? {
      Acc.RequestsStaySane(s.acct, op.name);
    }
  }

  lemma ServerKeeps(s: State, fate: Fate, password: string)
    requires Ground(s) && s.worker.Busy?
    ensures var s' := Perform(s, OpOf(s.worker, password), fate).state;
            Sound(s'.api, DomainFinalizer) && VersionsOk(s'.api) && Acc.Sane(s'.acct)
  {
    CallTouches(s, fate, password);
    AccountKeeps(s, fate, password);
    var w := s.worker;
    var op := OpOf(w, password);
    if w.pc.AtDropFinalizer? {
      DropUpdateKeeps(s.api, w.key, w.base, fate);
    } else if op.UpdateCR? {
      UpdateKeeps(s.api, w.key, w.mem, w.base, fate);
    } else if op.StatusCR? {
      StatusKeeps(s.api, w.key, w.mem, w.base, fate);
    }
  }

  // ----- the worker's side of a call -----

  /** Where a fetched object takes the worker. */
  lemma FetchedShape(key: Key, obj: DomainCR)
    requires StatusOk(obj.status)
    ensures var w := Fetched(key, obj); w.Busy? ==> Shape(w) && w.base == obj && w.key == key && !w.pc.AtGet?
  {
  }

  ghost predicate IsUpdate(pc: Pc) {
    pc.AtAddFinalizer? || pc.AtReportEndpoint? || pc.AtDropFinalizer?
  }

  ghost predicate IsStatus(pc: Pc) {
    pc.AtReportDelete? || pc.AtSettle? || pc.AtStoreRecords? || pc.AtStoreEndpoint? || pc.AtStoreRound?
  }

  /** The object a write answers with: the version it was based on, with the change made. */
  ghost predicate Fits(w: Worker, r: Reply)
    requires w.Busy?
  {
    && (r.RObj? && IsUpdate(w.pc) ==> r.obj == w.mem.(status := w.base.status, rv := r.obj.rv))
    && (r.RObj? && IsStatus(w.pc) ==> r.obj == w.mem.(rv := r.obj.rv))
  }

  ghost predicate Continues(w: Worker, r: Reply, w': Worker)
    requires w.Busy?
  {
    w'.Busy? ==> && !w'.pc.AtGet? && Shape(w') && w'.key == w.key && w'.base.uid == w.base.uid
                 && (w'.base == w.base || r == RObj(w'.base)) && w'.base.status.state != Processing
                 && (InDeletion(w.pc) <==> InDeletion(w'.pc))
  }

  lemma DeletionContinues(w: Worker, r: Reply, password: string, now: nat, secs: int)
    requires w.Busy? && InDeletion(w.pc) && Shape(w) && Fits(w, r) && StatusOk(w.base.status)
    ensures Continues(w, r, Resume(w, r, password, now, secs))
  {
  }

  lemma CreationContinues(w: Worker, r: Reply, password: string, now: nat, secs: int)
    requires w.Busy? && (w.pc.AtAddFinalizer? || w.pc.AtProbe? || w.pc.AtCreate? || w.pc.AtSettle?)
    requires Shape(w) && Fits(w, r) && StatusOk(w.base.status)
    ensures Continues(w, r, Resume(w, r, password, now, secs))
  {
  }

  lemma RecordsContinue(w: Worker, r: Reply, password: string, now: nat, secs: int)
    requires w.Busy? && w.pc.AtStoreRecords? && Shape(w) && Fits(w, r) && StatusOk(w.base.status)
    ensures Continues(w, r, Resume(w, r, password, now, secs))
  {
  }

  lemma SecretContinues(w: Worker, r: Reply, password: string, now: nat, secs: int)
    requires w.Busy? && InCreation(w.pc) && !w.pc.AtStoreRecords?
    requires Shape(w) && Fits(w, r) && StatusOk(w.base.status)
    ensures Continues(w, r, Resume(w, r, password, now, secs))
  {
  }

  lemma EndpointContinues(w: Worker, r: Reply, password: string, now: nat, secs: int)
    requires w.Busy? && (w.pc.AtCreateEndpoint? || w.pc.AtStoreEndpoint? || w.pc.AtLookup?)
    requires Shape(w) && Fits(w, r) && StatusOk(w.base.status)
    ensures Continues(w, r, Resume(w, r, password, now, secs))
  {
  }

  lemma RoundContinues(w: Worker, r: Reply, password: string, now: nat, secs: int)
    requires w.Busy? && (w.pc.AtCheckMX? || w.pc.AtStoreRound?)
    requires Shape(w) && Fits(w, r) && StatusOk(w.base.status)
    ensures Continues(w, r, Resume(w, r, password, now, secs))
  {
  }

  lemma VerifyContinues(w: Worker, r: Reply, password: string, now: nat, secs: int)
    requires w.Busy? && w.pc.AtVerify? && Shape(w) && Fits(w, r) && StatusOk(w.base.status)
    ensures Continues(w, r, Resume(w, r, password, now, secs))
  {
    if r.RState? {
      var mem := Validated(w.mem, r.state, now);
      assert OnlyStatus(mem, w.base) && OneMore(mem, w.base) && mem.status.state == Created;
    }
  }

  /** Between two calls the object in memory keeps the form its place in the code gives it. */
  lemma ResumeContinues(w: Worker, r: Reply, password: string, now: nat, secs: int)
    requires w.Busy? && !w.pc.AtGet? && Shape(w) && Fits(w, r) && StatusOk(w.base.status)
    ensures Continues(w, r, Resume(w, r, password, now, secs))
  {
    if InDeletion(w.pc) {
      DeletionContinues(w, r, password, now, secs);
    } else if w.pc.AtStoreRecords? {
      RecordsContinue(w, r, password, now, secs);
    } else if InCreation(w.pc) {
      SecretContinues(w, r, password, now, secs);
    } else if w.pc.AtCreateEndpoint? || w.pc.AtStoreEndpoint? || w.pc.AtLookup? {
      EndpointContinues(w, r, password, now, secs);
    } else if w.pc.AtVerify? {
      VerifyContinues(w, r, password, now, secs);
    } else if w.pc.AtCheckMX? || w.pc.AtStoreRound? {
      RoundContinues(w, r, password, now, secs);
    } else {
      CreationContinues(w, r, password, now, secs);
    }
  }

  lemma UpdateFits(s: State, fate: Fate, password: string)
    requires s.worker.Busy? && IsUpdate(s.worker.pc) && Shape(s.worker)
    requires Version(s.api, s.worker.key, s.worker.base)
    ensures var d := Perform(s, OpOf(s.worker, password), fate);
            Fits(s.worker, d.reply) && (d.reply.RObj? ==> Version(d.state.api, s.worker.key, d.reply.obj))
  {
    UpdateAnswer(s.api, s.worker.key, s.worker.mem, s.worker.base, fate);
  }

  lemma StatusFits(s: State, fate: Fate, password: string)
    requires s.worker.Busy? && IsStatus(s.worker.pc) && Shape(s.worker)
    requires Version(s.api, s.worker.key, s.worker.base)
    ensures var d := Perform(s, OpOf(s.worker, password), fate);
            Fits(s.worker, d.reply) && (d.reply.RObj? ==> Version(d.state.api, s.worker.key, d.reply.obj))
  {
    StatusAnswer(s.api, s.worker.key, s.worker.mem, s.worker.base, fate);
  }

  /** Reading the object leaves the worker with something it may rely on. */
  lemma GetStands(s: State, fate: Fate, password: string, now: nat)
    requires Ground(s) && s.worker.Busy? && s.worker.pc.AtGet?
    ensures var s' := WorkStep(s, fate, password, now);
            s'.api == s.api && (s'.worker.Busy? ==> !s'.worker.pc.AtGet? && Shape(s'.worker) && Standing(s'))
  {
    var d := Perform(s, OpOf(s.worker, password), fate);
    if d.reply.RObj? {
      ReadIsVersion(s.api, s.worker.key);
      if d.reply.obj.deleting { ReadCondemned(s.api, s.worker.key); }
      FetchedShape(s.worker.key, d.reply.obj);
    }
  }

  lemma MemStatusOk(w: Worker)
    requires w.Busy? && IsStatus(w.pc) && Shape(w) && StatusOk(w.base.status)
    ensures StatusOk(w.mem.status) && w.mem.rv == w.base.rv && w.mem.uid == w.base.uid
  {
  }

  lemma DropStands(s: State, fate: Fate, password: string, now: nat)
    requires s.worker.Busy? && s.worker.pc.AtDropFinalizer?
    ensures WorkStep(s, fate, password, now).worker.Idle?
  {
  }

  lemma UpdateStands(s: State, fate: Fate, password: string, now: nat)
    requires Ground(s) && s.worker.Busy? && (s.worker.pc.AtAddFinalizer? || s.worker.pc.AtReportEndpoint?)
    ensures var s' := WorkStep(s, fate, password, now);
            s'.worker.Busy? ==> !s'.worker.pc.AtGet? && Shape(s'.worker) && Standing(s')
  {
    var w := s.worker;
    var d := Perform(s, OpOf(w, password), fate);
    UpdateFits(s, fate, password);
    UpdateKeeps(s.api, w.key, w.mem, w.base, fate);
    UpdateAnswer(s.api, w.key, w.mem, w.base, fate);
    ResumeContinues(w, d.reply, password, now, s.verifySecs);
  }

  /** No status write leads into a deletion or back to the probe. */
  lemma StatusLeadsOn(w: Worker, r: Reply, password: string, now: nat, secs: int)
    requires w.Busy? && IsStatus(w.pc)
    ensures var w' := Resume(w, r, password, now, secs);
            w'.Busy? ==> && !InDeletion(w'.pc) && !w'.pc.AtProbe? && !w'.pc.AtCreate?
                         && ((r.RObj? && w'.base == r.obj) || (w.pc.AtStoreRecords? && w'.base == w.base))
  {
  }

  lemma StatusStands(s: State, fate: Fate, password: string, now: nat)
    requires Ground(s) && s.worker.Busy? && IsStatus(s.worker.pc)
    ensures var s' := WorkStep(s, fate, password, now);
            s'.worker.Busy? ==> !s'.worker.pc.AtGet? && Shape(s'.worker) && Standing(s')
  {
    var w := s.worker;
    var d := Perform(s, OpOf(w, password), fate);
    StatusFits(s, fate, password);
    MemStatusOk(w);
    StatusVersions(s.api, w.key, w.mem, w.base, fate);
    CallTouches(s, fate, password);
    StatusLeadsOn(w, d.reply, password, now, s.verifySecs);
    ResumeContinues(w, d.reply, password, now, s.verifySecs);
  }

  lemma WriteStands(s: State, fate: Fate, password: string, now: nat)
    requires Ground(s) && s.worker.Busy? && (IsUpdate(s.worker.pc) || IsStatus(s.worker.pc))
    ensures var s' := WorkStep(s, fate, password, now);
            s'.worker.Busy? ==> !s'.worker.pc.AtGet? && Shape(s'.worker) && Standing(s')
  {
    if s.worker.pc.AtDropFinalizer? {
      DropStands(s, fate, password, now);
    } else if IsUpdate(s.worker.pc) {
      UpdateStands(s, fate, password, now);
    } else {
      StatusStands(s, fate, password, now);
    }
  }

  lemma OtherCallStands(s: State, fate: Fate, password: string, now: nat)
    requires Ground(s) && s.worker.Busy? && !(IsUpdate(s.worker.pc) || IsStatus(s.worker.pc) || s.worker.pc.AtGet?)
    ensures var s' := WorkStep(s, fate, password, now);
            s'.api == s.api && (s'.worker.Busy? ==> !s'.worker.pc.AtGet? && Shape(s'.worker) && Standing(s'))
  {
    var w := s.worker;
    CallTouches(s, fate, password);
    var d := Perform(s, OpOf(w, password), fate);
    ResumeContinues(w, d.reply, password, now, s.verifySecs);
  }

  lemma WorkKeepsGround(s: State, fate: Fate, password: string, now: nat)
    requires Ground(s)
    ensures Ground(WorkStep(s, fate, password, now))
  {
    if s.worker.Busy? {
      ServerKeeps(s, fate, password);
      if s.worker.pc.AtGet? {
        GetStands(s, fate, password, now);
      } else if IsUpdate(s.worker.pc) || IsStatus(s.worker.pc) {
        WriteStands(s, fate, password, now);
      } else {
        OtherCallStands(s, fate, password, now);
      }
    }
  }

  // ----- everybody else -----

  /** Users, other controllers and the cache cannot shake the ground. */
  lemma MoveKeepsGround(s: State, api': DomainApi)
    requires Ground(s) && Moves(s.api, api', DomainFinalizer) && VersionsOk(api')
    ensures Ground(s.(api := api'))
  {
    MoveKeeps(s.api, api', DomainFinalizer, if s.worker.Busy? then s.worker.key else Key("", ""),
              if s.worker.Busy? then s.worker.base else BLANK);
  }

  lemma OthersKeepVersionsOk(api: DomainApi, api': DomainApi)
    requires Consistent(api) && VersionsOk(api) && Moves(api, api', DomainFinalizer)
    requires forall k | k in api'.objs :: (k in api.objs && api'.objs[k].status == api.objs[k].status)
                                          || api'.objs[k].status == NO_STATUS
    ensures VersionsOk(api')
  {
    if api' != api { CommitVersionsOk(api, api'.objs); }
  }

  lemma ServerActionMoves(s: State, a: Action)
    requires Consistent(s.api) && (a.CreateCR? || a.EditCR? || a.DeleteCR? || a.SetFinalizers?)
    ensures Moves(s.api, Step(s, a).api, DomainFinalizer)
  {
    match a {
      case CreateCR(key, spec, others) =>
        CreateMoves(s.api, key, DomainFinalizer, spec, NO_STATUS, others - {DomainFinalizer});
      case EditCR(key, spec) => EditMoves(s.api, key, DomainFinalizer, spec);
      case DeleteCR(key) => DeleteMoves(s.api, key, DomainFinalizer);
      case SetFinalizers(key, others) => SetOthersMoves(s.api, key, DomainFinalizer, others);
    }
  }

  lemma ServerActionStatuses(s: State, a: Action)
    requires a.CreateCR? || a.EditCR? || a.DeleteCR? || a.SetFinalizers?
    ensures var s' := Step(s, a);
            && s' == s.(api := s'.api, gh := s'.gh)
            && forall k | k in s'.api.objs :: (k in s.api.objs && s'.api.objs[k].status == s.api.objs[k].status)
                                              || s'.api.objs[k].status == NO_STATUS
  {
  }

  lemma ServerActionKeepsGround(s: State, a: Action)
    requires Ground(s) && (a.CreateCR? || a.EditCR? || a.DeleteCR? || a.SetFinalizers?)
    ensures Ground(Step(s, a))
  {
    ServerActionMoves(s, a);
    ServerActionStatuses(s, a);
    OthersKeepVersionsOk(s.api, Step(s, a).api);
    MoveKeepsGround(s, Step(s, a).api);
  }

  lemma StepKeepsGround(s: State, a: Action)
    requires Ground(s)
    ensures Ground(Step(s, a))
  {
    match a {
      case Work(fate, password, now) => WorkKeepsGround(s, fate, password, now);
      case SyncCache(to) =>
        SyncKeeps(s.api, to, DomainFinalizer, if s.worker.Busy? then s.worker.key else Key("", ""),
                  if s.worker.Busy? then s.worker.base else BLANK);
      case Mailgun(request) => Acc.ServeStaysSane(s.acct, request);
      case CreateCR(_, _, _) => ServerActionKeepsGround(s, a);
      case EditCR(_, _) => ServerActionKeepsGround(s, a);
      case DeleteCR(_) => ServerActionKeepsGround(s, a);
      case SetFinalizers(_, _) => ServerActionKeepsGround(s, a);
      case _ =>
    }
  }

  lemma {:induction false} RunsKeepGround(trace: seq<State>, run: seq<Action>, i: nat)
    requires IsRun(trace, run) && i <= |run|
    ensures Ground(trace[i])
  {
    if i == 0 {
      InitGround(trace[0]);
    } else {
      RunsKeepGround(trace, run, i - 1);
      Advance(Step, trace, run, i - 1);
      StepKeepsGround(trace[i - 1], run[i - 1]);
    }
  }
}
