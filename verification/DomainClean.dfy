/** Which runs charge nothing: the exact events that can orphan a domain, and the proof that a
    run without them leaves every domain the operator created with its holder. */
module DomainClean {
  import opened Basics
  import opened Kube
  import opened Runs
  import opened DomainProtocol
  import opened DomainInvariants
  import opened DomainOrphans
  import opened DomainProbe
  import Acc = Account

  // ----- names -----

  ghost predicate NameOk(gh: History, key: Key, obj: DomainCR) {
    var id := Id(key, obj.uid);
    id in gh.named && (id !in gh.edited ==> obj.spec.domain == gh.named[id])
  }

  /** A resource keeps the domain it named first, unless it was edited. */
  ghost predicate PastNamesOk(gh: History, api: DomainApi) {
    forall i, k | 0 <= i < |api.past| && k in api.past[i] :: NameOk(gh, k, api.past[i][k])
  }

  ghost predicate NamesHold(gh: History, api: DomainApi, w: Worker) {
    PastNamesOk(gh, api) && (w.Busy? && !w.pc.AtGet? ==> NameOk(gh, w.key, w.base))
  }

  ghost predicate NamesOk(s: State) {
    NamesHold(s.gh, s.api, s.worker)
  }

  ghost predicate NotesNames(gh: History, gh': History) {
    && (forall id | id in gh.named :: id in gh'.named && gh'.named[id] == gh.named[id])
    && (forall id | id in gh.edited :: id in gh'.edited)
  }

  lemma CommitNamesOk(gh: History, gh': History, api: DomainApi, objs: Objs<DomainSpec, DomainStatus>)
    requires Consistent(api) && NotesNames(gh, gh')
    requires PastNamesOk(gh, api) && forall k | k in objs :: NameOk(gh', k, objs[k])
    ensures PastNamesOk(gh', Commit(api, objs))
  {
  }

  /** A write of the worker's changes no spec and starts no resource. */
  lemma WriteKeepsSpecs(s: State, fate: Fate, password: string)
    requires Ground(s) && s.worker.Busy?
    ensures var api' := Perform(s, OpOf(s.worker, password), fate).state.api;
            && (api' == s.api || api' == Commit(s.api, api'.objs))
            && (forall k | k in api'.objs :: k in s.api.objs && api'.objs[k].uid == s.api.objs[k].uid
                                             && api'.objs[k].spec == s.api.objs[k].spec
                                             && api'.objs[k].deleting == s.api.objs[k].deleting
                                             && (k != s.worker.key ==> api'.objs[k] == s.api.objs[k]))
  {
    var w := s.worker;
    CallTouches(s, fate, password);
    if IsUpdate(w.pc) {
      UpdateAnswer(s.api, w.key, w.mem, w.base, fate);
    } else if IsStatus(w.pc) {
      MemStatusOk(w);
      StatusAnswer(s.api, w.key, w.mem, w.base, fate);
    }
  }

  /** The version the worker works on has the spec and the mark of the one before, or was read. */
  lemma BaseKeepsSpec(s: State, fate: Fate, password: string, now: nat)
    requires Ground(s) && s.worker.Busy? && !s.worker.pc.AtGet?
    ensures var w' := WorkStep(s, fate, password, now).worker;
            w'.Busy? ==> !w'.pc.AtGet? && w'.key == s.worker.key && w'.base.uid == s.worker.base.uid
                         && w'.base.spec == s.worker.base.spec && w'.base.deleting == s.worker.base.deleting
                         && (s.worker.base.finalizers <= {DomainFinalizer} ==> w'.base.finalizers <= {DomainFinalizer})
                         && (DomainFinalizer in s.worker.base.finalizers ==> DomainFinalizer in w'.base.finalizers)
  {
    var w := s.worker;
    var d := Perform(s, OpOf(w, password), fate);
    if IsUpdate(w.pc) {
      UpdateFits(s, fate, password);
    } else if IsStatus(w.pc) {
      StatusFits(s, fate, password);
    }
    ResumeContinues(w, d.reply, password, now, s.verifySecs);
  }

  /** A commit that changes no spec and starts no resource. */
  lemma CommitKeepsNames(gh: History, api: DomainApi, objs: Objs<DomainSpec, DomainStatus>)
    requires Consistent(api) && PastNamesOk(gh, api)
    requires forall k | k in objs :: k in api.objs && objs[k].uid == api.objs[k].uid && objs[k].spec == api.objs[k].spec
    ensures PastNamesOk(gh, Commit(api, objs))
  {
    assert api.past[|api.past| - 1] == api.objs;
    CommitNamesOk(gh, gh, api, objs);
  }

  lemma WorkKeepsPastNames(s: State, fate: Fate, password: string)
    requires Ground(s) && PastNamesOk(s.gh, s.api) && s.worker.Busy?
    ensures PastNamesOk(s.gh, Perform(s, OpOf(s.worker, password), fate).state.api)
  {
    var api' := Perform(s, OpOf(s.worker, password), fate).state.api;
    WriteKeepsSpecs(s, fate, password);
    if api' != s.api { CommitKeepsNames(s.gh, s.api, api'.objs); }
  }

  /** The history notes no name of a resource but when it starts or is edited. */
  lemma WorkNotesNoNames(s: State, s': State, r: Reply)
    requires s.worker.Busy?
    ensures Note(s, s', r).named == s.gh.named && Note(s, s', r).edited == s.gh.edited
  {
  }

  lemma NamesAside(gh: History, gh': History, api: DomainApi)
    requires PastNamesOk(gh, api) && gh'.named == gh.named && gh'.edited == gh.edited
    ensures PastNamesOk(gh', api)
  {
  }

  lemma WorkKeepsBaseName(s: State, fate: Fate, password: string, now: nat)
    requires Ground(s) && NamesOk(s) && s.worker.Busy?
    ensures var w' := WorkStep(s, fate, password, now).worker; w'.Busy? && !w'.pc.AtGet? ==> NameOk(s.gh, w'.key, w'.base)
  {
    if s.worker.pc.AtGet? {
      ReadKeepsName(s, fate, password, now);
    } else {
      BaseKeepsSpec(s, fate, password, now);
    }
  }

  lemma ReadKeepsName(s: State, fate: Fate, password: string, now: nat)
    requires Consistent(s.api) && PastNamesOk(s.gh, s.api) && s.worker.Busy? && s.worker.pc.AtGet?
    ensures var w' := WorkStep(s, fate, password, now).worker; w'.Busy? ==> NameOk(s.gh, w'.key, w'.base)
  {
  }

  lemma WorkKeepsNames(s: State, fate: Fate, password: string, now: nat)
    requires Ground(s) && NamesOk(s) && s.worker.Busy?
    ensures NamesOk(WorkStep(s, fate, password, now))
  {
    var d := Perform(s, OpOf(s.worker, password), fate);
    WorkKeepsPastNames(s, fate, password);
    WorkNotesNoNames(s, d.state, d.reply);
    NamesAside(s.gh, Note(s, d.state, d.reply), d.state.api);
    WorkKeepsBaseName(s, fate, password, now);
  }

  lemma StartNames(gh: History, api: DomainApi, id: Id, name: string)
    requires Consistent(api) && PastNamesOk(gh, api) && id.uid > api.clock
    ensures PastNamesOk(gh.(named := gh.named[id := name]), api)
  {
    forall i, k | 0 <= i < |api.past| && k in api.past[i]
      ensures NameOk(gh.(named := gh.named[id := name]), k, api.past[i][k])
    {
      assert NameOk(gh, k, api.past[i][k]) && api.past[i][k].uid <= api.clock;
    }
  }

  lemma StartedNames(gh: History, api: DomainApi, key: Key, spec: DomainSpec, others: set<Finalizer>)
    requires Consistent(api) && PastNamesOk(gh, api) && key !in api.objs
    requires Id(key, api.clock + 1) in gh.named && gh.named[Id(key, api.clock + 1)] == spec.domain
    ensures PastNamesOk(gh, UserCreate(api, key, spec, NO_STATUS, others))
  {
    var api' := UserCreate(api, key, spec, NO_STATUS, others);
    assert api.past[|api.past| - 1] == api.objs;
    CommitNamesOk(gh, gh, api, api'.objs);
  }

  /** The worker's version is older than the resource that starts. */
  lemma StartSparesBase(gh: History, key: Key, base: DomainCR, id: Id, name: string)
    requires NameOk(gh, key, base) && Id(key, base.uid) != id
    ensures NameOk(gh.(named := gh.named[id := name]), key, base)
  {
  }

  lemma StartKeepsNames(gh: History, api: DomainApi, w: Worker, key: Key, spec: DomainSpec, others: set<Finalizer>)
    requires Consistent(api) && NamesHold(gh, api, w) && key !in api.objs
    requires w.Busy? && !w.pc.AtGet? ==> w.base.uid <= api.clock
    ensures var gh' := gh.(named := gh.named[Id(key, api.clock + 1) := spec.domain]);
            NamesHold(gh', UserCreate(api, key, spec, NO_STATUS, others), w)
  {
    var id := Id(key, api.clock + 1);
    StartNames(gh, api, id, spec.domain);
    StartedNames(gh.(named := gh.named[id := spec.domain]), api, key, spec, others);
    if w.Busy? && !w.pc.AtGet? { StartSparesBase(gh, w.key, w.base, id, spec.domain); }
  }

  lemma CreateCRKeepsNames(s: State, key: Key, spec: DomainSpec, others: set<Finalizer>)
    requires Consistent(s.api) && NamesOk(s)
    requires s.worker.Busy? && !s.worker.pc.AtGet? ==> s.worker.base.uid <= s.api.clock
    ensures NamesOk(Step(s, CreateCR(key, spec, others)))
  {
    if key !in s.api.objs { StartKeepsNames(s.gh, s.api, s.worker, key, spec, others - {DomainFinalizer}); }
  }

  lemma EditKeepsNames(s: State, key: Key, spec: DomainSpec)
    requires Consistent(s.api) && NamesOk(s)
    ensures NamesOk(Step(s, EditCR(key, spec)))
  {
    var s' := Step(s, EditCR(key, spec));
    assert s.api.past[|s.api.past| - 1] == s.api.objs;
    if s'.api != s.api {
      CommitNamesOk(s.gh, s'.gh, s.api, s'.api.objs);
    }
  }

  lemma MarkKeepsNames(s: State, a: Action)
    requires Consistent(s.api) && NamesOk(s) && (a.DeleteCR? || a.SetFinalizers?)
    ensures NamesOk(Step(s, a))
  {
    var s' := Step(s, a);
    assert s.api.past[|s.api.past| - 1] == s.api.objs;
    if s'.api != s.api {
      CommitNamesOk(s.gh, s'.gh, s.api, s'.api.objs);
    }
  }

  lemma StepKeepsNames(s: State, a: Action)
    requires Ground(s) && NamesOk(s)
    ensures NamesOk(Step(s, a))
  {
    match a {
      case Work(fate, password, now) => if s.worker.Busy? { WorkKeepsNames(s, fate, password, now); }
      case CreateCR(key, spec, others) => CreateCRKeepsNames(s, key, spec, others);
      case EditCR(key, spec) => EditKeepsNames(s, key, spec);
      case DeleteCR(_) => MarkKeepsNames(s, a);
      case SetFinalizers(_, _) => MarkKeepsNames(s, a);
      case _ =>
    }
  }

  // ----- runs without five events -----

  /** An action that can orphan nothing but by a false deletion probe.  Excluded are: a creation
      probe that fails although the name is listed; another client adding the very name a worker
      is about to create; a finalizer of somebody else's; an edit of spec.domain. */
  ghost predicate Careful(s: State, a: Action) {
    && HonestCreation(s, a)
    && match a
       case EditCR(key, spec) => !Renames(s.api, key, spec)
       case CreateCR(_, _, others) => others == {}
       case SetFinalizers(_, others) => others == {}
       case _ => true
  }

  /** Excluded besides: a deletion probe that fails although the domain is there.  Everything else
      is allowed: crashes, lost writes and answers, conflicts, a lagging cache, user deletes at any
      time, and whatever other clients do to Mailgun. */
  ghost predicate Benign(s: State, a: Action) {
    && Careful(s, a)
    && (a.Work? && s.worker.Busy? && s.worker.pc.AtDeleteProbe? ==>
          a.fate == Fine || !Acc.Lists(s.acct, s.worker.mem.spec.domain))
  }

  ghost predicate CarefulRun(trace: seq<State>, run: seq<Action>) {
    |trace| == |run| + 1 && forall i | 0 <= i < |run| :: Careful(trace[i], run[i])
  }

  ghost predicate BenignRun(trace: seq<State>, run: seq<Action>) {
    |trace| == |run| + 1 && forall i | 0 <= i < |run| :: Benign(trace[i], run[i])
  }

  lemma BenignIsCareful(trace: seq<State>, run: seq<Action>)
    requires BenignRun(trace, run)
    ensures CarefulRun(trace, run) && HonestCreationRun(trace, run)
  {
    assert forall i | 0 <= i < |run| :: Benign(trace[i], run[i]) ==> Careful(trace[i], run[i]) && HonestCreation(trace[i], run[i]);
  }

  /** No finalizer but ours, and ours on everything under deletion. */
  ghost predicate Ours(obj: DomainCR) {
    obj.finalizers <= {DomainFinalizer} && (obj.deleting ==> DomainFinalizer in obj.finalizers)
  }

  ghost predicate AllOurs(api: DomainApi) {
    forall i, k | 0 <= i < |api.past| && k in api.past[i] :: Ours(api.past[i][k])
  }

  /** What is charged was created for resources that are gone. */
  ghost predicate Departed(charged: map<nat, Cause>, origin: map<nat, Id>, api: DomainApi) {
    forall t | t in charged && t in origin ::
      origin[t].uid <= api.clock && !(origin[t].key in api.objs && api.objs[origin[t].key].uid == origin[t].uid)
  }

  ghost predicate Tidy(s: State) {
    && s.gh.edited == {} && Departed(s.gh.charged, s.gh.origin, s.api)
    && AllOurs(s.api) && (s.worker.Busy? && !s.worker.pc.AtGet? ==> Ours(s.worker.base))
  }

  ghost predicate Clean(s: State) {
    Tidy(s) && s.gh.charged == map[] && !s.gh.lied
  }

  /** The uids of one step: those of before, or later ones. */
  ghost predicate NoUidReturns(api: DomainApi, api': DomainApi) {
    && api'.clock >= api.clock
    && forall k | k in api'.objs :: (k in api.objs && api'.objs[k].uid == api.objs[k].uid) || api'.objs[k].uid > api.clock
  }

  lemma DepartedStay(charged: map<nat, Cause>, origin: map<nat, Id>, origin': map<nat, Id>, api: DomainApi, api': DomainApi)
    requires Departed(charged, origin, api) && NoUidReturns(api, api')
    requires forall t | t in charged :: t in origin && t in origin' && origin'[t] == origin[t]
    ensures Departed(charged, origin', api')
  {
  }

  lemma CommitAllOurs(api: DomainApi, objs: Objs<DomainSpec, DomainStatus>)
    requires AllOurs(api) && forall k | k in objs :: Ours(objs[k])
    ensures AllOurs(Commit(api, objs))
  {
  }

  /** A write of the worker's takes our finalizer off an object only to remove the object. */
  lemma WriteKeepsOurs(s: State, fate: Fate, password: string)
    requires Ground(s) && Tidy(s) && s.worker.Busy?
    ensures AllOurs(Perform(s, OpOf(s.worker, password), fate).state.api)
  {
    var w := s.worker;
    var api' := Perform(s, OpOf(w, password), fate).state.api;
    CallTouches(s, fate, password);
    assert s.api.past[|s.api.past| - 1] == s.api.objs;
    if IsUpdate(w.pc) {
      UpdateAnswer(s.api, w.key, w.mem, w.base, fate);
      if w.pc.AtDropFinalizer? { DropShape(s.api, w.key, w.base, fate, DomainFinalizer); }
    } else if IsStatus(w.pc) {
      MemStatusOk(w);
      StatusAnswer(s.api, w.key, w.mem, w.base, fate);
    }
    if api' != s.api {
      CommitAllOurs(s.api, api'.objs);
    }
  }

  lemma WorkKeepsBaseOurs(s: State, fate: Fate, password: string, now: nat)
    requires Ground(s) && Tidy(s) && s.worker.Busy?
    ensures var w' := WorkStep(s, fate, password, now).worker; w'.Busy? && !w'.pc.AtGet? ==> Ours(w'.base)
  {
    if s.worker.pc.AtGet? {
      GetStands(s, fate, password, now);
    } else {
      BaseKeepsSpec(s, fate, password, now);
    }
  }

  /** Without foreign finalizers and renames, a resource that creates is one that holds. */
  lemma CreatorHolds(s: State)
    requires Ground(s) && Tidy(s) && NamesOk(s) && s.worker.Busy? && s.worker.pc.AtCreate?
    ensures HeldFor(s.api, Id(s.worker.key, s.worker.base.uid), s.worker.mem.spec.domain)
  {
    var w := s.worker;
    assert Holds(s.api, w.key, w.base.uid, DomainFinalizer);
    assert s.api.past[|s.api.past| - 1] == s.api.objs;
    assert NameOk(s.gh, w.key, s.api.objs[w.key]) && NameOk(s.gh, w.key, w.base);
  }

  /** What is still listed for `id` is called as the resource is; what was released is not. */
  lemma ReleasedIsUnlisted(list: Domains, gh: History, api: DomainApi, id: Id, name: string, i: nat)
    requires AllHeld(list, gh, api) && Released(list, gh, id, name) && i < |list| && Uncharged(gh, list[i])
    requires id.key in api.objs && api.objs[id.key].spec.domain == name
    ensures gh.origin[list[i].createdAt] != id
  {
    assert HeldFor(api, gh.origin[list[i].createdAt], list[i].name);
  }

  /** After an honest deletion the finalizer goes with nothing left behind. */
  lemma HonestDropChargesNothing(s: State, fate: Fate, password: string)
    requires Ground(s) && Clean(s) && NoOrphans(s) && s.worker.Busy? && s.worker.pc.AtDropFinalizer?
    ensures var d := Perform(s, OpOf(s.worker, password), fate);
            Note(s, d.state, d.reply).charged == map[] && Note(s, d.state, d.reply).lied == s.gh.lied
  {
    var w := s.worker;
    var id := Id(w.key, w.base.uid);
    var d := Perform(s, OpOf(w, password), fate);
    DropShape(s.api, w.key, w.base, fate, DomainFinalizer);
    if d.state.api != s.api {
      forall i | 0 <= i < |s.acct.domains| && s.acct.domains[i].createdAt in s.gh.origin
        ensures s.gh.origin[s.acct.domains[i].createdAt] != id
      {
        ReleasedIsUnlisted(s.acct.domains, s.gh, s.api, id, w.base.spec.domain, i);
      }
      assert ChargeAll(s.gh, s.acct.domains, id, DroppedAfterLie) == map[];
    }
  }

  /** A probed creation for a resource that holds the name is charged to nobody. */
  lemma ProbedCreationChargesNothing(s: State, fate: Fate, password: string)
    requires Ground(s) && Tidy(s) && NamesOk(s) && Probed(s) && s.worker.Busy? && s.worker.pc.AtCreate?
    ensures var d := Perform(s, OpOf(s.worker, password), fate);
            var gh' := Note(s, d.state, d.reply);
            && d.state.api == s.api && gh'.charged == s.gh.charged
            && (forall t | t in s.gh.origin && t != s.acct.clock :: t in gh'.origin && gh'.origin[t] == s.gh.origin[t])
  {
    CreatorHolds(s);
  }

  /** The finalizer of ours goes only with the resource. */
  lemma DropRemoves(s: State, fate: Fate, password: string)
    requires Ground(s) && AllOurs(s.api) && s.worker.Busy? && s.worker.pc.AtDropFinalizer?
    ensures var api' := Perform(s, OpOf(s.worker, password), fate).state.api;
            api' != s.api ==> s.worker.key !in api'.objs && s.worker.base.uid <= s.api.clock
  {
    var w := s.worker;
    DropShape(s.api, w.key, w.base, fate, DomainFinalizer);
    assert s.api.past[|s.api.past| - 1] == s.api.objs;
    assert w.base.finalizers <= {DomainFinalizer} ==> w.mem.finalizers == {};
  }

  /** A drop charges what is listed for the resource, and nothing else. */
  lemma DropNotes(s: State, fate: Fate, password: string)
    requires s.worker.Busy? && s.worker.pc.AtDropFinalizer?
    ensures var d := Perform(s, OpOf(s.worker, password), fate);
            var gh' := Note(s, d.state, d.reply);
            && gh'.origin == s.gh.origin
            && (d.state.api == s.api ==> gh'.charged == s.gh.charged)
            && (forall t | t in gh'.charged :: t in s.gh.charged || (t in s.gh.origin && s.gh.origin[t] == Me(s.worker)))
  {
  }

  lemma DropDeparts(s: State, fate: Fate, password: string)
    requires Ground(s) && Tidy(s) && s.worker.Busy? && s.worker.pc.AtDropFinalizer? && Bounded(s.gh, s.acct.clock)
    ensures var d := Perform(s, OpOf(s.worker, password), fate);
            var gh' := Note(s, d.state, d.reply);
            gh'.origin == s.gh.origin && Departed(gh'.charged, gh'.origin, d.state.api)
  {
    var d := Perform(s, OpOf(s.worker, password), fate);
    WriteKeepsSpecs(s, fate, password);
    DropRemoves(s, fate, password);
    DropNotes(s, fate, password);
    DepartedStay(s.gh.charged, s.gh.origin, s.gh.origin, s.api, d.state.api);
  }

  lemma OtherCallsChargeNothing(s: State, fate: Fate, password: string)
    requires s.worker.Busy? && !s.worker.pc.AtCreate? && !s.worker.pc.AtDropFinalizer?
    ensures var d := Perform(s, OpOf(s.worker, password), fate);
            Note(s, d.state, d.reply).charged == s.gh.charged && Note(s, d.state, d.reply).origin == s.gh.origin
  {
  }

  lemma WorkKeepsDeparted(s: State, fate: Fate, password: string)
    requires Ground(s) && Tidy(s) && NamesOk(s) && Probed(s) && Bounded(s.gh, s.acct.clock) && s.worker.Busy?
    ensures var d := Perform(s, OpOf(s.worker, password), fate);
            var gh' := Note(s, d.state, d.reply);
            Departed(gh'.charged, gh'.origin, d.state.api)
  {
    var d := Perform(s, OpOf(s.worker, password), fate);
    if s.worker.pc.AtCreate? {
      ProbedCreationChargesNothing(s, fate, password);
      DepartedStay(s.gh.charged, s.gh.origin, Note(s, d.state, d.reply).origin, s.api, d.state.api);
    } else if s.worker.pc.AtDropFinalizer? {
      DropDeparts(s, fate, password);
    } else {
      OtherCallsChargeNothing(s, fate, password);
      WriteKeepsSpecs(s, fate, password);
      DepartedStay(s.gh.charged, s.gh.origin, s.gh.origin, s.api, d.state.api);
    }
  }

  lemma WorkKeepsTidy(s: State, fate: Fate, password: string, now: nat)
    requires Ground(s) && Tidy(s) && NamesOk(s) && Probed(s) && Bounded(s.gh, s.acct.clock) && s.worker.Busy?
    ensures Tidy(WorkStep(s, fate, password, now))
  {
    WriteKeepsOurs(s, fate, password);
    WorkKeepsBaseOurs(s, fate, password, now);
    WorkKeepsDeparted(s, fate, password);
  }

  lemma WorkKeepsClean(s: State, fate: Fate, password: string, now: nat)
    requires Ground(s) && Clean(s) && NoOrphans(s) && NamesOk(s) && Probed(s) && Benign(s, Work(fate, password, now))
    requires s.worker.Busy?
    ensures WorkStep(s, fate, password, now).gh.charged == map[] && !WorkStep(s, fate, password, now).gh.lied
  {
    if s.worker.pc.AtCreate? {
      ProbedCreationChargesNothing(s, fate, password);
    } else if s.worker.pc.AtDropFinalizer? {
      HonestDropChargesNothing(s, fate, password);
    } else {
      OtherCallsChargeNothing(s, fate, password);
    }
  }

  lemma UserUids(s: State, a: Action)
    requires Consistent(s.api) && (a.CreateCR? || a.EditCR? || a.DeleteCR? || a.SetFinalizers?)
    ensures NoUidReturns(s.api, Step(s, a).api)
  {
    match a {
      case CreateCR(_, _, _) =>
      case EditCR(_, _) =>
      case DeleteCR(_) =>
      case SetFinalizers(_, _) =>
    }
  }

  lemma UserNotes(s: State, a: Action)
    requires Careful(s, a) && (a.CreateCR? || a.EditCR? || a.DeleteCR? || a.SetFinalizers?)
    ensures Step(s, a).worker == s.worker && Step(s, a).gh.charged == s.gh.charged && Step(s, a).gh.lied == s.gh.lied
    ensures Step(s, a).gh.edited == s.gh.edited && Step(s, a).gh.origin == s.gh.origin
  {
  }

  lemma UserKeepsOurs(s: State, a: Action)
    requires Ground(s) && AllOurs(s.api) && Careful(s, a) && (a.CreateCR? || a.EditCR? || a.DeleteCR? || a.SetFinalizers?)
    ensures AllOurs(Step(s, a).api)
  {
    var api' := Step(s, a).api;
    assert s.api.past[|s.api.past| - 1] == s.api.objs;
    if api' != s.api {
      match a {
        case CreateCR(_, _, _) =>
        case EditCR(_, _) =>
        case DeleteCR(_) =>
        case SetFinalizers(_, _) =>
      }
      CommitAllOurs(s.api, api'.objs);
    }
  }

  lemma UserKeepsTidy(s: State, a: Action)
    requires Ground(s) && Tidy(s) && Careful(s, a) && Bounded(s.gh, s.acct.clock)
    requires a.CreateCR? || a.EditCR? || a.DeleteCR? || a.SetFinalizers?
    ensures Tidy(Step(s, a)) && Step(s, a).gh.charged == s.gh.charged && Step(s, a).gh.lied == s.gh.lied
  {
    UserNotes(s, a);
    UserKeepsOurs(s, a);
    UserUids(s, a);
    DepartedStay(s.gh.charged, s.gh.origin, s.gh.origin, s.api, Step(s, a).api);
  }

  lemma StepKeepsTidy(s: State, a: Action)
    requires Ground(s) && Tidy(s) && NamesOk(s) && Probed(s) && Bounded(s.gh, s.acct.clock) && Careful(s, a)
    ensures Tidy(Step(s, a))
  {
    match a {
      case Work(fate, password, now) => if s.worker.Busy? { WorkKeepsTidy(s, fate, password, now); }
      case CreateCR(_, _, _) => UserKeepsTidy(s, a);
      case DeleteCR(_) => UserKeepsTidy(s, a);
      case SetFinalizers(_, _) => UserKeepsTidy(s, a);
      case EditCR(_, _) => UserKeepsTidy(s, a);
      case _ =>
    }
  }

  lemma StepKeepsClean(s: State, a: Action)
    requires Ground(s) && Clean(s) && NoOrphans(s) && NamesOk(s) && Probed(s) && Benign(s, a)
    ensures Clean(Step(s, a))
  {
    StepKeepsTidy(s, a);
    match a {
      case Work(fate, password, now) => if s.worker.Busy? { WorkKeepsClean(s, fate, password, now); }
      case CreateCR(_, _, _) => UserKeepsTidy(s, a);
      case DeleteCR(_) => UserKeepsTidy(s, a);
      case SetFinalizers(_, _) => UserKeepsTidy(s, a);
      case EditCR(_, _) => UserKeepsTidy(s, a);
      case _ =>
    }
  }

  lemma {:induction false} RunsKeepNames(trace: seq<State>, run: seq<Action>, i: nat)
    requires IsRun(trace, run) && i <= |run|
    ensures NamesOk(trace[i])
  {
    if i > 0 {
      Advance(Step, trace, run, i - 1);
      RunsKeepNames(trace, run, i - 1);
      RunsKeepGround(trace, run, i - 1);
      StepKeepsNames(trace[i - 1], run[i - 1]);
    }
  }

  lemma {:induction false} CarefulRunsAreTidy(trace: seq<State>, run: seq<Action>, i: nat)
    requires IsRun(trace, run) && i <= |run| && CarefulRun(trace, run)
    ensures Tidy(trace[i])
  {
    if i > 0 {
      Advance(Step, trace, run, i - 1);
      CarefulRunsAreTidy(trace, run, i - 1);
      RunsKeepNames(trace, run, i - 1);
      RunsKeepGround(trace, run, i - 1);
      RunsLeaveNoOrphans(trace, run, i - 1);
      ProbesPrecedeCreations(trace, run, i - 1);
      StepKeepsTidy(trace[i - 1], run[i - 1]);
    }
  }

  lemma {:induction false} BenignRunsAreClean(trace: seq<State>, run: seq<Action>, i: nat)
    requires IsRun(trace, run) && i <= |run| && BenignRun(trace, run)
    ensures Clean(trace[i])
  {
    if i > 0 {
      Advance(Step, trace, run, i - 1);
      BenignRunsAreClean(trace, run, i - 1);
      RunsKeepNames(trace, run, i - 1);
      RunsKeepGround(trace, run, i - 1);
      RunsLeaveNoOrphans(trace, run, i - 1);
      BenignIsCareful(trace, run);
      ProbesPrecedeCreations(trace, run, i - 1);
      StepKeepsClean(trace[i - 1], run[i - 1]);
    }
  }

  /** In a run without the five events, every domain the operator created and Mailgun lists has a
      stored resource that names it and carries the finalizer; so none is left once the resource
      is gone. */
  lemma BenignRunsHoldEveryDomain(trace: seq<State>, run: seq<Action>, i: nat)
    requires IsRun(trace, run) && i <= |run| && BenignRun(trace, run)
    ensures var e := trace[i];
            forall d | 0 <= d < |e.acct.domains| && e.acct.domains[d].createdAt in e.gh.origin ::
              HeldFor(e.api, e.gh.origin[e.acct.domains[d].createdAt], e.acct.domains[d].name)
  {
    BenignRunsAreClean(trace, run, i);
    RunsLeaveNoOrphans(trace, run, i);
    var e := trace[i];
    forall d | 0 <= d < |e.acct.domains| && e.acct.domains[d].createdAt in e.gh.origin
      ensures HeldFor(e.api, e.gh.origin[e.acct.domains[d].createdAt], e.acct.domains[d].name)
    {
      assert Uncharged(e.gh, e.acct.domains[d]);
    }
  }
}
