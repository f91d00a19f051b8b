/** The life of a Domain resource: which states follow which, what activation means on Mailgun,
    what the validation count counts, and why no unfinished resource is ever forgotten. */
module DomainLife {
  import opened Basics
  import opened Kube
  import opened Runs
  import opened DomainProtocol
  import opened DomainInvariants
  import opened DomainClean
  import Acc = Account
  import Config

  // ----- the lifecycle -----

  /** The status changes one step may make to one resource. */
  ghost predicate Follows(from: DomainCR, to: DomainCR) {
    var f, t := from.status.state, to.status.state;
    && (from.status.notManaged ==> to.status.notManaged)
    && (|| f == t
        || (f == Unset && (t == Created || t == Failed || t == Activated))
        || (f == Created && (t == Failed || t == Activated))
        || (f == Activated && t == Failed && from.deleting))
  }

  /** What a write of the worker's leaves in the store. */
  lemma WriteFollows(s: State, fate: Fate, password: string)
    requires Ground(s) && s.worker.Busy?
    ensures var api' := Perform(s, OpOf(s.worker, password), fate).state.api;
            forall k | k in api'.objs :: k in s.api.objs && Follows(s.api.objs[k], api'.objs[k])
  {
    var w := s.worker;
    CallTouches(s, fate, password);
    if IsUpdate(w.pc) {
      UpdateAnswer(s.api, w.key, w.mem, w.base, fate);
    } else if IsStatus(w.pc) {
      MemStatusOk(w);
      StatusAnswer(s.api, w.key, w.mem, w.base, fate);
    }
  }

  /** A status write is visible in the store, and only there. */
  lemma StatusWriteLands(s: State, fate: Fate, password: string)
    requires Ground(s) && s.worker.Busy?
    ensures var w, d := s.worker, Perform(s, OpOf(s.worker, password), fate);
            && (d.state.api.clock != s.api.clock && IsStatus(w.pc) ==>
                  && w.key in s.api.objs && s.api.objs[w.key] == w.base && w.mem.status != w.base.status
                  && d.state.api == Put(s.api, w.key, w.base.(status := w.mem.status)))
            && (d.state.api.clock == s.api.clock <==> d.state.api == s.api)
            && (!IsStatus(w.pc) ==> forall k | k in d.state.api.objs ::
                  k in s.api.objs && d.state.api.objs[k].status == s.api.objs[k].status && d.state.api.objs[k].uid == s.api.objs[k].uid)
  {
    var w := s.worker;
    CallTouches(s, fate, password);
    if IsUpdate(w.pc) {
      UpdateAnswer(s.api, w.key, w.mem, w.base, fate);
    } else if IsStatus(w.pc) {
      MemStatusOk(w);
      StatusAnswer(s.api, w.key, w.mem, w.base, fate);
    }
  }

  /** One step leads from stored object to stored object, or starts a new uid. */
  ghost predicate Leads(objs: Objs<DomainSpec, DomainStatus>, clock: nat, objs': Objs<DomainSpec, DomainStatus>) {
    forall k | k in objs' ::
      || (k in objs && objs[k].uid == objs'[k].uid && Follows(objs[k], objs'[k]))
      || (objs'[k].uid > clock && objs'[k].status == NO_STATUS)
  }

  lemma CreateFollows(api: DomainApi, key: Key, spec: DomainSpec, others: set<Finalizer>)
    ensures Leads(api.objs, api.clock, UserCreate(api, key, spec, NO_STATUS, others).objs)
  {
  }

  lemma EditFollows(api: DomainApi, key: Key, spec: DomainSpec)
    ensures Leads(api.objs, api.clock, UserEdit(api, key, spec).objs)
  {
  }

  lemma MarksFollow(api: DomainApi, key: Key, others: set<Finalizer>)
    ensures Leads(api.objs, api.clock, UserDelete(api, key).objs)
    ensures Leads(api.objs, api.clock, SetOthers(api, key, DomainFinalizer, others).objs)
  {
  }

  lemma UserFollows(s: State, a: Action)
    requires !a.Work?
    ensures Leads(s.api.objs, s.api.clock, Step(s, a).api.objs)
  {
    match a {
      case CreateCR(key, spec, others) => CreateFollows(s.api, key, spec, others - {DomainFinalizer});
      case EditCR(key, spec) => EditFollows(s.api, key, spec);
      case DeleteCR(key) => MarksFollow(s.api, key, {});
      case SetFinalizers(key, others) => MarksFollow(s.api, key, others);
      case _ =>
    }
  }

  lemma StepFollows(s: State, a: Action)
    requires Ground(s)
    ensures Leads(s.api.objs, s.api.clock, Step(s, a).api.objs)
  {
    if a.Work? {
      if s.worker.Busy? {
        WriteFollows(s, a.fate, a.password);
        WriteKeepsSpecs(s, a.fate, a.password);
      }
    } else {
      UserFollows(s, a);
    }
  }

  ghost predicate Settled(obj: DomainCR) {
    obj.status.state == Failed || obj.status.state == Activated
  }

  /** Along the versions of one uid: failed stays failed, settled stays settled, a state once set
      is never unset, only a deletion fails an activated resource, and what is not managed stays so. */
  ghost predicate Later(from: DomainCR, to: DomainCR) {
    && (from.status.state == Failed ==> to.status.state == Failed)
    && (Settled(from) ==> Settled(to))
    && (from.status.state != Unset ==> to.status.state != Unset)
    && (from.status.state == Activated && to.status.state == Failed ==> to.deleting)
    && (from.status.notManaged ==> to.status.notManaged)
  }

  ghost predicate Ageing(api: DomainApi) {
    forall i, j, k | 0 <= i <= j < |api.past| && k in api.past[i] && k in api.past[j] ::
      api.past[i][k].uid == api.past[j][k].uid ==> Later(api.past[i][k], api.past[j][k])
  }

  lemma CommitAges(api: DomainApi, objs: Objs<DomainSpec, DomainStatus>)
    requires Consistent(api) && Ageing(api)
    requires forall k | k in objs ::
               || (k in api.objs && api.objs[k].uid == objs[k].uid && Follows(api.objs[k], objs[k])
                   && (api.objs[k].deleting ==> objs[k].deleting))
               || objs[k].uid > api.clock
    ensures Ageing(Commit(api, objs))
  {
    var api' := Commit(api, objs);
    var n := |api.past|;
    forall i, j, k | 0 <= i <= j < |api'.past| && k in api'.past[i] && k in api'.past[j]
      ensures api'.past[i][k].uid == api'.past[j][k].uid ==> Later(api'.past[i][k], api'.past[j][k])
    {
      if i < n {
        assert api'.past[i] == api.past[i];
        if j < n {
          assert api'.past[j] == api.past[j];
        } else if k in api.objs && api.objs[k].uid == objs[k].uid {
          assert api.past[n - 1] == api.objs;
          if api.past[i][k].uid == objs[k].uid {
            assert Later(api.past[i][k], api.past[n - 1][k]);
          }
        }
      }
    }
  }

  lemma StepAges(s: State, a: Action)
    requires Ground(s) && Ageing(s.api)
    ensures Ageing(Step(s, a).api)
  {
    StepFollows(s, a);
    StepCommits(s, a);
    var s' := Step(s, a);
    if !a.SyncCache? && s'.api != s.api {
      CommitAges(s.api, s'.api.objs);
    }
  }

  /** Every step writes at most once, and deletion marks stay. */
  lemma StepCommits(s: State, a: Action)
    requires Ground(s)
    ensures var s' := Step(s, a);
            && (s'.api == s.api || a.SyncCache? || s'.api == Commit(s.api, s'.api.objs))
            && (a.SyncCache? ==> s'.api == s.api.(seen := s'.api.seen))
            && (forall k | k in s'.api.objs && k in s.api.objs && s'.api.objs[k].uid == s.api.objs[k].uid ::
                  s.api.objs[k].deleting ==> s'.api.objs[k].deleting)
  {
    if a.Work? && s.worker.Busy? {
      WriteKeepsSpecs(s, a.fate, a.password);
    }
  }

  lemma {:induction false} RunsAge(trace: seq<State>, run: seq<Action>, i: nat)
    requires IsRun(trace, run) && i <= |run|
    ensures Ageing(trace[i].api)
  {
    if i > 0 {
      Advance(Step, trace, run, i - 1);
      RunsAge(trace, run, i - 1);
      RunsKeepGround(trace, run, i - 1);
      StepAges(trace[i - 1], run[i - 1]);
    }
  }

  /** The lifecycle along a run: from one stored state of a resource to the next only the listed
      changes, "processing" never, and a resource whose DNSEndpoint is recorded has a state. */
  lemma Lifecycle(trace: seq<State>, run: seq<Action>, i: nat)
    requires IsRun(trace, run) && i < |run|
    ensures var e, e' := trace[i], trace[i + 1];
            && (forall k | k in e.api.objs && k in e'.api.objs && e.api.objs[k].uid == e'.api.objs[k].uid ::
                  Follows(e.api.objs[k], e'.api.objs[k]))
            && (forall k | k in e.api.objs :: e.api.objs[k].status.state != Processing
                                              && (e.api.objs[k].status.dnsCreated ==> e.api.objs[k].status.state != Unset))
  {
    RunsKeepGround(trace, run, i);
    Advance(Step, trace, run, i);
    var e := trace[i];
    StepFollows(e, run[i]);
    assert e.api.past[|e.api.past| - 1] == e.api.objs;
  }

  lemma {:induction false} PastGrows(trace: seq<State>, run: seq<Action>, i: nat, j: nat)
    requires IsRun(trace, run) && i <= j <= |run|
    ensures trace[i].api.past <= trace[j].api.past
  {
    if i < j {
      PastGrows(trace, run, i, j - 1);
      RunsKeepGround(trace, run, j - 1);
      Advance(Step, trace, run, j - 1);
      StepCommits(trace[j - 1], run[j - 1]);
    }
  }

  /** However the run goes on: failed and not managed are for ever, activated ends only in failure
      under deletion, and no resource goes back to having no state. */
  lemma LifeGoesOneWay(trace: seq<State>, run: seq<Action>, i: nat, j: nat, k: Key)
    requires IsRun(trace, run) && i <= j <= |run|
    requires k in trace[i].api.objs && k in trace[j].api.objs && trace[i].api.objs[k].uid == trace[j].api.objs[k].uid
    ensures Later(trace[i].api.objs[k], trace[j].api.objs[k])
  {
    PastGrows(trace, run, i, j);
    RunsAge(trace, run, j);
    RunsKeepGround(trace, run, i);
    RunsKeepGround(trace, run, j);
    var e, e' := trace[i], trace[j];
    assert e'.api.past[|e.api.past| - 1] == e.api.past[|e.api.past| - 1] == e.api.objs;
  }

  // ----- activation -----

  /** Mailgun was told to activate the domain, and where the spec asks for it its MX records. */
  ghost predicate Reached(a: Acc.Account, spec: DomainSpec) {
    spec.domain in a.active && (IsSet(spec.forceMXCheck) ==> spec.domain in a.activeMX)
  }

  ghost predicate MarkTrue(a: Acc.Account, gh: History, k: Key, obj: DomainCR) {
    obj.status.state == Activated && Id(k, obj.uid) !in gh.lateEdits ==> Reached(a, obj.spec)
  }

  ghost predicate AboutToMark(a: Acc.Account, w: Worker) {
    && (w.Busy? && w.pc.AtCheckMX? ==> w.base.spec.domain in a.active)
    && (w.Busy? && w.pc.AtStoreRound? && w.mem.status.state == Activated ==> Reached(a, w.base.spec))
  }

  ghost predicate ActivationsTrue(s: State) {
    && (forall k | k in s.api.objs :: MarkTrue(s.acct, s.gh, k, s.api.objs[k]))
    && AboutToMark(s.acct, s.worker)
  }

  lemma CallsActivateNothing(s: State, fate: Fate, password: string)
    requires s.worker.Busy?
    ensures var a' := Perform(s, OpOf(s.worker, password), fate).state.acct;
            a'.active == s.acct.active && a'.activeMX == s.acct.activeMX
  {
    CallTouches(s, fate, password);
  }

  /** The worker marks activated only what Mailgun has activated. */
  lemma VerifyMarksTruly(s: State, fate: Fate, password: string, now: nat)
    requires Ground(s) && s.worker.Busy? && s.worker.pc.AtVerify?
    ensures AboutToMark(s.acct, WorkStep(s, fate, password, now).worker)
  {
    Acc.ReportsAreTrue(s.acct, s.worker.mem.spec.domain);
  }

  lemma CheckMarksTruly(s: State, fate: Fate, password: string, now: nat)
    requires Ground(s) && s.worker.Busy? && s.worker.pc.AtCheckMX? && AboutToMark(s.acct, s.worker)
    ensures AboutToMark(s.acct, WorkStep(s, fate, password, now).worker)
  {
    Acc.ReportsAreTrue(s.acct, s.worker.mem.spec.domain);
  }

  lemma OthersMarkNothing(s: State, fate: Fate, password: string, now: nat)
    requires s.worker.Busy? && !s.worker.pc.AtVerify? && !s.worker.pc.AtCheckMX?
    ensures AboutToMark(s.acct, WorkStep(s, fate, password, now).worker)
  {
  }

  lemma WorkKeepsActivations(s: State, fate: Fate, password: string, now: nat)
    requires Ground(s) && ActivationsTrue(s) && s.worker.Busy?
    ensures ActivationsTrue(WorkStep(s, fate, password, now))
  {
    var d := Perform(s, OpOf(s.worker, password), fate);
    if s.worker.pc.AtVerify? {
      VerifyMarksTruly(s, fate, password, now);
    } else if s.worker.pc.AtCheckMX? {
      CheckMarksTruly(s, fate, password, now);
    } else {
      OthersMarkNothing(s, fate, password, now);
    }
    CallsActivateNothing(s, fate, password);
    WritesMarkTruly(s, fate, password);
  }

  lemma WritesMarkTruly(s: State, fate: Fate, password: string)
    requires Ground(s) && ActivationsTrue(s) && s.worker.Busy?
    ensures var api' := Perform(s, OpOf(s.worker, password), fate).state.api;
            forall k | k in api'.objs :: MarkTrue(s.acct, s.gh, k, api'.objs[k])
  {
    StatusWriteLands(s, fate, password);
    WriteKeepsSpecs(s, fate, password);
  }

  lemma EditKeepsActivations(s: State, key: Key, spec: DomainSpec)
    requires ActivationsTrue(s)
    ensures ActivationsTrue(Step(s, EditCR(key, spec)))
  {
  }

  lemma ServeKeepsActivations(s: State, r: Acc.Request)
    requires ActivationsTrue(s)
    ensures ActivationsTrue(Step(s, Mailgun(r)))
  {
    Acc.ServeGrows(s.acct, r);
    forall k | k in s.api.objs
      ensures MarkTrue(Step(s, Mailgun(r)).acct, Step(s, Mailgun(r)).gh, k, s.api.objs[k])
    {
      assert MarkTrue(s.acct, s.gh, k, s.api.objs[k]);
    }
  }

  lemma StepKeepsActivations(s: State, a: Action)
    requires Ground(s) && ActivationsTrue(s)
    ensures ActivationsTrue(Step(s, a))
  {
    match a {
      case Work(fate, password, now) => if s.worker.Busy? { WorkKeepsActivations(s, fate, password, now); }
      case EditCR(key, spec) => EditKeepsActivations(s, key, spec);
      case Mailgun(r) => ServeKeepsActivations(s, r);
      case CreateCR(_, _, _) => UserKeepsActivations(s, a);
      case DeleteCR(_) => UserKeepsActivations(s, a);
      case SetFinalizers(_, _) => UserKeepsActivations(s, a);
      case _ => OthersKeepActivations(s, a);
    }
  }

  lemma UserKeepsActivations(s: State, a: Action)
    requires ActivationsTrue(s) && (a.CreateCR? || a.DeleteCR? || a.SetFinalizers?)
    ensures ActivationsTrue(Step(s, a))
  {
    forall k | k in Step(s, a).api.objs
      ensures MarkTrue(s.acct, s.gh, k, Step(s, a).api.objs[k])
    {
      if k in s.api.objs { assert MarkTrue(s.acct, s.gh, k, s.api.objs[k]); }
    }
  }

  lemma OthersKeepActivations(s: State, a: Action)
    requires ActivationsTrue(s) && (a.Start? || a.Crash? || a.SyncCache? || a.SetEndpoint? || a.SetSecret?)
    ensures ActivationsTrue(Step(s, a))
  {
    assert Step(s, a).api.objs == s.api.objs && Step(s, a).acct == s.acct && Step(s, a).gh == s.gh;
  }

  /** Activation is sound end to end: in every state of every run a stored "activated" stands for
      a domain Mailgun was told to activate, with its MX records when the spec asks for the check;
      only a resource whose domain or check was edited after activation may differ. */
  lemma {:induction false} ActivationIsSound(trace: seq<State>, run: seq<Action>, i: nat)
    requires IsRun(trace, run) && i <= |run|
    ensures ActivationsTrue(trace[i])
  {
    if i > 0 {
      Advance(Step, trace, run, i - 1);
      ActivationIsSound(trace, run, i - 1);
      RunsKeepGround(trace, run, i - 1);
      StepKeepsActivations(trace[i - 1], run[i - 1]);
    }
  }

  // ----- validation rounds -----

  ghost function Count(t: DomainStatus): nat {
    if t.validationCount.Some? then t.validationCount.value else 0
  }

  type Tally = map<Id, nat>

  ghost predicate CountTrue(landed: Tally, k: Key, obj: DomainCR) {
    var n := At(landed, Id(k, obj.uid));
    Count(obj.status) == n && (obj.status.validationCount.Some? <==> n > 0)
  }

  ghost predicate StoredCountsTrue(landed: Tally, objs: Objs<DomainSpec, DomainStatus>, clock: nat) {
    && (forall k | k in objs :: CountTrue(landed, k, objs[k]))
    && (forall id | id in landed :: id.uid <= clock)
  }

  ghost predicate CallsCover(landed: Tally, verifies: Tally) {
    forall id: Id :: At(landed, id) <= At(verifies, id)
  }

  /** A round whose call is made and whose write is not. */
  ghost predicate RoundOpen(landed: Tally, verifies: Tally, w: Worker) {
    w.Busy? && (w.pc.AtCheckMX? || w.pc.AtStoreRound?) ==>
      At(landed, Id(w.key, w.base.uid)) < At(verifies, Id(w.key, w.base.uid))
  }

  ghost predicate CountsTrue(s: State) {
    && StoredCountsTrue(s.gh.landed, s.api.objs, s.api.clock)
    && CallsCover(s.gh.landed, s.gh.verifies) && RoundOpen(s.gh.landed, s.gh.verifies, s.worker)
  }

  lemma RoundsComeFrom(w: Worker, r: Reply, password: string, now: nat, secs: int)
    requires w.Busy?
    ensures var w' := Resume(w, r, password, now, secs);
            w'.Busy? && (w'.pc.AtCheckMX? || w'.pc.AtStoreRound?) ==>
              (w.pc.AtVerify? || w.pc.AtCheckMX?) && w'.key == w.key && w'.base == w.base
  {
  }

  lemma RoundWriteCounts(s: State, fate: Fate, password: string)
    requires Ground(s) && CountsTrue(s) && s.worker.Busy? && s.worker.pc.AtStoreRound?
    ensures var d := Perform(s, OpOf(s.worker, password), fate);
            StoredCountsTrue(Note(s, d.state, d.reply).landed, d.state.api.objs, d.state.api.clock)
  {
    var d := Perform(s, OpOf(s.worker, password), fate);
    StatusWriteLands(s, fate, password);
  }

  ghost predicate SameStatuses(objs: Objs<DomainSpec, DomainStatus>, objs': Objs<DomainSpec, DomainStatus>) {
    forall k | k in objs' :: k in objs && objs'[k].status == objs[k].status && objs'[k].uid == objs[k].uid
  }

  lemma CountsTravel(landed: Tally, objs: Objs<DomainSpec, DomainStatus>, clock: nat,
                     objs': Objs<DomainSpec, DomainStatus>, clock': nat)
    requires StoredCountsTrue(landed, objs, clock) && SameStatuses(objs, objs') && clock <= clock'
    ensures StoredCountsTrue(landed, objs', clock')
  {
    forall k | k in objs'
      ensures CountTrue(landed, k, objs'[k])
    {
      assert CountTrue(landed, k, objs[k]);
    }
  }

  /** A status write that is no round leaves the count as it is. */
  lemma PlainStatusCounts(s: State, fate: Fate, password: string)
    requires Ground(s) && CountsTrue(s) && s.worker.Busy? && IsStatus(s.worker.pc) && !s.worker.pc.AtStoreRound?
    ensures var d := Perform(s, OpOf(s.worker, password), fate);
            StoredCountsTrue(s.gh.landed, d.state.api.objs, d.state.api.clock)
  {
    StatusWriteLands(s, fate, password);
  }

  lemma OtherWritesCount(s: State, fate: Fate, password: string)
    requires Ground(s) && CountsTrue(s) && s.worker.Busy? && !s.worker.pc.AtStoreRound?
    ensures var d := Perform(s, OpOf(s.worker, password), fate);
            StoredCountsTrue(s.gh.landed, d.state.api.objs, d.state.api.clock)
  {
    if IsStatus(s.worker.pc) {
      PlainStatusCounts(s, fate, password);
    } else {
      var d := Perform(s, OpOf(s.worker, password), fate);
      StatusWriteLands(s, fate, password);
      WriteKeepsSpecs(s, fate, password);
      CountsTravel(s.gh.landed, s.api.objs, s.api.clock, d.state.api.objs, d.state.api.clock);
    }
  }

  lemma CallsCount(s: State, fate: Fate, password: string, now: nat)
    requires Ground(s) && CountsTrue(s) && s.worker.Busy?
    ensures var s' := WorkStep(s, fate, password, now);
            CallsCover(s'.gh.landed, s'.gh.verifies) && RoundOpen(s'.gh.landed, s'.gh.verifies, s'.worker)
  {
    var d := Perform(s, OpOf(s.worker, password), fate);
    RoundsComeFrom(s.worker, d.reply, password, now, s.verifySecs);
  }

  lemma WorkKeepsCounts(s: State, fate: Fate, password: string, now: nat)
    requires Ground(s) && CountsTrue(s) && s.worker.Busy?
    ensures CountsTrue(WorkStep(s, fate, password, now))
  {
    var d := Perform(s, OpOf(s.worker, password), fate);
    if s.worker.pc.AtStoreRound? {
      RoundWriteCounts(s, fate, password);
    } else {
      OtherWritesCount(s, fate, password);
    }
    CallsCount(s, fate, password, now);
  }

  lemma CreateCRKeepsCounts(s: State, key: Key, spec: DomainSpec, others: set<Finalizer>)
    requires CountsTrue(s)
    ensures CountsTrue(Step(s, CreateCR(key, spec, others)))
  {
    if key !in s.api.objs {
      assert Id(key, s.api.clock + 1) !in s.gh.landed;
    }
  }

  lemma UserActionKeepsStatuses(s: State, a: Action)
    requires a.EditCR? || a.DeleteCR? || a.SetFinalizers?
    ensures SameStatuses(s.api.objs, Step(s, a).api.objs) && s.api.clock <= Step(s, a).api.clock
    ensures Step(s, a).gh.landed == s.gh.landed && Step(s, a).gh.verifies == s.gh.verifies
    ensures Step(s, a).worker == s.worker
  {
  }

  lemma ServerActionKeepsCounts(s: State, a: Action)
    requires CountsTrue(s) && (a.EditCR? || a.DeleteCR? || a.SetFinalizers?)
    ensures CountsTrue(Step(s, a))
  {
    UserActionKeepsStatuses(s, a);
    CountsTravel(s.gh.landed, s.api.objs, s.api.clock, Step(s, a).api.objs, Step(s, a).api.clock);
  }

  lemma OtherActionSpares(s: State, a: Action)
    requires !(a.Work? || a.CreateCR? || a.EditCR? || a.DeleteCR? || a.SetFinalizers?)
    ensures var s' := Step(s, a);
            && s'.api.objs == s.api.objs && s'.api.clock == s.api.clock
            && s'.gh.landed == s.gh.landed && s'.gh.verifies == s.gh.verifies
            && (s'.worker == s.worker || s'.worker.Idle? || s'.worker.pc.AtGet?)
  {
  }

  lemma OtherActionKeepsCounts(s: State, a: Action)
    requires CountsTrue(s) && !(a.Work? || a.CreateCR? || a.EditCR? || a.DeleteCR? || a.SetFinalizers?)
    ensures CountsTrue(Step(s, a))
  {
    OtherActionSpares(s, a);
  }

  lemma StepKeepsCounts(s: State, a: Action)
    requires Ground(s) && CountsTrue(s)
    ensures CountsTrue(Step(s, a))
  {
    match a {
      case Work(fate, password, now) => if s.worker.Busy? { WorkKeepsCounts(s, fate, password, now); }
      case CreateCR(key, spec, others) => CreateCRKeepsCounts(s, key, spec, others);
      case EditCR(_, _) => ServerActionKeepsCounts(s, a);
      case DeleteCR(_) => ServerActionKeepsCounts(s, a);
      case SetFinalizers(_, _) => ServerActionKeepsCounts(s, a);
      case _ => OtherActionKeepsCounts(s, a);
    }
  }

  lemma {:induction false} RunsCount(trace: seq<State>, run: seq<Action>, i: nat)
    requires IsRun(trace, run) && i <= |run|
    ensures CountsTrue(trace[i])
  {
    if i > 0 {
      Advance(Step, trace, run, i - 1);
      RunsCount(trace, run, i - 1);
      RunsKeepGround(trace, run, i - 1);
      StepKeepsCounts(trace[i - 1], run[i - 1]);
    }
  }

  /** The stored validation count is the number of verification rounds whose status write landed;
      it is there exactly when the last-validation time is, and there were at least as many
      verification calls. */
  lemma ValidationsAreCounted(trace: seq<State>, run: seq<Action>, i: nat)
    requires IsRun(trace, run) && i <= |run|
    ensures var e := trace[i];
            && CountsTrue(e)
            && (forall k | k in e.api.objs :: e.api.objs[k].status.validationCount.Some? <==> e.api.objs[k].status.lastValidation.Some?)
  {
    RunsCount(trace, run, i);
    RunsKeepGround(trace, run, i);
    assert trace[i].api.past[|trace[i].api.past| - 1] == trace[i].api.objs;
  }

  lemma StepLandsMore(s: State, a: Action, id: Id)
    ensures At(s.gh.landed, id) <= At(Step(s, a).gh.landed, id)
  {
  }

  lemma {:induction false} LandedGrows(trace: seq<State>, run: seq<Action>, i: nat, j: nat, id: Id)
    requires IsRun(trace, run) && i <= j <= |run|
    ensures At(trace[i].gh.landed, id) <= At(trace[j].gh.landed, id)
  {
    if i < j {
      LandedGrows(trace, run, i, j - 1, id);
      Advance(Step, trace, run, j - 1);
      StepLandsMore(trace[j - 1], run[j - 1], id);
    }
  }

  /** The stored count never decreases as long as the resource lives. */
  lemma CountsOnlyGrow(trace: seq<State>, run: seq<Action>, i: nat, j: nat, k: Key)
    requires IsRun(trace, run) && i <= j <= |run|
    requires k in trace[i].api.objs && k in trace[j].api.objs && trace[i].api.objs[k].uid == trace[j].api.objs[k].uid
    ensures Count(trace[i].api.objs[k].status) <= Count(trace[j].api.objs[k].status)
  {
    ValidationsAreCounted(trace, run, i);
    ValidationsAreCounted(trace, run, j);
    LandedGrows(trace, run, i, j, Id(k, trace[i].api.objs[k].uid));
  }

  // ----- no lost wakeup -----

  /** A result after which the workqueue forgets the resource. */
  ghost predicate Forgets(r: Result) {
    r == Quiet || (r.Requeue? && r.delay <= 0)
  }

  /** Nothing is left to do for this uid. */
  ghost predicate Finished(api: DomainApi, key: Key, uid: nat) {
    key in api.objs && api.objs[key].uid == uid ==> DomainFinalizer !in api.objs[key].finalizers || Settled(api.objs[key])
  }

  lemma QuietAfterRead(s: State, fate: Fate, password: string, now: nat)
    requires Ground(s) && Ageing(s.api) && s.worker.Busy? && s.worker.pc.AtGet?
    requires WorkStep(s, fate, password, now).worker == Idle(Quiet)
    ensures Get(s.api, s.worker.key).Missing?
            || (Get(s.api, s.worker.key).Found? && Finished(WorkStep(s, fate, password, now).api, s.worker.key, Get(s.api, s.worker.key).obj.uid))
  {
    assert s.api.past[|s.api.past| - 1] == s.api.objs;
  }

  lemma QuietComesFrom(w: Worker, r: Reply, password: string, now: nat, secs: int)
    requires w.Busy? && !w.pc.AtGet? && Resume(w, r, password, now, secs) == Idle(Quiet)
    ensures r.RObj? && (w.pc.AtAddFinalizer? || w.pc.AtDropFinalizer? || w.pc.AtSettle?)
    ensures w.pc.AtAddFinalizer? ==> Settled(r.obj)
  {
  }

  lemma QuietAfterWrite(s: State, fate: Fate, password: string, now: nat)
    requires Ground(s) && s.worker.Busy? && !s.worker.pc.AtGet?
    requires WorkStep(s, fate, password, now).worker.Idle?
    requires WorkStep(s, fate, password, now).worker.last == Quiet
    ensures Finished(WorkStep(s, fate, password, now).api, s.worker.key, s.worker.base.uid)
  {
    var w := s.worker;
    var d := Perform(s, OpOf(w, password), fate);
    QuietComesFrom(w, d.reply, password, now, s.verifySecs);
    if IsUpdate(w.pc) {
      UpdateAnswer(s.api, w.key, w.mem, w.base, fate);
    } else {
      StatusAnswer(s.api, w.key, w.mem, w.base, fate);
    }
  }

  lemma OnlyARoundRequeues(s: State, fate: Fate, password: string, now: nat)
    requires s.worker.Busy? && WorkStep(s, fate, password, now).worker.Idle?
    ensures var last := WorkStep(s, fate, password, now).worker.last;
            last.Requeue? ==> last.delay == Config.Delay(s.verifySecs)
  {
  }

  /** A reconcile the workqueue forgets found no resource in the cache, or leaves the one it
      worked on gone, without our finalizer, or stored as failed or activated; for every
      configured interval from 1 to 9223372036 seconds, overflow of the duration included. */
  lemma NoLostWakeup(trace: seq<State>, run: seq<Action>, i: nat)
    requires IsRun(trace, run) && i < |run| && 1 <= trace[0].verifySecs <= 9223372036
    requires run[i].Work? && trace[i].worker.Busy? && trace[i + 1].worker.Idle? && Forgets(trace[i + 1].worker.last)
    ensures var e, e' := trace[i], trace[i + 1];
            if e.worker.pc.AtGet? then
              Get(e.api, e.worker.key).Missing?
              || (Get(e.api, e.worker.key).Found? && Finished(e'.api, e.worker.key, Get(e.api, e.worker.key).obj.uid))
            else Finished(e'.api, e.worker.key, e.worker.base.uid)
  {
    RunsKeepGround(trace, run, i);
    RunsAge(trace, run, i);
    IntervalIsFixed(trace, run, i);
    Advance(Step, trace, run, i);
    ForgottenIsFinished(trace[i], run[i].fate, run[i].password, run[i].now);
  }

  lemma ForgottenIsFinished(s: State, fate: Fate, password: string, now: nat)
    requires Ground(s) && Ageing(s.api) && s.worker.Busy? && 1 <= s.verifySecs <= 9223372036
    requires WorkStep(s, fate, password, now).worker.Idle? && Forgets(WorkStep(s, fate, password, now).worker.last)
    ensures var s' := WorkStep(s, fate, password, now);
            if s.worker.pc.AtGet? then
              Get(s.api, s.worker.key).Missing?
              || (Get(s.api, s.worker.key).Found? && Finished(s'.api, s.worker.key, Get(s.api, s.worker.key).obj.uid))
            else Finished(s'.api, s.worker.key, s.worker.base.uid)
  {
    Config.DelayIsExact(s.verifySecs);
    OnlyARoundRequeues(s, fate, password, now);
    if s.worker.pc.AtGet? {
      QuietAfterRead(s, fate, password, now);
    } else {
      QuietAfterWrite(s, fate, password, now);
    }
  }

  /** The interval matters: a round that is stored without activation is forgotten exactly when the
      delay is not positive, as it is for an interval of zero and beyond the range of a duration. */
  lemma UnfinishedRoundForgotten(s: State, fate: Fate, password: string, now: nat)
    requires Ground(s) && s.worker.Busy? && s.worker.pc.AtStoreRound? && s.worker.mem.status.state == Created
    requires Perform(s, OpOf(s.worker, password), fate).reply.RObj?
    ensures var s' := WorkStep(s, fate, password, now);
            && s'.worker.Idle? && (Forgets(s'.worker.last) <==> Config.Delay(s.verifySecs) <= 0)
            && s.worker.key in s'.api.objs && !Settled(s'.api.objs[s.worker.key])
  {
    StatusAnswer(s.api, s.worker.key, s.worker.mem, s.worker.base, fate);
  }

  lemma CallsKeepInterval(s: State, op: Op, fate: Fate)
    ensures Perform(s, op, fate).state.verifySecs == s.verifySecs
  {
  }

  lemma StepKeepsInterval(s: State, a: Action)
    ensures Step(s, a).verifySecs == s.verifySecs
  {
    if a.Work? && s.worker.Busy? {
      CallsKeepInterval(s, OpOf(s.worker, a.password), a.fate);
    }
  }

  lemma {:induction false} IntervalIsFixed(trace: seq<State>, run: seq<Action>, i: nat)
    requires IsRun(trace, run) && i <= |run|
    ensures trace[i].verifySecs == trace[0].verifySecs
  {
    if i > 0 {
      IntervalIsFixed(trace, run, i - 1);
      Advance(Step, trace, run, i - 1);
      StepKeepsInterval(trace[i - 1], run[i - 1]);
    }
  }
}
