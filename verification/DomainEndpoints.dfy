/** The DNSEndpoint of a resource: created before the domain is ever verified, and gone when an
    answered deletion lets the resource go. */
module DomainEndpoints {
  import opened Basics
  import opened Kube
  import opened Runs
  import opened Dns
  import opened DomainProtocol
  import opened DomainInvariants
  import opened DomainClean
  import opened DomainLife
  import Acc = Account

  // ----- the flag -----

  /** The flag stands for an answered creation. */
  ghost predicate FlagOk(log: Log, id: Id, t: DomainStatus) {
    t.dnsCreated ==> id in log.published
  }

  ghost predicate PastFlagsOk(log: Log, api: DomainApi) {
    forall i, k | 0 <= i < |api.past| && k in api.past[i] :: FlagOk(log, Id(k, api.past[i][k].uid), api.past[i][k].status)
  }

  ghost predicate PastDns(pc: Pc) {
    pc.AtLookup? || pc.AtVerify? || pc.AtCheckMX? || pc.AtStoreRound?
  }

  /** Past the DNSEndpoint, it is there if the spec asks for it. */
  ghost predicate DnsFirst(w: Worker)
    requires w.Busy?
  {
    && (w.pc.AtStoreEndpoint? ==> w.mem.status.dnsCreated)
    && (PastDns(w.pc) && w.mem.spec.externalDNS == Some(true) ==> w.mem.status.dnsCreated)
  }

  ghost predicate WorkerFlagsOk(log: Log, w: Worker) {
    w.Busy? && !w.pc.AtGet? ==> FlagOk(log, Me(w), w.base.status) && FlagOk(log, Me(w), w.mem.status) && DnsFirst(w)
  }

  ghost predicate AllFlagsOk(s: State) {
    PastFlagsOk(s.log, s.api) && WorkerFlagsOk(s.log, s.worker)
  }

  ghost predicate PublishedGrows(log: Log, log': Log) {
    forall id | id in log.published :: id in log'.published
  }

  lemma CallPublishes(s: State, fate: Fate, password: string, now: nat)
    requires s.worker.Busy?
    ensures var log' := WorkStep(s, fate, password, now).log;
            && PublishedGrows(s.log, log')
            && (s.worker.pc.AtCreateEndpoint? && Perform(s, OpOf(s.worker, password), fate).reply.RDone? ==> Me(s.worker) in log'.published)
  {
  }

  lemma GrownLogPast(log: Log, log': Log, api: DomainApi)
    requires PublishedGrows(log, log') && PastFlagsOk(log, api)
    ensures PastFlagsOk(log', api)
  {
    forall i, k | 0 <= i < |api.past| && k in api.past[i]
      ensures FlagOk(log', Id(k, api.past[i][k].uid), api.past[i][k].status)
    {
      assert FlagOk(log, Id(k, api.past[i][k].uid), api.past[i][k].status);
    }
  }

  lemma CommitFlagsOk(log: Log, api: DomainApi, objs: Objs<DomainSpec, DomainStatus>)
    requires PastFlagsOk(log, api) && forall k | k in objs :: FlagOk(log, Id(k, objs[k].uid), objs[k].status)
    ensures PastFlagsOk(log, Commit(api, objs))
  {
  }

  lemma CurrentFlagsOk(log: Log, api: DomainApi, k: Key)
    requires Consistent(api) && PastFlagsOk(log, api) && k in api.objs
    ensures FlagOk(log, Id(k, api.objs[k].uid), api.objs[k].status)
  {
    assert api.past[|api.past| - 1] == api.objs;
  }

  lemma WriteKeepsFlags(s: State, fate: Fate, password: string)
    requires Ground(s) && AllFlagsOk(s) && s.worker.Busy?
    ensures PastFlagsOk(s.log, Perform(s, OpOf(s.worker, password), fate).state.api)
  {
    var api' := Perform(s, OpOf(s.worker, password), fate).state.api;
    WriteKeepsSpecs(s, fate, password);
    StatusWriteLands(s, fate, password);
    if api' != s.api {
      forall k | k in api'.objs
        ensures FlagOk(s.log, Id(k, api'.objs[k].uid), api'.objs[k].status)
      {
        CurrentFlagsOk(s.log, s.api, k);
      }
      CommitFlagsOk(s.log, s.api, api'.objs);
    }
  }

  /** Where the flag in memory comes from, and where the worker goes with it. */
  ghost predicate FlagsFrom(w: Worker, r: Reply, w': Worker)
    requires w.Busy? && w'.Busy?
  {
    && DnsFirst(w')
    && (w'.mem.status.dnsCreated ==> w.mem.status.dnsCreated || w.base.status.dnsCreated || (w.pc.AtCreateEndpoint? && r.RDone?))
    && (w'.base.status.dnsCreated ==> w.mem.status.dnsCreated || w.base.status.dnsCreated)
  }

  lemma CreationFlags(w: Worker, r: Reply, password: string, now: nat, secs: int)
    requires w.Busy? && (InCreation(w.pc) || w.pc.AtAddFinalizer? || w.pc.AtProbe? || w.pc.AtCreate? || w.pc.AtSettle?)
    requires Shape(w) && Fits(w, r)
    ensures var w' := Resume(w, r, password, now, secs); w'.Busy? ==> FlagsFrom(w, r, w')
  {
  }

  lemma EndpointFlags(w: Worker, r: Reply, password: string, now: nat, secs: int)
    requires w.Busy? && (w.pc.AtCreateEndpoint? || w.pc.AtStoreEndpoint?)
    requires Shape(w) && Fits(w, r) && DnsFirst(w)
    ensures var w' := Resume(w, r, password, now, secs); w'.Busy? ==> FlagsFrom(w, r, w')
  {
  }

  lemma RoundFlags(w: Worker, r: Reply, password: string, now: nat, secs: int)
    requires w.Busy? && PastDns(w.pc)
    requires Shape(w) && Fits(w, r) && DnsFirst(w)
    ensures var w' := Resume(w, r, password, now, secs); w'.Busy? ==> FlagsFrom(w, r, w')
  {
  }

  lemma DeletionFlags(w: Worker, r: Reply, password: string, now: nat, secs: int)
    requires w.Busy? && InDeletion(w.pc) && Shape(w) && Fits(w, r)
    ensures var w' := Resume(w, r, password, now, secs); w'.Busy? ==> FlagsFrom(w, r, w')
  {
  }

  lemma ReplyFits(s: State, fate: Fate, password: string)
    requires Ground(s) && s.worker.Busy? && !s.worker.pc.AtGet?
    ensures Fits(s.worker, Perform(s, OpOf(s.worker, password), fate).reply)
  {
    if IsUpdate(s.worker.pc) {
      UpdateFits(s, fate, password);
    } else if IsStatus(s.worker.pc) {
      StatusFits(s, fate, password);
    }
  }

  lemma ResumeKeepsFlags(log: Log, log': Log, w: Worker, r: Reply, password: string, now: nat, secs: int)
    requires w.Busy? && !w.pc.AtGet? && Shape(w) && Fits(w, r) && StatusOk(w.base.status)
    requires WorkerFlagsOk(log, w) && PublishedGrows(log, log')
    requires w.pc.AtCreateEndpoint? && r.RDone? ==> Me(w) in log'.published
    ensures WorkerFlagsOk(log', Resume(w, r, password, now, secs))
  {
    ResumeContinues(w, r, password, now, secs);
    if InDeletion(w.pc) {
      DeletionFlags(w, r, password, now, secs);
    } else if w.pc.AtCreateEndpoint? || w.pc.AtStoreEndpoint? {
      EndpointFlags(w, r, password, now, secs);
    } else if PastDns(w.pc) {
      RoundFlags(w, r, password, now, secs);
    } else {
      CreationFlags(w, r, password, now, secs);
    }
  }

  lemma FetchedFlagsOk(log: Log, key: Key, obj: DomainCR)
    requires FlagOk(log, Id(key, obj.uid), obj.status)
    ensures WorkerFlagsOk(log, Fetched(key, obj))
  {
  }

  lemma WorkKeepsFlags(s: State, fate: Fate, password: string, now: nat)
    requires Ground(s) && AllFlagsOk(s) && s.worker.Busy?
    ensures AllFlagsOk(WorkStep(s, fate, password, now))
  {
    var d, log' := Perform(s, OpOf(s.worker, password), fate), WorkStep(s, fate, password, now).log;
    WriteKeepsFlags(s, fate, password);
    CallPublishes(s, fate, password, now);
    GrownLogPast(s.log, log', d.state.api);
    if s.worker.pc.AtGet? {
      ReadKeepsFlags(s, fate, password, now);
    } else {
      ReplyFits(s, fate, password);
      ResumeKeepsFlags(s.log, log', s.worker, d.reply, password, now, s.verifySecs);
    }
  }

  lemma ReadKeepsFlags(s: State, fate: Fate, password: string, now: nat)
    requires Ground(s) && PastFlagsOk(s.log, s.api) && s.worker.Busy? && s.worker.pc.AtGet?
    ensures WorkerFlagsOk(WorkStep(s, fate, password, now).log, WorkStep(s, fate, password, now).worker)
  {
    var d := Perform(s, OpOf(s.worker, password), fate);
    if d.reply.RObj? { FetchedFlagsOk(s.log, s.worker.key, d.reply.obj); }
  }

  lemma UserKeepsFlag(s: State, a: Action, k: Key)
    requires (a.CreateCR? || a.EditCR? || a.DeleteCR? || a.SetFinalizers?) && k in Step(s, a).api.objs
    ensures var obj := Step(s, a).api.objs[k];
            (k in s.api.objs && obj.uid == s.api.objs[k].uid && obj.status == s.api.objs[k].status) || !obj.status.dnsCreated
  {
  }

  lemma UserKeepsFlags(s: State, a: Action)
    requires Ground(s) && AllFlagsOk(s) && (a.CreateCR? || a.EditCR? || a.DeleteCR? || a.SetFinalizers?)
    ensures AllFlagsOk(Step(s, a))
  {
    var api' := Step(s, a).api;
    ServerActionMoves(s, a);
    if api' != s.api {
      forall k | k in api'.objs
        ensures FlagOk(s.log, Id(k, api'.objs[k].uid), api'.objs[k].status)
      {
        UserKeepsFlag(s, a, k);
        if k in s.api.objs { CurrentFlagsOk(s.log, s.api, k); }
      }
      CommitFlagsOk(s.log, s.api, api'.objs);
    }
    assert Step(s, a).worker == s.worker && Step(s, a).log == s.log;
  }

  lemma StepKeepsFlags(s: State, a: Action)
    requires Ground(s) && AllFlagsOk(s)
    ensures AllFlagsOk(Step(s, a))
  {
    match a {
      case Work(fate, password, now) => if s.worker.Busy? { WorkKeepsFlags(s, fate, password, now); }
      case CreateCR(_, _, _) => UserKeepsFlags(s, a);
      case EditCR(_, _) => UserKeepsFlags(s, a);
      case DeleteCR(_) => UserKeepsFlags(s, a);
      case SetFinalizers(_, _) => UserKeepsFlags(s, a);
      case _ =>
    }
  }

  lemma {:induction false} RunsKeepFlags(trace: seq<State>, run: seq<Action>, i: nat)
    requires IsRun(trace, run) && i <= |run|
    ensures AllFlagsOk(trace[i])
  {
    if i > 0 {
      Advance(Step, trace, run, i - 1);
      RunsKeepFlags(trace, run, i - 1);
      RunsKeepGround(trace, run, i - 1);
      StepKeepsFlags(trace[i - 1], run[i - 1]);
    }
  }

  /** In every state of every run: where the flag is stored the creation of the DNSEndpoint was
      answered, and a resource that asks for external DNS is looked up and verified only after. */
  lemma PublishedBeforeVerified(trace: seq<State>, run: seq<Action>, i: nat)
    requires IsRun(trace, run) && i <= |run|
    ensures var s := trace[i];
            && (forall k | k in s.api.objs && s.api.objs[k].status.dnsCreated :: Id(k, s.api.objs[k].uid) in s.log.published)
            && (s.worker.Busy? && PastDns(s.worker.pc) && s.worker.mem.spec.externalDNS == Some(true) ==>
                  Me(s.worker) in s.log.published)
  {
    RunsKeepFlags(trace, run, i);
    RunsKeepGround(trace, run, i);
    var s := trace[i];
    assert s.api.past[|s.api.past| - 1] == s.api.objs;
    assert forall k | k in s.api.objs :: FlagOk(s.log, Id(k, s.api.objs[k].uid), s.api.objs[k].status);
  }

  /** It is created only where the spec asks for it, and not again once the flag is set. */
  lemma PublishedOnDemand(w: Worker, r: Reply, password: string, now: nat, secs: int)
    requires w.Busy?
    ensures var w' := Resume(w, r, password, now, secs);
            w'.Busy? && w'.pc.AtCreateEndpoint? ==> w'.mem.spec.externalDNS == Some(true) && !w'.mem.status.dnsCreated
  {
  }

  // ----- deletion -----

  /** A DNSEndpoint that is there is deleted by two answered calls, and the object in memory is as
      it was. */
  lemma EndpointIsDeleted(s: State, password: string, now: nat, password': string, now': nat)
    requires s.worker.Busy? && s.worker.pc.AtGetEndpoint? && s.worker.key in s.endpoints
    ensures var s' := WorkStep(WorkStep(s, Fine, password, now), Fine, password', now');
            && s'.worker == s.worker.(pc := AtDeleteProbe) && s'.endpoints == s.endpoints - {s.worker.key} && s'.api == s.api
  {
  }

  /** How far the round is with the DNSEndpoint. */
  ghost predicate Cleared(s: State, key: Key) {
    && s.worker.Busy? && s.worker.key == key && InDeletion(s.worker.pc)
    && (s.worker.pc.AtDeleteEndpoint? && !s.worker.pc.found ==> key !in s.endpoints)
    && (!s.worker.pc.AtGetEndpoint? && !s.worker.pc.AtDeleteEndpoint? ==> key !in s.endpoints)
  }

  /** The two calls about the DNSEndpoint are answered, and nobody adds it. */
  ghost predicate Clears(s: State, a: Action, key: Key) {
    && (a.Work? && s.worker.Busy? && (s.worker.pc.AtGetEndpoint? || s.worker.pc.AtDeleteEndpoint?) ==> a.fate == Fine)
    && (a.SetEndpoint? && a.key == key ==> a.endpoints == None)
  }

  lemma WorkClears(s: State, fate: Fate, password: string, now: nat, key: Key)
    requires Cleared(s, key) && Clears(s, Work(fate, password, now), key)
    ensures var s' := WorkStep(s, fate, password, now);
            && (s'.worker.Busy? ==> Cleared(s', key))
            && (!s.worker.pc.AtGetEndpoint? && !s.worker.pc.AtDeleteEndpoint? ==> key !in s'.endpoints)
  {
  }

  lemma StepClears(s: State, a: Action, key: Key)
    requires Cleared(s, key) && Clears(s, a, key)
    ensures Step(s, a).worker.Busy? ==> Cleared(Step(s, a), key)
    ensures !s.worker.pc.AtGetEndpoint? && !s.worker.pc.AtDeleteEndpoint? ==> key !in Step(s, a).endpoints
  {
    match a {
      case Work(fate, password, now) => WorkClears(s, fate, password, now, key);
      case _ =>
    }
  }

  lemma {:induction false} RoundIsCleared(trace: seq<State>, run: seq<Action>, i: nat, j: nat, key: Key)
    requires IsRun(trace, run) && i <= j <= |run| && Cleared(trace[i], key)
    requires forall k | i <= k < j :: Clears(trace[k], run[k], key)
    requires forall k | i <= k <= j :: trace[k].worker.Busy?
    ensures Cleared(trace[j], key)
  {
    if i < j {
      RoundIsCleared(trace, run, i, j - 1, key);
      Advance(Step, trace, run, j - 1);
      StepClears(trace[j - 1], run[j - 1], key);
    }
  }

  /** In every run: a deletion round whose two calls about the DNSEndpoint are answered has let the
      resource go only with the DNSEndpoint gone, unless somebody adds it again; whatever else
      fails, and whatever others do meanwhile. */
  lemma DeletionClearsEndpoint(trace: seq<State>, run: seq<Action>, i: nat, j: nat)
    requires IsRun(trace, run) && i <= j < |run|
    requires trace[i].worker.Busy? && trace[i].worker.pc.AtGetEndpoint?
    requires forall k | i <= k <= j :: trace[k].worker.Busy? && Clears(trace[k], run[k], trace[i].worker.key)
    requires trace[j].worker.pc.AtDropFinalizer?
    ensures trace[i].worker.key !in trace[j + 1].endpoints
  {
    var key := trace[i].worker.key;
    RoundIsCleared(trace, run, i, j, key);
    Advance(Step, trace, run, j);
    StepClears(trace[j], run[j], key);
  }
}
