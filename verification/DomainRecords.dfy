/** The records in a status are Mailgun's, and a published DNSEndpoint holds them: along every run,
    record by record. */
module DomainRecords {
  import opened Basics
  import opened Kube
  import opened Runs
  import opened Dns
  import opened DnsPublication
  import opened DomainProtocol
  import opened DomainInvariants
  import opened DomainClean
  import opened DomainLife
  import Acc = Account

  // ----- the records of a status -----

  /** Mailgun answered `id` with records of which the status holds copies. */
  ghost predicate CopiesShown(log: Log, id: Id, t: DomainStatus) {
    exists x :: x in log.shown && x.id == id && Copies(x.receiving, t.receiving) && Copies(x.sending, t.sending)
  }

  /** No records, or copies of Mailgun's; and copies at least where there is a domain. */
  ghost predicate RecordsOk(log: Log, id: Id, t: DomainStatus) {
    CopiesShown(log, id, t)
    || (t.receiving == [] && t.sending == [] && t.state != Created && t.state != Activated)
  }

  ghost predicate PastRecordsOk(log: Log, api: DomainApi) {
    forall i, k | 0 <= i < |api.past| && k in api.past[i] :: RecordsOk(log, Id(k, api.past[i][k].uid), api.past[i][k].status)
  }

  /** The places at which the object in memory has the records of a new or a looked-up domain. */
  ghost predicate HasRecords(pc: Pc) {
    InCreation(pc) || pc.AtCreateEndpoint? || pc.AtStoreEndpoint? || pc.AtLookup? || pc.AtVerify? || pc.AtCheckMX? || pc.AtStoreRound?
  }

  ghost predicate WorkerRecordsOk(log: Log, w: Worker) {
    w.Busy? && !w.pc.AtGet? ==>
      && RecordsOk(log, Me(w), w.base.status) && RecordsOk(log, Me(w), w.mem.status)
      && (HasRecords(w.pc) ==> CopiesShown(log, Me(w), w.mem.status))
  }

  ghost predicate LogGrows(log: Log, log': Log) {
    forall x | x in log.shown :: x in log'.shown
  }

  lemma GrownLogShows(log: Log, log': Log, id: Id, t: DomainStatus)
    requires LogGrows(log, log')
    ensures CopiesShown(log, id, t) ==> CopiesShown(log', id, t)
    ensures RecordsOk(log, id, t) ==> RecordsOk(log', id, t)
  {
    if CopiesShown(log, id, t) {
      var x :| x in log.shown && x.id == id && Copies(x.receiving, t.receiving) && Copies(x.sending, t.sending);
      assert x in log'.shown;
    }
  }

  lemma SameRecords(log: Log, id: Id, t: DomainStatus, t': DomainStatus)
    requires t'.receiving == t.receiving && t'.sending == t.sending
    ensures CopiesShown(log, id, t) ==> CopiesShown(log, id, t')
  {
    if CopiesShown(log, id, t) {
      var x :| x in log.shown && x.id == id && Copies(x.receiving, t.receiving) && Copies(x.sending, t.sending);
      assert x in log.shown && Copies(x.receiving, t'.receiving) && Copies(x.sending, t'.sending);
    }
  }

  lemma GrownLogPast(log: Log, log': Log, api: DomainApi)
    requires LogGrows(log, log') && PastRecordsOk(log, api)
    ensures PastRecordsOk(log', api)
  {
    forall i, k | 0 <= i < |api.past| && k in api.past[i]
      ensures RecordsOk(log', Id(k, api.past[i][k].uid), api.past[i][k].status)
    {
      assert RecordsOk(log, Id(k, api.past[i][k].uid), api.past[i][k].status);
      GrownLogShows(log, log', Id(k, api.past[i][k].uid), api.past[i][k].status);
    }
  }

  lemma CommitRecordsOk(log: Log, api: DomainApi, objs: Objs<DomainSpec, DomainStatus>)
    requires PastRecordsOk(log, api) && forall k | k in objs :: RecordsOk(log, Id(k, objs[k].uid), objs[k].status)
    ensures PastRecordsOk(log, Commit(api, objs))
  {
  }

  lemma CurrentRecordsOk(log: Log, api: DomainApi, k: Key)
    requires Consistent(api) && PastRecordsOk(log, api) && k in api.objs
    ensures RecordsOk(log, Id(k, api.objs[k].uid), api.objs[k].status)
  {
    assert api.past[|api.past| - 1] == api.objs;
  }

  // ----- one call -----

  lemma CallGrowsLog(s: State, fate: Fate, password: string, now: nat)
    requires s.worker.Busy?
    ensures LogGrows(s.log, WorkStep(s, fate, password, now).log)
  {
  }

  /** A write leaves each status as it was, or as the worker has it in memory. */
  lemma WriteKeepsRecords(s: State, fate: Fate, password: string)
    requires Ground(s) && PastRecordsOk(s.log, s.api) && WorkerRecordsOk(s.log, s.worker) && s.worker.Busy?
    ensures PastRecordsOk(s.log, Perform(s, OpOf(s.worker, password), fate).state.api)
  {
    var api' := Perform(s, OpOf(s.worker, password), fate).state.api;
    WriteKeepsSpecs(s, fate, password);
    StatusWriteLands(s, fate, password);
    if api' != s.api {
      forall k | k in api'.objs
        ensures RecordsOk(s.log, Id(k, api'.objs[k].uid), api'.objs[k].status)
      {
        CurrentRecordsOk(s.log, s.api, k);
      }
      CommitRecordsOk(s.log, s.api, api'.objs);
    }
  }

  /** A reply with a domain is a reply Mailgun showed. */
  lemma ReplyShown(s: State, fate: Fate, password: string, now: nat)
    requires s.worker.Busy? && Perform(s, OpOf(s.worker, password), fate).reply.RDomain?
    ensures var c := Perform(s, OpOf(s.worker, password), fate).reply.domain;
            forall t: DomainStatus :: t.receiving == FromMailgun(c.receiving) && t.sending == FromMailgun(c.sending) ==>
              CopiesShown(WorkStep(s, fate, password, now).log, Me(s.worker), t)
  {
    var c := Perform(s, OpOf(s.worker, password), fate).reply.domain;
    var log' := WorkStep(s, fate, password, now).log;
    var x := Shown(Me(s.worker), c.receiving, c.sending);
    assert x in log'.shown;
    ConversionCopies(c.receiving);
    ConversionCopies(c.sending);
    forall t: DomainStatus | t.receiving == FromMailgun(c.receiving) && t.sending == FromMailgun(c.sending)
      ensures CopiesShown(log', Me(s.worker), t)
    {
      assert x in log'.shown && Copies(x.receiving, t.receiving) && Copies(x.sending, t.sending);
    }
  }

  /** How the records in memory come about: Mailgun's, those of before, or the stored ones. */
  ghost predicate RecordsFrom(w: Worker, r: Reply, w': Worker)
    requires w.Busy? && w'.Busy?
  {
    var t, t' := w.mem.status, w'.mem.status;
    || (r.RDomain? && (w.pc.AtCreate? || w.pc.AtLookup?)
        && t'.receiving == FromMailgun(r.domain.receiving) && t'.sending == FromMailgun(r.domain.sending))
    || (t'.receiving == t.receiving && t'.sending == t.sending
        && (t'.state == t.state || t'.state == Failed || HasRecords(w.pc)) && (HasRecords(w'.pc) ==> HasRecords(w.pc)))
    || (t' == w.base.status && (HasRecords(w'.pc) ==> t'.state == Created))
  }

  lemma DeletionRecords(w: Worker, r: Reply, password: string, now: nat, secs: int)
    requires w.Busy? && InDeletion(w.pc) && Shape(w) && Fits(w, r) && StatusOk(w.base.status)
    ensures var w' := Resume(w, r, password, now, secs); w'.Busy? ==> RecordsFrom(w, r, w')
  {
  }

  lemma CreationRecordsCome(w: Worker, r: Reply, password: string, now: nat, secs: int)
    requires w.Busy? && (w.pc.AtAddFinalizer? || w.pc.AtProbe? || w.pc.AtCreate? || w.pc.AtSettle?) && Shape(w) && Fits(w, r) && StatusOk(w.base.status)
    ensures var w' := Resume(w, r, password, now, secs); w'.Busy? ==> RecordsFrom(w, r, w')
  {
  }

  lemma ExportRecords(w: Worker, r: Reply, password: string, now: nat, secs: int)
    requires w.Busy? && InCreation(w.pc) && Shape(w) && Fits(w, r) && StatusOk(w.base.status)
    ensures var w' := Resume(w, r, password, now, secs); w'.Busy? ==> RecordsFrom(w, r, w')
  {
  }

  lemma RoundRecords(w: Worker, r: Reply, password: string, now: nat, secs: int)
    requires w.Busy? && !InDeletion(w.pc) && HasRecords(w.pc) && !InCreation(w.pc) && Shape(w) && Fits(w, r) && StatusOk(w.base.status)
    ensures var w' := Resume(w, r, password, now, secs); w'.Busy? ==> RecordsFrom(w, r, w')
  {
  }

  lemma RecordsComeFrom(w: Worker, r: Reply, password: string, now: nat, secs: int)
    requires w.Busy? && !w.pc.AtGet? && Shape(w) && Fits(w, r) && StatusOk(w.base.status)
    ensures var w' := Resume(w, r, password, now, secs); w'.Busy? ==> RecordsFrom(w, r, w')
  {
    if InDeletion(w.pc) {
      DeletionRecords(w, r, password, now, secs);
    } else if InCreation(w.pc) {
      ExportRecords(w, r, password, now, secs);
    } else if HasRecords(w.pc) {
      RoundRecords(w, r, password, now, secs);
    } else {
      CreationRecordsCome(w, r, password, now, secs);
    }
  }

  /** So the object in memory keeps to the rule. */
  lemma MemoryRecordsOk(log: Log, log': Log, w: Worker, r: Reply, w': Worker)
    requires w.Busy? && w'.Busy? && !w.pc.AtGet? && RecordsFrom(w, r, w') && Me(w') == Me(w)
    requires WorkerRecordsOk(log, w) && LogGrows(log, log')
    requires r.RDomain? ==> forall t: DomainStatus ::
               t.receiving == FromMailgun(r.domain.receiving) && t.sending == FromMailgun(r.domain.sending) ==> CopiesShown(log', Me(w), t)
    ensures RecordsOk(log', Me(w), w'.mem.status) && (HasRecords(w'.pc) ==> CopiesShown(log', Me(w), w'.mem.status))
  {
    var t, t' := w.mem.status, w'.mem.status;
    if t'.receiving == t.receiving && t'.sending == t.sending { SameRecords(log, Me(w), t, t'); }
    GrownLogShows(log, log', Me(w), t');
  }

  lemma CallKeepsWorkerRecords(s: State, fate: Fate, password: string, now: nat)
    requires Ground(s) && WorkerRecordsOk(s.log, s.worker) && s.worker.Busy? && !s.worker.pc.AtGet?
    ensures var s' := WorkStep(s, fate, password, now); WorkerRecordsOk(s'.log, s'.worker)
  {
    var d := Perform(s, OpOf(s.worker, password), fate);
    CallFits(s, fate, password);
    CallGrowsLog(s, fate, password, now);
    if d.reply.RDomain? { ReplyShown(s, fate, password, now); }
    ResumeKeepsRecords(s.log, WorkStep(s, fate, password, now).log, s.worker, d.reply, password, now, s.verifySecs);
  }

  lemma ResumeKeepsRecords(log: Log, log': Log, w: Worker, r: Reply, password: string, now: nat, secs: int)
    requires w.Busy? && !w.pc.AtGet? && Shape(w) && Fits(w, r) && StatusOk(w.base.status)
    requires r.RObj? ==> IsUpdate(w.pc) || IsStatus(w.pc)
    requires WorkerRecordsOk(log, w) && LogGrows(log, log')
    requires r.RDomain? ==> forall t: DomainStatus ::
               t.receiving == FromMailgun(r.domain.receiving) && t.sending == FromMailgun(r.domain.sending) ==> CopiesShown(log', Me(w), t)
    ensures WorkerRecordsOk(log', Resume(w, r, password, now, secs))
  {
    var w' := Resume(w, r, password, now, secs);
    if w'.Busy? {
      ResumeContinues(w, r, password, now, secs);
      RecordsComeFrom(w, r, password, now, secs);
      MemoryRecordsOk(log, log', w, r, w');
      BaseRecordsOk(log, log', w, r, w');
    }
  }

  lemma CallFits(s: State, fate: Fate, password: string)
    requires Ground(s) && s.worker.Busy? && !s.worker.pc.AtGet?
    ensures var r := Perform(s, OpOf(s.worker, password), fate).reply;
            Fits(s.worker, r) && (r.RObj? ==> IsUpdate(s.worker.pc) || IsStatus(s.worker.pc))
  {
    OnlyWritesHandBack(s, fate, password);
    if IsUpdate(s.worker.pc) {
      UpdateFits(s, fate, password);
    } else if IsStatus(s.worker.pc) {
      StatusFits(s, fate, password);
    }
  }

  lemma OnlyWritesHandBack(s: State, fate: Fate, password: string)
    requires s.worker.Busy? && !s.worker.pc.AtGet?
    ensures Perform(s, OpOf(s.worker, password), fate).reply.RObj? ==> IsUpdate(s.worker.pc) || IsStatus(s.worker.pc)
  {
  }

  lemma BaseRecordsOk(log: Log, log': Log, w: Worker, r: Reply, w': Worker)
    requires w.Busy? && w'.Busy? && !w.pc.AtGet? && Fits(w, r) && Me(w') == Me(w) && Continues(w, r, w')
    requires r.RObj? ==> IsUpdate(w.pc) || IsStatus(w.pc)
    requires WorkerRecordsOk(log, w) && LogGrows(log, log')
    ensures RecordsOk(log', Me(w), w'.base.status)
  {
    GrownLogShows(log, log', Me(w), w.base.status);
    GrownLogShows(log, log', Me(w), w.mem.status);
  }

  /** Reading the resource. */
  lemma ReadKeepsRecords(s: State, fate: Fate, password: string, now: nat)
    requires Ground(s) && PastRecordsOk(s.log, s.api) && s.worker.Busy? && s.worker.pc.AtGet?
    ensures var s' := WorkStep(s, fate, password, now); WorkerRecordsOk(s'.log, s'.worker)
  {
    var d := Perform(s, OpOf(s.worker, password), fate);
    if d.reply.RObj? {
      FetchedRecordsOk(s.log, s.worker.key, d.reply.obj);
    }
  }

  lemma FetchedRecordsOk(log: Log, key: Key, obj: DomainCR)
    requires RecordsOk(log, Id(key, obj.uid), obj.status) && StatusOk(obj.status)
    ensures WorkerRecordsOk(log, Fetched(key, obj))
  {
  }

  // ----- runs -----

  ghost predicate AllRecordsOk(s: State) {
    PastRecordsOk(s.log, s.api) && WorkerRecordsOk(s.log, s.worker)
  }

  lemma WorkKeepsRecords(s: State, fate: Fate, password: string, now: nat)
    requires Ground(s) && AllRecordsOk(s) && s.worker.Busy?
    ensures AllRecordsOk(WorkStep(s, fate, password, now))
  {
    var d := Perform(s, OpOf(s.worker, password), fate);
    WriteKeepsRecords(s, fate, password);
    CallGrowsLog(s, fate, password, now);
    GrownLogPast(s.log, WorkStep(s, fate, password, now).log, d.state.api);
    if s.worker.pc.AtGet? {
      ReadKeepsRecords(s, fate, password, now);
    } else {
      CallKeepsWorkerRecords(s, fate, password, now);
    }
  }

  /** What others do changes no status. */
  lemma UserKeepsRecords(s: State, a: Action)
    requires Ground(s) && AllRecordsOk(s) && (a.CreateCR? || a.EditCR? || a.DeleteCR? || a.SetFinalizers?)
    ensures AllRecordsOk(Step(s, a))
  {
    var api' := Step(s, a).api;
    ServerActionMoves(s, a);
    if api' != s.api {
      forall k | k in api'.objs
        ensures RecordsOk(s.log, Id(k, api'.objs[k].uid), api'.objs[k].status)
      {
        UserKeepsStatus(s, a, k);
        if k in s.api.objs { CurrentRecordsOk(s.log, s.api, k); }
      }
      CommitRecordsOk(s.log, s.api, api'.objs);
    }
    assert Step(s, a).worker == s.worker && Step(s, a).log == s.log;
  }

  lemma UserKeepsStatus(s: State, a: Action, k: Key)
    requires (a.CreateCR? || a.EditCR? || a.DeleteCR? || a.SetFinalizers?) && k in Step(s, a).api.objs
    ensures var obj := Step(s, a).api.objs[k];
            (k in s.api.objs && obj.uid == s.api.objs[k].uid && obj.status == s.api.objs[k].status) || obj.status == NO_STATUS
  {
  }

  lemma StepKeepsRecords(s: State, a: Action)
    requires Ground(s) && AllRecordsOk(s)
    ensures AllRecordsOk(Step(s, a))
  {
    match a {
      case Work(fate, password, now) => if s.worker.Busy? { WorkKeepsRecords(s, fate, password, now); }
      case CreateCR(_, _, _) => UserKeepsRecords(s, a);
      case EditCR(_, _) => UserKeepsRecords(s, a);
      case DeleteCR(_) => UserKeepsRecords(s, a);
      case SetFinalizers(_, _) => UserKeepsRecords(s, a);
      case _ =>
    }
  }

  /** In every state of every run, the records of each stored status, in the cache too, are copies of
      those Mailgun answered to a reconcile of that resource, field by field; only a resource that
      is neither created nor activated may have none. */
  lemma {:induction false} RecordsAreMailguns(trace: seq<State>, run: seq<Action>, i: nat)
    requires IsRun(trace, run) && i <= |run|
    ensures AllRecordsOk(trace[i])
  {
    if i > 0 {
      Advance(Step, trace, run, i - 1);
      RecordsAreMailguns(trace, run, i - 1);
      RunsKeepGround(trace, run, i - 1);
      StepKeepsRecords(trace[i - 1], run[i - 1]);
    }
  }

  // ----- publication -----

  lemma EndpointCreated(s: State, password: string, now: nat)
    requires s.worker.Busy? && s.worker.pc.AtCreateEndpoint? && s.worker.key !in s.endpoints
    ensures var w, s' := s.worker, WorkStep(s, Fine, password, now);
            var t := w.mem.status;
            && w.key in s'.endpoints
            && s'.endpoints[w.key] == Compile(w.mem.spec.domain, t.receiving + t.sending, w.mem.spec.externalDNSRecords)
            && s'.worker.Busy? && s'.worker.pc.AtStoreEndpoint? && s'.worker.mem.status == t.(dnsCreated := true)
  {
  }

  /** An answered creation of the DNSEndpoint leaves, under the resource's name, the compiled list. */
  lemma EndpointIsStored(s: State, password: string, now: nat, receiving: seq<Acc.MgRecord>, sending: seq<Acc.MgRecord>)
    requires s.worker.Busy? && s.worker.pc.AtCreateEndpoint? && s.worker.key !in s.endpoints
    requires Copies(receiving, s.worker.mem.status.receiving) && Copies(sending, s.worker.mem.status.sending)
    ensures var w, s' := s.worker, WorkStep(s, Fine, password, now);
            && w.key in s'.endpoints
            && Publishes(s'.endpoints[w.key], w.mem.spec.domain, receiving + sending, w.mem.spec.externalDNSRecords)
            && s'.worker.Busy? && s'.worker.pc.AtStoreEndpoint? && s'.worker.mem.status == w.mem.status.(dnsCreated := true)
  {
    var t := s.worker.mem.status;
    EndpointCreated(s, password, now);
    CopiesJoin(receiving, sending, t.receiving, t.sending);
    CompilePublishes(s.worker.mem.spec.domain, receiving + sending, t.receiving + t.sending, s.worker.mem.spec.externalDNSRecords);
  }

  /** The DNSEndpoint holds the records Mailgun answered for this resource, and the user's. */
  ghost predicate PublishesShown(log: Log, id: Id, out: seq<Endpoint>, spec: DomainSpec) {
    exists x :: x in log.shown && x.id == id && Publishes(out, spec.domain, x.receiving + x.sending, spec.externalDNSRecords)
  }

  /** In every run, an answered creation of a DNSEndpoint that is not there yet publishes, under the
      resource's name, an endpoint for every record Mailgun answered for the resource that is no mail
      exchanger, under the record's own name with its own value; one for the mail exchangers, on the
      domain, with each as a target; the user's records; and nothing else. */
  lemma EndpointsAreMailguns(trace: seq<State>, run: seq<Action>, i: nat)
    requires IsRun(trace, run) && i < |run| && run[i].Work? && run[i].fate == Fine
    requires trace[i].worker.Busy? && trace[i].worker.pc.AtCreateEndpoint? && trace[i].worker.key !in trace[i].endpoints
    ensures var w := trace[i].worker;
            && w.key in trace[i + 1].endpoints
            && PublishesShown(trace[i].log, Me(w), trace[i + 1].endpoints[w.key], w.mem.spec)
  {
    RecordsAreMailguns(trace, run, i);
    Advance(Step, trace, run, i);
    var s := trace[i];
    var t := s.worker.mem.status;
    var x :| x in s.log.shown && x.id == Me(s.worker) && Copies(x.receiving, t.receiving) && Copies(x.sending, t.sending);
    EndpointIsStored(s, run[i].password, run[i].now, x.receiving, x.sending);
  }
}
