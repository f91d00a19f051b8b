/** What the calls of a Route reconcile bring about when they are answered, told from the fields of
    the spec and from Mailgun's state. */
module RouteEffects {
  import opened Basics
  import opened Kube
  import opened Runs
  import opened RouteProtocol
  import opened RouteInvariants
  import opened RouteLife
  import Acc = Account

  /** The route says all the spec says, actions included. */
  ghost predicate Mirrors(r: Acc.MgRoute, spec: RouteSpec) {
    && r.description == spec.description && r.expression == spec.expression && r.actions == spec.actions
    && match spec.priority
       case Some(p) => r.priority == p
       case None => r.priority == 0
  }

  /** Actions `i` to `j` of the run are calls of the worker's, all answered. */
  ghost predicate AllAnswered(run: seq<Action>, i: nat, j: nat) {
    j <= |run| && forall k | i <= k < j :: run[k].Work? && run[k].fate == Fine
  }

  /** The worker stands over the stored version. */
  ghost predicate Current(s: State) {
    Ground(s) && s.worker.Busy? && s.worker.key in s.api.objs && s.api.objs[s.worker.key] == s.worker.base
  }

  // ----- creation -----

  /** An answered creation puts a route on Mailgun that says what the spec says, and takes its id. */
  lemma CreationMirrors(s: State, random: string)
    requires s.worker.Busy? && s.worker.pc.AtCreate? && s.worker.mem.spec.description != "fail"
    ensures var w, s', id := s.worker, WorkStep(s, Fine, random), RouteName(random);
            && id in s'.acct.routes && s'.acct.routes[id].id == id && Mirrors(s'.acct.routes[id], w.mem.spec)
            && (forall t | t in s.acct.routes && t != id :: t in s'.acct.routes && s'.acct.routes[t] == s.acct.routes[t])
            && s'.api == s.api && s'.worker.Busy? && s'.worker.pc.AtStoreId? && s'.worker.key == w.key && s'.worker.base == w.base
            && s'.worker.mem == w.mem.(status := w.mem.status.(routeID := Some(id)))
  {
  }

  lemma IdIsStored(s: State, random: string)
    requires Current(s) && s.worker.pc.AtStoreId?
    ensures var w, s' := s.worker, WorkStep(s, Fine, random);
            && s'.acct == s.acct && Current(s') && s'.worker.pc.AtPin? && s'.worker.key == w.key
            && s'.worker.base.status == w.mem.status && s'.worker.base.deleting == w.base.deleting
            && s'.worker.base.uid == w.base.uid
  {
    StatusAnswer(s.api, s.worker.key, s.worker.mem, s.worker.base, Fine);
    CallKeepsGround(s, Fine, random);
  }

  lemma PinIsStored(s: State, random: string)
    requires Current(s) && s.worker.pc.AtPin? && !s.worker.base.deleting
    ensures var w, s' := s.worker, WorkStep(s, Fine, random);
            && s'.acct == s.acct && s'.worker == Idle(Quiet) && w.key in s'.api.objs
            && s'.api.objs[w.key].status == w.base.status && RouteFinalizer in s'.api.objs[w.key].finalizers
  {
    UpdateAnswer(s.api, s.worker.key, s.worker.mem, s.worker.base, Fine);
  }

  lemma CreationAnswered(trace: seq<State>, run: seq<Action>, i: nat)
    requires IsRun(trace, run) && AllAnswered(run, i, i + 1) && Current(trace[i]) && trace[i].worker.pc.AtCreate?
    requires trace[i].worker.mem.spec.description != "fail"
    ensures var s, s', id := trace[i], trace[i + 1], RouteName(run[i].random);
            && Current(s') && s'.worker.pc.AtStoreId? && s'.worker.key == s.worker.key && s'.worker.base == s.worker.base
            && s'.worker.mem.status.routeID == Some(id)
            && id in s'.acct.routes && Mirrors(s'.acct.routes[id], s.worker.mem.spec)
  {
    Advance(Step, trace, run, i);
    CreationMirrors(trace[i], run[i].random);
    CallKeepsGround(trace[i], Fine, run[i].random);
  }

  lemma StoreAnswered(trace: seq<State>, run: seq<Action>, i: nat)
    requires IsRun(trace, run) && AllAnswered(run, i, i + 1) && Current(trace[i]) && trace[i].worker.pc.AtStoreId?
    ensures var s, s' := trace[i], trace[i + 1];
            && s'.acct == s.acct && Current(s') && s'.worker.pc.AtPin? && s'.worker.key == s.worker.key
            && s'.worker.base.status == s.worker.mem.status && s'.worker.base.deleting == s.worker.base.deleting
  {
    Advance(Step, trace, run, i);
    IdIsStored(trace[i], run[i].random);
  }

  lemma PinAnswered(trace: seq<State>, run: seq<Action>, i: nat)
    requires IsRun(trace, run) && AllAnswered(run, i, i + 1) && Current(trace[i]) && trace[i].worker.pc.AtPin?
    requires !trace[i].worker.base.deleting
    ensures var s, s' := trace[i], trace[i + 1];
            && s'.acct == s.acct && s'.worker == Idle(Quiet) && s.worker.key in s'.api.objs
            && s'.api.objs[s.worker.key].status == s.worker.base.status && RouteFinalizer in s'.api.objs[s.worker.key].finalizers
  {
    Advance(Step, trace, run, i);
    PinIsStored(trace[i], run[i].random);
  }

  /** In every run: a live resource that reaches the creation over its stored version, and is
      answered from there on, ends with a route on Mailgun that says what its spec says, the route's
      id stored, and the finalizer on. */
  lemma NewRouteIsMade(trace: seq<State>, run: seq<Action>, i: nat)
    requires IsRun(trace, run) && AllAnswered(run, i, i + 3)
    requires var s := trace[i];
             && s.worker.Busy? && s.worker.pc.AtCreate? && s.worker.key in s.api.objs && s.api.objs[s.worker.key] == s.worker.base
             && !s.worker.base.deleting && s.worker.mem.spec.description != "fail"
    ensures var key, spec, e, id := trace[i].worker.key, trace[i].worker.mem.spec, trace[i + 3], RouteName(run[i].random);
            && e.worker == Idle(Quiet)
            && key in e.api.objs && e.api.objs[key].status.routeID == Some(id) && RouteFinalizer in e.api.objs[key].finalizers
            && id in e.acct.routes && Mirrors(e.acct.routes[id], spec)
  {
    RunsKeepGround(trace, run, i);
    CreationAnswered(trace, run, i);
    StoreAnswered(trace, run, i + 1);
    PinAnswered(trace, run, i + 2);
  }

  // ----- the gate -----

  /** The domain a spec names. */
  ghost predicate Names(spec: RouteSpec, d: string) {
    spec.domain == Some(d) && d != ""
  }

  /** Where a spec names a domain the gate is asked before anything else. */
  lemma GateIsAsked(w: Worker, r: Reply, d: string)
    requires w.Busy? && (w.pc.AtGet? || w.pc.AtAddFinalizer?)
    ensures var w' := Resume(w, r);
            w'.Busy? && Names(w'.mem.spec, d) ==>
              w'.pc.AtGate? || w'.pc.AtAddFinalizer? || w'.pc.AtDeleteProbe? || w'.pc.AtDropNil?
  {
  }

  /** The answered gate opens if and only if Mailgun lists the domain as active; else the reason is
      to be stored. */
  lemma GateOpens(s: State, random: string, d: string)
    requires s.worker.Busy? && s.worker.pc.AtGate? && Names(s.worker.mem.spec, d)
    ensures var w, w' := s.worker, WorkStep(s, Fine, random).worker;
            var k := Acc.Find(s.acct.domains, d);
            var listed := k < |s.acct.domains|;
            && w'.Busy? && w'.key == w.key
            && (w'.pc.AtFetch? || w'.pc.AtCreate? <==> listed && s.acct.domains[k].state == "active")
            && (w'.pc.AtFetch? ==> HasId(w.mem)) && (w'.pc.AtCreate? ==> !HasId(w.mem))
            && (!w'.pc.AtFetch? && !w'.pc.AtCreate? ==>
                  w'.pc.AtReportGate? && w'.mem.status.mailgunError == Some(if listed then DomainInactive else DomainMissing))
  {
  }

  /** A report that is answered is in the store; of the gate and of a failed creation it brings the
      resource back, after five minutes and after one. */
  lemma ReportIsStored(s: State, random: string)
    requires Current(s) && IsStatus(s.worker.pc) && !s.worker.pc.AtStoreId?
    ensures var w, s' := s.worker, WorkStep(s, Fine, random);
            && w.key in s'.api.objs && s'.api.objs[w.key].status == w.mem.status
            && s'.worker == Idle(match w.pc
                                 case AtReportGate => RequeueAfter(5)
                                 case AtReportCreate => RequeueAfter(1)
                                 case _ => Error)
  {
    StatusAnswer(s.api, s.worker.key, s.worker.mem, s.worker.base, Fine);
  }

  /** Every failure on Mailgun is reported under its own name, and only failures are reported. */
  lemma FailuresAreNamed(w: Worker, r: Reply)
    requires w.Busy?
    ensures var w' := Resume(w, r);
            w'.Busy? && IsStatus(w'.pc) && !w'.pc.AtStoreId? ==>
              && w'.mem.status.mailgunError.Some?
              && match w'.mem.status.mailgunError.value
                 case DomainMissing => w.pc.AtGate? && !r.RDomain?
                 case DomainInactive => w.pc.AtGate? && r.RDomain? && r.state != "active"
                 case NotCreated => w.pc.AtCreate? && !r.RRoute? && w'.pc.AtReportCreate?
                 case NotUpdated => w.pc.AtUpdateRoute? && !r.RRoute? && w'.pc.AtReportUpdate?
                 case NotDeleted => w.pc.AtDeleteRoute? && !r.RDone? && w'.pc.AtReportDelete?
  {
  }

  /** No reconcile returns an error but for a call that did not bring what it asked for, or after an
      update or a deletion that Mailgun refused. */
  lemma ErrorsHaveCauses(w: Worker, r: Reply)
    requires w.Busy? && Resume(w, r) == Idle(Error)
    ensures !r.RObj? || w.pc.AtReportDelete? || w.pc.AtReportUpdate?
    ensures OpOf(w).GetCR? || OpOf(w).UpdateCR? || OpOf(w).StatusCR?
  {
  }

  /** A delay comes from a stored report only. */
  lemma DelaysHaveCauses(w: Worker, r: Reply)
    requires w.Busy? && Resume(w, r).Idle? && Resume(w, r).last.RequeueAfter?
    ensures r.RObj? && (w.pc.AtReportGate? || w.pc.AtReportCreate?)
  {
  }

  // ----- deletion -----

  lemma ProbeAnswered(trace: seq<State>, run: seq<Action>, i: nat)
    requires IsRun(trace, run) && AllAnswered(run, i, i + 1) && Current(trace[i]) && trace[i].worker.pc.AtDeleteProbe?
    requires Shows(trace[i].acct, IdOf(trace[i].worker.base))
    ensures var s, s' := trace[i], trace[i + 1];
            Current(s') && s'.worker == s.worker.(pc := AtDeleteRoute) && s'.acct == s.acct
  {
    Advance(Step, trace, run, i);
    CallKeepsGround(trace[i], Fine, run[i].random);
  }

  lemma DeleteAnswered(trace: seq<State>, run: seq<Action>, i: nat)
    requires IsRun(trace, run) && AllAnswered(run, i, i + 1) && Current(trace[i]) && trace[i].worker.pc.AtDeleteRoute?
    requires !Acc.Fails(trace[i].acct, "delete", IdOf(trace[i].worker.base))
    ensures var s, s' := trace[i], trace[i + 1];
            && Current(s') && s'.worker.pc.AtDropFinalizer? && s'.worker.key == s.worker.key && s'.worker.base == s.worker.base
            && s'.acct == s.acct.(routes := s.acct.routes - {IdOf(s.worker.base)})
  {
    Advance(Step, trace, run, i);
    CallKeepsGround(trace[i], Fine, run[i].random);
  }

  lemma DropAnswered(trace: seq<State>, run: seq<Action>, i: nat)
    requires IsRun(trace, run) && AllAnswered(run, i, i + 1) && Current(trace[i]) && trace[i].worker.pc.AtDropFinalizer?
    ensures var s, s' := trace[i], trace[i + 1];
            && s'.worker == Idle(Quiet) && s'.acct == s.acct
            && (s.worker.key in s'.api.objs ==> RouteFinalizer !in s'.api.objs[s.worker.key].finalizers)
            && (s.worker.base.finalizers == {RouteFinalizer} ==> s.worker.key !in s'.api.objs)
  {
    Advance(Step, trace, run, i);
    DropRemoves(trace[i], Fine, run[i].random);
    DropShape(trace[i].api, trace[i].worker.key, trace[i].worker.base, Fine, RouteFinalizer);
  }

  /** In every run: a deletion that reaches the probe over the stored version, and is answered from
      there on, takes the route off Mailgun and the finalizer off the resource, which is gone if
      nobody else holds it. */
  lemma DeletedRouteIsGone(trace: seq<State>, run: seq<Action>, i: nat)
    requires IsRun(trace, run) && AllAnswered(run, i, i + 3)
    requires var s := trace[i];
             && s.worker.Busy? && s.worker.pc.AtDeleteProbe? && s.worker.key in s.api.objs && s.api.objs[s.worker.key] == s.worker.base
             && Shows(s.acct, IdOf(s.worker.base)) && !Acc.Fails(s.acct, "delete", IdOf(s.worker.base))
    ensures var w, e := trace[i].worker, trace[i + 3];
            && e.worker == Idle(Quiet) && e.acct.routes == trace[i].acct.routes - {IdOf(w.base)}
            && (w.key in e.api.objs ==> RouteFinalizer !in e.api.objs[w.key].finalizers)
            && (w.base.finalizers == {RouteFinalizer} ==> w.key !in e.api.objs)
  {
    RunsKeepGround(trace, run, i);
    ProbeAnswered(trace, run, i);
    DeleteAnswered(trace, run, i + 1);
    DropAnswered(trace, run, i + 2);
  }
}
