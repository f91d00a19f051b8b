/** Probing before creating: what one honest GetDomain before CreateDomain buys, against all that
    other clients do in between. */
module DomainProbe {
  import opened Basics
  import opened Kube
  import opened Runs
  import opened DomainProtocol
  import opened DomainInvariants
  import opened DomainOrphans
  import Acc = Account

  /** The request makes Mailgun list a new domain. */
  ghost predicate Adds(a: Acc.Account, r: Acc.Request) {
    r.Add? || (r.Create? && r.name !in a.failed)
  }

  /** A creation probe does not fail while the name is listed, and nobody else adds the name
      between the probe and the creation. */
  ghost predicate HonestCreation(s: State, a: Action) {
    && (a.Work? && s.worker.Busy? && s.worker.pc.AtProbe? ==>
          a.fate == Fine || !Acc.Lists(s.acct, s.worker.mem.spec.domain))
    && (a.Mailgun? && s.worker.Busy? && s.worker.pc.AtCreate? && Adds(s.acct, a.request) ==>
          a.request.name != s.worker.mem.spec.domain)
  }

  ghost predicate HonestCreationRun(trace: seq<State>, run: seq<Action>) {
    |trace| == |run| + 1 && forall i | 0 <= i < |run| :: HonestCreation(trace[i], run[i])
  }

  /** A worker about to create has a free name before it. */
  ghost predicate Probed(s: State) {
    s.worker.Busy? && s.worker.pc.AtCreate? ==> !Acc.Lists(s.acct, s.worker.mem.spec.domain)
  }

  lemma UnlistedStays(list: Domains, list': Domains, name: string)
    requires Acc.Find(list, name) == |list| && Thins(list, list')
    ensures Acc.Find(list', name) == |list'|
  {
    if !Acc.SameEntries(list, list') {
      var k :| 0 <= k < |list| && list' == Acc.Without(list, k);
      forall i | 0 <= i < |list'|
        ensures list'[i].name != name
      {
        Acc.WithoutAt(list, k, i);
      }
    }
    Acc.FirstMatch(list', name, |list'|);
  }

  lemma ServeKeepsUnlisted(a: Acc.Account, r: Acc.Request, name: string)
    requires !Acc.Lists(a, name) && (Adds(a, r) ==> r.name != name)
    ensures !Acc.Lists(Acc.Serve(a, r), name)
  {
    ServeThins(a, r);
    if Thins(a.domains, Acc.Serve(a, r).domains) {
      UnlistedStays(a.domains, Acc.Serve(a, r).domains, name);
    } else {
      Acc.FindAppended(a.domains, Acc.NewContainer(a, r.name), name);
    }
  }

  /** Only a probe leads to a creation, and an honest one only past a free name. */
  lemma HonestProbesFindFreeNames(s: State, fate: Fate, password: string, now: nat)
    requires s.worker.Busy? && HonestCreation(s, Work(fate, password, now))
    ensures Probed(WorkStep(s, fate, password, now))
  {
  }

  lemma StepKeepsProbed(s: State, a: Action)
    requires Probed(s) && HonestCreation(s, a)
    ensures Probed(Step(s, a))
  {
    match a {
      case Work(fate, password, now) => if s.worker.Busy? { HonestProbesFindFreeNames(s, fate, password, now); }
      case Mailgun(r) =>
        if s.worker.Busy? && s.worker.pc.AtCreate? { ServeKeepsUnlisted(s.acct, r, s.worker.mem.spec.domain); }
      case _ =>
    }
  }

  /** In every run of honest probes without a racing add, no creation meets a listed name. */
  lemma {:induction false} ProbesPrecedeCreations(trace: seq<State>, run: seq<Action>, i: nat)
    requires IsRun(trace, run) && i <= |run| && HonestCreationRun(trace, run)
    ensures Probed(trace[i])
  {
    if i > 0 {
      Advance(Step, trace, run, i - 1);
      ProbesPrecedeCreations(trace, run, i - 1);
      StepKeepsProbed(trace[i - 1], run[i - 1]);
    }
  }

  // ----- unique names -----

  /** Other clients add only names that are not listed. */
  ghost predicate AddsNew(s: State, a: Action) {
    a.Mailgun? && Adds(s.acct, a.request) ==> !Acc.Lists(s.acct, a.request.name)
  }

  ghost predicate AddsNewRun(trace: seq<State>, run: seq<Action>) {
    |trace| == |run| + 1 && forall i | 0 <= i < |run| :: AddsNew(trace[i], run[i])
  }

  lemma RequestsKeepUnique(a: Acc.Account, name: string)
    requires Acc.Unique(a.domains)
    ensures Acc.Unique(Acc.GetDomain(a, name).account.domains) && Acc.Unique(Acc.VerifyDomain(a, name).account.domains)
    ensures Acc.Unique(Acc.DropDomain(a, name).domains)
    ensures !Acc.Lists(a, name) ==> Acc.Unique(Acc.AddDomain(a, name).domains)
  {
    Acc.HandlersRefineMap(a, name);
    var k := Acc.Find(a.domains, name);
    if k < |a.domains| {
      Acc.WithoutUnique(a.domains, k);
    } else {
      Acc.AppendUnique(a.domains, Acc.NewContainer(a, name));
    }
  }

  lemma ServeKeepsUnique(a: Acc.Account, r: Acc.Request)
    requires Acc.Unique(a.domains) && (Adds(a, r) ==> !Acc.Lists(a, r.name))
    ensures Acc.Unique(Acc.Serve(a, r).domains)
  {
    if r.Add? || r.Drop? || r.Create? || r.Read? || r.Verify? || r.Delete? { RequestsKeepUnique(a, r.name); }
  }

  lemma CallKeepsUnique(s: State, fate: Fate, password: string)
    requires Acc.Unique(s.acct.domains) && s.worker.Busy? && Probed(s)
    ensures Acc.Unique(Perform(s, OpOf(s.worker, password), fate).state.acct.domains)
  {
    CallTouches(s, fate, password);
    var op := OpOf(s.worker, password);
    if op.MgGet? || op.MgCreate? || op.MgVerify? || op.MgDelete? { RequestsKeepUnique(s.acct, op.name); }
  }

  /** Probing before creating keeps the names on Mailgun unique: in every run of honest probes from
      a list of unique names, to which others add no listed name and not the one a worker is about
      to create.  On such a list every request of the operator's is the map operation
      HandlersRefineMap says it is. */
  lemma {:induction false} ProbingKeepsNamesUnique(trace: seq<State>, run: seq<Action>, i: nat)
    requires IsRun(trace, run) && i <= |run|
    requires Acc.Unique(trace[0].acct.domains) && HonestCreationRun(trace, run) && AddsNewRun(trace, run)
    ensures Acc.Unique(trace[i].acct.domains)
  {
    if i > 0 {
      Advance(Step, trace, run, i - 1);
      ProbingKeepsNamesUnique(trace, run, i - 1);
      ProbesPrecedeCreations(trace, run, i - 1);
      StepKeepsUnique(trace[i - 1], run[i - 1]);
    }
  }

  lemma StepKeepsUnique(s: State, a: Action)
    requires Acc.Unique(s.acct.domains) && Probed(s) && AddsNew(s, a)
    ensures Acc.Unique(Step(s, a).acct.domains)
  {
    match a {
      case Work(fate, password, _) => if s.worker.Busy? { CallKeepsUnique(s, fate, password); }
      case Mailgun(r) => ServeKeepsUnique(s.acct, r);
      case _ =>
    }
  }
}
