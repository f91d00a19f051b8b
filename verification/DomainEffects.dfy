/** What the calls of a Domain reconcile bring about when they are answered: activation, refreshed
    records, published and deleted DNSEndpoints, stored failures.  Told from Mailgun's state and the
    fields of the spec, not from what the worker does. */
module DomainEffects {
  import opened Basics
  import opened Kube
  import opened Runs
  import opened Dns
  import opened DnsPublication
  import opened DomainProtocol
  import opened DomainInvariants
  import opened DomainLife
  import Acc = Account
  import Config

  // ----- activation -----

  ghost predicate Forced(spec: DomainSpec) {
    spec.forceMXCheck.Some? && spec.forceMXCheck.value
  }

  /** One more round in the status. */
  ghost predicate RoundCounted(before: DomainStatus, after: DomainStatus, now: nat) {
    after.lastValidation == Some(now) && after.validationCount == Some(Count(before) + 1)
  }

  /** An answered verification of a listed domain marks it activated if and only if Mailgun was told
      to activate it and no MX check is asked for, and goes on to the check if and only if one is. */
  lemma VerifyActivates(s: State, password: string, now: nat)
    requires Acc.Sane(s.acct) && s.worker.Busy? && s.worker.pc.AtVerify? && s.worker.mem.status.state == Created
    requires Acc.Lists(s.acct, s.worker.mem.spec.domain)
    ensures var w, w' := s.worker, WorkStep(s, Fine, password, now).worker;
            var active := w.mem.spec.domain in s.acct.active;
            && w'.Busy? && w'.key == w.key && w'.base == w.base && w'.mem == w.mem.(status := w'.mem.status)
            && (w'.pc.AtCheckMX? <==> active && Forced(w.mem.spec))
            && (!w'.pc.AtCheckMX? ==> w'.pc.AtStoreRound?)
            && (w'.mem.status.state == Activated <==> active && !Forced(w.mem.spec))
            && (w'.mem.status.state == Activated || w'.mem.status.state == Created)
            && (w'.mem.status.domainState == "active" <==> active)
            && RoundCounted(w.mem.status, w'.mem.status, now)
            && w'.mem.status.receiving == w.mem.status.receiving && w'.mem.status.sending == w.mem.status.sending
  {
    Acc.ReportsAreTrue(s.acct, s.worker.mem.spec.domain);
  }

  /** An answered MX check marks the domain activated if and only if its MX records are set. */
  lemma CheckActivates(s: State, password: string, now: nat)
    requires Acc.Sane(s.acct) && s.worker.Busy? && s.worker.pc.AtCheckMX? && s.worker.mem.status.state == Created
    requires Acc.Lists(s.acct, s.worker.mem.spec.domain)
    ensures var w, w' := s.worker, WorkStep(s, Fine, password, now).worker;
            && w'.Busy? && w'.pc.AtStoreRound? && w'.key == w.key && w'.base == w.base
            && (w'.mem.status.state == Activated <==> w.mem.spec.domain in s.acct.activeMX)
            && w'.mem == w.mem.(status := w.mem.status.(state := if w.mem.spec.domain in s.acct.activeMX then Activated else Created))
  {
    Acc.ReportsAreTrue(s.acct, s.worker.mem.spec.domain);
  }

  /** An answered round leaves its status in the store, and returns the configured delay. */
  lemma RoundIsStored(s: State, password: string, now: nat)
    requires Ground(s) && s.worker.Busy? && s.worker.pc.AtStoreRound?
    requires s.worker.key in s.api.objs && s.api.objs[s.worker.key] == s.worker.base
    ensures var w, s' := s.worker, WorkStep(s, Fine, password, now);
            && w.key in s'.api.objs && s'.api.objs[w.key].status == w.mem.status && s'.api.objs[w.key].uid == w.base.uid
            && s'.worker == Idle(Requeue(Config.Delay(s.verifySecs)))
  {
    StatusAnswer(s.api, s.worker.key, s.worker.mem, s.worker.base, Fine);
  }

  /** An answered lookup takes over Mailgun's records, one by one; of a domain that is not listed it
      makes a failure. */
  lemma LookupRefreshes(s: State, password: string, now: nat)
    requires s.worker.Busy? && s.worker.pc.AtLookup?
    ensures var w, s' := s.worker, WorkStep(s, Fine, password, now);
            var w' := s'.worker;
            var k := Acc.Find(s.acct.domains, w.mem.spec.domain);
            && w'.Busy? && w'.key == w.key && w'.base == w.base
            && (w'.pc.AtVerify? <==> k < |s.acct.domains|)
            && (if k < |s.acct.domains| then
                  && k < |s'.acct.domains| && s'.acct.domains[k].name == w.mem.spec.domain
                  && Copies(s'.acct.domains[k].receiving, w'.mem.status.receiving)
                  && Copies(s'.acct.domains[k].sending, w'.mem.status.sending)
                  && w'.mem == w.mem.(status := w.mem.status.(receiving := w'.mem.status.receiving, sending := w'.mem.status.sending))
                else w'.pc.AtSettle? && w'.mem.status.state == Failed && w'.mem.status.mailgunError == Some(NotOnMailgun))
  {
    if Acc.Lists(s.acct, s.worker.mem.spec.domain) {
      var c := Acc.GetDomain(s.acct, s.worker.mem.spec.domain).reply.domain;
      ConversionCopies(c.receiving);
      ConversionCopies(c.sending);
    }
  }

  // ----- a whole round -----

  /** The worker stands over the stored version, and the domain is listed. */
  ghost predicate Ready(s: State) {
    && Ground(s) && s.worker.Busy? && s.worker.key in s.api.objs && s.api.objs[s.worker.key] == s.worker.base
    && Acc.Lists(s.acct, s.worker.mem.spec.domain)
  }

  /** Mailgun and the configuration are as they were, and so is what the worker stands over. */
  ghost predicate Steady(s: State, s': State)
    requires s.worker.Busy?
  {
    && s'.worker.Busy? && s'.worker.key == s.worker.key && s'.worker.base == s.worker.base
    && s'.worker.mem.spec == s.worker.mem.spec && s'.verifySecs == s.verifySecs
    && s'.acct.active == s.acct.active && s'.acct.activeMX == s.acct.activeMX
  }

  ghost predicate ShouldActivate(a: Acc.Account, spec: DomainSpec) {
    spec.domain in a.active && (Forced(spec) ==> spec.domain in a.activeMX)
  }

  /** What a round that began at `s` leaves in the store. */
  ghost predicate RoundDone(s: State, e: State, now: nat)
    requires s.worker.Busy?
  {
    var w := s.worker;
    && e.worker == Idle(Requeue(Config.Delay(s.verifySecs)))
    && w.key in e.api.objs && e.api.objs[w.key].uid == w.base.uid
    && (e.api.objs[w.key].status.state == Activated <==> ShouldActivate(s.acct, w.mem.spec))
    && (e.api.objs[w.key].status.state == Activated || e.api.objs[w.key].status.state == Created)
    && RoundCounted(w.mem.status, e.api.objs[w.key].status, now)
  }

  /** The status `t` is in the store, and the reconcile is over. */
  ghost predicate Stored(s: State, e: State, t: DomainStatus)
    requires s.worker.Busy?
  {
    && e.worker == Idle(Requeue(Config.Delay(s.verifySecs)))
    && s.worker.key in e.api.objs && e.api.objs[s.worker.key].uid == s.worker.base.uid && e.api.objs[s.worker.key].status == t
  }

  /** Actions `i` to `j` of the run are calls of the worker's, all answered. */
  ghost predicate AllAnswered(run: seq<Action>, i: nat, j: nat) {
    j <= |run| && forall k | i <= k < j :: run[k].Work? && run[k].fate == Fine
  }

  lemma RequestsKeepListed(a: Acc.Account, name: string)
    requires Acc.Lists(a, name)
    ensures Acc.Lists(Acc.GetDomain(a, name).account, name) && Acc.Lists(Acc.VerifyDomain(a, name).account, name)
  {
    var k := Acc.Find(a.domains, name);
    Acc.FindRewritten(a.domains, k, Acc.GetDomain(a, name).reply.domain, name);
    Acc.FindRewritten(a.domains, k, Acc.VerifyDomain(a, name).reply.domain, name);
  }

  lemma AskingChanges(s: State, password: string, now: nat)
    requires s.worker.Busy? && (s.worker.pc.AtVerify? || s.worker.pc.AtCheckMX? || s.worker.pc.AtLookup?)
    ensures var s', name := WorkStep(s, Fine, password, now), s.worker.mem.spec.domain;
            && s'.api == s.api && s'.verifySecs == s.verifySecs
            && (s'.acct == Acc.GetDomain(s.acct, name).account || s'.acct == Acc.VerifyDomain(s.acct, name).account)
  {
  }

  /** A call that only asks leaves the worker ready for the next. */
  lemma AskingStaysReady(s: State, password: string, now: nat)
    requires Ready(s) && (s.worker.pc.AtVerify? || s.worker.pc.AtCheckMX? || s.worker.pc.AtLookup?)
    requires var w' := WorkStep(s, Fine, password, now).worker;
             w'.Busy? && w'.key == s.worker.key && w'.base == s.worker.base && w'.mem.spec == s.worker.mem.spec
    ensures Ready(WorkStep(s, Fine, password, now)) && Steady(s, WorkStep(s, Fine, password, now))
  {
    AskingChanges(s, password, now);
    RequestsKeepListed(s.acct, s.worker.mem.spec.domain);
    WorkKeepsGround(s, Fine, password, now);
  }

  lemma StoreAnswered(trace: seq<State>, run: seq<Action>, i: nat)
    requires IsRun(trace, run) && AllAnswered(run, i, i + 1) && Ready(trace[i]) && trace[i].worker.pc.AtStoreRound?
    ensures Stored(trace[i], trace[i + 1], trace[i].worker.mem.status)
  {
    Advance(Step, trace, run, i);
    RoundIsStored(trace[i], run[i].password, run[i].now);
  }

  lemma CheckAnswered(trace: seq<State>, run: seq<Action>, i: nat)
    requires IsRun(trace, run) && AllAnswered(run, i, i + 1) && Ready(trace[i]) && trace[i].worker.pc.AtCheckMX?
    ensures var s, s' := trace[i], trace[i + 1];
            && Ready(s') && Steady(s, s') && s'.worker.pc.AtStoreRound?
            && s'.worker.mem.status
               == s.worker.mem.status.(state := if s.worker.mem.spec.domain in s.acct.activeMX then Activated else Created)
  {
    Advance(Step, trace, run, i);
    CheckActivates(trace[i], run[i].password, run[i].now);
    AskingStaysReady(trace[i], run[i].password, run[i].now);
  }

  lemma VerifyAnswered(trace: seq<State>, run: seq<Action>, i: nat)
    requires IsRun(trace, run) && AllAnswered(run, i, i + 1) && Ready(trace[i]) && trace[i].worker.pc.AtVerify?
    ensures var s, s', spec := trace[i], trace[i + 1], trace[i].worker.mem.spec;
            && Ready(s') && Steady(s, s') && RoundCounted(s.worker.mem.status, s'.worker.mem.status, run[i].now)
            && (s'.worker.pc.AtCheckMX? <==> spec.domain in s.acct.active && Forced(spec))
            && (!s'.worker.pc.AtCheckMX? ==> s'.worker.pc.AtStoreRound?)
            && (s'.worker.mem.status.state == Activated <==> spec.domain in s.acct.active && !Forced(spec))
            && (s'.worker.mem.status.state == Activated || s'.worker.mem.status.state == Created)
  {
    Advance(Step, trace, run, i);
    VerifyActivates(trace[i], run[i].password, run[i].now);
    AskingStaysReady(trace[i], run[i].password, run[i].now);
  }

  lemma LookupAnswered(trace: seq<State>, run: seq<Action>, i: nat)
    requires IsRun(trace, run) && AllAnswered(run, i, i + 1) && Ready(trace[i]) && trace[i].worker.pc.AtLookup?
    ensures var s, s' := trace[i], trace[i + 1];
            && Ready(s') && Steady(s, s') && s'.worker.pc.AtVerify?
            && s'.worker.mem.status.validationCount == s.worker.mem.status.validationCount
  {
    Advance(Step, trace, run, i);
    LookupRefreshes(trace[i], run[i].password, run[i].now);
    AskingStaysReady(trace[i], run[i].password, run[i].now);
  }

  /** A round whose calls are all answered stores "activated" if and only if Mailgun was told to
      activate the domain, and where the spec asks for it its MX records. */
  lemma VerifyFinishes(trace: seq<State>, run: seq<Action>, i: nat) returns (j: nat)
    requires IsRun(trace, run) && AllAnswered(run, i, i + 3) && Ready(trace[i]) && trace[i].worker.pc.AtVerify?
    ensures i < j <= i + 3 && RoundDone(trace[i], trace[j], run[i].now)
  {
    VerifyAnswered(trace, run, i);
    if trace[i + 1].worker.pc.AtCheckMX? {
      CheckAnswered(trace, run, i + 1);
      StoreAnswered(trace, run, i + 2);
      j := i + 3;
    } else {
      StoreAnswered(trace, run, i + 1);
      j := i + 2;
    }
  }

  /** The same from the lookup before it, in every run: whatever happened before, a reconcile that
      reaches the lookup of a listed domain over the stored version, and is answered from there on,
      activates the resource if and only if it should. */
  lemma RoundActivates(trace: seq<State>, run: seq<Action>, i: nat) returns (j: nat)
    requires IsRun(trace, run) && AllAnswered(run, i, i + 4)
    requires var s := trace[i];
             && s.worker.Busy? && s.worker.pc.AtLookup?
             && s.worker.key in s.api.objs && s.api.objs[s.worker.key] == s.worker.base
             && Acc.Lists(s.acct, s.worker.mem.spec.domain)
    ensures i < j <= i + 4 && RoundDone(trace[i], trace[j], run[i + 1].now)
  {
    RunsKeepGround(trace, run, i);
    LookupAnswered(trace, run, i);
    j := VerifyFinishes(trace, run, i + 1);
  }

  // ----- creation -----

  /** The creation asks for the domain of the spec, with the options the spec sets and the password. */
  lemma CreationAsks(w: Worker, password: string)
    requires w.Busy? && w.pc.AtCreate?
    ensures var op, spec := OpOf(w, password), w.mem.spec;
            && op.MgCreate? && op.name == spec.domain && op.options.password == password
            && (op.options.dkimKeySize > 0 <==> spec.dkimKeySize.Some? && spec.dkimKeySize.value > 0)
            && (op.options.dkimKeySize != 0 ==> spec.dkimKeySize == Some(op.options.dkimKeySize))
            && (op.options.forceDKIMAuthority <==> spec.forceDKIMAuthority == Some(true))
            && (op.options.wildcard <==> spec.wildcard == Some(true))
            && (op.options.spamAction != "" ==> spec.spamAction == Some(op.options.spamAction))
            && (op.options.spamAction == "" <==> spec.spamAction == None || spec.spamAction == Some(""))
  {
  }

  /** An answered creation takes over the records, the state and the login of the domain Mailgun now
      lists, and exports the credentials exactly when the spec asks for it. */
  lemma CreationRecords(s: State, password: string, now: nat)
    requires s.worker.Busy? && s.worker.pc.AtCreate? && s.worker.mem.spec.domain !in s.acct.failed
    ensures var w, s' := s.worker, WorkStep(s, Fine, password, now);
            var w', spec := s'.worker, w.mem.spec;
            && |s'.acct.domains| == |s.acct.domains| + 1
            && var c := s'.acct.domains[|s.acct.domains|];
               && c.name == spec.domain && c.smtpLogin == "postmaster@" + spec.domain
               && (if spec.exportCredentials == Some(true) && spec.exportSecretName == None then w' == Idle(Panic)
                   else
                     && w'.Busy? && w'.key == w.key && w'.base == w.base
                     && Copies(c.receiving, w'.mem.status.receiving) && Copies(c.sending, w'.mem.status.sending)
                     && w'.mem.status.domainState == c.state
                     && (w'.pc.AtStoreRecords? <==> spec.exportCredentials != Some(true))
                     && (spec.exportCredentials == Some(true) ==> w'.pc == AtSecretCheck(c.smtpLogin, password)))
  {
    var c := Acc.NewContainer(s.acct, s.worker.mem.spec.domain);
    ConversionCopies(c.receiving);
    ConversionCopies(c.sending);
  }

  // ----- failures and errors -----

  /** Every failure on Mailgun is stored under its own name, and only failures lead there. */
  lemma FailuresAreNamed(w: Worker, r: Reply, password: string, now: nat, secs: int)
    requires w.Busy?
    ensures var w' := Resume(w, r, password, now, secs);
            w'.Busy? && (w'.pc.AtSettle? || w'.pc.AtReportDelete?) && !(w.pc.AtSettle? || w.pc.AtReportDelete?) ==>
              && w'.mem.status.state == Failed && w'.mem.status.mailgunError.Some?
              && match w'.mem.status.mailgunError.value
                 case AlreadyExists => w.pc.AtProbe? && r.RDomain? && w'.mem.status.notManaged
                 case NotCreated =>
                   || (w.pc.AtCreate? && !r.RDomain?)
                   || (w.pc.AtSecretCheck? && r.RErr?) || (w.pc.AtSecretGet? && !r.RSecret? && !r.RNotFound?)
                   || ((w.pc.AtSecretCreate? || w.pc.AtSecretUpdate?) && !r.RDone?)
                   || (w.pc.AtStoreRecords? && !r.RObj?)
                 case NotOnMailgun => w.pc.AtLookup? && !r.RDomain?
                 case DomainKept => w.pc.AtDeleteDomain? && !r.RDone?
                 case EndpointKept => false
  {
  }

  /** An answered failure is in the store. */
  lemma FailureIsStored(s: State, password: string, now: nat)
    requires Ground(s) && s.worker.Busy? && s.worker.pc.AtSettle?
    requires s.worker.key in s.api.objs && s.api.objs[s.worker.key] == s.worker.base
    ensures var w, s' := s.worker, WorkStep(s, Fine, password, now);
            && w.key in s'.api.objs && s'.api.objs[w.key].status == w.mem.status && s'.worker == Idle(Quiet)
  {
    StatusAnswer(s.api, s.worker.key, s.worker.mem, s.worker.base, Fine);
  }

  /** No reconcile returns an error but for a call that brought none of what it asked for; the one
      exception reports a deletion Mailgun refused. */
  lemma ErrorsHaveCauses(w: Worker, r: Reply, password: string, now: nat, secs: int)
    requires w.Busy? && Resume(w, r, password, now, secs) == Idle(Error)
    ensures match OpOf(w, password)
            case GetCR(_) => !r.RObj? && !r.RNotFound?
            case UpdateCR(_, _) => !r.RObj?
            case StatusCR(_, _) => !r.RObj? || w.pc.AtReportDelete?
            case GetEndpoint(_) => r.RErr?
            case CreateEndpoint(_, _) => !r.RDone?
            case MgVerify(_) => !r.RState?
            case _ => false
  {
  }

  /** A delay comes from a stored round only, and a nil dereference from an export without a name. */
  lemma OtherResultsHaveCauses(w: Worker, r: Reply, password: string, now: nat, secs: int)
    requires w.Busy? && Resume(w, r, password, now, secs).Idle?
    ensures match Resume(w, r, password, now, secs).last
            case Requeue(delay) => w.pc.AtStoreRound? && r.RObj? && delay == Config.Delay(secs)
            case Panic => w.pc.AtCreate? && r.RDomain? && w.mem.spec.exportCredentials == Some(true) && w.mem.spec.exportSecretName == None
            case Quiet => (w.pc.AtGet? && !r.RErr?) || r.RObj?
            case Error => true
  {
  }
}
