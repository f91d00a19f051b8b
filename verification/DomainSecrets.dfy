/** The exported credentials: the login Mailgun answered for the new domain, and the password that
    was sent for it, each under its own key. */
module DomainSecrets {
  import opened Basics
  import opened Kube
  import opened Runs
  import opened DomainProtocol
  import opened DomainInvariants
  import Acc = Account

  /** The key a spec names, or the usual one. */
  ghost function KeyOr(field: Option<string>, usual: string): string {
    match field
    case Some(key) => if key == "" then usual else key
    case None => usual
  }

  /** The login under the login key, and the password under the password key unless both are one. */
  ghost predicate Carries(spec: DomainSpec, issue: Issue, data: map<string, string>) {
    var loginKey, passwordKey := KeyOr(spec.exportSecretLoginKey, "smtp-login"), KeyOr(spec.exportSecretPasswordKey, "smtp-password");
    && loginKey in data && data[loginKey] == issue.login
    && (loginKey != passwordKey ==> passwordKey in data && data[passwordKey] == issue.password)
  }

  lemma CredentialsCarry(spec: DomainSpec, login: string, password: string, data: map<string, string>)
    ensures Carries(spec, Issue(login, password), Credentials(spec, login, password, data))
  {
  }

  /** The Secret the spec names, in the resource's namespace. */
  ghost predicate IsSecretOf(key: Key, w: Worker)
    requires w.Busy?
  {
    w.mem.spec.exportSecretName == Some(key.name) && key.namespace == w.key.namespace
  }

  ghost predicate InExport(pc: Pc) {
    pc.AtSecretCheck? || pc.AtSecretGet? || pc.AtSecretCreate? || pc.AtSecretUpdate?
  }

  /** On the way to the Secret the worker has the issued credentials in hand. */
  ghost predicate InHand(log: Log, w: Worker) {
    w.Busy? && InExport(w.pc) ==>
      && w.mem.spec.exportSecretName.Some? && w.base.spec == w.mem.spec && Me(w) in log.issued
      && match w.pc
         case AtSecretCheck(login, password) => log.issued[Me(w)] == Issue(login, password)
         case AtSecretGet(login, password, _) => log.issued[Me(w)] == Issue(login, password)
         case AtSecretCreate(login, password, _) => log.issued[Me(w)] == Issue(login, password)
         case AtSecretUpdate(secret) => Carries(w.mem.spec, log.issued[Me(w)], secret.data)
         case _ => true
  }

  /** Creation puts them there. */
  lemma CreationHands(s: State, fate: Fate, password: string, now: nat)
    requires Ground(s) && s.worker.Busy? && s.worker.pc.AtCreate?
    ensures InHand(WorkStep(s, fate, password, now).log, WorkStep(s, fate, password, now).worker)
  {
  }

  lemma ExportIssuesNothing(s: State, fate: Fate, password: string, now: nat)
    requires s.worker.Busy? && InExport(s.worker.pc)
    ensures WorkStep(s, fate, password, now).log.issued == s.log.issued
  {
  }

  lemma ExportHands(log: Log, w: Worker, r: Reply, password: string, now: nat, secs: int)
    requires w.Busy? && InExport(w.pc) && InHand(log, w)
    ensures InHand(log, Resume(w, r, password, now, secs))
  {
    if w.pc.AtSecretGet? && r.RSecret? {
      CredentialsCarry(w.mem.spec, w.pc.login, w.pc.password, r.secret.data);
    }
  }

  lemma IssuedAside(log: Log, log': Log, w: Worker)
    requires InHand(log, w) && log'.issued == log.issued
    ensures InHand(log', w)
  {
  }

  lemma OthersHandNothing(w: Worker, r: Reply, password: string, now: nat, secs: int)
    requires w.Busy? && !w.pc.AtCreate? && !InExport(w.pc)
    ensures var w' := Resume(w, r, password, now, secs); w'.Busy? ==> !InExport(w'.pc)
  {
  }

  lemma StepHands(s: State, a: Action)
    requires Ground(s) && InHand(s.log, s.worker)
    ensures InHand(Step(s, a).log, Step(s, a).worker)
  {
    match a {
      case Work(fate, password, now) => if s.worker.Busy? { WorkHands(s, fate, password, now); }
      case _ =>
    }
  }

  lemma WorkHands(s: State, fate: Fate, password: string, now: nat)
    requires Ground(s) && InHand(s.log, s.worker) && s.worker.Busy?
    ensures InHand(WorkStep(s, fate, password, now).log, WorkStep(s, fate, password, now).worker)
  {
    var r := Perform(s, OpOf(s.worker, password), fate).reply;
    if s.worker.pc.AtCreate? {
      CreationHands(s, fate, password, now);
    } else if InExport(s.worker.pc) {
      ExportIssuesNothing(s, fate, password, now);
      ExportHands(s.log, s.worker, r, password, now, s.verifySecs);
      IssuedAside(s.log, WorkStep(s, fate, password, now).log, WorkStep(s, fate, password, now).worker);
    } else {
      OthersHandNothing(s.worker, r, password, now, s.verifySecs);
    }
  }

  lemma {:induction false} RunsHand(trace: seq<State>, run: seq<Action>, i: nat)
    requires IsRun(trace, run) && i <= |run|
    ensures InHand(trace[i].log, trace[i].worker)
  {
    if i > 0 {
      Advance(Step, trace, run, i - 1);
      RunsHand(trace, run, i - 1);
      RunsKeepGround(trace, run, i - 1);
      StepHands(trace[i - 1], run[i - 1]);
    }
  }

  // ----- what is issued, and where it ends up -----

  /** An answered creation issues the login of the domain Mailgun now lists, and the password of the
      options that were sent. */
  lemma CreationIssues(trace: seq<State>, run: seq<Action>, i: nat)
    requires IsRun(trace, run) && i < |run| && run[i].Work? && run[i].fate == Fine
    requires trace[i].worker.Busy? && trace[i].worker.pc.AtCreate? && trace[i].worker.mem.spec.domain !in trace[i].acct.failed
    ensures var w, e, e' := trace[i].worker, trace[i], trace[i + 1];
            var op := OpOf(w, run[i].password);
            && op.MgCreate? && op.name == w.mem.spec.domain
            && |e'.acct.domains| == |e.acct.domains| + 1 && e'.acct.domains[|e.acct.domains|].name == w.mem.spec.domain
            && Me(w) in e'.log.issued
            && e'.log.issued[Me(w)] == Issue(e'.acct.domains[|e.acct.domains|].smtpLogin, op.options.password)
            && op.options.password == run[i].password
  {
    Advance(Step, trace, run, i);
  }

  /** An export that goes on to the status write has the Secret hold what was issued. */
  lemma GetLands(s: State, fate: Fate, password: string, now: nat)
    requires InHand(s.log, s.worker) && s.worker.Busy? && s.worker.pc.AtSecretGet?
    requires var w' := WorkStep(s, fate, password, now).worker; w'.Busy? && w'.pc.AtStoreRecords?
    ensures var w, s' := s.worker, WorkStep(s, fate, password, now);
            SecretKey(w) in s'.secrets && Carries(w.mem.spec, s.log.issued[Me(w)], s'.secrets[SecretKey(w)].data)
  {
    var w := s.worker;
    if SecretKey(w) in s.secrets { CredentialsCarry(w.mem.spec, w.pc.login, w.pc.password, s.secrets[SecretKey(w)].data); }
  }

  lemma WriteLands(s: State, fate: Fate, password: string, now: nat)
    requires InHand(s.log, s.worker) && s.worker.Busy? && (s.worker.pc.AtSecretCreate? || s.worker.pc.AtSecretUpdate?)
    requires var w' := WorkStep(s, fate, password, now).worker; w'.Busy? && w'.pc.AtStoreRecords?
    ensures var w, s' := s.worker, WorkStep(s, fate, password, now);
            SecretKey(w) in s'.secrets && Carries(w.mem.spec, s.log.issued[Me(w)], s'.secrets[SecretKey(w)].data)
  {
    var w := s.worker;
    if w.pc.AtSecretCreate? { CredentialsCarry(w.mem.spec, w.pc.login, w.pc.password, map[]); }
  }

  lemma ExportLands(s: State, fate: Fate, password: string, now: nat)
    requires InHand(s.log, s.worker) && s.worker.Busy? && InExport(s.worker.pc)
    requires var w' := WorkStep(s, fate, password, now).worker; w'.Busy? && w'.pc.AtStoreRecords?
    ensures var w, s' := s.worker, WorkStep(s, fate, password, now);
            SecretKey(w) in s'.secrets && Carries(w.mem.spec, s.log.issued[Me(w)], s'.secrets[SecretKey(w)].data)
  {
    if s.worker.pc.AtSecretGet? {
      GetLands(s, fate, password, now);
    } else {
      LooksLeadOn(s.worker, Perform(s, OpOf(s.worker, password), fate).reply, password, now, s.verifySecs);
      WriteLands(s, fate, password, now);
    }
  }

  lemma LooksLeadOn(w: Worker, r: Reply, password: string, now: nat, secs: int)
    requires w.Busy?
    ensures var w' := Resume(w, r, password, now, secs); w'.Busy? && w'.pc.AtStoreRecords? ==> !w.pc.AtSecretCheck?
  {
  }

  /** In every run: a reconcile that exports credentials goes on to store the new domain's records
      only once the Secret the spec names, in the resource's own namespace, holds the login and the
      password that were issued for the domain, each under its key. */
  lemma SecretsHoldCredentials(trace: seq<State>, run: seq<Action>, i: nat, key: Key)
    requires IsRun(trace, run) && i < |run| && run[i].Work?
    requires trace[i].worker.Busy? && InExport(trace[i].worker.pc) && IsSecretOf(key, trace[i].worker)
    requires trace[i + 1].worker.Busy? && trace[i + 1].worker.pc.AtStoreRecords?
    ensures var w, e' := trace[i].worker, trace[i + 1];
            && Me(w) in e'.log.issued && key in e'.secrets && Carries(w.mem.spec, e'.log.issued[Me(w)], e'.secrets[key].data)
  {
    RunsHand(trace, run, i);
    Advance(Step, trace, run, i);
    ExportLands(trace[i], run[i].fate, run[i].password, run[i].now);
    ExportIssuesNothing(trace[i], run[i].fate, run[i].password, run[i].now);
  }

  /** And the export is never skipped: a creation goes straight to the records only where the spec
      asks for none. */
  lemma ExportsAreMade(w: Worker, r: Reply, password: string, now: nat, secs: int)
    requires w.Busy? && !InExport(w.pc)
    ensures var w' := Resume(w, r, password, now, secs);
            w'.Busy? && w'.pc.AtStoreRecords? ==> w.pc.AtCreate? && w'.mem.spec.exportCredentials != Some(true)
  {
  }

  // ----- exports that are answered -----

  ghost predicate AllAnswered(run: seq<Action>, i: nat, j: nat) {
    j <= |run| && forall k | i <= k < j :: run[k].Work? && run[k].fate == Fine
  }

  /** The Secrets and what the worker stands over are as they were. */
  ghost predicate SameExport(s: State, s': State)
    requires s.worker.Busy?
  {
    s'.worker.Busy? && s'.worker.key == s.worker.key && s'.worker.base == s.worker.base && s'.worker.mem == s.worker.mem
    && s'.secrets == s.secrets
  }

  lemma LookAnswered(s: State, password: string, now: nat)
    requires s.worker.Busy? && s.worker.pc.AtSecretCheck?
    ensures var s', key := WorkStep(s, Fine, password, now), SecretKey(s.worker);
            && SameExport(s, s') && s'.worker.pc == AtSecretGet(s.worker.pc.login, s.worker.pc.password, key in s.secrets)
  {
  }

  lemma GetAnswered(s: State, password: string, now: nat)
    requires s.worker.Busy? && s.worker.pc.AtSecretGet?
    ensures var s', key, pc := WorkStep(s, Fine, password, now), SecretKey(s.worker), s.worker.pc;
            && SameExport(s, s')
            && (key !in s.secrets ==> s'.worker.pc == AtSecretCreate(pc.login, pc.password, pc.seen))
            && (key in s.secrets ==>
                  s'.worker.pc.AtStoreRecords? || (s'.worker.pc.AtSecretUpdate? && s'.worker.pc.secret.rv == s.secrets[key].rv))
  {
  }

  lemma WriteAnswered(s: State, password: string, now: nat)
    requires s.worker.Busy?
    requires || (s.worker.pc.AtSecretCreate? && !s.worker.pc.seen && SecretKey(s.worker) !in s.secrets)
             || (s.worker.pc.AtSecretUpdate? && SecretKey(s.worker) in s.secrets
                 && s.secrets[SecretKey(s.worker)].rv == s.worker.pc.secret.rv)
    ensures var w' := WorkStep(s, Fine, password, now).worker; w'.Busy? && w'.pc.AtStoreRecords?
  {
  }

  lemma LookTraced(trace: seq<State>, run: seq<Action>, i: nat)
    requires IsRun(trace, run) && AllAnswered(run, i, i + 1) && trace[i].worker.Busy? && trace[i].worker.pc.AtSecretCheck?
    ensures var s, s' := trace[i], trace[i + 1];
            SameExport(s, s') && s'.worker.pc.AtSecretGet? && s'.worker.pc.seen == (SecretKey(s.worker) in s.secrets)
  {
    Advance(Step, trace, run, i);
    LookAnswered(trace[i], run[i].password, run[i].now);
  }

  lemma GetTraced(trace: seq<State>, run: seq<Action>, i: nat)
    requires IsRun(trace, run) && AllAnswered(run, i, i + 1) && trace[i].worker.Busy? && trace[i].worker.pc.AtSecretGet?
    ensures var s, s', key := trace[i], trace[i + 1], SecretKey(trace[i].worker);
            && SameExport(s, s')
            && (key !in s.secrets ==> s'.worker.pc.AtSecretCreate? && s'.worker.pc.seen == s.worker.pc.seen)
            && (key in s.secrets ==>
                  s'.worker.pc.AtStoreRecords? || (s'.worker.pc.AtSecretUpdate? && s'.worker.pc.secret.rv == s.secrets[key].rv))
  {
    Advance(Step, trace, run, i);
    GetAnswered(trace[i], run[i].password, run[i].now);
  }

  lemma WriteTraced(trace: seq<State>, run: seq<Action>, i: nat)
    requires IsRun(trace, run) && AllAnswered(run, i, i + 1) && trace[i].worker.Busy?
    requires var s := trace[i];
             || (s.worker.pc.AtSecretCreate? && !s.worker.pc.seen && SecretKey(s.worker) !in s.secrets)
             || (s.worker.pc.AtSecretUpdate? && SecretKey(s.worker) in s.secrets
                 && s.secrets[SecretKey(s.worker)].rv == s.worker.pc.secret.rv)
    ensures trace[i + 1].worker.Busy? && trace[i + 1].worker.pc.AtStoreRecords?
  {
    Advance(Step, trace, run, i);
    WriteAnswered(trace[i], run[i].password, run[i].now);
  }

  /** In every run: an export whose calls are all answered gets to the records in two or three of
      them, whether the Secret was there, differed, or is new; and the Secret then holds the issued
      credentials. */
  lemma ExportSucceeds(trace: seq<State>, run: seq<Action>, i: nat, key: Key) returns (j: nat)
    requires IsRun(trace, run) && AllAnswered(run, i, i + 3)
    requires trace[i].worker.Busy? && trace[i].worker.pc.AtSecretCheck? && IsSecretOf(key, trace[i].worker)
    ensures i + 2 <= j <= i + 3 && trace[j].worker.Busy? && trace[j].worker.pc.AtStoreRecords?
    ensures var w, e := trace[i].worker, trace[j];
            && Me(w) in e.log.issued && key in e.secrets && Carries(w.mem.spec, e.log.issued[Me(w)], e.secrets[key].data)
  {
    RunsHand(trace, run, i);
    LookTraced(trace, run, i);
    GetTraced(trace, run, i + 1);
    if trace[i + 2].worker.pc.AtStoreRecords? {
      j := i + 2;
    } else {
      WriteTraced(trace, run, i + 2);
      j := i + 3;
    }
    SecretsHoldCredentials(trace, run, j - 1, key);
  }
}
