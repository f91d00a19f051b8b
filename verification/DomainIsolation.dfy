/** Isolation: a reconcile of one Domain resource touches nothing but that resource, the
    DNSEndpoint of its name, two entries of one Secret and the Mailgun domain it names. */
module DomainIsolation {
  import opened Basics
  import opened Kube
  import opened Runs
  import opened DomainProtocol
  import opened DomainInvariants
  import opened DomainClean
  import Acc = Account

  type Domains = seq<Acc.Container>

  /** The entries not called `name`, in order. */
  function Except(list: Domains, name: string): Domains {
    if |list| == 0 then []
    else if list[0].name == name then Except(list[1..], name) else [list[0]] + Except(list[1..], name)
  }

  lemma {:induction false} ExceptRewritten(list: Domains, k: nat, c: Acc.Container)
    requires k < |list| && c.name == list[k].name
    ensures Except(list[k := c], c.name) == Except(list, c.name)
  {
    if k > 0 {
      assert list[k := c][1..] == list[1..][k - 1 := c];
      ExceptRewritten(list[1..], k - 1, c);
    } else {
      assert list[k := c][1..] == list[1..];
    }
  }

  lemma {:induction false} ExceptWithout(list: Domains, k: nat)
    requires k < |list|
    ensures Except(Acc.Without(list, k), list[k].name) == Except(list, list[k].name)
  {
    if k > 0 {
      assert Acc.Without(list, k)[1..] == Acc.Without(list[1..], k - 1);
      ExceptWithout(list[1..], k - 1);
    } else {
      assert Acc.Without(list, k) == list[1..];
    }
  }

  lemma {:induction false} ExceptAppended(list: Domains, c: Acc.Container)
    ensures Except(list + [c], c.name) == Except(list, c.name)
  {
    if |list| > 0 {
      assert (list + [c])[1..] == list[1..] + [c];
      ExceptAppended(list[1..], c);
    } else {
      assert (list + [c])[1..] == [];
    }
  }

  lemma RequestSpares(a: Acc.Account, name: string)
    ensures Except(Acc.GetDomain(a, name).account.domains, name) == Except(a.domains, name)
    ensures Except(Acc.VerifyDomain(a, name).account.domains, name) == Except(a.domains, name)
    ensures Except(Acc.DeleteDomain(a, name).account.domains, name) == Except(a.domains, name)
    ensures Except(Acc.CreateDomain(a, name).account.domains, name) == Except(a.domains, name)
  {
    var k := Acc.Find(a.domains, name);
    if k < |a.domains| {
      ExceptRewritten(a.domains, k, Acc.GetDomain(a, name).reply.domain);
      ExceptRewritten(a.domains, k, Acc.VerifyDomain(a, name).reply.domain);
      ExceptWithout(a.domains, k);
    }
    ExceptAppended(a.domains, Acc.NewContainer(a, name));
  }

  /** The operator asks Mailgun only about the domain its resource names. */
  lemma AsksAboutItsDomain(w: Worker, password: string)
    requires w.Busy?
    ensures var op := OpOf(w, password);
            op.MgGet? || op.MgCreate? || op.MgVerify? || op.MgDelete? ==> op.name == w.mem.spec.domain
  {
  }

  lemma CallSparesDomains(s: State, fate: Fate, password: string)
    requires s.worker.Busy?
    ensures var name := s.worker.mem.spec.domain;
            var a' := Perform(s, OpOf(s.worker, password), fate).state.acct;
            Except(a'.domains, name) == Except(s.acct.domains, name) && a'.routes == s.acct.routes
  {
    CallTouches(s, fate, password);
    AsksAboutItsDomain(s.worker, password);
    RequestSpares(s.acct, s.worker.mem.spec.domain);
  }

  // ----- the Secret -----

  /** The same entries but for the login and the password. */
  ghost predicate SameButCredentials(spec: DomainSpec, data: map<string, string>, data': map<string, string>) {
    forall e | e != OrDefault(spec.exportSecretPasswordKey, "smtp-password") && e != OrDefault(spec.exportSecretLoginKey, "smtp-login") ::
      (e in data' <==> e in data) && (e in data ==> data'[e] == data[e])
  }

  /** The worker writes back what it read, with the credentials set. */
  ghost predicate SecretsRead(s: State) {
    && Aged(s.secrets, s.secretClock)
    && (s.worker.Busy? && s.worker.pc.AtSecretUpdate? ==>
          var w := s.worker;
          && w.pc.secret.rv <= s.secretClock
          && (SecretKey(w) in s.secrets && s.secrets[SecretKey(w)].rv == w.pc.secret.rv ==>
                SameButCredentials(w.base.spec, s.secrets[SecretKey(w)].data, w.pc.secret.data)))
  }

  lemma UpdateComesFrom(w: Worker, r: Reply, password: string, now: nat, secs: int)
    requires w.Busy?
    ensures var w' := Resume(w, r, password, now, secs);
            w'.Busy? && w'.pc.AtSecretUpdate? ==>
              w.pc.AtSecretGet? && r.RSecret? && w'.key == w.key && w'.base == w.base
              && w'.pc.secret == r.secret.(data := Credentials(w.mem.spec, w.pc.login, w.pc.password, r.secret.data))
  {
  }

  lemma CredentialsOnly(spec: DomainSpec, login: string, password: string, data: map<string, string>)
    ensures SameButCredentials(spec, data, Credentials(spec, login, password, data))
  {
  }

  ghost predicate Aged(secrets: map<Key, Secret>, clock: nat) {
    forall k | k in secrets :: secrets[k].rv <= clock
  }

  lemma CallsAgeSecrets(s: State, op: Op, fate: Fate)
    requires Aged(s.secrets, s.secretClock)
    ensures var d := Perform(s, op, fate).state; Aged(d.secrets, d.secretClock) && d.secretClock >= s.secretClock
  {
  }

  lemma GetSparesSecrets(s: State, fate: Fate, password: string)
    requires s.worker.Busy? && s.worker.pc.AtSecretGet?
    ensures var d := Perform(s, OpOf(s.worker, password), fate);
            d.state == s && (d.reply.RSecret? ==> SecretKey(s.worker) in s.secrets && d.reply.secret == s.secrets[SecretKey(s.worker)])
  {
  }

  lemma WorkKeepsSecretsRead(s: State, fate: Fate, password: string, now: nat)
    requires Ground(s) && SecretsRead(s) && s.worker.Busy?
    ensures SecretsRead(WorkStep(s, fate, password, now))
  {
    var w := s.worker;
    var d := Perform(s, OpOf(w, password), fate);
    UpdateComesFrom(w, d.reply, password, now, s.verifySecs);
    CallsAgeSecrets(s, OpOf(w, password), fate);
    if w.pc.AtSecretGet? {
      GetSparesSecrets(s, fate, password);
      if d.reply.RSecret? { CredentialsOnly(w.mem.spec, w.pc.login, w.pc.password, d.reply.secret.data); }
    }
  }

  lemma SetSecretKeepsSecretsRead(s: State, key: Key, data: Option<map<string, string>>)
    requires SecretsRead(s)
    ensures SecretsRead(Step(s, SetSecret(key, data)))
  {
  }

  lemma StepKeepsSecretsRead(s: State, a: Action)
    requires Ground(s) && SecretsRead(s)
    ensures SecretsRead(Step(s, a))
  {
    match a {
      case Work(fate, password, now) => if s.worker.Busy? { WorkKeepsSecretsRead(s, fate, password, now); }
      case SetSecret(key, data) => SetSecretKeepsSecretsRead(s, key, data);
      case Start(_) =>
      case Crash =>
      case _ => assert Step(s, a).secrets == s.secrets && Step(s, a).worker == s.worker;
    }
  }

  lemma {:induction false} RunsKeepSecretsRead(trace: seq<State>, run: seq<Action>, i: nat)
    requires IsRun(trace, run) && i <= |run| && Aged(trace[0].secrets, trace[0].secretClock)
    ensures SecretsRead(trace[i])
  {
    if i > 0 {
      RunsKeepSecretsRead(trace, run, i - 1);
      RunsKeepGround(trace, run, i - 1);
      Advance(Step, trace, run, i - 1);
      StepKeepsSecretsRead(trace[i - 1], run[i - 1]);
    }
  }

  /** What a call does to the Secrets. */
  lemma CallTouchesSecrets(s: State, fate: Fate, password: string)
    requires s.worker.Busy?
    ensures var w := s.worker;
            var d := Perform(s, OpOf(w, password), fate).state;
            || d.secrets == s.secrets
            || (w.pc.AtSecretCreate? && SecretKey(w) !in s.secrets && d.secrets.Keys == s.secrets.Keys + {SecretKey(w)}
                && d.secrets == s.secrets[SecretKey(w) := d.secrets[SecretKey(w)]])
            || (w.pc.AtSecretUpdate? && SecretKey(w) in s.secrets && s.secrets[SecretKey(w)].rv == w.pc.secret.rv
                && d.secrets == s.secrets[SecretKey(w) := Secret(w.pc.secret.data, s.secretClock + 1)])
  {
  }

  lemma CallSparesSecrets(s: State, fate: Fate, password: string)
    requires Ground(s) && SecretsRead(s) && s.worker.Busy?
    ensures var w := s.worker;
            var d := Perform(s, OpOf(w, password), fate).state;
            && (forall k | k != SecretKey(w) :: (k in d.secrets <==> k in s.secrets) && (k in s.secrets ==> d.secrets[k] == s.secrets[k]))
            && (SecretKey(w) in s.secrets ==>
                  SecretKey(w) in d.secrets
                  && SameButCredentials(w.base.spec, s.secrets[SecretKey(w)].data, d.secrets[SecretKey(w)].data))
  {
    CallTouchesSecrets(s, fate, password);
  }

  lemma CallSparesEndpoints(s: State, fate: Fate, password: string)
    requires s.worker.Busy?
    ensures var d := Perform(s, OpOf(s.worker, password), fate).state;
            forall k | k != s.worker.key :: (k in d.endpoints <==> k in s.endpoints)
                                            && (k in s.endpoints ==> d.endpoints[k] == s.endpoints[k])
  {
  }

  /** Everything a call of the worker leaves alone. */
  ghost predicate Spares(w: Worker, e: State, e': State)
    requires w.Busy?
  {
    && (forall k | k != w.key :: (k in e'.api.objs <==> k in e.api.objs) && (k in e.api.objs ==> e'.api.objs[k] == e.api.objs[k]))
    && (w.key in e'.api.objs ==> w.key in e.api.objs && e'.api.objs[w.key].spec == e.api.objs[w.key].spec)
    && (forall k | k != w.key :: (k in e'.endpoints <==> k in e.endpoints) && (k in e.endpoints ==> e'.endpoints[k] == e.endpoints[k]))
    && (forall k | k != SecretKey(w) :: (k in e'.secrets <==> k in e.secrets) && (k in e.secrets ==> e'.secrets[k] == e.secrets[k]))
    && (SecretKey(w) in e.secrets ==>
          SecretKey(w) in e'.secrets
          && SameButCredentials(w.base.spec, e.secrets[SecretKey(w)].data, e'.secrets[SecretKey(w)].data))
    && Except(e'.acct.domains, w.mem.spec.domain) == Except(e.acct.domains, w.mem.spec.domain)
    && e'.acct.routes == e.acct.routes
  }

  /** One call of a reconcile, in any state of any run. */
  lemma ReconcilesAreIsolated(trace: seq<State>, run: seq<Action>, i: nat)
    requires IsRun(trace, run) && i < |run| && Aged(trace[0].secrets, trace[0].secretClock)
    requires run[i].Work? && trace[i].worker.Busy?
    ensures Spares(trace[i].worker, trace[i], trace[i + 1])
  {
    RunsKeepGround(trace, run, i);
    RunsKeepSecretsRead(trace, run, i);
    Advance(Step, trace, run, i);
    CallSpares(trace[i], run[i].fate, run[i].password, run[i].now);
  }

  lemma CallSpares(s: State, fate: Fate, password: string, now: nat)
    requires Ground(s) && SecretsRead(s) && s.worker.Busy?
    ensures Spares(s.worker, s, WorkStep(s, fate, password, now))
  {
    OtherObjectsStay(s, fate, password);
    WriteKeepsSpecs(s, fate, password);
    CallSparesDomains(s, fate, password);
    CallSparesSecrets(s, fate, password);
    CallSparesEndpoints(s, fate, password);
  }

  lemma OtherObjectsStay(s: State, fate: Fate, password: string)
    requires Ground(s) && s.worker.Busy?
    ensures var api' := Perform(s, OpOf(s.worker, password), fate).state.api;
            forall k | k in s.api.objs && k != s.worker.key :: k in api'.objs
  {
    CallTouches(s, fate, password);
  }
}
