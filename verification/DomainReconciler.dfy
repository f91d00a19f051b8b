/** The Domain reconciler as it is written, method by method, over objects updated in place.

    A `Client` holds the world.  Each of its calls may be preceded by anything users, other
    controllers, other clients of Mailgun and the cache do, and goes under any fate.  `Valid`
    ties the world to a run of the machine in module DomainProtocol, so what is proved about
    all runs holds before and after every call made here. */
module DomainReconciler {
  import opened Basics
  import opened Dns
  import opened DomainProtocol
  import DomainOrphans
  import DomainLife
  import DomainOnce
  import Acc = Account
  import Config
  import opened Runs
  import Kube

  class Client {
    var s: State
    ghost var trace: seq<State>
    ghost var run: seq<Action>

    ghost predicate Valid()
      reads this
    {
      IsRun(trace, run) && s == trace[|run|]
    }

    /** The run went on. */
    twostate predicate Later()
      reads this
    {
      old(run) <= run && old(trace) <= trace && s.verifySecs == old(s.verifySecs)
    }

    constructor (world: State)
      requires Init(world)
      ensures Valid() && s == world
    {
      s, trace, run := world, [world], [];
    }

    method Take(a: Action)
      requires Valid()
      modifies this
      ensures Valid() && s == Step(old(s), a) && run == old(run) + [a] && old(trace) <= trace
    {
      TraceGrows(Step, trace, run, a);
      s := Step(s, a);
      trace, run := trace + [s], run + [a];
    }

    /** What others do before a call. */
    method Meanwhile()
      requires Valid()
      modifies this
      ensures Valid() && s.worker == old(s.worker) && Later()
    {
      var others: seq<Action> := *;
      for i := 0 to |others|
        invariant Valid() && s.worker == old(s.worker) && Later()
      {
        if !(others[i].Work? || others[i].Start? || others[i].Crash?) {
          OthersSpareWorker(s, others[i]);
          Take(others[i]);
        }
      }
    }

    method Begin(key: Key)
      requires Valid() && s.worker.Idle?
      modifies this
      ensures Valid() && s.worker == Busy(key, AtGet, BLANK, BLANK) && Later()
    {
      Take(Start(key));
    }

    /** One remote call: the call the machine is about to make, and no other. */
    method Call(op: Op, password: string, now: nat) returns (reply: Reply)
      requires Valid() && s.worker.Busy? && op == OpOf(s.worker, password)
      modifies this
      ensures Valid() && Later()
      ensures s.worker == Resume(old(s.worker), reply, password, now, s.verifySecs)
    {
      Meanwhile();
      var fate: Kube.Fate := *;
      reply := Perform(s, op, fate).reply;
      DomainLife.CallsKeepInterval(s, op, fate);
      Take(Work(fate, password, now));
    }
  }

  /** Whatever is proved of all runs holds in every state a client went through. */
  lemma ClientsAreSafe(client: Client, i: nat)
    requires client.Valid() && i <= |client.run|
    ensures var s := client.trace[i];
            && DomainOrphans.NoOrphans(s) && DomainLife.ActivationsTrue(s) && DomainLife.CountsTrue(s)
            && DomainLife.Ageing(s.api) && DomainOnce.OnceKnown(s) && DomainOnce.Converging(s)
  {
    var trace, run := client.trace, client.run;
    DomainOrphans.RunsLeaveNoOrphans(trace, run, i);
    DomainLife.ActivationIsSound(trace, run, i);
    DomainLife.ValidationsAreCounted(trace, run, i);
    DomainLife.RunsAge(trace, run, i);
    DomainOnce.RunsKnowOnce(trace, run, i);
    DomainOnce.RunsConverge(trace, run, i);
  }

  lemma OthersSpareWorker(s: State, a: Action)
    requires !(a.Work? || a.Start? || a.Crash?)
    ensures Step(s, a).worker == s.worker && Step(s, a).verifySecs == s.verifySecs
  {
  }

  /** A Domain in memory. */
  class Domain {
    const key: Key
    var uid: nat
    var rv: nat
    var deleting: bool
    var finalizers: set<Kube.Finalizer>
    var spec: DomainSpec
    var status: DomainStatus

    function Value(): DomainCR
      reads this
    {
      Kube.Obj(uid, rv, deleting, finalizers, spec, status)
    }

    constructor (key: Key)
      ensures this.key == key && Value() == BLANK
    {
      this.key := key;
      uid, rv, deleting := BLANK.uid, BLANK.rv, BLANK.deleting;
      finalizers, spec, status := BLANK.finalizers, BLANK.spec, BLANK.status;
    }

    /** Fills the object from an answer of the API server. */
    method Load(obj: DomainCR)
      modifies this
      ensures Value() == obj
    {
      uid, rv, deleting := obj.uid, obj.rv, obj.deleting;
      finalizers, spec, status := obj.finalizers, obj.spec, obj.status;
    }
  }

  /** The worker stands before call `pc` with the object in memory, based on version `base`. */
  ghost predicate Stands(w: Worker, pc: Pc, key: Key, mem: DomainCR, base: DomainCR) {
    w == Busy(key, pc, mem, base)
  }

  /** After an export the records are to be stored, or the failure is. */
  ghost predicate Exported(ok: bool, w: Worker, key: Key, mem: DomainCR, base: DomainCR) {
    if ok then Stands(w, AtStoreRecords, key, mem, base)
    else Stands(w, AtSettle, key, WithState(mem, Failed, Some(NotCreated)), base)
  }

  datatype Creation = Succeeded | NoSuccess | NilDereference

  /** After a creation the reconcile goes on with the stored resource, whose state is set to
      "created" in memory only; or the failure is to be stored. */
  ghost predicate AfterCreation(creation: Creation, w: Worker, key: Key, mem: DomainCR) {
    match creation
    case Succeeded => w == Tail(key, mem.(status := mem.status.(state := DomainProtocol.Created)), mem)
    case NoSuccess => w.Busy? && Stands(w, AtSettle, key, WithState(mem, Failed, Some(NotCreated)), w.base)
    case NilDereference => w == Idle(Panic)
  }

  class DomainReconciler {
    const client: Client
    const config: Config.Data

    constructor (client: Client, config: Config.Data)
      ensures this.client == client && this.config == config
    {
      this.client, this.config := client, config;
    }

    ghost predicate Ready()
      reads client, config
    {
      client.Valid() && config.domainVerifyDuration == client.s.verifySecs
    }

    // ----- the Kubernetes client -----

    /** `Update`: on success the object in memory becomes the stored one. */
    method Update(domain: Domain) returns (ok: bool, ghost reply: Reply)
      requires Ready() && client.s.worker.Busy? && OpOf(client.s.worker, "") == UpdateCR(domain.key, domain.Value())
      modifies client, domain
      ensures Ready() && client.Later() && ok == reply.RObj?
      ensures client.s.worker == Resume(old(client.s.worker), reply, "", 0, client.s.verifySecs)
      ensures domain.Value() == if ok then reply.obj else old(domain.Value())
    {
      var r := client.Call(UpdateCR(domain.key, domain.Value()), "", 0);
      ok, reply := r.RObj?, r;
      if r.RObj? { domain.Load(r.obj); }
    }

    /** `Status().Update`. */
    method StatusUpdate(domain: Domain) returns (ok: bool, ghost reply: Reply)
      requires Ready() && client.s.worker.Busy? && OpOf(client.s.worker, "") == StatusCR(domain.key, domain.Value())
      modifies client, domain
      ensures Ready() && client.Later() && ok == reply.RObj?
      ensures client.s.worker == Resume(old(client.s.worker), reply, "", 0, client.s.verifySecs)
      ensures domain.Value() == if ok then reply.obj else old(domain.Value())
    {
      var r := client.Call(StatusCR(domain.key, domain.Value()), "", 0);
      ok, reply := r.RObj?, r;
      if r.RObj? { domain.Load(r.obj); }
    }

    // ----- helpers of Reconcile -----

    method CheckMXRecordsAndSetState(domain: Domain, ghost base: DomainCR)
      requires Ready() && Stands(client.s.worker, AtCheckMX, domain.key, domain.Value(), base)
      modifies client, domain
      ensures Ready() && client.Later()
      ensures Stands(client.s.worker, AtStoreRound, domain.key, domain.Value(), base)
    {
      var reply := client.Call(MgGet(domain.spec.domain), "", 0);
      if !reply.RDomain? {
        return;
      }
      var records := reply.domain.receiving;
      if |records| == 0 {
        return;
      }
      for i := 0 to |records|
        invariant forall j | 0 <= j < i :: records[j].valid == Acc.VALID_DNS
      {
        if records[i].valid != "valid" {
          return;
        }
      }
      domain.status := domain.status.(state := Activated);
    }

    method CreateExternalDNSEntity(domain: Domain, ghost base: DomainCR) returns (ok: bool)
      requires Ready() && Stands(client.s.worker, AtCreateEndpoint, domain.key, domain.Value(), base)
      modifies client, domain
      ensures Ready() && client.Later()
      ensures if ok then Stands(client.s.worker, AtLookup, domain.key, domain.Value(), domain.Value())
              else client.s.worker == Idle(Error)
    {
      var endpoints := BuildEndpoints(domain.spec.domain, domain.status.receiving, domain.status.sending,
                                      domain.spec.externalDNSRecords);
      var reply := client.Call(CreateEndpoint(domain.key, endpoints), "", 0);
      if !reply.RDone? {
        return false;
      }
      domain.status := domain.status.(dnsCreated := true);
      var stored, _ := StatusUpdate(domain);
      ok := stored;
    }

    method ExportCredentialsToSecret(domain: Domain, login: string, password: string, ghost base: DomainCR) returns (ok: bool)
      requires Ready() && Stands(client.s.worker, AtSecretCheck(login, password), domain.key, domain.Value(), base)
      requires domain.spec.exportSecretName.Some? && base.spec == domain.spec
      modifies client
      ensures Ready() && client.Later()
      ensures Exported(ok, client.s.worker, domain.key, domain.Value(), base)
    {
      var secretKey := Key(domain.key.namespace, domain.spec.exportSecretName.value);
      var looked := client.Call(GetSecret(secretKey), "", 0);
      if looked.RErr? {
        return false;
      }
      var passwordKey, loginKey := "smtp-password", "smtp-login";
      if domain.spec.exportSecretPasswordKey.Some? && |domain.spec.exportSecretPasswordKey.value| > 0 {
        passwordKey := domain.spec.exportSecretPasswordKey.value;
      }
      if domain.spec.exportSecretLoginKey.Some? && |domain.spec.exportSecretLoginKey.value| > 0 {
        loginKey := domain.spec.exportSecretLoginKey.value;
      }
      ok := CreateOrUpdate(secretKey, looked.RSecret?, passwordKey, password, loginKey, login, domain.key, domain.Value(), base);
    }

    /** The Secret created with the two entries, or updated where they differ; `versioned` tells
        whether the object in memory came from the server, which then refuses to create it. */
    method CreateOrUpdate(secretKey: Key, versioned: bool, passwordKey: string, password: string, loginKey: string, login: string,
                          ghost key: Key, ghost mem: DomainCR, ghost base: DomainCR) returns (ok: bool)
      requires Ready() && Stands(client.s.worker, AtSecretGet(login, password, versioned), key, mem, base)
      requires secretKey == SecretKey(client.s.worker)
      requires passwordKey == OrDefault(mem.spec.exportSecretPasswordKey, "smtp-password")
      requires loginKey == OrDefault(mem.spec.exportSecretLoginKey, "smtp-login")
      modifies client
      ensures Ready() && client.Later()
      ensures Exported(ok, client.s.worker, key, mem, base)
    {
      var current := client.Call(GetSecret(secretKey), "", 0);
      if current.RNotFound? {
        var credentials := map[][passwordKey := password][loginKey := login];
        var created := client.Call(CreateSecret(secretKey, credentials, versioned), "", 0);
        return created.RDone?;
      }
      if !current.RSecret? {
        return false;
      }
      var data := current.secret.data[passwordKey := password][loginKey := login];
      if data == current.secret.data {
        return true;
      }
      var updated := client.Call(UpdateSecret(secretKey, current.secret.(data := data)), "", 0);
      ok := updated.RDone?;
    }

    /** The options of a creation: what the spec sets, and a fresh password. */
    method BuildOptions(spec: DomainSpec, password: string) returns (options: CreateOptions)
      ensures options == OptionsFor(spec, password)
    {
      options := CreateOptions(0, false, false, "", "");
      if spec.dkimKeySize.Some? && spec.dkimKeySize.value > 0 {
        options := options.(dkimKeySize := spec.dkimKeySize.value);
      }
      if spec.forceDKIMAuthority.Some? && spec.forceDKIMAuthority.value {
        options := options.(forceDKIMAuthority := true);
      }
      if spec.spamAction.Some? && |spec.spamAction.value| > 0 {
        options := options.(spamAction := spec.spamAction.value);
      }
      if spec.wildcard.Some? && spec.wildcard.value {
        options := options.(wildcard := true);
      }
      options := options.(password := password);
    }

    method CreateDomain(domain: Domain) returns (creation: Creation)
      requires Ready() && Stands(client.s.worker, AtCreate, domain.key, domain.Value(), domain.Value())
      modifies client, domain
      ensures Ready() && client.Later()
      ensures AfterCreation(creation, client.s.worker, domain.key, domain.Value())
    {
      ghost var base := domain.Value();
      var password: string := *;
      var options := BuildOptions(domain.spec, password);
      var reply := client.Call(MgCreate(domain.spec.domain, options), password, 0);
      if !reply.RDomain? {
        return NoSuccess;
      }
      var sending := ConvertRecords(reply.domain.sending);
      var receiving := ConvertRecords(reply.domain.receiving);
      domain.status := domain.status.(sending := sending, receiving := receiving, domainState := reply.domain.state);
      if domain.spec.exportCredentials.Some? && domain.spec.exportCredentials.value {
        if domain.spec.exportSecretName.None? {
          return NilDereference;
        }
        var exported := ExportCredentialsToSecret(domain, reply.domain.smtpLogin, password, base);
        if !exported {
          return NoSuccess;
        }
      }
      creation := StoreRecords(domain, base);
    }

    method StoreRecords(domain: Domain, ghost base: DomainCR) returns (creation: Creation)
      requires Ready() && Stands(client.s.worker, AtStoreRecords, domain.key, domain.Value(), base)
      modifies client, domain
      ensures Ready() && client.Later()
      ensures AfterCreation(creation, client.s.worker, domain.key, domain.Value())
    {
      var stored, _ := StatusUpdate(domain);
      creation := if stored then Succeeded else NoSuccess;
    }

    method DeleteDomain(domain: Domain) returns (ok: bool)
      requires Ready() && Stands(client.s.worker, AtGetEndpoint, domain.key, domain.Value(), domain.Value())
      modifies client, domain
      ensures Ready() && client.Later()
      ensures client.s.worker == Idle(if ok then Quiet else Error)
    {
      var fetched := client.Call(GetEndpoint(domain.key), "", 0);
      if fetched.RErr? {
        return false;
      }
      ok := DeleteLinkedEndpoint(domain, fetched.RDone?);
      if ok { ok := DeleteFromMailgun(domain); }
    }

    /** The DNSEndpoint that was found; a failure is reported, and does not stop the deletion. */
    method DeleteLinkedEndpoint(domain: Domain, found: bool) returns (ok: bool)
      requires Ready() && Stands(client.s.worker, AtDeleteEndpoint(found), domain.key, domain.Value(), domain.Value())
      modifies client, domain
      ensures Ready() && client.Later()
      ensures if ok then Stands(client.s.worker, AtDeleteProbe, domain.key, domain.Value(), domain.Value())
              else client.s.worker == Idle(Error)
    {
      var deleted := client.Call(DeleteEndpoint(if found then Some(domain.key) else None), "", 0);
      if !deleted.RDone? {
        domain.status := domain.status.(mailgunError := Some(EndpointKept));
        var updated, _ := Update(domain);
        if !updated {
          return false;
        }
      }
      ok := true;
    }

    /** The second half of deleteDomain: Mailgun, then the finalizer. */
    method DeleteFromMailgun(domain: Domain) returns (ok: bool)
      requires Ready() && Stands(client.s.worker, AtDeleteProbe, domain.key, domain.Value(), domain.Value())
      modifies client, domain
      ensures Ready() && client.Later()
      ensures client.s.worker == Idle(if ok then Quiet else Error)
    {
      ghost var base := domain.Value();
      var probed := client.Call(MgGet(domain.spec.domain), "", 0);
      if probed.RDomain? {
        var deleted := client.Call(MgDelete(domain.spec.domain), "", 0);
        if !deleted.RDone? {
          ok := ReportFailure(domain, base);
          return;
        }
      }
      ok := RemoveFinalizer(domain, base);
    }

    /** A deletion that failed on Mailgun is stored, and tried again. */
    method ReportFailure(domain: Domain, ghost base: DomainCR) returns (ok: bool)
      requires Ready() && Stands(client.s.worker, AtReportDelete, domain.key, WithState(domain.Value(), Failed, Some(DomainKept)), base)
      modifies client, domain
      ensures Ready() && client.Later() && !ok
      ensures client.s.worker == Idle(Error)
    {
      domain.status := domain.status.(state := Failed, mailgunError := Some(DomainKept));
      var _, _ := StatusUpdate(domain);
      ok := false;
    }

    method RemoveFinalizer(domain: Domain, ghost base: DomainCR) returns (ok: bool)
      requires Ready() && domain.Value() == base
      requires client.s.worker == Dropping(Busy(domain.key, AtDeleteProbe, base, base))
      modifies client, domain
      ensures Ready() && client.Later()
      ensures client.s.worker == Idle(if ok then Quiet else Error)
    {
      domain.finalizers := domain.finalizers - {Kube.DomainFinalizer};
      var updated, _ := Update(domain);
      ok := updated;
    }

    /** One pass over the resource at `key`: exactly the run of the machine from its start to its
        result, with the same calls in the same order and the same object in memory at each. */
    method Reconcile(key: Key) returns (result: Result)
      requires Ready() && client.s.worker.Idle?
      modifies client
      ensures Ready() && client.Later()
      ensures client.s.worker == Idle(result)
    {
      client.Begin(key);
      var domain := new Domain(key);
      var fetched := client.Call(GetCR(key), "", 0);
      if !fetched.RObj? {
        return if fetched.RNotFound? then Quiet else Error;
      }
      domain.Load(fetched.obj);
      if !domain.deleting {
        if Kube.DomainFinalizer !in domain.finalizers {
          domain.finalizers := domain.finalizers + {Kube.DomainFinalizer};
          var updated, _ := Update(domain);
          if !updated {
            return Error;
          }
        }
      } else {
        if Kube.DomainFinalizer in domain.finalizers {
          var deleted := DeleteDomain(domain);
          return if deleted then Quiet else Error;
        }
      }
      result := CreateAndVerify(domain);
    }

    /** Stores a failure of the domain, and with that ends the reconcile. */
    method Settle(domain: Domain, trouble: Trouble, ghost base: DomainCR) returns (result: Result)
      requires Ready() && Stands(client.s.worker, AtSettle, domain.key, WithState(domain.Value(), Failed, Some(trouble)), base)
      modifies client, domain
      ensures Ready() && client.Later()
      ensures client.s.worker == Idle(result)
    {
      domain.status := domain.status.(state := Failed, mailgunError := Some(trouble));
      var stored, _ := StatusUpdate(domain);
      result := if stored then Quiet else Error;
    }

    /** Reconcile after the finalizer is settled. */
    method CreateAndVerify(domain: Domain) returns (result: Result)
      requires Ready() && client.s.worker == Main(domain.key, domain.Value())
      modifies client, domain
      ensures Ready() && client.Later()
      ensures client.s.worker == Idle(result)
    {
      ghost var base := domain.Value();
      if domain.status.state == Unset {
        var probed := client.Call(MgGet(domain.spec.domain), "", 0);
        if probed.RDomain? {
          domain.status := domain.status.(notManaged := true);
          result := Settle(domain, AlreadyExists, base);
          return;
        }
        var creation := CreateDomain(domain);
        if creation == NilDereference {
          return Panic;
        }
        if creation == NoSuccess {
          result := Settle(domain, NotCreated, client.s.worker.base);
          return;
        }
        base := domain.Value();
        domain.status := domain.status.(state := DomainProtocol.Created);
      }
      result := Verify(domain, base);
    }

    /** Reconcile with the domain known to Mailgun: the DNS records, then one verification. */
    method Verify(domain: Domain, ghost base: DomainCR) returns (result: Result)
      requires Ready() && client.s.worker == Tail(domain.key, domain.Value(), base)
      modifies client, domain
      ensures Ready() && client.Later()
      ensures client.s.worker == Idle(result)
    {
      if domain.status.state == Failed || domain.status.state == Activated {
        return Quiet;
      }
      ghost var version := base;
      if domain.spec.externalDNS.Some? && domain.spec.externalDNS.value && !domain.status.dnsCreated {
        var published := CreateExternalDNSEntity(domain, base);
        if !published {
          return Error;
        }
        version := domain.Value();
      }
      result := LookUp(domain, version);
    }

    /** The lookup before verification, which refreshes the records. */
    method LookUp(domain: Domain, ghost base: DomainCR) returns (result: Result)
      requires Ready() && Stands(client.s.worker, AtLookup, domain.key, domain.Value(), base)
      modifies client, domain
      ensures Ready() && client.Later()
      ensures client.s.worker == Idle(result)
    {
      var found := client.Call(MgGet(domain.spec.domain), "", 0);
      if !found.RDomain? {
        result := Settle(domain, NotOnMailgun, base);
        return;
      }
      var receiving := ConvertRecords(found.domain.receiving);
      var sending := ConvertRecords(found.domain.sending);
      domain.status := domain.status.(receiving := receiving, sending := sending);
      result := ValidationRound(domain, base);
    }

    /** The verification call and what follows from it. */
    method ValidationRound(domain: Domain, ghost base: DomainCR) returns (result: Result)
      requires Ready() && Stands(client.s.worker, AtVerify, domain.key, domain.Value(), base)
      modifies client, domain
      ensures Ready() && client.Later()
      ensures client.s.worker == Idle(result)
    {
      var now: nat := *;
      var verified := client.Call(MgVerify(domain.spec.domain), "", now);
      if !verified.RState? {
        return Error;
      }
      var count := if domain.status.validationCount.None? then 0 else domain.status.validationCount.value;
      domain.status := domain.status.(domainState := verified.state, lastValidation := Some(now), validationCount := Some(count + 1));
      if verified.state == Acc.ACTIVE {
        if domain.spec.forceMXCheck.Some? && domain.spec.forceMXCheck.value {
          CheckMXRecordsAndSetState(domain, base);
        } else {
          domain.status := domain.status.(state := Activated);
        }
      }
      result := StoreRound(domain, base);
    }

    method StoreRound(domain: Domain, ghost base: DomainCR) returns (result: Result)
      requires Ready() && Stands(client.s.worker, AtStoreRound, domain.key, domain.Value(), base)
      modifies client, domain
      ensures Ready() && client.Later()
      ensures client.s.worker == Idle(result)
    {
      var stored, _ := StatusUpdate(domain);
      if !stored {
        return Error;
      }
      result := Requeue(Config.Wrap64(config.domainVerifyDuration * Config.SECOND));
    }
  }
}
