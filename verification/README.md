# A verified model of the mailgun operator

The operator keeps Mailgun domains and routes in step with the custom resources `Domain` and
`Route` of a Kubernetes cluster. This project models its two reconcilers, the Mailgun semantics
the repository ships as its mock server, the DNS record compiler and the configuration loader, and
proves what the whole keeps along every run.

## How it is built

* `Kube.dfy` is the API server for one kind of resource: uids, resource versions, optimistic
  locking, finalizers, deletion marks, `Update` against `Status().Update`, and an informer cache
  that shows any earlier contents but never goes backwards.
* `Account.dfy` is Mailgun as a value. `MockServer.dfy` is the mock server itself, fields updated
  in place, each handler proved to do what `Account.dfy` says.
* `DomainProtocol.dfy` and `RouteProtocol.dfy` are the reconcilers as machines: a program counter
  before every remote call, one call per step, each answered, failed before its effect or failed
  after it. Crashes, cache refreshes, users, other controllers and other clients of Mailgun act
  between any two calls. Every list of actions is a run (`Runs.dfy`), and a theorem about runs
  speaks of `trace[i]`, the state after any number of its actions. A history no step reads records
  who created what and what went wrong.
* `DomainReconciler.dfy` and `RouteReconciler.dfy` are the reconcilers as methods over objects
  updated in place. A call is only allowed if it is the one the machine is about to make, and each
  method ends where the machine ends; so the methods refine the machines and everything proved of
  runs holds around every call of theirs.
* The theorems: `DomainOrphans.dfy`, `DomainProbe.dfy`, `DomainClean.dfy` and `DomainWitness.dfy`
  (what can leak, when exactly, and runs that do), `DomainOnce.dfy` (one creation, converging
  deletion), `DomainOwn.dfy` (the operator's own domain taken for another's), `DomainLife.dfy`
  (lifecycle, activation, counts, wakeups), `DomainIsolation.dfy`, `RouteOrphans.dfy`,
  `RouteGentle.dfy`, `RouteLife.dfy`, `RouteConvergence.dfy` and `RouteWitness.dfy`;
  `DomainInvariants.dfy` and `RouteInvariants.dfy` are the ground they stand on.
* What answered calls bring about, told from Mailgun's state and the fields of the spec:
  `DomainEffects.dfy` (verification, lookup, creation, results), `DomainSecrets.dfy` (exported
  credentials), `DomainRecords.dfy` (records and what is published of them), `DomainEndpoints.dfy`
  (the DNSEndpoint's life) and `RouteEffects.dfy`. A log no step reads keeps what Mailgun answered.
* `Dns.dfy` compiles records to external-dns endpoints, `DnsPublication.dfy` says what a compiled
  list publishes, `Config.dfy` loads the settings.

## What turned out

* A falsely failing `GetDomain` in a deletion is not the only way to lose a domain. One that fails
  before a creation, another client adding the name right after it, a deleting resource that carries
  only somebody else's finalizer, and an edit of `spec.domain` lose one too.
  `DomainWitness.OrphansComeFrom` says exactly which steps orphan a domain, and there is a run for
  each event.
* Any reconcile that creates a domain and ends before the state is stored (a crash, a failed
  verification, DNSEndpoint or status write, a nil secret name) makes the next one take the
  operator's own domain for a foreign one. `DomainOwn.OwnDomainDisowned` says exactly when,
  `DomainOwn.StateIsStoredLate` which writes prevent it, and `DomainLife.LifeGoesOneWay` that the
  mark, once stored, stays for ever.
* A `Route` takes its finalizer after its route exists, so a crash, a lost write or a user's delete
  in between loses the route. No such loss is silent: `RouteOrphans.RoutesAreAccounted` charges
  each of them once, and `RouteLife.StraysComeFrom` is exact.
* An update of a route cannot clear a field: the client leaves empty and zero fields out, and the
  controller asks for the same update again on every pass (`RouteConvergence.ReconcileConverges`).
* The DNSEndpoint of a resource that has none is deleted under an empty name, so every such deletion
  takes the error path at domain_controller.go:438-448; the update there writes nothing, because the
  error is in the status.
* The comments at domain_controller.go:83-85 and route_controller.go:78-80 say the same of both
  finalizers; the code of the second adds it only once an id is stored. The model follows the code.
* An interval above 9223372036 seconds overflows the duration, and its delay can be negative
  (`Config.DelayIsExact`).

## What is assumed

* The API server and client: `Update` writes spec and finalizers, checks the resource version and
  hands the stored object back, status included; an update that changes nothing gets no new
  version; no finalizer can be added under deletion; a delete-marked object goes with its last
  finalizer. Secrets and DNSEndpoints are read as they are stored, Domains and Routes through the
  cache. One worker per controller, the default.
* mailgun-go: a creation of a route sends its priority always, an update only what is not empty or
  zero; any status but success is an error.
* external-dns: `NewEndpoint` keeps name and type and cuts one trailing dot off each target.
* The password of a new domain, the random part of a route id, the clock of a validation and every
  fate are arbitrary. A failing random source is a creation that fails before its effect. Mailgun
  gives no route id out twice (`RouteProtocol.FreshRun`); the theorems that need this say so.
* Creation times of domains are taken from a logical clock, so that entries of one name can be told
  apart.

## Model

| member | source | states |
|---|---|---|
| `DomainOrphans.RunsLeaveNoOrphans` | internal/controller/domain/domain_controller.go:82-138 | In every state of every run (crashes, lost writes and answers, conflicts, a lagging cache, user deletes, other Mailgun clients) each domain the operator created and Mailgun lists is held by a stored resource that names it and carries the finalizer, or is charged to one logged event; an uncharged one is the entry Mailgun finds under its name |
| `DomainClean.BenignRunsAreClean` | internal/controller/domain/domain_controller.go:420-482 | A run without five kinds of event (a creation or deletion probe that fails falsely, another client adding the name between probe and creation, a foreign finalizer, an edit of spec.domain) charges nothing |
| `DomainClean.CarefulRunsAreTidy` | internal/controller/domain/domain_controller.go:82-138 | A run with false deletion probes but none of the other four charges only domains of resources that are gone |
| `DomainClean.BenignRunsHoldEveryDomain` | internal/controller/domain/domain_controller.go:82-138 | In such a run every domain the operator created and Mailgun lists has a stored resource that names it and holds the finalizer |
| `DomainClean.HonestDropChargesNothing` | internal/controller/domain/domain_controller.go:454-481 | After an honest deletion round the finalizer goes with none of the resource's domains left on Mailgun |
| `DomainClean.CreatorHolds` | internal/controller/domain/domain_controller.go:82-91 | A resource about to create its domain is stored, names that domain and carries the finalizer, in every clean state |
| `DomainClean.RunsKeepNames` | internal/controller/domain/domain_controller.go:75-138 | Along every run every version of a resource names the domain it named first unless it was edited |
| `DomainClean.WriteKeepsSpecs` | internal/controller/domain/domain_controller.go:86-91 | A write of the reconciler changes no spec, no deletion mark and no other resource |
| `DomainProbe.ProbesPrecedeCreations` | internal/controller/domain/domain_controller.go:103-124 | In every run whose creation probes do not fail over a listed name, and in which nobody adds the very name a worker is about to create, no creation meets a listed name |
| `DomainProbe.ProbingKeepsNamesUnique` | internal/controller/domain/domain_controller.go:103-124 | Probe before create keeps the names on Mailgun unique, in every such run from a list of unique names to which others add no listed name |
| `DomainWitness.OrphansComeFrom` | internal/controller/domain/domain_controller.go:372-482 | From an orphan-free state of any run the next step leaves an orphan if and only if it is a creation for a resource that does not hold the name, the finalizer taken off while a domain of the resource is listed, or a rename while one is |
| `DomainWitness.LyingProbeOrphans` | internal/controller/domain/domain_controller.go:454-458 | For every resource a run whose one excluded event is a falsely failing deletion probe, and which leaves an orphan |
| `DomainWitness.DropOrphansAfterALie` | internal/controller/domain/domain_controller.go:454-481 | In a run with none of the events but false deletion probes the last write of a deletion orphans a domain if and only if it lands, the probe lied, and a domain of the resource is still listed |
| `DomainWitness.DuplicateOrphans` | internal/controller/domain/domain_controller.go:454-480 | For every resource a run whose one excluded event is another client adding the name between probe and creation: the deletion takes the other domain and leaves the operator's |
| `DomainWitness.FalseProbeOrphans` | internal/controller/domain/domain_controller.go:106-124 | For every resource a run whose one excluded event is a creation probe failing over a listed name, with the same end |
| `DomainWitness.ForeignFinalizerOrphans` | internal/controller/domain/domain_controller.go:92-138 | For every resource a run whose one excluded event is a foreign finalizer: a deleting resource without ours falls through and creates an orphan |
| `DomainWitness.RenameOrphans` | internal/controller/domain/domain_controller.go:75-79 | For every resource a run whose one excluded event is an edit of spec.domain, and which leaves an orphan |
| `DomainOwn.OwnDomainDisowned` | internal/controller/domain/domain_controller.go:103-121 | In every benign run, for a live resource whose domain nobody took away: an answered probe finds the resource's own domain and goes on to disown it if and only if the resource created before |
| `DomainOwn.ProbeFindsOwn` | internal/controller/domain/domain_controller.go:106-113 | The domain Mailgun finds under its name was created for this very uid if and only if a creation for it took effect |
| `DomainOwn.StateIsStoredLate` | internal/controller/domain/domain_controller.go:126-215 | A resource without a state gets one only by the write of a failure, of the DNSEndpoint flag or of the round; the write of the records at line 412 and every update leave it without |
| `DomainWitness.OwnDomainReportedForeign` | internal/controller/domain/domain_controller.go:103-121 | For every resource that exports nothing a benign run that ends that way after a crash |
| `DomainOnce.CreatedAtMostOnce` | internal/controller/domain/domain_controller.go:103-138 | CreateDomain takes effect at most once per resource in every run, unless a probe failed falsely, somebody else deleted the domain, the spec was renamed, or the resource created while under deletion |
| `DomainOnce.RunsKnowOnce` | internal/controller/domain/domain_controller.go:103-138 | Its invariant: what was created once is still on Mailgun under the name first given, or the operator itself took it away under a condemned resource |
| `DomainOnce.HonestProbe` | internal/controller/domain/domain_controller.go:106-124 | A live resource that created before finds its domain listed when it probes again |
| `DomainOnce.DeletionConverges` | internal/controller/domain/domain_controller.go:420-482 | A resource with more deletion rounds than failed calls in them carries the finalizer no more: at most n failures, released after n + 1 rounds, in every run |
| `DomainOnce.DeletionLeavesNothing` | internal/controller/domain/domain_controller.go:420-482 | In a benign run it is then gone, and every domain created for it with it |
| `DomainOnce.RoundsAreReconciles` | internal/controller/domain/domain_controller.go:420-482 | A deletion round is counted exactly when the reconcile returns, and only a call that brought no success counts as failed |
| `DomainOnce.ReconcilesEnd` | internal/controller/domain/domain_controller.go:63-222 | Every call brings a reconcile nearer to its end, whatever the reply; so it makes at most 16 |
| `DomainLife.Lifecycle` | internal/controller/domain/domain_controller.go:103-145 | From one stored state to the next only: unset to created, failed or activated; created to failed or activated; activated to failed while deleting; "processing" never; a recorded DNSEndpoint implies a state |
| `DomainLife.LifeGoesOneWay` | internal/controller/domain/domain_controller.go:103-145 | However a run goes on: failed stays failed, not managed stays not managed, settled stays settled, a state is never unset, and only a deletion fails an activated resource |
| `DomainLife.ActivationIsSound` | internal/controller/domain/domain_controller.go:199-209 | In every state of every run a stored "activated" stands for a domain Mailgun was told to activate, with its MX records where forceMXCheck asks for it; only a resource edited in these fields after activation may differ |
| `DomainLife.CheckMarksTruly` | internal/controller/domain/domain_controller.go:287-310 | The MX check marks a domain activated only if its MX records are set on Mailgun |
| `DomainLife.VerifyMarksTruly` | internal/controller/domain/domain_controller.go:177-209 | After a verification a worker that marks or goes on to the MX check has a domain Mailgun activated |
| `DomainEffects.VerifyActivates` | internal/controller/domain/domain_controller.go:175-209 | An answered verification of a listed domain marks it activated if and only if Mailgun was told to activate it and no MX check is asked for, and goes on to the check if and only if one is; time, count and Mailgun's state are set |
| `DomainEffects.CheckActivates` | internal/controller/domain/domain_controller.go:287-310 | An answered MX check marks the domain activated if and only if its MX records are set |
| `DomainEffects.RoundActivates` | internal/controller/domain/domain_controller.go:158-221 | In every run a reconcile that reaches the lookup of a listed domain over the stored version, and is answered from there on, leaves "activated" in the store if and only if Mailgun was told to activate the domain and, where the spec asks for it, its MX records; else "created", with one more round counted and the configured delay returned |
| `DomainEffects.LookupRefreshes` | internal/controller/domain/domain_controller.go:158-173 | An answered lookup takes over Mailgun's records field by field; of an unlisted domain it makes a named failure |
| `DomainEffects.CreationAsks` | internal/controller/domain/domain_controller.go:374-396 | The creation is of the spec's domain, with each option set exactly when the spec sets it, and the password |
| `DomainEffects.CreationRecords` | internal/controller/domain/domain_controller.go:396-411 | An answered creation takes over the records, the state and the login of the domain Mailgun now lists, and exports exactly when the spec asks for it |
| `DomainEffects.FailuresAreNamed` | internal/controller/domain/domain_controller.go:107-135 | Every failure on Mailgun is to be stored as failed under its own name, and only a failure leads there |
| `DomainEffects.FailureIsStored` | internal/controller/domain/domain_controller.go:113-134 | An answered failure is in the store, and the reconcile is over |
| `DomainEffects.ErrorsHaveCauses` | internal/controller/domain/domain_controller.go:63-222 | A reconcile returns an error only after a call that did not bring what it asked for, or after reporting a deletion Mailgun refused |
| `DomainEffects.OtherResultsHaveCauses` | internal/controller/domain/domain_controller.go:63-222 | It returns a delay only after a stored round, nothing only after an answer, and dereferences nil only for an export without a Secret name |
| `DomainSecrets.CreationIssues` | internal/controller/domain/domain_controller.go:388-405 | An answered creation issues the login of the domain Mailgun now lists and the password of the options that were sent |
| `DomainSecrets.SecretsHoldCredentials` | internal/controller/domain/domain_controller.go:234-283 | In every run a reconcile that exports goes on to the records only once the Secret the spec names, in the resource's namespace, holds the issued login under the login key and the issued password under the password key |
| `DomainSecrets.ExportSucceeds` | internal/controller/domain/domain_controller.go:234-283 | In every run an export whose calls are answered gets there, whether the Secret was there, differed or is new |
| `DomainSecrets.ExportsAreMade` | internal/controller/domain/domain_controller.go:404-411 | The records are stored without an export only where the spec asks for none |
| `DomainRecords.RecordsAreMailguns` | internal/controller/domain/domain_controller.go:401-402 | In every state of every run the records of each stored status are copies, field by field, of records Mailgun answered for that resource; only a resource neither created nor activated may have none |
| `DomainRecords.EndpointIsStored` | internal/controller/domain/domain_controller.go:313-369 | An answered creation of the DNSEndpoint leaves, under the resource's name, what publishes the records of the status and of the spec, and sets the flag |
| `DomainRecords.EndpointsAreMailguns` | internal/controller/domain/domain_controller.go:313-361 | In every run what is published are the records Mailgun answered for the resource, each under its own name with its own value, one endpoint for the mail exchangers, the user's records, and nothing else |
| `DomainEndpoints.PublishedBeforeVerified` | internal/controller/domain/domain_controller.go:147-156 | In every state of every run the flag stands for an answered creation, and a resource that asks for external DNS is looked up and verified only after it |
| `DomainEndpoints.PublishedOnDemand` | internal/controller/domain/domain_controller.go:148-152 | A DNSEndpoint is created only where the spec asks for it and the flag is not set |
| `DomainEndpoints.EndpointIsDeleted` | internal/controller/domain/domain_controller.go:430-438 | A DNSEndpoint that is there is deleted by two answered calls |
| `DomainEndpoints.DeletionClearsEndpoint` | internal/controller/domain/domain_controller.go:428-482 | In every run a deletion round whose two calls about the DNSEndpoint are answered lets the resource go only with the DNSEndpoint gone, unless somebody adds it again |
| `DomainLife.ValidationsAreCounted` | internal/controller/domain/domain_controller.go:190-215 | The stored count equals the number of rounds whose status write landed, is at most the number of VerifyDomain calls, and is set exactly when the last-validation time is |
| `DomainLife.CountsOnlyGrow` | internal/controller/domain/domain_controller.go:190-215 | The stored count never decreases while the resource lives |
| `DomainLife.NoLostWakeup` | internal/controller/domain/domain_controller.go:63-222 | For every interval of 1 to 9223372036 seconds a reconcile that returns neither error nor positive delay found nothing in the cache or leaves the resource gone, without the finalizer, or stored as failed or activated |
| `DomainLife.UnfinishedRoundForgotten` | internal/controller/domain/domain_controller.go:211-221 | A round stored without activation is forgotten if and only if the delay is not positive, and the resource is then still unfinished |
| `DomainIsolation.ReconcilesAreIsolated` | internal/controller/domain/domain_controller.go:63-222 | In every state of every run a call of a reconcile changes no other resource, no spec, no DNSEndpoint of another name, no other Secret, no other entry of its Secret than login and password, no other Mailgun domain and no route |
| `DomainIsolation.CallSparesSecrets` | internal/controller/domain/domain_controller.go:234-284 | A call changes no Secret but the configured one, and no entry of it but login and password |
| `DomainIsolation.CredentialsOnly` | internal/controller/domain/domain_controller.go:271-279 | Setting the credentials changes the login and password entries only |
| `DomainInvariants.RunsKeepGround` | internal/controller/domain/domain_controller.go:63-222 | At each call the object in memory differs from the version last read in a way fixed by the place in the code; versions, finalizers and deletion marks seen in the cache hold on the server |
| `DomainReconciler.DomainReconciler.Reconcile` | internal/controller/domain/domain_controller.go:63-138 | The method makes exactly the calls of the machine, in order, with the same object in memory at each, and returns the machine's result |
| `DomainReconciler.DomainReconciler.CreateAndVerify` | internal/controller/domain/domain_controller.go:102-138 | The part after the finalizer refines the machine from its branch on the state to the result |
| `DomainReconciler.DomainReconciler.Verify` | internal/controller/domain/domain_controller.go:140-156 | Nothing more for failed and activated; the DNSEndpoint once; then the lookup |
| `DomainReconciler.DomainReconciler.LookUp` | internal/controller/domain/domain_controller.go:158-173 | A domain not found is stored as failed; one that is found refreshes the records |
| `DomainReconciler.DomainReconciler.ValidationRound` | internal/controller/domain/domain_controller.go:175-209 | One verification: state, time and count set, then the check or the activation; when it activates is DomainEffects.VerifyActivates |
| `DomainReconciler.DomainReconciler.StoreRound` | internal/controller/domain/domain_controller.go:211-221 | The round is stored and the configured delay returned, or the error |
| `DomainReconciler.DomainReconciler.CreateDomain` | internal/controller/domain/domain_controller.go:372-417 | Options, creation, records, credentials and the status write leave the machine where the outcome says |
| `DomainReconciler.DomainReconciler.ExportCredentialsToSecret` | internal/controller/domain/domain_controller.go:234-284 | The Secret is looked up and then written under the configured keys, or the failure is to be stored; which value goes where is DomainSecrets.SecretsHoldCredentials |
| `DomainReconciler.DomainReconciler.CreateOrUpdate` | internal/controller/domain/domain_controller.go:271-283 | A missing Secret is created unless its object came from the server; a differing one updated; an equal one left alone; what it then holds is DomainSecrets.SecretsHoldCredentials |
| `DomainReconciler.DomainReconciler.CreateExternalDNSEntity` | internal/controller/domain/domain_controller.go:313-369 | The endpoints of status and spec are created and the flag stored, or the reconcile ends in an error; what is published is DomainRecords.EndpointIsStored |
| `DomainReconciler.DomainReconciler.CheckMXRecordsAndSetState` | internal/controller/domain/domain_controller.go:287-310 | The loop over the receiving records activates exactly if there are some and all are valid |
| `DomainReconciler.DomainReconciler.DeleteDomain` | internal/controller/domain/domain_controller.go:420-436 | The DNSEndpoint is looked for, then deleted, then Mailgun is seen to; what is gone then is DomainEndpoints.DeletionClearsEndpoint |
| `DomainReconciler.DomainReconciler.DeleteLinkedEndpoint` | internal/controller/domain/domain_controller.go:438-453 | The DNSEndpoint that was found is deleted; a failure is reported by an update that leaves the status alone, and the deletion goes on |
| `DomainReconciler.DomainReconciler.DeleteFromMailgun` | internal/controller/domain/domain_controller.go:454-482 | Probe, deletion unless the probe failed, and the finalizer taken off; a failed deletion is stored and keeps it |
| `DomainReconciler.ClientsAreSafe` | internal/controller/domain/domain_controller.go:63-222 | In every state any sequence of reconciles passes through: no orphans, true activations and counts, one-way lives, at most one creation, converging deletions |
| `Dns.BuildEndpoints` | internal/controller/domain/domain_controller.go:329-356 | The loops of createExternalDNSEntity compute the compiled endpoint list |
| `Dns.ConvertRecords` | internal/controller/domain/domain_controller.go:484-496 | The loop fills in every record in order |
| `Dns.Layout` | internal/controller/domain/domain_controller.go:329-356 | For all records: one endpoint per non-MX record, one MX endpoint on the domain iff there is an MX record, then the user's records; nothing else |
| `DnsPublication.CompilePublishes` | internal/controller/domain/domain_controller.go:329-356 | For all of Mailgun's records and the copies of them in the status: every record that is no mail exchanger is listed with its name, type and value, every mail exchanger as a target of the one on the domain, every user's record, and nothing else |
| `Dns.RecordIsPublished` | internal/controller/domain/domain_controller.go:332-347 | Every record is found at the place given by how many of its sort precede it |
| `Dns.ReadsBack` | internal/controller/domain/domain_controller.go:336-337 | An MX target cut at its first space gives back priority and value if and only if the priority holds no space and the value does not end in a dot |
| `Dns.MailExchangersReadBack` | internal/controller/domain/domain_controller.go:331-347 | All of the MX endpoint reads back, in order, if and only if each MX record does |
| `Kube.MoveKeeps` | internal/controller/domain/domain_controller.go:86-91 | A lawful write keeps versions identifiable, deletion marks in place and every finalizer seen in the cache on the server |
| `Kube.DropKeeps` | internal/controller/domain/domain_controller.go:476-481 | Taking the finalizer off a condemned object keeps all of that too |
| `Kube.UpdateAnswer` | internal/controller/domain/domain_controller.go:88-90 | An answered Update met the very version it was based on; it wrote spec and finalizers and handed back the stored status |
| `Kube.StatusAnswer` | internal/controller/domain/domain_controller.go:212-215 | An answered status write met its version and changed the status only |
| `RouteOrphans.RoutesAreAccounted` | internal/controller/domain/route_controller.go:81-232 | In every run of fresh ids each route the operator created and Mailgun has is in exactly one place: the worker's hands, recorded in a stored resource, or charged to one logged event |
| `RouteGentle.GentleRunsChargeNothing` | internal/controller/domain/route_controller.go:81-232 | A run charges nothing if no creation loses its answer, no write of a new id fails or meets another version, no deletion probe fails over a route, no crash falls before that write, and nobody else removes a resource whose route is there while the finalizer is not on |
| `RouteGentle.GentleRunsKeepRoutes` | internal/controller/domain/route_controller.go:81-232 | In every state of such a run each route the operator created and Mailgun has is in the worker's hands or recorded in a stored resource |
| `RouteGentle.GentleRunsLeaveOneRoute` | internal/controller/domain/route_controller.go:206-232 | Whenever the controller rests in such a run a resource has at most one route on Mailgun, the recorded one, and a resource that is gone has none |
| `RouteLife.StraysComeFrom` | internal/controller/domain/route_controller.go:81-232 | From a state of any run without stray routes the next step leaves one if and only if it is a creation whose answer is lost, an id not stored, a crash before it is, or a removal while the route is there |
| `RouteLife.OnlyALieDropsARoute` | internal/controller/domain/route_controller.go:103-131 | The last write of a deletion loses a route only if GetRoute failed although the route was there |
| `RouteLife.RoutesWaitForTheirDomain` | internal/controller/domain/route_controller.go:135-162 | In every state of every run each route created for a resource naming a domain has that domain among those Mailgun activated |
| `RouteLife.NoLostWakeup` | internal/controller/domain/route_controller.go:76-236 | A reconcile that returns neither error nor delay found nothing in the cache or leaves the resource gone, deleting without the finalizer, or with its id stored |
| `RouteConvergence.ReconcileConverges` | internal/controller/domain/route_controller.go:55-205 | A failure-free reconcile of an existing route, its finalizer on or yet to be added, gate included: description, expression, priority and number of actions are the spec's wherever the spec has one and the route's own elsewhere, so that they agree if and only if no other field differs; no other route changes, and the next reconcile changes nothing |
| `RouteLife.PassConverges` | internal/controller/domain/route_controller.go:178-205 | The comparing half of that, field by field against the spec; the second pass sends no update if and only if the first sufficed |
| `RouteEffects.NewRouteIsMade` | internal/controller/domain/route_controller.go:164-232 | In every run a live resource that reaches the creation over its stored version, and is answered from there on, ends with a route of its description, expression, actions and priority on Mailgun, the id stored and the finalizer on |
| `RouteEffects.CreationMirrors` | internal/controller/domain/route_controller.go:166-222 | An answered creation puts a route on Mailgun that says all the spec says, and no other changes |
| `RouteEffects.GateIsAsked` | internal/controller/domain/route_controller.go:135-137 | Where a spec names a domain the gate is asked before a route is fetched or created |
| `RouteEffects.GateOpens` | internal/controller/domain/route_controller.go:135-162 | The answered gate opens if and only if Mailgun lists the domain as active; else the reason is to be stored |
| `RouteEffects.ReportIsStored` | internal/controller/domain/route_controller.go:139-160 | An answered report is in the store; the gate's comes back after five minutes, a failed creation's after one |
| `RouteEffects.FailuresAreNamed` | internal/controller/domain/route_controller.go:116-221 | Every failure on Mailgun is reported under its own name, and only a failure is |
| `RouteEffects.ErrorsHaveCauses` | internal/controller/domain/route_controller.go:55-237 | A reconcile returns an error only from a call on the resource that did not bring it back, or after reporting what Mailgun refused |
| `RouteEffects.DelaysHaveCauses` | internal/controller/domain/route_controller.go:146-220 | A delay comes from a stored report of the gate or of a failed creation only |
| `RouteEffects.DeletedRouteIsGone` | internal/controller/domain/route_controller.go:92-132 | In every run a deletion that reaches the probe over the stored version, and is answered from there on, takes the route off Mailgun and the finalizer off the resource, which is gone if nobody else holds it |
| `RouteLife.UpdateAgrees` | internal/utils/mailgun_mock_server.go:390-410 | After the merge a route still differs exactly where the request could not be sent |
| `RouteWitness.CrashStrays` | internal/controller/domain/route_controller.go:208-225 | For every resource without a domain to wait for, a run whose calls are all answered and whose crash loses the route |
| `RouteWitness.EarlyDeleteStrays` | internal/controller/domain/route_controller.go:222-232 | For every such resource a run in which a user's delete before the finalizer loses the route |
| `RouteInvariants.FinalizersStandForIds` | internal/controller/domain/route_controller.go:81-132 | In every state of every run a stored route finalizer stands for a stored id, so the branch for a nil id is never entered and no deletion reads a missing id |
| `RouteInvariants.RunsKeepGround` | internal/controller/domain/route_controller.go:55-237 | An id once stored stays; the object in memory has the form its place in the code gives it |
| `RouteReconciler.RouteReconciler.Reconcile` | internal/controller/domain/route_controller.go:55-133 | The method makes exactly the calls of the machine and returns its result |
| `RouteReconciler.RouteReconciler.Delete` | internal/controller/domain/route_controller.go:92-132 | Probe, deletion and finalizer, with the failed deletion stored and returned as an error |
| `RouteReconciler.RouteReconciler.PassGate` | internal/controller/domain/route_controller.go:135-162 | A domain that is missing or not active is stored as the error and looked at again after five minutes |
| `RouteReconciler.RouteReconciler.Sync` | internal/controller/domain/route_controller.go:164-178 | The request is built from the spec; update or create by whether an id is stored; what Mailgun then has is RouteEffects.NewRouteIsMade and RouteConvergence.ReconcileConverges |
| `RouteReconciler.RouteReconciler.UpdateExisting` | internal/controller/domain/route_controller.go:178-205 | Compared by description, expression, number of actions and priority, and updated only if one differs |
| `RouteReconciler.RouteReconciler.Create` | internal/controller/domain/route_controller.go:206-234 | Creation, id, finalizer, in this order; a failed creation is stored and retried after a minute |
| `RouteReconciler.ClientsAreSafe` | internal/controller/domain/route_controller.go:55-237 | In every state any sequence of reconciles passes through, with fresh ids: every route in one place, gates held, finalizers standing for ids |
| `Account.HandlersRefineMap` | internal/utils/mailgun_mock_server.go:133-262 | On a list of unique names get, verify, delete and the creation of a new name are the map operations of these names, errors included, and keep the names unique |
| `Account.DeleteRefinesMap` | internal/utils/mailgun_mock_server.go:250-253 | Cutting the first match out is removal from the map |
| `Account.RewriteRefinesMap` | internal/utils/mailgun_mock_server.go:182-189 | Rewriting the first match is an update of the map |
| `Account.AppendRefinesMap` | internal/utils/mailgun_mock_server.go:161-165 | Appending an unlisted name is an insertion into the map |
| `Account.ServeStaysSane` | internal/utils/mailgun_mock_server.go:59-117 | Every handler and hook keeps "state active only for activated domains" and the order of creation times |
| `Account.ReportsAreTrue` | internal/utils/mailgun_mock_server.go:178-236 | A verified domain reported active was activated; in a fresh read all receiving records are valid iff the MX records were set |
| `Account.VerifyThenRead` | internal/utils/mailgun_mock_server.go:178-236 | A verification marks every record valid; the next read takes the marks off the receiving records unless the MX records are set, and leaves state and sending records |
| `Account.RoutesReadBack` | internal/utils/mailgun_mock_server.go:264-369 | A created route reads back as asked for, a deleted one not at all, and other routes do not change |
| `Account.FailingRoutes` | internal/utils/mailgun_mock_server.go:106-117 | A route fails for an action if and only if it was named for it |
| `MockServer.BuildRecords` | internal/utils/mailgun_mock_server.go:469-522 | The receiving records are all MX records and valid iff the MX records are set; the sending ones are none and valid iff the domain is active |
| `Dns.NewDomainPublishes` | internal/utils/mailgun_mock_server.go:161-170 | What the mock hands out for a new domain is published as three endpoints and one MX endpoint on the domain, whose targets read back as they were |
| `MockServer.MailgunMockServer.Build` | internal/utils/mailgun_mock_server.go:451-467 | The entry of a new domain |
| `MockServer.MailgunMockServer.AddDomain` | internal/utils/mailgun_mock_server.go:59-72 | Appends an entry whatever is listed |
| `MockServer.MailgunMockServer.ActivateDomain` | internal/utils/mailgun_mock_server.go:74-79 | One more active domain, nothing else |
| `MockServer.MailgunMockServer.ActivateMXDomain` | internal/utils/mailgun_mock_server.go:81-86 | One more domain with MX records, nothing else |
| `MockServer.MailgunMockServer.FailedDomain` | internal/utils/mailgun_mock_server.go:88-93 | One more failing domain, nothing else |
| `MockServer.MailgunMockServer.DeleteDomain` | internal/utils/mailgun_mock_server.go:95-104 | Takes the first match off the list, or nothing |
| `MockServer.MailgunMockServer.FailRoutes` | internal/utils/mailgun_mock_server.go:106-117 | One more failing id for the action |
| `MockServer.MailgunMockServer.HandleCreateDomain` | internal/utils/mailgun_mock_server.go:133-172 | 500 for a failing name, else the new entry appended and returned, duplicate or not |
| `MockServer.MailgunMockServer.HandleGetDomain` | internal/utils/mailgun_mock_server.go:178-202 | The first match with its receiving records rebuilt in place, or 404 |
| `MockServer.MailgunMockServer.HandleVerifyDomain` | internal/utils/mailgun_mock_server.go:204-236 | The first match with its state and the validity of all records written in place, or 404 |
| `MockServer.MailgunMockServer.MarkReceiving` | internal/utils/mailgun_mock_server.go:218-220 | The loop over the receiving records marks each of them and nothing else |
| `MockServer.MailgunMockServer.MarkSending` | internal/utils/mailgun_mock_server.go:221-223 | The loop over the sending records marks each of them and nothing else |
| `MockServer.MailgunMockServer.HandleDeleteDomain` | internal/utils/mailgun_mock_server.go:238-262 | 500 for a failing name, 404 for an unlisted one, else the first match cut out |
| `MockServer.MailgunMockServer.HandleCreateRoute` | internal/utils/mailgun_mock_server.go:264-308 | 500 for the description "fail", 400 for a bad priority, else the route stored under the new id |
| `MockServer.MailgunMockServer.HandleGetRoute` | internal/utils/mailgun_mock_server.go:310-341 | 400, 500, 404 or the route, with nothing changed |
| `MockServer.MailgunMockServer.HandleDeleteRoute` | internal/utils/mailgun_mock_server.go:343-369 | 400, 500, or the id removed if it was there |
| `MockServer.MailgunMockServer.HandleUpdateRoute` | internal/utils/mailgun_mock_server.go:371-415 | 400, 404, or the sent fields merged over the stored ones |
| `Config.Data.constructor` | internal/configuration/configuration.go:32-39 | The defaults |
| `Config.Data.LoadConfiguration` | internal/configuration/configuration.go:41-71 | Each tagged field takes the Secret's value, else the ConfigMap's, else keeps its own; an unreadable source changes nothing; the load panics iff the effective interval is no 64-bit integer; the namespace never changes |
| `Config.Data.HashToConfig` | internal/configuration/configuration.go:121-154 | The loop over the fields sets each tagged field that has a key and panics iff its integer does not parse |
| `Config.Gather` | internal/configuration/configuration.go:42-64 | The merged data, the Secret over the ConfigMap; an empty name or a missing object counts as no data |
| `Config.MergeInto` | internal/configuration/configuration.go:50-52 | The loop overrides the base with every extra entry |
| `Config.DecimalParses` | internal/configuration/configuration.go:143 | Every 64-bit integer written in decimal is accepted as itself, and no other integer |
| `Config.DelayIsExact` | internal/controller/domain/domain_controller.go:219-221 | The delay is the configured number of seconds exactly within 9223372036 seconds of zero; one second more wraps to a negative delay |

## Left out

- Manager wiring, flags, TLS, leader election, health checks, logging and events: no state the properties need.
- HTTP, JSON and basic authentication of the mock server, and its list of all domains: handlers are modelled as methods on the state.
- Two managers at once, and users who set the operator's own finalizers by hand.
- The texts of `mailgun_error`: modelled as the kind of message. That it is never cleared on success is in the model.
- The fields `web_scheme` and `ips`, wildcard and spam action of a Mailgun domain: the mock ignores them; the options of a creation are built as in the code, and nothing is claimed about what Mailgun does with them.
- The choice of the API base in `MailgunClient`: no state.
- Route actions beyond their number: the code does not compare them, so nothing is claimed about them after an update.
- Crashes inside a method of `DomainReconciler` or `RouteReconciler`: a method runs to its end or stops between two calls; the state it then leaves is a state of the run, and what follows a crash is in the machines.
- A watch event that comes while a reconcile runs: the workqueue itself is not part of this model; the wakeup theorems speak of what a reconcile returns.
- DomainReconciler.DomainReconciler.CreateOrUpdate: the Secret object in memory after a lost update is not carried on, because nothing reads it again.
- RouteConvergence.ReconcileConverges: speaks of description, expression, priority and number of actions, the fields the code compares.
- DomainOnce.DeletionConverges: counts a conflict with a lagging cache among the failed calls, as the reconcile does when it returns the error.
