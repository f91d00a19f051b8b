/** Exactly which steps leave an orphaned domain behind, and a run for each event that leads to
    one: the events left out of a benign tale cannot be allowed.

    The claim that only a false answer to the deletion probe can orphan a domain does not hold
    of the code.  A domain created beside a listed one of the same name, after a false probe or a
    racing add, a deleting resource with somebody else's finalizer, and an edit of spec.domain each
    do so too. */
module DomainWitness {
  import opened Basics
  import opened Kube
  import opened Runs
  import opened DomainProtocol
  import opened DomainInvariants
  import opened DomainOrphans
  import opened DomainClean
  import Acc = Account

  // ----- the steps that orphan -----

  ghost predicate Orphan(s: State, i: nat) {
    && i < |s.acct.domains| && s.acct.domains[i].createdAt in s.gh.origin
    && !HeldFor(s.api, s.gh.origin[s.acct.domains[i].createdAt], s.acct.domains[i].name)
  }

  ghost predicate OrphanFree(s: State) {
    forall i: nat :: !Orphan(s, i)
  }

  ghost predicate StillListed(list: Domains, origin: map<nat, Id>, id: Id) {
    exists i | 0 <= i < |list| :: list[i].createdAt in origin && origin[list[i].createdAt] == id
  }

  /** The three steps: a creation for a resource that does not hold the name, the finalizer taken
      off while a domain of the resource is listed, and a rename while one is. */
  ghost predicate LeavesBehind(s: State, a: Action) {
    match a
    case Work(fate, _, _) =>
      && s.worker.Busy? && fate != FailsBefore
      && var w := s.worker;
         || (w.pc.AtCreate? && w.mem.spec.domain !in s.acct.failed && !HeldFor(s.api, Me(w), w.mem.spec.domain))
         || (w.pc.AtDropFinalizer? && w.key in s.api.objs && s.api.objs[w.key] == w.base
             && StillListed(s.acct.domains, s.gh.origin, Me(w)))
    case EditCR(key, spec) =>
      Renames(s.api, key, spec) && StillListed(s.acct.domains, s.gh.origin, Id(key, s.api.objs[key].uid))
    case _ => false
  }

  lemma ThinsOrphansNothing(list: Domains, list': Domains, s: State, s': State)
    requires list == s.acct.domains && list' == s'.acct.domains
    requires OrphanFree(s) && s'.gh.origin == s.gh.origin && KeepsHolds(s.api, s'.api)
    requires Thins(list, list')
    ensures OrphanFree(s')
  {
    if Acc.SameEntries(list, list') {
      forall i: nat | i < |list'| ensures !Orphan(s', i) { assert !Orphan(s, i); }
    } else {
      var k :| 0 <= k < |list| && list' == Acc.Without(list, k);
      forall i: nat | i < |list'|
        ensures !Orphan(s', i)
      {
        Acc.WithoutAt(list, k, i);
        assert !Orphan(s, if i < k then i else i + 1);
      }
    }
  }

  lemma CreateOrphans(s: State, fate: Fate, password: string, now: nat)
    requires OrphanFree(s) && Acc.Sane(s.acct) && Bounded(s.gh, s.acct.clock)
    requires s.worker.Busy? && s.worker.pc.AtCreate?
    ensures OrphanFree(WorkStep(s, fate, password, now)) <==> !LeavesBehind(s, Work(fate, password, now))
  {
    var s' := WorkStep(s, fate, password, now);
    var list, list' := s.acct.domains, s'.acct.domains;
    CreationNoted(s, fate, password);
    forall i: nat | i < |list|
      ensures !Orphan(s', i)
    {
      assert !Orphan(s, i);
      assert list'[i] == list[i];
    }
    if list' != list {
      assert list'[|list|].createdAt == s.acct.clock && list'[|list|].name == s.worker.mem.spec.domain;
      assert Orphan(s', |list|) <==> !HeldFor(s.api, Me(s.worker), s.worker.mem.spec.domain);
    }
  }

  /** A finalizer taken off, or a rename, orphans what its resource held. */
  lemma GivingUpOrphans(s: State, s': State, id: Id)
    requires OrphanFree(s) && s'.gh.origin == s.gh.origin && s'.acct == s.acct && GivesUp(s.api, s'.api, id)
    requires id.key in s.api.objs && s.api.objs[id.key].uid == id.uid
    requires !HeldFor(s'.api, id, s.api.objs[id.key].spec.domain)
    ensures OrphanFree(s') <==> !StillListed(s.acct.domains, s.gh.origin, id)
  {
    var list := s.acct.domains;
    forall i: nat | i < |list| && list[i].createdAt in s.gh.origin
      ensures Orphan(s', i) <==> s.gh.origin[list[i].createdAt] == id
    {
      assert !Orphan(s, i);
    }
  }

  lemma DropOrphans(s: State, fate: Fate, password: string, now: nat)
    requires Ground(s) && OrphanFree(s) && s.worker.Busy? && s.worker.pc.AtDropFinalizer?
    ensures OrphanFree(WorkStep(s, fate, password, now)) <==> !LeavesBehind(s, Work(fate, password, now))
  {
    var w := s.worker;
    var s' := WorkStep(s, fate, password, now);
    DropGivesUp(s, fate, password);
    DropShape(s.api, w.key, w.base, fate, DomainFinalizer);
    if s'.api != s.api {
      GivingUpOrphans(s, s', Me(w));
    } else {
      ThinsOrphansNothing(s.acct.domains, s'.acct.domains, s, s');
    }
    DropLands(s, fate, password);
  }

  lemma DropLands(s: State, fate: Fate, password: string)
    requires Ground(s) && s.worker.Busy? && s.worker.pc.AtDropFinalizer?
    ensures var w := s.worker;
            Perform(s, OpOf(w, password), fate).state.api != s.api
            <==> fate != FailsBefore && w.key in s.api.objs && s.api.objs[w.key] == w.base
  {
    assert DomainFinalizer in s.worker.base.finalizers && DomainFinalizer !in s.worker.mem.finalizers;
  }

  lemma OtherCallOrphansNothing(s: State, fate: Fate, password: string, now: nat)
    requires Ground(s) && OrphanFree(s) && s.worker.Busy? && !s.worker.pc.AtCreate? && !s.worker.pc.AtDropFinalizer?
    ensures OrphanFree(WorkStep(s, fate, password, now))
  {
    CallThins(s, fate, password);
    WriteKeepsHolds(s, fate, password);
    var s' := WorkStep(s, fate, password, now);
    ThinsOrphansNothing(s.acct.domains, s'.acct.domains, s, s');
  }

  lemma EditOrphans(s: State, key: Key, spec: DomainSpec)
    requires Ground(s) && OrphanFree(s)
    ensures OrphanFree(Step(s, EditCR(key, spec))) <==> !LeavesBehind(s, EditCR(key, spec))
  {
    var s' := Step(s, EditCR(key, spec));
    EditGivesUp(s.api, key, spec);
    if Renames(s.api, key, spec) {
      GivingUpOrphans(s, s', Id(key, s.api.objs[key].uid));
    } else {
      ThinsOrphansNothing(s.acct.domains, s'.acct.domains, s, s');
    }
  }

  lemma MailgunOrphansNothing(s: State, r: Acc.Request)
    requires OrphanFree(s) && Bounded(s.gh, s.acct.clock)
    ensures OrphanFree(Step(s, Mailgun(r)))
  {
    var s' := Step(s, Mailgun(r));
    ServeThins(s.acct, r);
    if Thins(s.acct.domains, s'.acct.domains) {
      ThinsOrphansNothing(s.acct.domains, s'.acct.domains, s, s');
    } else {
      forall i: nat | i < |s'.acct.domains|
        ensures !Orphan(s', i)
      {
        if i < |s.acct.domains| { assert !Orphan(s, i); }
      }
    }
  }

  lemma UserOrphansNothing(s: State, a: Action)
    requires Ground(s) && OrphanFree(s) && (a.CreateCR? || a.DeleteCR? || a.SetFinalizers?)
    ensures OrphanFree(Step(s, a))
  {
    ServerActionKeepsHolds(s, a);
    ThinsOrphansNothing(s.acct.domains, Step(s, a).acct.domains, s, Step(s, a));
  }

  lemma StepOrphans(s: State, a: Action)
    requires Ground(s) && OrphanFree(s) && Bounded(s.gh, s.acct.clock)
    ensures OrphanFree(Step(s, a)) <==> !LeavesBehind(s, a)
  {
    match a {
      case Work(fate, password, now) =>
        if s.worker.Busy? {
          if s.worker.pc.AtCreate? {
            CreateOrphans(s, fate, password, now);
          } else if s.worker.pc.AtDropFinalizer? {
            DropOrphans(s, fate, password, now);
          } else {
            OtherCallOrphansNothing(s, fate, password, now);
          }
        }
      case EditCR(key, spec) => EditOrphans(s, key, spec);
      case Mailgun(r) => MailgunOrphansNothing(s, r);
      case CreateCR(_, _, _) => UserOrphansNothing(s, a);
      case DeleteCR(_) => UserOrphansNothing(s, a);
      case SetFinalizers(_, _) => UserOrphansNothing(s, a);
      case SyncCache(_) =>
        assert KeepsHolds(s.api, Step(s, a).api);
        ThinsOrphansNothing(s.acct.domains, s.acct.domains, s, Step(s, a));
      case _ =>
        assert Step(s, a).api == s.api && Step(s, a).acct == s.acct && Step(s, a).gh == s.gh;
        ThinsOrphansNothing(s.acct.domains, s.acct.domains, s, Step(s, a));
    }
  }

  /** From a state of any run without orphans, the next step leaves one behind if and only if it
      is one of the three. */
  lemma OrphansComeFrom(trace: seq<State>, run: seq<Action>, i: nat)
    requires IsRun(trace, run) && i < |run| && OrphanFree(trace[i])
    ensures OrphanFree(trace[i + 1]) <==> !LeavesBehind(trace[i], run[i])
  {
    RunsKeepGround(trace, run, i);
    RunsLeaveNoOrphans(trace, run, i);
    Advance(Step, trace, run, i);
    StepOrphans(trace[i], run[i]);
  }

  /** Whatever is charged belongs to resources that are gone, so an honest round leaves no domain of
      its own listed. */
  lemma OnlyALieLeavesADomain(s: State)
    requires Ground(s) && NoOrphans(s) && Tidy(s) && OrphanFree(s) && s.worker.Busy? && s.worker.pc.AtDropFinalizer?
    requires s.worker.key in s.api.objs && s.api.objs[s.worker.key] == s.worker.base
    ensures StillListed(s.acct.domains, s.gh.origin, Me(s.worker)) ==> s.gh.lied
  {
    var w, list := s.worker, s.acct.domains;
    if StillListed(list, s.gh.origin, Me(w)) {
      var d: nat :| d < |list| && list[d].createdAt in s.gh.origin && s.gh.origin[list[d].createdAt] == Me(w);
      assert !Orphan(s, d);
      assert Uncharged(s.gh, list[d]);
    }
  }

  /** In a run with none of the events but false deletion probes, the last write of a deletion
      orphans a domain if and only if it lands, the probe before it lied, and a domain of the
      resource is still listed. */
  lemma DropOrphansAfterALie(trace: seq<State>, run: seq<Action>, i: nat)
    requires IsRun(trace, run) && i < |run| && CarefulRun(trace, run) && OrphanFree(trace[i])
    requires run[i].Work? && trace[i].worker.Busy? && trace[i].worker.pc.AtDropFinalizer?
    ensures var e, w := trace[i], trace[i].worker;
            OrphanFree(trace[i + 1])
            <==> !(&& run[i].fate != FailsBefore && w.key in e.api.objs && e.api.objs[w.key] == w.base
                   && e.gh.lied && StillListed(e.acct.domains, e.gh.origin, Me(w)))
  {
    RunsKeepGround(trace, run, i);
    RunsLeaveNoOrphans(trace, run, i);
    CarefulRunsAreTidy(trace, run, i);
    OrphansComeFrom(trace, run, i);
    var e, w := trace[i], trace[i].worker;
    if w.key in e.api.objs && e.api.objs[w.key] == w.base { OnlyALieLeavesADomain(e); }
  }

  // ----- one run for each event -----

  /** A run and its states. */
  datatype Tale = Tale(trace: seq<State>, run: seq<Action>)

  ghost predicate Told(tale: Tale) {
    IsRun(tale.trace, tale.run) && tale.trace[0] == START
  }

  ghost function End(tale: Tale): State {
    if |tale.trace| > 0 then tale.trace[|tale.trace| - 1] else START
  }

  ghost function On(tale: Tale, a: Action): Tale {
    Tale(tale.trace + [Step(End(tale), a)], tale.run + [a])
  }

  /** A run from `START`, benign but for action `k`. */
  ghost predicate BenignBut(tale: Tale, k: nat) {
    Told(tale) && forall i | 0 <= i < |tale.run| && i != k :: Benign(tale.trace[i], tale.run[i])
  }

  const START := State(Empty(), map[], map[], 0, Acc.Account([], [], [], [], map[], map[], 0), Idle(Quiet), 300, NO_HISTORY, NO_LOG)

  const NEXT := Work(Fine, "", 0)

  ghost function Bare(spec: DomainSpec, others: set<Finalizer>): DomainCR {
    Obj(1, 1, false, others, spec, NO_STATUS)
  }

  ghost function HeldVersion(spec: DomainSpec): DomainCR {
    Obj(1, 2, false, {DomainFinalizer}, spec, NO_STATUS)
  }

  ghost function Naming(key: Key, spec: DomainSpec): History {
    NO_HISTORY.(named := map[Id(key, 1) := spec.domain])
  }

  /** A resource nobody has looked at yet, and the worker about to read it. */
  ghost function Opened(key: Key, spec: DomainSpec, others: set<Finalizer>): State {
    var obj := Bare(spec, others);
    START.(api := Api(map[key := obj], [map[], map[key := obj]], 1, 1), worker := Busy(key, AtGet, BLANK, BLANK),
           gh := Naming(key, spec))
  }

  /** The resource with its finalizer on, and the worker about to make call `pc`. */
  ghost function Prepared(key: Key, spec: DomainSpec, pc: Pc): State {
    var obj := HeldVersion(spec);
    START.(api := Api(map[key := obj], [map[], map[key := Bare(spec, {})], map[key := obj]], 1, 2),
           worker := Busy(key, pc, obj, obj), gh := Naming(key, spec))
  }

  /** The log of one creation. */
  ghost function LogOf(key: Key, c: Acc.Container): Log {
    Log(map[Id(key, 1) := Issue(c.smtpLogin, "")], {Shown(Id(key, 1), c.receiving, c.sending)}, map[])
  }

  ghost function JustCreated(key: Key, spec: DomainSpec): State {
    var c := Acc.NewContainer(START.acct, spec.domain);
    var s := Prepared(key, spec, AtCreate);
    s.(acct := s.acct.(domains := [c], clock := 1), worker := CreatedOnMailgun(s.worker, c, ""),
       gh := s.gh.(origin := map[0 := Id(key, 1)], creates := map[Id(key, 1) := 1]), log := LogOf(key, c))
  }

  lemma Opening(key: Key, spec: DomainSpec, others: set<Finalizer>)
    requires DomainFinalizer !in others
    ensures Step(Step(Step(START, CreateCR(key, spec, others)), SyncCache(1)), Start(key)) == Opened(key, spec, others)
  {
    assert others - {DomainFinalizer} == others;
  }

  lemma Preparing(key: Key, spec: DomainSpec)
    ensures Step(Step(Opened(key, spec, {}), NEXT), NEXT) == Prepared(key, spec, AtProbe)
  {
    var s := Step(Opened(key, spec, {}), NEXT);
    assert Bare(spec, {}).finalizers + {DomainFinalizer} == {DomainFinalizer};
    assert s == Opened(key, spec, {}).(worker :=
      Busy(key, AtAddFinalizer, Bare(spec, {}).(finalizers := {DomainFinalizer}), Bare(spec, {})));
    var s', e := Step(s, NEXT), Prepared(key, spec, AtProbe);
    assert s'.api.objs == e.api.objs;
    assert s'.api.past == e.api.past;
    assert s'.worker == e.worker;
    assert s'.gh == e.gh;
  }

  lemma Probing(key: Key, spec: DomainSpec)
    ensures Step(Prepared(key, spec, AtProbe), NEXT) == Prepared(key, spec, AtCreate)
  {
  }

  lemma Creating(key: Key, spec: DomainSpec)
    ensures Step(Prepared(key, spec, AtCreate), NEXT) == JustCreated(key, spec)
  {
  }

  const FRESH := Tale([START], [])

  ghost predicate Reaches(tale: Tale, k: nat, e: State) {
    BenignBut(tale, k) && End(tale) == e
  }

  lemma Go(tale: Tale, k: nat, e: State, a: Action, e': State)
    requires Reaches(tale, k, e) && Step(e, a) == e' && (|tale.run| == k || Benign(e, a))
    ensures Reaches(On(tale, a), k, e')
  {
    TraceGrows(Step, tale.trace, tale.run, a);
  }

  lemma Opens(key: Key, spec: DomainSpec, others: set<Finalizer>, k: nat) returns (tale: Tale)
    requires DomainFinalizer !in others && (k == 0 || others == {})
    ensures |tale.run| == 3 && Reaches(tale, k, Opened(key, spec, others))
  {
    var a, b, c := CreateCR(key, spec, others), SyncCache(1), Start(key);
    var e := Step(START, a);
    Opening(key, spec, others);
    Go(FRESH, k, START, a, e);
    Go(On(FRESH, a), k, e, b, Step(e, b));
    Go(On(On(FRESH, a), b), k, Step(e, b), c, Opened(key, spec, others));
    tale := On(On(On(FRESH, a), b), c);
  }

  lemma Prepares(key: Key, spec: DomainSpec, k: nat) returns (tale: Tale)
    ensures |tale.run| == 5 && Reaches(tale, k, Prepared(key, spec, AtProbe))
  {
    tale := Opens(key, spec, {}, k);
    var e := Opened(key, spec, {});
    Preparing(key, spec);
    Go(tale, k, e, NEXT, Step(e, NEXT));
    Go(On(tale, NEXT), k, Step(e, NEXT), NEXT, Prepared(key, spec, AtProbe));
    tale := On(On(tale, NEXT), NEXT);
  }

  lemma Creates(key: Key, spec: DomainSpec, k: nat) returns (tale: Tale)
    ensures |tale.run| == 7 && Reaches(tale, k, JustCreated(key, spec))
  {
    tale := Prepares(key, spec, k);
    Probing(key, spec);
    Go(tale, k, Prepared(key, spec, AtProbe), NEXT, Prepared(key, spec, AtCreate));
    Creating(key, spec);
    Go(On(tale, NEXT), k, Prepared(key, spec, AtCreate), NEXT, JustCreated(key, spec));
    tale := On(On(tale, NEXT), NEXT);
  }

  /** An edit of spec.domain alone orphans the domain. */
  lemma RenameOrphans(key: Key, spec: DomainSpec, other: string) returns (tale: Tale)
    requires other != spec.domain
    ensures |tale.run| == 8 && BenignBut(tale, 7) && Orphan(End(tale), 0)
  {
    tale := Creates(key, spec, 7);
    var e, a := JustCreated(key, spec), EditCR(key, spec.(domain := other));
    Go(tale, 7, e, a, Step(e, a));
    tale := On(tale, a);
  }

  // ----- a resource marked for deletion while somebody else's finalizer holds it -----

  ghost function Marked(key: Key, spec: DomainSpec, others: set<Finalizer>): State {
    var obj := Bare(spec, others);
    var gone := obj.(rv := 2, deleting := true);
    START.(api := Api(map[key := gone], [map[], map[key := obj], map[key := gone]], 2, 2),
           worker := Busy(key, AtGet, BLANK, BLANK), gh := Naming(key, spec))
  }

  lemma Marking(key: Key, spec: DomainSpec, others: set<Finalizer>)
    requires DomainFinalizer !in others && others != {}
    ensures Step(Step(Opened(key, spec, others), DeleteCR(key)), SyncCache(2)) == Marked(key, spec, others)
  {
    var s, e := Step(Step(Opened(key, spec, others), DeleteCR(key)), SyncCache(2)), Marked(key, spec, others);
    assert s.api.objs == e.api.objs;
    assert s.api.past == e.api.past;
  }

  lemma FallingThrough(key: Key, spec: DomainSpec, others: set<Finalizer>)
    requires DomainFinalizer !in others
    ensures var s := Step(Step(Marked(key, spec, others), NEXT), NEXT);
            && s.worker.Busy? && s.worker.pc == AtCreate && s.worker.key == key && s.worker.mem.spec == spec && s.worker.base.uid == 1
            && s.api == Marked(key, spec, others).api && s.acct == START.acct && s.gh.origin == map[]
  {
  }

  lemma CreatingUnheld(s: State, spec: DomainSpec)
    requires s.worker.Busy? && s.worker.pc == AtCreate && s.worker.mem.spec == spec && s.acct == START.acct
    requires !HeldFor(s.api, Me(s.worker), spec.domain)
    ensures Orphan(Step(s, NEXT), 0)
  {
    CreationNoted(s, Fine, "");
  }

  /** A resource that goes away without our finalizer falls through to the creating half: its
      domain is an orphan from the start. */
  lemma ForeignFinalizerOrphans(key: Key, spec: DomainSpec, others: set<Finalizer>) returns (tale: Tale)
    requires DomainFinalizer !in others && others != {}
    ensures |tale.run| == 8 && BenignBut(tale, 0) && Orphan(End(tale), 0)
  {
    tale := Opens(key, spec, others, 0);
    var e, a, b := Opened(key, spec, others), DeleteCR(key), SyncCache(2);
    Marking(key, spec, others);
    Go(tale, 0, e, a, Step(e, a));
    Go(On(tale, a), 0, Step(e, a), b, Marked(key, spec, others));
    tale, e := On(On(tale, a), b), Marked(key, spec, others);
    FallingThrough(key, spec, others);
    Go(tale, 0, e, NEXT, Step(e, NEXT));
    Go(On(tale, NEXT), 0, Step(e, NEXT), NEXT, Step(Step(e, NEXT), NEXT));
    tale, e := On(On(tale, NEXT), NEXT), Step(Step(e, NEXT), NEXT);
    CreatingUnheld(e, spec);
    Go(tale, 0, e, NEXT, Step(e, NEXT));
    tale := On(tale, NEXT);
  }

  // ----- a deletion as far as the probe -----

  ghost function DoomedVersion(spec: DomainSpec): DomainCR {
    HeldVersion(spec).(rv := 3, deleting := true)
  }

  ghost function AtTheProbe(e: State, key: Key, spec: DomainSpec): State {
    e.(api := Api(map[key := DoomedVersion(spec)], e.api.past + [map[key := DoomedVersion(spec)]], 3, 3),
       worker := Busy(key, AtDeleteProbe, DoomedVersion(spec), DoomedVersion(spec)))
  }

  lemma Deleting(e: State, key: Key, spec: DomainSpec)
    requires e.api == Prepared(key, spec, AtCreate).api && e.endpoints == map[]
    ensures var e' := Step(Step(Step(Step(e, Crash), DeleteCR(key)), SyncCache(3)), Start(key));
            e' == AtTheProbe(e, key, spec).(worker := Busy(key, AtGet, BLANK, BLANK))
  {
    var e' := Step(Step(Step(Step(e, Crash), DeleteCR(key)), SyncCache(3)), Start(key));
    assert e'.api.objs == AtTheProbe(e, key, spec).api.objs;
  }

  lemma Reading(e: State, key: Key, obj: DomainCR)
    requires Get(e.api, key) == Found(obj) && obj.deleting && DomainFinalizer in obj.finalizers && key !in e.endpoints
    requires e.worker == Busy(key, AtGet, BLANK, BLANK)
    ensures Step(e, NEXT) == e.(worker := Busy(key, AtGetEndpoint, obj, obj))
    ensures Step(Step(e, NEXT), NEXT) == e.(worker := Busy(key, AtDeleteEndpoint(false), obj, obj))
  {
    assert Step(e, NEXT) == e.(worker := Busy(key, AtGetEndpoint, obj, obj));
  }

  /** A DNSEndpoint that is not there takes the error path, and the update that should record the
      error changes nothing. */
  lemma EndpointKeptAway(b: State, key: Key, obj: DomainCR)
    requires b.worker == Busy(key, AtDeleteEndpoint(false), obj, obj)
    requires key in b.api.objs && b.api.objs[key] == obj
    ensures Step(b, NEXT) == b.(worker := Busy(key, AtReportEndpoint, obj.(status := obj.status.(mailgunError := Some(EndpointKept))), obj))
    ensures Step(Step(b, NEXT), NEXT) == b.(worker := Busy(key, AtDeleteProbe, obj, obj))
  {
    assert Step(b, NEXT) == b.(worker := Busy(key, AtReportEndpoint, obj.(status := obj.status.(mailgunError := Some(EndpointKept))), obj));
  }

  lemma Deletes(tale: Tale, k: nat, e: State, key: Key, spec: DomainSpec) returns (tale': Tale)
    requires Reaches(tale, k, e) && e.api == Prepared(key, spec, AtCreate).api && e.endpoints == map[]
    ensures |tale'.run| == |tale.run| + 8 && Reaches(tale', k, AtTheProbe(e, key, spec))
  {
    Deleting(e, key, spec);
    var a, b, c, d := Crash, DeleteCR(key), SyncCache(3), Start(key);
    var e1 := Step(e, a);
    var e2 := Step(e1, b);
    var e3 := Step(e2, c);
    var e4 := Step(e3, d);
    Go(tale, k, e, a, e1);
    Go(On(tale, a), k, e1, b, e2);
    Go(On(On(tale, a), b), k, e2, c, e3);
    Go(On(On(On(tale, a), b), c), k, e3, d, e4);
    tale' := Approaches(On(On(On(On(tale, a), b), c), d), k, e4, key, spec);
  }

  lemma Approaches(tale: Tale, k: nat, e: State, key: Key, spec: DomainSpec) returns (tale': Tale)
    requires Reaches(tale, k, e) && e.endpoints == map[]
    requires e.api.objs == map[key := DoomedVersion(spec)] && |e.api.past| == 4 && e.api.seen == 3 && e.api.past[3] == e.api.objs
    requires e.worker == Busy(key, AtGet, BLANK, BLANK)
    ensures |tale'.run| == |tale.run| + 4 && Reaches(tale', k, e.(worker := Busy(key, AtDeleteProbe, DoomedVersion(spec), DoomedVersion(spec))))
  {
    var obj := DoomedVersion(spec);
    Reading(e, key, obj);
    GoTwice(tale, k, e, e.(worker := Busy(key, AtGetEndpoint, obj, obj)), e.(worker := Busy(key, AtDeleteEndpoint(false), obj, obj)));
    var b := e.(worker := Busy(key, AtDeleteEndpoint(false), obj, obj));
    EndpointKeptAway(b, key, obj);
    var c := obj.(status := obj.status.(mailgunError := Some(EndpointKept)));
    GoTwice(On(On(tale, NEXT), NEXT), k, b, e.(worker := Busy(key, AtReportEndpoint, c, obj)),
            b.(worker := Busy(key, AtDeleteProbe, obj, obj)));
    tale' := On(On(On(On(tale, NEXT), NEXT), NEXT), NEXT);
  }

  lemma GoTwice(tale: Tale, k: nat, e: State, e1: State, e2: State)
    requires Reaches(tale, k, e) && Step(e, NEXT) == e1 && Step(e1, NEXT) == e2
    requires e.worker.Busy? && !e.worker.pc.AtCreate? && e1.worker.Busy? && !e1.worker.pc.AtCreate?
    ensures Reaches(On(On(tale, NEXT), NEXT), k, e2)
  {
    Go(tale, k, e, NEXT, e1);
    Go(On(tale, NEXT), k, e1, NEXT, e2);
  }

  lemma DroppingRemoves(e: State, key: Key, obj: DomainCR)
    requires obj.finalizers == {DomainFinalizer} && obj.deleting
    requires e.worker == Dropping(Busy(key, AtDeleteProbe, obj, obj)) && e.api.objs == map[key := obj]
    ensures key !in Step(e, NEXT).api.objs
    ensures Step(e, NEXT).acct == e.acct && Step(e, NEXT).gh.origin == e.gh.origin
  {
    assert obj.finalizers - {DomainFinalizer} == {};
  }

  lemma GoneOrphans(e: State, e': State, key: Key, i: nat)
    requires e'.acct == e.acct && e'.gh.origin == e.gh.origin && key !in e'.api.objs
    requires i < |e.acct.domains| && e.acct.domains[i].createdAt in e.gh.origin
    requires e.gh.origin[e.acct.domains[i].createdAt].key == key
    ensures Orphan(e', i)
  {
  }

  lemma Lying(e: State, key: Key, obj: DomainCR)
    requires e.worker == Busy(key, AtDeleteProbe, obj, obj)
    ensures var e' := Step(e, Work(FailsBefore, "", 0));
            e'.worker == Dropping(e.worker) && e'.acct == e.acct && e'.api == e.api && e'.gh.origin == e.gh.origin
  {
  }

  /** A deletion probe that fails falsely orphans the domain. */
  lemma LyingProbeOrphans(key: Key, spec: DomainSpec) returns (tale: Tale)
    ensures |tale.run| == 17 && BenignBut(tale, 15) && Orphan(End(tale), 0)
  {
    tale := Creates(key, spec, 15);
    tale := Deletes(tale, 15, JustCreated(key, spec), key, spec);
    var e, a := AtTheProbe(JustCreated(key, spec), key, spec), Work(FailsBefore, "", 0);
    var e' := Step(e, a);
    Lying(e, key, DoomedVersion(spec));
    Go(tale, 15, e, a, e');
    tale := LetsGo(On(tale, a), 15, e', key, DoomedVersion(spec), 0);
  }

  // ----- two domains of one name -----

  /** Somebody else's domain of the name comes first, and the operator's second. */
  ghost function Doubled(key: Key, spec: DomainSpec, excused: set<Id>): State {
    var s := Prepared(key, spec, AtCreate);
    var a := Acc.AddDomain(START.acct, spec.domain);
    var c := Acc.NewContainer(a, spec.domain);
    s.(acct := Acc.AddDomain(a, spec.domain), worker := CreatedOnMailgun(s.worker, c, ""),
       gh := s.gh.(origin := map[1 := Id(key, 1)], creates := map[Id(key, 1) := 1], charged := map[1 := DuplicateName],
                   excused := excused),
       log := LogOf(key, c))
  }

  /** About to create, past a probe that was right when it was answered. */
  ghost function Overtaken(key: Key, spec: DomainSpec): State {
    Prepared(key, spec, AtCreate).(acct := Acc.AddDomain(START.acct, spec.domain))
  }

  lemma Overtaking(key: Key, spec: DomainSpec)
    ensures Step(Prepared(key, spec, AtCreate), Mailgun(Acc.Add(spec.domain))) == Overtaken(key, spec)
  {
  }

  lemma Doubling(key: Key, spec: DomainSpec)
    ensures Step(Overtaken(key, spec), NEXT) == Doubled(key, spec, {})
  {
    var s, e := Step(Overtaken(key, spec), NEXT), Doubled(key, spec, {});
    assert s.acct == e.acct;
    assert s.worker == e.worker;
    assert s.gh == e.gh;
  }

  /** Mailgun takes the first of the two. */
  lemma TakingTheOther(e: State, key: Key, obj: DomainCR, c: Acc.Container, d: Acc.Container)
    requires e.worker == Busy(key, AtDeleteProbe, obj, obj) && e.acct.domains == [c, d] && e.acct.failed == []
    requires c.name == d.name == obj.spec.domain
    ensures var e' := Step(Step(e, NEXT), NEXT);
            && e'.worker == Dropping(e.worker) && e'.acct.domains == [d] && e'.api == e.api && e'.gh.origin == e.gh.origin
  {
    var e' := Step(e, NEXT);
    assert e'.worker == e.worker.(pc := AtDeleteDomain) && |e'.acct.domains| == 2 && e'.acct.domains[1] == d;
    assert e'.acct.domains[0].name == obj.spec.domain;
    assert Acc.Find(e'.acct.domains, obj.spec.domain) == 0;
    assert Acc.Without(e'.acct.domains, 0) == [d];
  }

  /** A name added by somebody else between the probe and the creation orphans the domain: the
      deletion takes the other domain away and leaves the operator's. */
  lemma DuplicateOrphans(key: Key, spec: DomainSpec) returns (tale: Tale)
    ensures |tale.run| == 19 && BenignBut(tale, 6) && Orphan(End(tale), 0)
  {
    tale := Prepares(key, spec, 6);
    Probing(key, spec);
    var p, a := Prepared(key, spec, AtCreate), Mailgun(Acc.Add(spec.domain));
    Go(tale, 6, Prepared(key, spec, AtProbe), NEXT, p);
    Overtaking(key, spec);
    Go(On(tale, NEXT), 6, p, a, Overtaken(key, spec));
    Doubling(key, spec);
    Go(On(On(tale, NEXT), a), 6, Overtaken(key, spec), NEXT, Doubled(key, spec, {}));
    tale := Deletes(On(On(On(tale, NEXT), a), NEXT), 6, Doubled(key, spec, {}), key, spec);
    tale := DeletesTheOther(tale, 6, key, spec, {});
  }

  lemma ProbingFalsely(key: Key, spec: DomainSpec)
    ensures var p := Step(Prepared(key, spec, AtProbe), Mailgun(Acc.Add(spec.domain)));
            && p == Prepared(key, spec, AtProbe).(acct := Acc.AddDomain(START.acct, spec.domain))
            && Step(p, Work(FailsBefore, "", 0)) == Misled(key, spec)
  {
    var p := Step(Prepared(key, spec, AtProbe), Mailgun(Acc.Add(spec.domain)));
    assert Acc.Find(p.acct.domains, spec.domain) == 0;
    assert Step(p, Work(FailsBefore, "", 0)).gh == Misled(key, spec).gh;
  }

  /** About to create, past a false probe. */
  ghost function Misled(key: Key, spec: DomainSpec): State {
    var s := Prepared(key, spec, AtCreate);
    s.(acct := Acc.AddDomain(START.acct, spec.domain), gh := s.gh.(excused := {Id(key, 1)}))
  }

  lemma CreatingBeside(key: Key, spec: DomainSpec)
    ensures Step(Misled(key, spec), NEXT) == Doubled(key, spec, {Id(key, 1)})
  {
    var s, e := Step(Misled(key, spec), NEXT), Doubled(key, spec, {Id(key, 1)});
    assert s.acct == e.acct;
    assert s.worker == e.worker;
    assert s.gh == e.gh;
  }

  /** So does a creation probe that fails falsely over a listed name. */
  lemma FalseProbeOrphans(key: Key, spec: DomainSpec) returns (tale: Tale)
    ensures |tale.run| == 19 && BenignBut(tale, 6) && Orphan(End(tale), 0)
  {
    tale := Prepares(key, spec, 6);
    ProbingFalsely(key, spec);
    CreatingBeside(key, spec);
    var s, a, b := Prepared(key, spec, AtProbe), Mailgun(Acc.Add(spec.domain)), Work(FailsBefore, "", 0);
    var p := Step(s, a);
    var q := Step(p, b);
    Go(tale, 6, s, a, p);
    Go(On(tale, a), 6, p, b, q);
    Go(On(On(tale, a), b), 6, q, NEXT, Doubled(key, spec, {Id(key, 1)}));
    tale := Deletes(On(On(On(tale, a), b), NEXT), 6, Doubled(key, spec, {Id(key, 1)}), key, spec);
    tale := DeletesTheOther(tale, 6, key, spec, {Id(key, 1)});
  }

  lemma DeletesTheOther(tale: Tale, k: nat, key: Key, spec: DomainSpec, excused: set<Id>) returns (tale': Tale)
    requires Reaches(tale, k, AtTheProbe(Doubled(key, spec, excused), key, spec))
    ensures |tale'.run| == |tale.run| + 3 && BenignBut(tale', k) && Orphan(End(tale'), 0)
  {
    var e := AtTheProbe(Doubled(key, spec, excused), key, spec);
    var e1 := Step(e, NEXT);
    var e2 := Step(e1, NEXT);
    TakingTheOther(e, key, DoomedVersion(spec), e.acct.domains[0], e.acct.domains[1]);
    GoTwice(tale, k, e, e1, e2);
    tale' := LetsGo(On(On(tale, NEXT), NEXT), k, e2, key, DoomedVersion(spec), 0);
  }

  /** The finalizer goes, and with it the resource. */
  lemma LetsGo(tale: Tale, k: nat, e: State, key: Key, obj: DomainCR, i: nat) returns (tale': Tale)
    requires Reaches(tale, k, e) && obj.finalizers == {DomainFinalizer} && obj.deleting
    requires e.worker == Dropping(Busy(key, AtDeleteProbe, obj, obj)) && e.api.objs == map[key := obj]
    requires i < |e.acct.domains| && e.acct.domains[i].createdAt in e.gh.origin
    requires e.gh.origin[e.acct.domains[i].createdAt].key == key
    ensures |tale'.run| == |tale.run| + 1 && BenignBut(tale', k) && Orphan(End(tale'), i)
  {
    DroppingRemoves(e, key, obj);
    GoneOrphans(e, Step(e, NEXT), key, i);
    Go(tale, k, e, NEXT, Step(e, NEXT));
    tale' := On(tale, NEXT);
  }

  // ----- the operator's own domain taken for somebody else's -----

  /** A crash after the records are stored, and before the state is, makes the next reconcile
      report the operator's own domain as not managed: the run has none of the events that orphan a
      domain, and the domain was created for this very resource.  Module DomainOwn says exactly
      when this happens, and that it stays. */
  lemma OwnDomainReportedForeign(key: Key, spec: DomainSpec) returns (tale: Tale)
    requires !IsSet(spec.exportCredentials)
    ensures Told(tale) && BenignRun(tale.trace, tale.run)
    ensures var e := End(tale);
            && key in e.api.objs && e.api.objs[key].status.notManaged && e.api.objs[key].status.state == Failed
            && |e.acct.domains| == 1 && e.acct.domains[0].createdAt in e.gh.origin
            && e.gh.origin[e.acct.domains[0].createdAt] == Id(key, e.api.objs[key].uid)
  {
    tale := Creates(key, spec, 14);
    var e := JustCreated(key, spec);
    var a, b, c, d := NEXT, Crash, SyncCache(3), Start(key);
    var e1 := Step(e, a);
    var e2 := Step(e1, b);
    var e3 := Step(e2, c);
    var e4 := Step(e3, d);
    var obj := RecordedVersion(e, spec);
    StoringRecords(key, spec);
    Go(tale, 14, e, a, e1);
    Go(On(tale, a), 14, e1, b, e2);
    Go(On(On(tale, a), b), 14, e2, c, e3);
    Go(On(On(On(tale, a), b), c), 14, e3, d, e4);
    tale := Misjudges(On(On(On(On(tale, a), b), c), d), e4, key, obj);
  }

  ghost function RecordedVersion(e: State, spec: DomainSpec): DomainCR
    requires e.worker.Busy?
  {
    e.worker.mem.(rv := 3)
  }

  lemma RecordsStored(key: Key, spec: DomainSpec)
    requires !IsSet(spec.exportCredentials)
    ensures var e := JustCreated(key, spec);
            var s, obj := Step(e, NEXT), RecordedVersion(e, spec);
            && s.acct == e.acct && s.gh == e.gh
            && s.api.objs == map[key := obj] && |s.api.past| == 4 && s.api.past[3] == s.api.objs && s.api.seen == 1
  {
    var e := JustCreated(key, spec);
    assert e.worker.pc == AtStoreRecords && e.worker.mem.status != NO_STATUS;
  }

  lemma Restarting(s: State, key: Key, obj: DomainCR)
    requires s.api.objs == map[key := obj] && |s.api.past| == 4 && s.api.past[3] == s.api.objs && s.api.seen == 1
    ensures var e' := Step(Step(Step(s, Crash), SyncCache(3)), Start(key));
            && e'.worker == Busy(key, AtGet, BLANK, BLANK) && e'.acct == s.acct && e'.gh == s.gh
            && e'.api.objs == map[key := obj] && Get(e'.api, key) == Found(obj)
  {
  }

  lemma StoringRecords(key: Key, spec: DomainSpec)
    requires !IsSet(spec.exportCredentials)
    ensures var e := JustCreated(key, spec);
            var e' := Step(Step(Step(Step(e, NEXT), Crash), SyncCache(3)), Start(key));
            var obj := RecordedVersion(e, spec);
            && e'.worker == Busy(key, AtGet, BLANK, BLANK) && e'.acct == e.acct && e'.gh == e.gh
            && e'.api.objs == map[key := obj] && Get(e'.api, key) == Found(obj)
            && obj.status.state == Unset && !obj.deleting && DomainFinalizer in obj.finalizers && obj.uid == 1
            && obj.spec.domain == spec.domain && !obj.status.notManaged
  {
    RecordsStored(key, spec);
    Restarting(Step(JustCreated(key, spec), NEXT), key, RecordedVersion(JustCreated(key, spec), spec));
  }

  lemma Misjudges(tale: Tale, e: State, key: Key, obj: DomainCR) returns (tale': Tale)
    requires Reaches(tale, 14, e) && |tale.run| == 11 && e.worker == Busy(key, AtGet, BLANK, BLANK)
    requires e.api.objs == map[key := obj] && Get(e.api, key) == Found(obj)
    requires obj.status.state == Unset && !obj.deleting && DomainFinalizer in obj.finalizers && !obj.status.notManaged
    requires |e.acct.domains| == 1 && e.acct.domains[0].name == obj.spec.domain
    ensures Told(tale') && BenignRun(tale'.trace, tale'.run)
    ensures var e' := End(tale');
            && key in e'.api.objs && e'.api.objs[key].status.notManaged && e'.api.objs[key].status.state == Failed
            && e'.api.objs[key].uid == obj.uid && e'.gh.origin == e.gh.origin
            && |e'.acct.domains| == 1 && e'.acct.domains[0].createdAt == e.acct.domains[0].createdAt
  {
    var e1 := e.(worker := Busy(key, AtProbe, obj, obj));
    Taking(e, key, obj);
    var e2 := Step(e1, NEXT);
    GoTwice(tale, 14, e, e1, e2);
    Judging(e1, key, obj);
    Go(On(On(tale, NEXT), NEXT), 14, e2, NEXT, Step(e2, NEXT));
    tale' := On(On(On(tale, NEXT), NEXT), NEXT);
  }

  lemma Taking(e: State, key: Key, obj: DomainCR)
    requires e.worker == Busy(key, AtGet, BLANK, BLANK) && Get(e.api, key) == Found(obj)
    requires obj.status.state == Unset && !obj.deleting && DomainFinalizer in obj.finalizers
    ensures Step(e, NEXT) == e.(worker := Busy(key, AtProbe, obj, obj))
  {
  }

  lemma Judging(e: State, key: Key, obj: DomainCR)
    requires e.worker == Busy(key, AtProbe, obj, obj) && e.api.objs == map[key := obj] && !obj.status.notManaged
    requires |e.acct.domains| == 1 && e.acct.domains[0].name == obj.spec.domain
    ensures var s := Step(e, NEXT);
            var s' := Step(s, NEXT);
            && s.worker.Busy? && s.worker.pc == AtSettle
            && key in s'.api.objs && s'.api.objs[key].status.notManaged && s'.api.objs[key].status.state == Failed
            && s'.api.objs[key].uid == obj.uid && s'.gh.origin == e.gh.origin
            && |s'.acct.domains| == 1 && s'.acct.domains[0].createdAt == e.acct.domains[0].createdAt
  {
    assert Acc.Find(e.acct.domains, obj.spec.domain) == 0;
  }
}
