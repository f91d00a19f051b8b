/** Runs that lose a route: the three steps between a creation on Mailgun and the finalizer each
    leave a gap, and none of the steps of these runs fails. */
module RouteWitness {
  import opened Basics
  import opened Kube
  import opened Runs
  import opened RouteProtocol
  import opened RouteOrphans
  import opened RouteLife
  import Acc = Account

  const START := State(Empty(), Acc.Account([], [], [], [], map[], map[], 0), Idle(Quiet), NO_HISTORY)

  /** A run and its states. */
  datatype Tale = Tale(trace: seq<State>, run: seq<Action>)

  ghost function End(tale: Tale): State {
    if |tale.trace| > 0 then tale.trace[|tale.trace| - 1] else START
  }

  ghost function On(tale: Tale, a: Action): Tale {
    Tale(tale.trace + [Step(End(tale), a)], tale.run + [a])
  }

  const BEGIN := Tale([START], [])

  /** A run of fresh ids from `START` in which every call is answered. */
  ghost predicate Smooth(tale: Tale) {
    && IsRun(tale.trace, tale.run) && tale.trace[0] == START && FreshRun(tale.trace, tale.run)
    && forall i | 0 <= i < |tale.run| && tale.run[i].Work? :: tale.run[i].fate == Fine
  }

  ghost predicate Reaches(tale: Tale, e: State) {
    Smooth(tale) && End(tale) == e
  }

  lemma Go(tale: Tale, e: State, a: Action, e': State)
    requires Reaches(tale, e) && Step(e, a) == e' && Fresh(e, a) && (a.Work? ==> a.fate == Fine)
    ensures Reaches(On(tale, a), e')
  {
    TraceGrows(Step, tale.trace, tale.run, a);
  }

  ghost function Bare(spec: RouteSpec): RouteCR {
    Obj(1, 1, false, {}, spec, NO_STATUS)
  }

  /** The resource read, and the worker about to make call `pc`. */
  ghost function Opened(key: Key, spec: RouteSpec, pc: Pc, mem: RouteCR): State {
    var obj := Bare(spec);
    START.(api := Api(map[key := obj], [map[], map[key := obj]], 1, 1), worker := Busy(key, pc, mem, if pc.AtGet? then BLANK else obj))
  }

  ghost function WithId(spec: RouteSpec): RouteCR {
    Bare(spec).(status := RouteStatus(Some(RouteName("a")), None))
  }

  /** The route is on Mailgun, its id in the worker's hands. */
  ghost function InHand(key: Key, spec: RouteSpec): State {
    var name := RouteName("a");
    var s := Opened(key, spec, AtStoreId, WithId(spec));
    s.(acct := s.acct.(routes := map[name := Request(spec).(id := name)]),
       gh := History(map[name := Id(key, 1)], if DomainOf(spec) != "" then map[name := DomainOf(spec)] else map[], map[], false))
  }

  /** The id is stored, the finalizer not yet on. */
  ghost function IdStored(key: Key, spec: RouteSpec): State {
    var s, obj := InHand(key, spec), WithId(spec).(rv := 2);
    s.(api := Api(map[key := obj], [map[], map[key := Bare(spec)], map[key := obj]], 1, 2),
       worker := Busy(key, AtPin, obj.(finalizers := {RouteFinalizer}), obj))
  }

  lemma Opening(key: Key, spec: RouteSpec)
    ensures Step(Step(Step(START, CreateCR(key, spec, {})), SyncCache(1)), Start(key)) == Opened(key, spec, AtGet, BLANK)
  {
    var others: set<Finalizer> := {};
    assert others - {RouteFinalizer} == {};
  }

  lemma Reading(key: Key, spec: RouteSpec)
    requires DomainOf(spec) == ""
    ensures Step(Opened(key, spec, AtGet, BLANK), NEXT) == Opened(key, spec, AtCreate, Bare(spec))
  {
  }

  lemma Creating(key: Key, spec: RouteSpec)
    requires spec.description != "fail"
    ensures Step(Opened(key, spec, AtCreate, Bare(spec)), Work(Fine, "a")) == InHand(key, spec)
  {
    var s, e := Step(Opened(key, spec, AtCreate, Bare(spec)), Work(Fine, "a")), InHand(key, spec);
    assert s.acct.routes == e.acct.routes;
    assert s.gh == e.gh;
  }

  lemma Storing(key: Key, spec: RouteSpec)
    ensures Step(InHand(key, spec), NEXT) == IdStored(key, spec)
  {
    var s, e := Step(InHand(key, spec), NEXT), IdStored(key, spec);
    assert Bare(spec).finalizers + {RouteFinalizer} == {RouteFinalizer};
    assert s.api.objs == e.api.objs;
    assert s.api.past == e.api.past;
    assert s.gh == e.gh;
  }

  lemma Opens(key: Key, spec: RouteSpec) returns (tale: Tale)
    requires DomainOf(spec) == "" && spec.description != "fail"
    ensures |tale.run| == 5 && Reaches(tale, InHand(key, spec))
  {
    var a, b, c, d := CreateCR(key, spec, {}), SyncCache(1), Start(key), Work(Fine, "a");
    var e := Step(START, a);
    Opening(key, spec);
    Go(BEGIN, START, a, e);
    Go(On(BEGIN, a), e, b, Step(e, b));
    Go(On(On(BEGIN, a), b), Step(e, b), c, Opened(key, spec, AtGet, BLANK));
    Reading(key, spec);
    Go(On(On(On(BEGIN, a), b), c), Opened(key, spec, AtGet, BLANK), NEXT, Opened(key, spec, AtCreate, Bare(spec)));
    Creating(key, spec);
    Go(On(On(On(On(BEGIN, a), b), c), NEXT), Opened(key, spec, AtCreate, Bare(spec)), d, InHand(key, spec));
    tale := On(On(On(On(On(BEGIN, a), b), c), NEXT), d);
  }

  /** A crash between the creation and the status write loses the route. */
  lemma CrashStrays(key: Key, spec: RouteSpec) returns (tale: Tale)
    requires DomainOf(spec) == "" && spec.description != "fail"
    ensures Smooth(tale) && Stray(End(tale), RouteName("a"))
    ensures End(tale).gh.charged == map[RouteName("a") := LostStatusWrite]
  {
    tale := Opens(key, spec);
    Go(tale, InHand(key, spec), Crash, Step(InHand(key, spec), Crash));
    tale := On(tale, Crash);
  }

  /** A user's delete between the status write and the write that adds the finalizer does too. */
  lemma EarlyDeleteStrays(key: Key, spec: RouteSpec) returns (tale: Tale)
    requires DomainOf(spec) == "" && spec.description != "fail"
    ensures Smooth(tale) && Stray(End(tale), RouteName("a"))
    ensures End(tale).gh.charged == map[RouteName("a") := RemovedUnheld]
  {
    tale := Opens(key, spec);
    Storing(key, spec);
    var e, a := IdStored(key, spec), DeleteCR(key);
    Go(tale, InHand(key, spec), NEXT, e);
    Go(On(tale, NEXT), e, a, Step(e, a));
    tale := On(On(tale, NEXT), a);
  }
}
