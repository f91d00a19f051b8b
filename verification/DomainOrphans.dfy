/** No orphaned domains: along every run, each domain the operator created and Mailgun still
    lists is held by a stored custom resource that names it and carries the finalizer, or it is
    charged to one logged event; and runs free of those events charge nothing. */
module DomainOrphans {
  import opened Basics
  import opened Kube
  import opened Runs
  import opened DomainProtocol
  import opened DomainInvariants
  import Acc = Account

  type Domains = seq<Acc.Container>

  // ----- the statement -----

  ghost predicate Uncharged(gh: History, c: Acc.Container) {
    c.createdAt in gh.origin && c.createdAt !in gh.charged
  }

  /** Every uncharged domain of the operator's is held. */
  ghost predicate AllHeld(list: Domains, gh: History, api: DomainApi) {
    forall i | 0 <= i < |list| && Uncharged(gh, list[i]) :: HeldFor(api, gh.origin[list[i].createdAt], list[i].name)
  }

  /** An uncharged domain of the operator's is the one Mailgun finds under its name. */
  ghost predicate FirstOfName(list: Domains, gh: History) {
    forall i, j | 0 <= j < i < |list| && Uncharged(gh, list[i]) :: list[j].name != list[i].name
  }

  ghost predicate Bounded(gh: History, clock: nat) {
    (forall t | t in gh.origin :: t < clock) && (forall t | t in gh.charged :: t in gh.origin)
  }

  /** No uncharged domain called `name` was created for `id`. */
  ghost predicate Released(list: Domains, gh: History, id: Id, name: string) {
    forall i | 0 <= i < |list| && Uncharged(gh, list[i]) :: gh.origin[list[i].createdAt] == id ==> list[i].name != name
  }

  ghost predicate NoOrphans(s: State) {
    && AllHeld(s.acct.domains, s.gh, s.api) && FirstOfName(s.acct.domains, s.gh) && Bounded(s.gh, s.acct.clock)
    && (s.worker.Busy? && s.worker.pc.AtDropFinalizer? && !s.gh.lied ==>
          Released(s.acct.domains, s.gh, Id(s.worker.key, s.worker.base.uid), s.worker.base.spec.domain))
  }

  // ----- changes of the list -----

  /** The list loses nothing but entries, and keeps their order. */
  ghost predicate Thins(list: Domains, list': Domains) {
    Acc.SameEntries(list, list') || exists k | 0 <= k < |list| :: list' == Acc.Without(list, k)
  }

  lemma ThinsKeeps(list: Domains, list': Domains, gh: History, api: DomainApi)
    requires AllHeld(list, gh, api) && FirstOfName(list, gh) && Thins(list, list')
    ensures AllHeld(list', gh, api) && FirstOfName(list', gh)
    ensures forall id, name :: Released(list, gh, id, name) ==> Released(list', gh, id, name)
  {
    if !Acc.SameEntries(list, list') {
      var k :| 0 <= k < |list| && list' == Acc.Without(list, k);
      forall i | 0 <= i < |list'|
        ensures list'[i] == list[if i < k then i else i + 1]
      {
        Acc.WithoutAt(list, k, i);
      }
    }
  }

  /** Taking the first entry called `name` leaves no uncharged one behind. */
  lemma TakingReleases(list: Domains, name: string, gh: History, id: Id)
    requires FirstOfName(list, gh) && Acc.Find(list, name) < |list|
    ensures Released(Acc.Without(list, Acc.Find(list, name)), gh, id, name)
  {
    var k := Acc.Find(list, name);
    forall i | 0 <= i < |list| - 1
      ensures Acc.Without(list, k)[i] == list[if i < k then i else i + 1]
    {
      Acc.WithoutAt(list, k, i);
    }
  }

  lemma AppendKeeps(list: Domains, c: Acc.Container, gh: History, api: DomainApi)
    requires AllHeld(list, gh, api) && FirstOfName(list, gh) && c.createdAt !in gh.origin
    ensures AllHeld(list + [c], gh, api) && FirstOfName(list + [c], gh)
    ensures forall id, name :: Released(list, gh, id, name) ==> Released(list + [c], gh, id, name)
  {
  }

  /** The requests of other clients. */
  lemma ServeThins(a: Acc.Account, r: Acc.Request)
    ensures Thins(a.domains, Acc.Serve(a, r).domains)
            || (Acc.Serve(a, r).domains == a.domains + [Acc.NewContainer(a, r.name)] && Acc.Serve(a, r).clock == a.clock + 1)
    ensures Acc.Serve(a, r).clock >= a.clock
  {
  }

  // ----- changes of the server -----

  /** Nobody loses a hold, and nobody's domain is renamed. */
  ghost predicate KeepsHolds(api: DomainApi, api': DomainApi) {
    forall k | k in api.objs && DomainFinalizer in api.objs[k].finalizers ::
      && k in api'.objs && api'.objs[k].uid == api.objs[k].uid && DomainFinalizer in api'.objs[k].finalizers
      && api'.objs[k].spec.domain == api.objs[k].spec.domain
  }

  lemma HoldsKeep(list: Domains, gh: History, api: DomainApi, api': DomainApi)
    requires AllHeld(list, gh, api) && KeepsHolds(api, api')
    ensures AllHeld(list, gh, api')
  {
    forall i | 0 <= i < |list| && Uncharged(gh, list[i])
      ensures HeldFor(api', gh.origin[list[i].createdAt], list[i].name)
    {
      assert HeldFor(api, gh.origin[list[i].createdAt], list[i].name);
    }
  }

  /** A hold given up, or a domain renamed, with everything it held charged. */
  ghost predicate GivesUp(api: DomainApi, api': DomainApi, id: Id) {
    forall k | k in api.objs && DomainFinalizer in api.objs[k].finalizers && Id(k, api.objs[k].uid) != id ::
      && k in api'.objs && api'.objs[k].uid == api.objs[k].uid && DomainFinalizer in api'.objs[k].finalizers
      && api'.objs[k].spec.domain == api.objs[k].spec.domain
  }

  lemma ChargeKeeps(list: Domains, gh: History, api: DomainApi, api': DomainApi, id: Id, cause: Cause)
    requires AllHeld(list, gh, api) && FirstOfName(list, gh) && GivesUp(api, api', id)
    ensures var gh' := gh.(charged := ChargeAll(gh, list, id, cause)); AllHeld(list, gh', api') && FirstOfName(list, gh')
  {
    var gh' := gh.(charged := ChargeAll(gh, list, id, cause));
    forall i | 0 <= i < |list| && Uncharged(gh', list[i])
      ensures Uncharged(gh, list[i]) && HeldFor(api', gh.origin[list[i].createdAt], list[i].name)
    {
      assert Stamped(list, list[i].createdAt);
      assert Uncharged(gh, list[i]);
      assert HeldFor(api, gh.origin[list[i].createdAt], list[i].name);
    }
  }

  // ----- the worker's calls -----

  /** What a call can do to the list. */
  lemma CallThins(s: State, fate: Fate, password: string)
    requires s.worker.Busy? && !s.worker.pc.AtCreate?
    ensures var s' := Perform(s, OpOf(s.worker, password), fate).state;
            Thins(s.acct.domains, s'.acct.domains) && s'.acct.clock == s.acct.clock
  {
    CallTouches(s, fate, password);
  }

  lemma WriteKeepsHolds(s: State, fate: Fate, password: string)
    requires Ground(s) && s.worker.Busy? && !s.worker.pc.AtDropFinalizer?
    ensures KeepsHolds(s.api, Perform(s, OpOf(s.worker, password), fate).state.api)
  {
    var w := s.worker;
    CallTouches(s, fate, password);
    if IsUpdate(w.pc) {
      UpdateAnswer(s.api, w.key, w.mem, w.base, fate);
    } else if IsStatus(w.pc) {
      MemStatusOk(w);
      StatusAnswer(s.api, w.key, w.mem, w.base, fate);
    }
  }

  /** A new domain is held, or charged at once. */
  lemma CreationCharged(list: Domains, c: Acc.Container, gh: History, gh': History, api: DomainApi, id: Id, clock: nat)
    requires AllHeld(list, gh, api) && FirstOfName(list, gh) && Bounded(gh, clock)
    requires c.createdAt == clock && forall i | 0 <= i < |list| :: list[i].createdAt < clock
    requires gh'.origin == gh.origin[clock := id]
    requires forall t | t != clock :: t in gh'.charged <==> t in gh.charged
    requires clock !in gh'.charged ==> Acc.Find(list, c.name) == |list| && HeldFor(api, id, c.name)
    ensures AllHeld(list + [c], gh', api) && FirstOfName(list + [c], gh') && Bounded(gh', clock + 1)
  {
    forall i | 0 <= i < |list| && Uncharged(gh', list[i])
      ensures Uncharged(gh, list[i]) && gh'.origin[list[i].createdAt] == gh.origin[list[i].createdAt]
    {
      assert list[i].createdAt < clock;
    }
    forall t | t in gh'.charged
      ensures t in gh'.origin
    {
      assert t != clock ==> t in gh.charged;
    }
  }

  /** What a creation leaves, and what the history says of it. */
  lemma CreationNoted(s: State, fate: Fate, password: string)
    requires s.worker.Busy? && s.worker.pc.AtCreate?
    ensures var name := s.worker.mem.spec.domain;
            var d := Perform(s, OpOf(s.worker, password), fate);
            var gh' := Note(s, d.state, d.reply);
            && d.state.api == s.api
            && (if d.state.acct.domains == s.acct.domains then
                  d.state.acct.clock == s.acct.clock && gh'.origin == s.gh.origin && gh'.charged == s.gh.charged
                else
                  && d.state.acct.domains == s.acct.domains + [Acc.NewContainer(s.acct, name)]
                  && d.state.acct.clock == s.acct.clock + 1
                  && gh'.origin == s.gh.origin[s.acct.clock := Me(s.worker)]
                  && (forall t | t != s.acct.clock :: t in gh'.charged <==> t in s.gh.charged)
                  && (s.acct.clock !in gh'.charged ==> !Acc.Lists(s.acct, name) && HeldFor(s.api, Me(s.worker), name)))
  {
  }

  lemma CreateKeeps(s: State, fate: Fate, password: string, now: nat)
    requires NoOrphans(s) && Acc.Sane(s.acct) && s.worker.Busy? && s.worker.pc.AtCreate?
    ensures NoOrphans(WorkStep(s, fate, password, now))
  {
    var d := Perform(s, OpOf(s.worker, password), fate);
    CreationNoted(s, fate, password);
    OnlyDeletionDrops(s, fate, password, now);
    if d.state.acct.domains != s.acct.domains {
      CreationCharged(s.acct.domains, Acc.NewContainer(s.acct, s.worker.mem.spec.domain), s.gh, Note(s, d.state, d.reply),
                      s.api, Me(s.worker), s.acct.clock);
    }
  }

  lemma DropGivesUp(s: State, fate: Fate, password: string)
    requires Ground(s) && s.worker.Busy? && s.worker.pc.AtDropFinalizer?
    ensures var d := Perform(s, OpOf(s.worker, password), fate);
            && d.state.acct == s.acct
            && (if Landed(s, d.state) then GivesUp(s.api, d.state.api, Me(s.worker)) else d.state.api == s.api)
  {
    DropShape(s.api, s.worker.key, s.worker.base, fate, DomainFinalizer);
  }

  lemma DropNoted(s: State, fate: Fate, password: string, now: nat)
    requires s.worker.Busy? && s.worker.pc.AtDropFinalizer?
    ensures var d := Perform(s, OpOf(s.worker, password), fate);
            var gh' := Note(s, d.state, d.reply);
            && gh'.origin == s.gh.origin && WorkStep(s, fate, password, now).worker.Idle?
            && gh'.charged == if Landed(s, d.state) then ChargeAll(s.gh, s.acct.domains, Me(s.worker), DroppedAfterLie) else s.gh.charged
  {
  }

  lemma DropStep(s: State, fate: Fate, password: string, now: nat)
    requires NoOrphans(s) && Ground(s) && s.worker.Busy? && s.worker.pc.AtDropFinalizer?
    ensures NoOrphans(WorkStep(s, fate, password, now))
  {
    var d := Perform(s, OpOf(s.worker, password), fate);
    DropGivesUp(s, fate, password);
    DropNoted(s, fate, password, now);
    if Landed(s, d.state) {
      ChargeKeeps(s.acct.domains, s.gh, s.api, d.state.api, Me(s.worker), DroppedAfterLie);
    }
  }

  /** The two ways to the finalizer: nothing was listed, or the first entry was taken. */
  lemma ProbeReleases(s: State, fate: Fate, password: string, now: nat)
    requires Ground(s) && s.worker.Busy? && s.worker.pc.AtDeleteProbe?
    ensures var s' := WorkStep(s, fate, password, now);
            s'.worker.Busy? && s'.worker.pc.AtDropFinalizer? && !s'.gh.lied ==>
              Released(s'.acct.domains, s'.gh, Id(s'.worker.key, s'.worker.base.uid), s'.worker.base.spec.domain)
  {
    var s' := WorkStep(s, fate, password, now);
    if s'.worker.Busy? && s'.worker.pc.AtDropFinalizer? && !s'.gh.lied {
      assert !Acc.Lists(s.acct, s.worker.base.spec.domain);
    }
  }

  lemma TakeReleases(s: State, fate: Fate, password: string, now: nat)
    requires FirstOfName(s.acct.domains, s.gh) && Ground(s) && s.worker.Busy? && s.worker.pc.AtDeleteDomain?
    ensures var s' := WorkStep(s, fate, password, now);
            s'.worker.Busy? && s'.worker.pc.AtDropFinalizer? ==>
              Released(s'.acct.domains, s'.gh, Id(s'.worker.key, s'.worker.base.uid), s'.worker.base.spec.domain)
  {
    var w, s' := s.worker, WorkStep(s, fate, password, now);
    if s'.worker.Busy? && s'.worker.pc.AtDropFinalizer? {
      TakingReleases(s.acct.domains, w.base.spec.domain, s.gh, Me(w));
    }
  }

  lemma OnlyDeletionDrops(s: State, fate: Fate, password: string, now: nat)
    requires s.worker.Busy? && !(s.worker.pc.AtDeleteProbe? || s.worker.pc.AtDeleteDomain?)
    ensures var w' := WorkStep(s, fate, password, now).worker; w'.Busy? ==> !w'.pc.AtDropFinalizer?
  {
  }

  lemma CallStep(s: State, fate: Fate, password: string, now: nat)
    requires NoOrphans(s) && Ground(s) && s.worker.Busy? && !s.worker.pc.AtCreate? && !s.worker.pc.AtDropFinalizer?
    ensures NoOrphans(WorkStep(s, fate, password, now))
  {
    var d := Perform(s, OpOf(s.worker, password), fate);
    CallThins(s, fate, password);
    WriteKeepsHolds(s, fate, password);
    var gh' := Note(s, d.state, d.reply);
    ThinsKeeps(s.acct.domains, d.state.acct.domains, s.gh, s.api);
    HoldsKeep(d.state.acct.domains, s.gh, s.api, d.state.api);
    assert AllHeld(d.state.acct.domains, gh', d.state.api);
    if s.worker.pc.AtDeleteProbe? {
      ProbeReleases(s, fate, password, now);
    } else if s.worker.pc.AtDeleteDomain? {
      TakeReleases(s, fate, password, now);
    } else {
      OnlyDeletionDrops(s, fate, password, now);
    }
  }

  // ----- everybody else's actions -----

  lemma ServerActionKeepsHolds(s: State, a: Action)
    requires Consistent(s.api) && (a.CreateCR? || a.DeleteCR? || a.SetFinalizers?)
    ensures KeepsHolds(s.api, Step(s, a).api)
  {
  }

  lemma EditGivesUp(api: DomainApi, key: Key, spec: DomainSpec)
    ensures key in api.objs ==> GivesUp(api, UserEdit(api, key, spec), Id(key, api.objs[key].uid))
    ensures (key in api.objs ==> spec.domain == api.objs[key].spec.domain) ==> KeepsHolds(api, UserEdit(api, key, spec))
  {
  }

  lemma EditStep(s: State, key: Key, spec: DomainSpec)
    requires NoOrphans(s)
    ensures NoOrphans(Step(s, EditCR(key, spec)))
  {
    var s' := Step(s, EditCR(key, spec));
    EditGivesUp(s.api, key, spec);
    if Renames(s.api, key, spec) {
      var id := Id(key, s.api.objs[key].uid);
      ChargeKeeps(s.acct.domains, s.gh, s.api, s'.api, id, DomainEdited);
    } else {
      HoldsKeep(s.acct.domains, s.gh, s.api, s'.api);
    }
  }

  lemma ServeKeepsHeld(a: Acc.Account, r: Acc.Request, gh: History, api: DomainApi)
    requires AllHeld(a.domains, gh, api) && FirstOfName(a.domains, gh) && Bounded(gh, a.clock)
    ensures var a' := Acc.Serve(a, r);
            && AllHeld(a'.domains, gh, api) && FirstOfName(a'.domains, gh) && Bounded(gh, a'.clock)
            && forall id, name :: Released(a.domains, gh, id, name) ==> Released(a'.domains, gh, id, name)
  {
    ServeThins(a, r);
    if Thins(a.domains, Acc.Serve(a, r).domains) {
      ThinsKeeps(a.domains, Acc.Serve(a, r).domains, gh, api);
    } else {
      AppendKeeps(a.domains, Acc.NewContainer(a, r.name), gh, api);
    }
  }

  /** What a request of another client leaves alone. */
  lemma MailgunSpares(s: State, r: Acc.Request)
    ensures var s' := Step(s, Mailgun(r));
            && s' == s.(acct := Acc.Serve(s.acct, r), gh := s.gh.(excused := s'.gh.excused))
            && forall id | id in s.gh.excused :: id in s'.gh.excused
  {
  }

  /** The excuses of a history have no part in who holds what. */
  lemma ExcusesAside(list: Domains, gh: History, excused: set<Id>, api: DomainApi)
    requires AllHeld(list, gh, api) && FirstOfName(list, gh)
    ensures var gh' := gh.(excused := excused);
            && AllHeld(list, gh', api) && FirstOfName(list, gh')
            && forall id, name :: Released(list, gh, id, name) ==> Released(list, gh', id, name)
  {
    var gh' := gh.(excused := excused);
    forall i | 0 <= i < |list| && Uncharged(gh', list[i])
      ensures HeldFor(api, gh'.origin[list[i].createdAt], list[i].name)
    {
      assert Uncharged(gh, list[i]);
    }
    forall i | 0 <= i < |list|
      ensures Uncharged(gh', list[i]) <==> Uncharged(gh, list[i])
    {
    }
  }

  lemma MailgunStep(s: State, r: Acc.Request)
    requires NoOrphans(s) && Ground(s)
    ensures NoOrphans(Step(s, Mailgun(r)))
  {
    ServeKeepsHeld(s.acct, r, s.gh, s.api);
    MailgunSpares(s, r);
    ExcusesAside(Acc.Serve(s.acct, r).domains, s.gh, Step(s, Mailgun(r)).gh.excused, s.api);
  }

  lemma WorkKeepsNoOrphans(s: State, fate: Fate, password: string, now: nat)
    requires NoOrphans(s) && Ground(s)
    ensures NoOrphans(WorkStep(s, fate, password, now))
  {
    if s.worker.Busy? {
      if s.worker.pc.AtCreate? {
        CreateKeeps(s, fate, password, now);
      } else if s.worker.pc.AtDropFinalizer? {
        DropStep(s, fate, password, now);
      } else {
        CallStep(s, fate, password, now);
      }
    }
  }

  lemma ServerActionStep(s: State, a: Action)
    requires NoOrphans(s) && Consistent(s.api) && (a.CreateCR? || a.DeleteCR? || a.SetFinalizers?)
    ensures NoOrphans(Step(s, a))
  {
    ServerActionKeepsHolds(s, a);
    HoldsKeep(s.acct.domains, s.gh, s.api, Step(s, a).api);
  }

  lemma SyncStep(s: State, to: nat)
    requires NoOrphans(s)
    ensures NoOrphans(Step(s, SyncCache(to)))
  {
    HoldsKeep(s.acct.domains, s.gh, s.api, Step(s, SyncCache(to)).api);
  }

  lemma StepKeepsNoOrphans(s: State, a: Action)
    requires NoOrphans(s) && Ground(s)
    ensures NoOrphans(Step(s, a))
  {
    match a {
      case Work(fate, password, now) => WorkKeepsNoOrphans(s, fate, password, now);
      case EditCR(key, spec) => EditStep(s, key, spec);
      case Mailgun(r) => MailgunStep(s, r);
      case SyncCache(to) => SyncStep(s, to);
      case CreateCR(_, _, _) => ServerActionStep(s, a);
      case DeleteCR(_) => ServerActionStep(s, a);
      case SetFinalizers(_, _) => ServerActionStep(s, a);
      case _ =>
    }
  }

  /** In every state of every run: crashes, lost writes and answers, conflicts, a lagging cache,
      user deletes, and other clients of Mailgun included. */
  lemma {:induction false} RunsLeaveNoOrphans(trace: seq<State>, run: seq<Action>, i: nat)
    requires IsRun(trace, run) && i <= |run|
    ensures NoOrphans(trace[i])
  {
    if i > 0 {
      Advance(Step, trace, run, i - 1);
      RunsLeaveNoOrphans(trace, run, i - 1);
      RunsKeepGround(trace, run, i - 1);
      StepKeepsNoOrphans(trace[i - 1], run[i - 1]);
    }
  }
}
