/** What a Domain resource can cause at most: one creation on Mailgun, one deletion round more
    than there were failures, and a bounded number of calls in each reconcile. */
module DomainOnce {
  import opened Basics
  import opened Kube
  import opened Runs
  import opened DomainProtocol
  import opened DomainInvariants
  import opened DomainOrphans
  import opened DomainClean
  import opened DomainLife
  import Acc = Account

  // ----- condemned uids -----

  /** A commit, or the cache catching up, under which deletion marks stay and uids do not return. */
  ghost predicate Succeeds(api: DomainApi, api': DomainApi) {
    && (api' == api || api' == Commit(api, api'.objs) || (api' == api.(seen := api'.seen) && api'.seen >= api.seen))
    && Leads(api.objs, api.clock, api'.objs)
    && (forall k | k in api'.objs && k in api.objs && api'.objs[k].uid == api.objs[k].uid ::
          api.objs[k].deleting ==> api'.objs[k].deleting)
  }

  lemma StepSucceeds(s: State, a: Action)
    requires Ground(s)
    ensures Succeeds(s.api, Step(s, a).api)
  {
    StepCommits(s, a);
    StepFollows(s, a);
  }

  /** A uid under deletion in every version the cache can still show stays so. */
  lemma SuccessorCondemns(api: DomainApi, api': DomainApi, key: Key, uid: nat)
    requires Consistent(api) && Succeeds(api, api') && Condemned(api, key, uid) && uid <= api.clock
    ensures Condemned(api', key, uid) && uid <= api'.clock
  {
    assert api.past[|api.past| - 1] == api.objs;
    if api' == Commit(api, api'.objs) {
      forall i | api'.seen <= i < |api'.past| && key in api'.past[i]
        ensures api'.past[i][key].uid == uid ==> api'.past[i][key].deleting
      {
        if i < |api.past| { assert api'.past[i] == api.past[i]; }
      }
    }
  }

  lemma StepCondemns(s: State, a: Action, key: Key, uid: nat)
    requires Ground(s) && Condemned(s.api, key, uid) && uid <= s.api.clock
    ensures Condemned(Step(s, a).api, key, uid) && uid <= Step(s, a).api.clock
  {
    StepSucceeds(s, a);
    SuccessorCondemns(s.api, Step(s, a).api, key, uid);
  }

  ghost predicate AllCondemned(ids: set<Id>, api: DomainApi) {
    forall id | id in ids :: Condemned(api, id.key, id.uid) && id.uid <= api.clock
  }

  lemma StepCondemnsAll(s: State, a: Action, ids: set<Id>)
    requires Ground(s) && AllCondemned(ids, s.api)
    ensures AllCondemned(ids, Step(s, a).api)
  {
    forall id | id in ids
      ensures Condemned(Step(s, a).api, id.key, id.uid) && id.uid <= Step(s, a).api.clock
    {
      StepCondemns(s, a, id.key, id.uid);
    }
  }

  // ----- creation -----

  /** Mailgun lists a domain called `name` that was created for `id`. */
  ghost predicate Present(list: Domains, origin: map<nat, Id>, id: Id, name: string) {
    exists i | 0 <= i < |list| :: list[i].createdAt in origin && origin[list[i].createdAt] == id && list[i].name == name
  }

  /** A second creation for `id` would need an excuse: the probe before it failed although the
      domain was listed, somebody else deleted the domain, the spec was renamed, or the resource
      created while under deletion. */
  ghost predicate Accountable(gh: History, id: Id) {
    id !in gh.excused && id !in gh.edited
  }

  /** A domain created once is still there, or the operator took it away itself. */
  ghost predicate Remembered(list: Domains, gh: History) {
    forall id: Id | Accountable(gh, id) && At(gh.creates, id) > 0 ::
      && At(gh.creates, id) == 1
      && (id in gh.removed || (id in gh.named && Present(list, gh.origin, id, gh.named[id])))
  }

  ghost predicate OnceKnown(s: State) {
    && Remembered(s.acct.domains, s.gh)
    && (forall id | id in s.gh.creates :: id.uid <= s.api.clock)
    && AllCondemned(s.gh.removed, s.api)
    && (s.worker.Busy? && !s.worker.pc.AtGet? ==>
          var id := Id(s.worker.key, s.worker.base.uid);
          && (id in s.gh.removed ==> s.worker.base.deleting)
          && (s.worker.pc.AtCreate? && Accountable(s.gh, id) && !s.worker.base.deleting ==> At(s.gh.creates, id) == 0))
  }

  lemma PresentKept(list: Domains, list': Domains, origin: map<nat, Id>, id: Id, name: string)
    requires Present(list, origin, id, name)
    requires Acc.SameEntries(list, list') || list <= list'
             || (exists k | 0 <= k < |list| :: list' == Acc.Without(list, k)
                   && !(list[k].createdAt in origin && origin[list[k].createdAt] == id))
    ensures Present(list', origin, id, name)
  {
    var i :| 0 <= i < |list| && list[i].createdAt in origin && origin[list[i].createdAt] == id && list[i].name == name;
    if Acc.SameEntries(list, list') || list <= list' {
      assert list'[i].createdAt == list[i].createdAt && list'[i].name == name;
    } else {
      var k :| 0 <= k < |list| && list' == Acc.Without(list, k)
               && !(list[k].createdAt in origin && origin[list[k].createdAt] == id);
      var j := if i < k then i else i - 1;
      Acc.WithoutAt(list, k, j);
      assert list'[j] == list[i];
    }
  }

  /** The history a deletion by anybody leaves behind. */
  lemma TakingRemembers(a: Acc.Account, name: string, gh: History, gh': History, takers: set<Id>)
    requires Remembered(a.domains, gh)
    requires gh'.origin == gh.origin && gh'.creates == gh.creates && gh'.named == gh.named && gh'.edited == gh.edited
    requires gh'.removed == gh.removed + takers && gh'.excused == gh.excused + Bereaved(gh, a, name, takers)
    ensures Remembered(Acc.DropDomain(a, name).domains, gh')
  {
    var list' := Acc.DropDomain(a, name).domains;
    forall id: Id | Accountable(gh', id) && At(gh'.creates, id) > 0
      ensures At(gh'.creates, id) == 1
      ensures id in gh'.removed || (id in gh'.named && Present(list', gh'.origin, id, gh'.named[id]))
    {
      assert Accountable(gh, id);
      if id !in gh'.removed {
        var k := Acc.Find(a.domains, name);
        if k < |a.domains| {
          assert list' == Acc.Without(a.domains, k);
          assert !(a.domains[k].createdAt in gh.origin && gh.origin[a.domains[k].createdAt] == id);
        }
        PresentKept(a.domains, list', gh.origin, id, gh.named[id]);
      }
    }
  }

  /** How the list changes under the worker's calls. */
  lemma CallChanges(s: State, fate: Fate, password: string)
    requires s.worker.Busy?
    ensures var w := s.worker;
            var a' := Perform(s, OpOf(w, password), fate).state.acct;
            || (Acc.SameEntries(s.acct.domains, a'.domains) && a'.clock == s.acct.clock)
            || (w.pc.AtDeleteDomain? && a' == Acc.DropDomain(s.acct, w.mem.spec.domain)
                && |a'.domains| == |s.acct.domains| - 1)
            || (w.pc.AtCreate? && a'.domains == s.acct.domains + [Acc.NewContainer(s.acct, w.mem.spec.domain)])
  {
    CallTouches(s, fate, password);
  }

  lemma MoreExcusesRemember(list: Domains, list': Domains, gh: History, gh': History)
    requires Remembered(list, gh) && Acc.SameEntries(list, list')
    requires gh'.origin == gh.origin && gh'.creates == gh.creates && gh'.removed == gh.removed
    requires NotesNames(gh, gh') && forall id | id in gh.excused :: id in gh'.excused
    ensures Remembered(list', gh')
  {
    forall id: Id | Accountable(gh', id) && At(gh'.creates, id) > 0
      ensures At(gh'.creates, id) == 1
      ensures id in gh'.removed || (id in gh'.named && Present(list', gh'.origin, id, gh'.named[id]))
    {
      assert Accountable(gh, id);
      if id !in gh.removed { PresentKept(list, list', gh.origin, id, gh.named[id]); }
    }
  }

  /** A domain created for one resource is no news to another. */
  lemma OthersRemember(list: Domains, c: Acc.Container, gh: History, me: Id, id: Id)
    requires Remembered(list, gh) && Accountable(gh, id) && At(gh.creates, id) > 0 && id != me && id !in gh.removed
    requires forall i | 0 <= i < |list| :: list[i].createdAt != c.createdAt
    ensures At(gh.creates, id) == 1 && id in gh.named && Present(list + [c], gh.origin[c.createdAt := me], id, gh.named[id])
  {
    var i :| 0 <= i < |list| && list[i].createdAt in gh.origin && gh.origin[list[i].createdAt] == id && list[i].name == gh.named[id];
    assert (list + [c])[i] == list[i];
  }

  lemma OwnIsPresent(list: Domains, c: Acc.Container, origin: map<nat, Id>, me: Id)
    ensures Present(list + [c], origin[c.createdAt := me], me, c.name)
  {
    assert (list + [c])[|list|] == c;
  }

  /** The history a creation leaves behind. */
  lemma CreatingRemembers(list: Domains, c: Acc.Container, gh: History, gh': History, me: Id)
    requires Remembered(list, gh) && forall i | 0 <= i < |list| :: list[i].createdAt != c.createdAt
    requires gh'.origin == gh.origin[c.createdAt := me] && gh'.creates == Bump(gh.creates, me)
    requires gh'.named == gh.named && gh'.edited == gh.edited && gh'.removed == gh.removed
    requires forall id | id in gh.excused :: id in gh'.excused
    requires Accountable(gh', me) ==> At(gh.creates, me) == 0 && me in gh.named && gh.named[me] == c.name
    ensures Remembered(list + [c], gh')
  {
    forall id: Id | Accountable(gh', id) && At(gh'.creates, id) > 0
      ensures At(gh'.creates, id) == 1
      ensures id in gh'.removed || (id in gh'.named && Present(list + [c], gh'.origin, id, gh'.named[id]))
    {
      if id == me {
        OwnIsPresent(list, c, gh.origin, me);
      } else {
        assert Accountable(gh, id) && At(gh.creates, id) > 0;
        if id !in gh.removed { OthersRemember(list, c, gh, me, id); }
      }
    }
  }

  /** What the history notes of a creation. */
  lemma CreationCounted(s: State, fate: Fate, password: string)
    requires s.worker.Busy? && s.worker.pc.AtCreate?
    requires var d := Perform(s, OpOf(s.worker, password), fate); |d.state.acct.domains| > |s.acct.domains|
    ensures var d := Perform(s, OpOf(s.worker, password), fate);
            var gh, gh' := s.gh, Note(s, d.state, d.reply);
            && d.state.acct.domains == s.acct.domains + [Acc.NewContainer(s.acct, s.worker.mem.spec.domain)]
            && gh'.origin == gh.origin[s.acct.clock := Me(s.worker)] && gh'.creates == Bump(gh.creates, Me(s.worker))
            && gh'.named == gh.named && gh'.edited == gh.edited && gh'.removed == gh.removed
            && gh'.excused == gh.excused + (if s.worker.base.deleting then {Me(s.worker)} else {})
  {
  }

  lemma CreateRemembers(s: State, fate: Fate, password: string)
    requires Ground(s) && NamesOk(s) && OnceKnown(s) && s.worker.Busy? && s.worker.pc.AtCreate?
    requires var d := Perform(s, OpOf(s.worker, password), fate); |d.state.acct.domains| > |s.acct.domains|
    ensures var d := Perform(s, OpOf(s.worker, password), fate);
            Remembered(d.state.acct.domains, Note(s, d.state, d.reply))
  {
    var w := s.worker;
    var d := Perform(s, OpOf(w, password), fate);
    CreationCounted(s, fate, password);
    assert NameOk(s.gh, w.key, w.base);
    CreatingRemembers(s.acct.domains, Acc.NewContainer(s.acct, w.mem.spec.domain), s.gh, Note(s, d.state, d.reply), Me(w));
  }

  lemma PresentIsListed(a: Acc.Account, origin: map<nat, Id>, id: Id, name: string)
    requires Present(a.domains, origin, id, name)
    ensures Acc.Lists(a, name)
  {
    var i :| 0 <= i < |a.domains| && a.domains[i].name == name;
    assert Acc.Find(a.domains, name) <= i;
  }

  /** An honest probe that finds nothing means nothing was created before, unless the operator
      deleted it under a resource that is going away. */
  lemma HonestProbe(s: State)
    requires Ground(s) && NamesOk(s) && OnceKnown(s) && s.worker.Busy? && s.worker.pc.AtProbe?
    requires var id := Id(s.worker.key, s.worker.base.uid); Accountable(s.gh, id) && !s.worker.base.deleting
    ensures At(s.gh.creates, Id(s.worker.key, s.worker.base.uid)) > 0 ==> Acc.Lists(s.acct, s.worker.mem.spec.domain)
  {
    var id := Id(s.worker.key, s.worker.base.uid);
    if At(s.gh.creates, id) > 0 {
      assert NameOk(s.gh, s.worker.key, s.worker.base);
      PresentIsListed(s.acct, s.gh.origin, id, s.gh.named[id]);
    }
  }

  lemma WorkRemembers(s: State, fate: Fate, password: string)
    requires Ground(s) && NamesOk(s) && OnceKnown(s) && s.worker.Busy?
    ensures var d := Perform(s, OpOf(s.worker, password), fate);
            Remembered(d.state.acct.domains, Note(s, d.state, d.reply))
  {
    var w := s.worker;
    var d := Perform(s, OpOf(w, password), fate);
    CallChanges(s, fate, password);
    if w.pc.AtCreate? && |d.state.acct.domains| > |s.acct.domains| {
      CreateRemembers(s, fate, password);
    } else if w.pc.AtDeleteDomain? && |d.state.acct.domains| < |s.acct.domains| {
      TakingRemembers(s.acct, w.mem.spec.domain, s.gh, Note(s, d.state, d.reply), {Id(w.key, w.base.uid)});
    } else {
      MoreExcusesRemember(s.acct.domains, d.state.acct.domains, s.gh, Note(s, d.state, d.reply));
    }
  }

  lemma OnlyProbesLeadToCreate(w: Worker, r: Reply, password: string, now: nat, secs: int)
    requires w.Busy?
    ensures var w' := Resume(w, r, password, now, secs);
            w'.Busy? && w'.pc.AtCreate? ==> w.pc.AtProbe? && w'.base == w.base && w'.key == w.key && !r.RDomain?
  {
  }

  lemma CreateComesFrom(s: State, fate: Fate, password: string, now: nat)
    requires s.worker.Busy?
    ensures var w' := WorkStep(s, fate, password, now).worker;
            w'.Busy? && w'.pc.AtCreate? ==> s.worker.pc.AtProbe? && w'.base == s.worker.base && w'.key == s.worker.key
                                            && !Perform(s, OpOf(s.worker, password), fate).reply.RDomain?
  {
    OnlyProbesLeadToCreate(s.worker, Perform(s, OpOf(s.worker, password), fate).reply, password, now, s.verifySecs);
  }

  /** The worker's knowledge after a call. */
  lemma WorkerKnows(s: State, fate: Fate, password: string, now: nat)
    requires Ground(s) && NamesOk(s) && OnceKnown(s) && s.worker.Busy? && !s.worker.pc.AtGet?
    ensures var s' := WorkStep(s, fate, password, now);
            s'.worker.Busy? ==>
              var id := Id(s'.worker.key, s'.worker.base.uid);
              && (id in s'.gh.removed ==> s'.worker.base.deleting)
              && (s'.worker.pc.AtCreate? && Accountable(s'.gh, id) && !s'.worker.base.deleting ==> At(s'.gh.creates, id) == 0)
  {
    var d := Perform(s, OpOf(s.worker, password), fate);
    var s' := WorkStep(s, fate, password, now);
    BaseKeepsSpec(s, fate, password, now);
    CreateComesFrom(s, fate, password, now);
    if s'.worker.Busy? && s'.worker.pc.AtCreate? && Accountable(s'.gh, Id(s.worker.key, s.worker.base.uid))
       && !s.worker.base.deleting {
      HonestProbe(s);
    }
  }

  lemma ReaderKnows(s: State, fate: Fate, password: string, now: nat)
    requires Ground(s) && OnceKnown(s) && s.worker.Busy? && s.worker.pc.AtGet?
    ensures var s' := WorkStep(s, fate, password, now);
            s'.gh == s.gh
            && (s'.worker.Busy? ==> && !s'.worker.pc.AtCreate?
                                    && (Id(s'.worker.key, s'.worker.base.uid) in s.gh.removed ==> s'.worker.base.deleting))
  {
  }

  lemma WorkKeepsOnce(s: State, fate: Fate, password: string, now: nat)
    requires Ground(s) && NamesOk(s) && OnceKnown(s) && s.worker.Busy?
    ensures OnceKnown(WorkStep(s, fate, password, now))
  {
    var d := Perform(s, OpOf(s.worker, password), fate);
    var s' := WorkStep(s, fate, password, now);
    StepCommits(s, Work(fate, password, now));
    WorkRemembers(s, fate, password);
    StepCondemnsAll(s, Work(fate, password, now), s.gh.removed);
    if s.worker.pc.AtGet? {
      ReaderKnows(s, fate, password, now);
    } else {
      WorkerKnows(s, fate, password, now);
      if s.worker.pc.AtDeleteDomain? {
        StepCondemns(s, Work(fate, password, now), s.worker.key, s.worker.base.uid);
      }
    }
  }

  // ----- everybody else -----

  lemma ServeRemembers(s: State, r: Acc.Request)
    requires Acc.Sane(s.acct) && Remembered(s.acct.domains, s.gh) && Bounded(s.gh, s.acct.clock)
    ensures var s' := Step(s, Mailgun(r)); Remembered(s'.acct.domains, s'.gh)
  {
    var s' := Step(s, Mailgun(r));
    var list, list' := s.acct.domains, s'.acct.domains;
    if r.Drop? || (r.Delete? && r.name !in s.acct.failed) {
      assert s.gh.removed == s.gh.removed + {};
      TakingRemembers(s.acct, r.name, s.gh, s'.gh, {});
    } else {
      assert Acc.SameEntries(list, list') || list <= list';
      forall id: Id | Accountable(s.gh, id) && At(s.gh.creates, id) > 0 && id !in s.gh.removed
        ensures Present(list', s.gh.origin, id, s.gh.named[id])
      {
        PresentKept(list, list', s.gh.origin, id, s.gh.named[id]);
      }
    }
  }

  lemma MoreExcusesKnow(s: State, s': State)
    requires OnceKnown(s) && s'.api == s.api && s'.worker == s.worker && Remembered(s'.acct.domains, s'.gh)
    requires s'.gh == s.gh.(excused := s'.gh.excused) && forall id | id in s.gh.excused :: id in s'.gh.excused
    ensures OnceKnown(s')
  {
  }

  lemma ServeKeepsOnce(s: State, r: Acc.Request)
    requires Ground(s) && OnceKnown(s) && Bounded(s.gh, s.acct.clock)
    ensures OnceKnown(Step(s, Mailgun(r)))
  {
    ServeRemembers(s, r);
    MailgunSpares(s, r);
    MoreExcusesKnow(s, Step(s, Mailgun(r)));
  }

  /** An edit, or the start of a resource. */
  lemma NamingRemembers(list: Domains, gh: History, gh': History)
    requires Remembered(list, gh)
    requires gh'.origin == gh.origin && gh'.creates == gh.creates && gh'.removed == gh.removed && gh'.excused == gh.excused
    requires forall id | id in gh.edited :: id in gh'.edited
    requires forall id | id in gh.creates :: id in gh.named ==> id in gh'.named && gh'.named[id] == gh.named[id]
    ensures Remembered(list, gh')
  {
    forall id: Id | Accountable(gh', id) && At(gh'.creates, id) > 0
      ensures At(gh'.creates, id) == 1
      ensures id in gh'.removed || (id in gh'.named && Present(list, gh'.origin, id, gh'.named[id]))
    {
      assert Accountable(gh, id) && id in gh.creates;
    }
  }

  lemma EditKeepsOnce(s: State, key: Key, spec: DomainSpec)
    requires Ground(s) && OnceKnown(s)
    ensures OnceKnown(Step(s, EditCR(key, spec)))
  {
    var s' := Step(s, EditCR(key, spec));
    NamingRemembers(s.acct.domains, s.gh, s'.gh);
    StepCondemnsAll(s, EditCR(key, spec), s.gh.removed);
    StepCommits(s, EditCR(key, spec));
  }

  lemma CreateCRKeepsOnce(s: State, key: Key, spec: DomainSpec, others: set<Finalizer>)
    requires Ground(s) && OnceKnown(s)
    ensures OnceKnown(Step(s, CreateCR(key, spec, others)))
  {
    var s' := Step(s, CreateCR(key, spec, others));
    NamingRemembers(s.acct.domains, s.gh, s'.gh);
    StepCondemnsAll(s, CreateCR(key, spec, others), s.gh.removed);
    StepCommits(s, CreateCR(key, spec, others));
  }

  lemma MarkKeepsOnce(s: State, a: Action)
    requires Ground(s) && OnceKnown(s) && (a.DeleteCR? || a.SetFinalizers? || a.SyncCache?)
    ensures OnceKnown(Step(s, a))
  {
    StepCondemnsAll(s, a, s.gh.removed);
    StepCommits(s, a);
  }

  lemma StepKeepsOnce(s: State, a: Action)
    requires Ground(s) && NamesOk(s) && NoOrphans(s) && OnceKnown(s)
    ensures OnceKnown(Step(s, a))
  {
    match a {
      case Work(fate, password, now) => if s.worker.Busy? { WorkKeepsOnce(s, fate, password, now); }
      case Mailgun(r) => ServeKeepsOnce(s, r);
      case EditCR(key, spec) => EditKeepsOnce(s, key, spec);
      case CreateCR(key, spec, others) => CreateCRKeepsOnce(s, key, spec, others);
      case DeleteCR(_) => MarkKeepsOnce(s, a);
      case SetFinalizers(_, _) => MarkKeepsOnce(s, a);
      case SyncCache(_) => MarkKeepsOnce(s, a);
      case _ =>
    }
  }

  lemma {:induction false} RunsKnowOnce(trace: seq<State>, run: seq<Action>, i: nat)
    requires IsRun(trace, run) && i <= |run|
    ensures OnceKnown(trace[i])
  {
    if i > 0 {
      Advance(Step, trace, run, i - 1);
      RunsKnowOnce(trace, run, i - 1);
      RunsKeepGround(trace, run, i - 1);
      RunsKeepNames(trace, run, i - 1);
      RunsLeaveNoOrphans(trace, run, i - 1);
      StepKeepsOnce(trace[i - 1], run[i - 1]);
    }
  }

  /** Creation is crash-consistent: however calls fail, answers are lost, the worker crashes and
      the cache lags, CreateDomain takes effect at most once per resource, unless a probe before
      it failed falsely, somebody else deleted the domain, the spec was renamed, or the resource
      was created for while under deletion. */
  lemma CreatedAtMostOnce(trace: seq<State>, run: seq<Action>, i: nat, id: Id)
    requires IsRun(trace, run) && i <= |run|
    ensures Accountable(trace[i].gh, id) ==> At(trace[i].gh.creates, id) <= 1
  {
    RunsKnowOnce(trace, run, i);
  }

  // ----- deletion converges -----

  /** A failure noted in a round that is not over yet. */
  ghost function Pending(w: Worker, id: Id): nat {
    if w.Busy? && w.pc.AtReportDelete? && id == Id(w.key, w.base.uid) then 1 else 0
  }

  ghost predicate RoundsCovered(api: DomainApi, gh: History, w: Worker) {
    forall k | k in api.objs && DomainFinalizer in api.objs[k].finalizers ::
      var id := Id(k, api.objs[k].uid);
      At(gh.rounds, id) + Pending(w, id) <= At(gh.fails, id)
  }

  ghost predicate Converging(s: State) {
    AllCondemned(s.gh.rounds.Keys, s.api) && RoundsCovered(s.api, s.gh, s.worker)
  }

  lemma NoteRoundsOfOthers(s: State, s': State, r: Reply, id: Id)
    requires s.worker.Busy? && id != Id(s.worker.key, s.worker.base.uid)
    ensures At(Note(s, s', r).rounds, id) == At(s.gh.rounds, id) && At(Note(s, s', r).fails, id) == At(s.gh.fails, id)
  {
  }

  lemma ReportComesFrom(s: State, fate: Fate, password: string, now: nat)
    requires s.worker.Busy?
    ensures var w' := WorkStep(s, fate, password, now).worker;
            w'.Busy? && w'.pc.AtReportDelete? ==>
              s.worker.pc.AtDeleteDomain? && !Perform(s, OpOf(s.worker, password), fate).reply.RDone?
              && w'.key == s.worker.key && w'.base == s.worker.base
  {
  }

  /** Who holds after a call held before, or just took hold of a live object. */
  lemma HoldersAfter(s: State, fate: Fate, password: string, k: Key)
    requires Ground(s) && s.worker.Busy?
    requires var api' := Perform(s, OpOf(s.worker, password), fate).state.api;
             k in api'.objs && DomainFinalizer in api'.objs[k].finalizers
    ensures var d := Perform(s, OpOf(s.worker, password), fate);
            && k in s.api.objs && s.api.objs[k].uid == d.state.api.objs[k].uid
            && (DomainFinalizer in s.api.objs[k].finalizers || !s.api.objs[k].deleting)
            && (s.worker.pc.AtDropFinalizer? && k == s.worker.key && s.api.objs[k].uid == s.worker.base.uid ==> !d.reply.RObj?)
  {
    var w := s.worker;
    WriteKeepsSpecs(s, fate, password);
    CallTouches(s, fate, password);
    if w.pc.AtDropFinalizer? {
      DropShape(s.api, w.key, w.base, fate, DomainFinalizer);
      UpdateAnswer(s.api, w.key, w.mem, w.base, fate);
    } else if IsUpdate(w.pc) {
      UpdateAnswer(s.api, w.key, w.mem, w.base, fate);
    } else if IsStatus(w.pc) {
      MemStatusOk(w);
      StatusAnswer(s.api, w.key, w.mem, w.base, fate);
    }
  }

  lemma WorkCoversRounds(s: State, fate: Fate, password: string, now: nat)
    requires Ground(s) && Converging(s) && s.worker.Busy?
    ensures var s' := WorkStep(s, fate, password, now); RoundsCovered(s'.api, s'.gh, s'.worker)
  {
    var w := s.worker;
    var me := Id(w.key, w.base.uid);
    var d := Perform(s, OpOf(w, password), fate);
    var s' := WorkStep(s, fate, password, now);
    ReportComesFrom(s, fate, password, now);
    forall k | k in s'.api.objs && DomainFinalizer in s'.api.objs[k].finalizers
      ensures var id := Id(k, s'.api.objs[k].uid);
              At(s'.gh.rounds, id) + Pending(s'.worker, id) <= At(s'.gh.fails, id)
    {
      var id := Id(k, s'.api.objs[k].uid);
      HoldersAfter(s, fate, password, k);
      if id != me { NoteRoundsOfOthers(s, d.state, d.reply, id); }
      if DomainFinalizer !in s.api.objs[k].finalizers {
        NeverRounded(s, k);
      }
    }
  }

  /** A live object has had no deletion round. */
  lemma NeverRounded(s: State, k: Key)
    requires Ground(s) && Converging(s) && k in s.api.objs && !s.api.objs[k].deleting
    ensures At(s.gh.rounds, Id(k, s.api.objs[k].uid)) == 0
    ensures !(s.worker.Busy? && InDeletion(s.worker.pc) && Id(k, s.api.objs[k].uid) == Id(s.worker.key, s.worker.base.uid))
  {
    assert s.api.past[|s.api.past| - 1] == s.api.objs;
  }

  lemma WorkConverges(s: State, fate: Fate, password: string, now: nat)
    requires Ground(s) && Converging(s) && s.worker.Busy?
    ensures Converging(WorkStep(s, fate, password, now))
  {
    var d := Perform(s, OpOf(s.worker, password), fate);
    var s' := WorkStep(s, fate, password, now);
    WorkCoversRounds(s, fate, password, now);
    StepCondemnsAll(s, Work(fate, password, now), s.gh.rounds.Keys);
    if s'.gh.rounds != s.gh.rounds {
      StepCondemns(s, Work(fate, password, now), s.worker.key, s.worker.base.uid);
    }
  }

  lemma CreateCRConverges(s: State, key: Key, spec: DomainSpec, others: set<Finalizer>)
    requires Ground(s) && Converging(s)
    ensures Converging(Step(s, CreateCR(key, spec, others)))
  {
    StepCondemnsAll(s, CreateCR(key, spec, others), s.gh.rounds.Keys);
    var s' := Step(s, CreateCR(key, spec, others));
    forall k | k in s'.api.objs && DomainFinalizer in s'.api.objs[k].finalizers
      ensures k in s.api.objs && s'.api.objs[k] == s.api.objs[k]
    {
    }
  }

  lemma UserActionConverges(s: State, a: Action)
    requires Ground(s) && Converging(s) && (a.EditCR? || a.DeleteCR? || a.SetFinalizers? || a.SyncCache?)
    ensures Converging(Step(s, a))
  {
    StepCondemnsAll(s, a, s.gh.rounds.Keys);
    var s' := Step(s, a);
    forall k | k in s'.api.objs && DomainFinalizer in s'.api.objs[k].finalizers
      ensures k in s.api.objs && s'.api.objs[k].uid == s.api.objs[k].uid && DomainFinalizer in s.api.objs[k].finalizers
    {
    }
  }

  lemma StepConverges(s: State, a: Action)
    requires Ground(s) && Converging(s)
    ensures Converging(Step(s, a))
  {
    match a {
      case Work(fate, password, now) => if s.worker.Busy? { WorkConverges(s, fate, password, now); }
      case CreateCR(key, spec, others) => CreateCRConverges(s, key, spec, others);
      case EditCR(_, _) => UserActionConverges(s, a);
      case DeleteCR(_) => UserActionConverges(s, a);
      case SetFinalizers(_, _) => UserActionConverges(s, a);
      case SyncCache(_) => UserActionConverges(s, a);
      case _ =>
    }
  }

  lemma {:induction false} RunsConverge(trace: seq<State>, run: seq<Action>, i: nat)
    requires IsRun(trace, run) && i <= |run|
    ensures Converging(trace[i])
  {
    if i > 0 {
      Advance(Step, trace, run, i - 1);
      RunsConverge(trace, run, i - 1);
      RunsKeepGround(trace, run, i - 1);
      StepConverges(trace[i - 1], run[i - 1]);
    }
  }

  /** Deletion converges: once a resource has been through more deletion rounds than calls failed
      in them, it carries the finalizer no more; so with at most n failing calls it is released
      after n + 1 rounds, whatever users and other clients do meanwhile. */
  lemma DeletionConverges(trace: seq<State>, run: seq<Action>, i: nat, id: Id)
    requires IsRun(trace, run) && i <= |run|
    requires At(trace[i].gh.rounds, id) > At(trace[i].gh.fails, id)
    ensures !Holds(trace[i].api, id.key, id.uid, DomainFinalizer)
  {
    RunsConverge(trace, run, i);
  }

  lemma ReleasedIsGone(api: DomainApi, id: Id)
    requires Consistent(api) && AllOurs(api) && Condemned(api, id.key, id.uid)
    requires !Holds(api, id.key, id.uid, DomainFinalizer)
    ensures !(id.key in api.objs && api.objs[id.key].uid == id.uid)
  {
    assert api.past[|api.past| - 1] == api.objs;
    assert id.key in api.objs ==> Ours(api.objs[id.key]);
  }

  /** In a run without the events Benign excludes it is then gone altogether, and with it every
      domain the operator created for it. */
  lemma DeletionLeavesNothing(trace: seq<State>, run: seq<Action>, i: nat, id: Id)
    requires IsRun(trace, run) && i <= |run| && BenignRun(trace, run)
    requires At(trace[i].gh.rounds, id) > At(trace[i].gh.fails, id)
    ensures !(id.key in trace[i].api.objs && trace[i].api.objs[id.key].uid == id.uid)
    ensures var e := trace[i];
            forall d | 0 <= d < |e.acct.domains| && e.acct.domains[d].createdAt in e.gh.origin ::
              e.gh.origin[e.acct.domains[d].createdAt] != id
  {
    var e := trace[i];
    DeletionConverges(trace, run, i, id);
    BenignRunsHoldEveryDomain(trace, run, i);
    assert !(id.key in e.api.objs && e.api.objs[id.key].uid == id.uid) by {
      RunsConverge(trace, run, i);
      BenignRunsAreClean(trace, run, i);
      RunsKeepGround(trace, run, i);
      assert id in e.gh.rounds.Keys;
      ReleasedIsGone(e.api, id);
    }
  }

  /** A reconcile that took up a deletion is counted as a round when it returns, and only a call
      that brought no success is counted as a failure. */
  lemma RoundsAreReconciles(s: State, fate: Fate, password: string, now: nat)
    requires s.worker.Busy? && InDeletion(s.worker.pc)
    ensures var s' := WorkStep(s, fate, password, now);
            var id := Id(s.worker.key, s.worker.base.uid);
            var r := Perform(s, OpOf(s.worker, password), fate).reply;
            && (s'.worker.Idle? <==> At(s'.gh.rounds, id) == At(s.gh.rounds, id) + 1)
            && (s'.worker.Busy? <==> At(s'.gh.rounds, id) == At(s.gh.rounds, id))
            && (At(s'.gh.fails, id) != At(s.gh.fails, id) ==>
                  At(s'.gh.fails, id) == At(s.gh.fails, id) + 1 && (r == RErr || r == RNotFound))
  {
  }

  // ----- every reconcile ends -----

  /** How many calls a reconcile can still make. */
  function CallsLeft(pc: Pc): nat {
    match pc
    case AtGet => 16
    case AtAddFinalizer => 15
    case AtProbe => 14
    case AtCreate => 13
    case AtSecretCheck(_, _) => 12
    case AtSecretGet(_, _, _) => 11
    case AtSecretCreate(_, _, _) => 10
    case AtSecretUpdate(_) => 10
    case AtStoreRecords => 9
    case AtCreateEndpoint => 8
    case AtStoreEndpoint => 7
    case AtLookup => 6
    case AtVerify => 5
    case AtCheckMX => 4
    case AtStoreRound => 3
    case AtSettle => 2
    case AtGetEndpoint => 8
    case AtDeleteEndpoint(_) => 7
    case AtReportEndpoint => 6
    case AtDeleteProbe => 5
    case AtDeleteDomain => 4
    case AtReportDelete => 3
    case AtDropFinalizer => 3
  }

  /** Every call brings the reconcile nearer to its end, whatever the reply. */
  lemma ReconcilesEnd(w: Worker, r: Reply, password: string, now: nat, secs: int)
    requires w.Busy?
    ensures var w' := Resume(w, r, password, now, secs); w'.Busy? ==> CallsLeft(w'.pc) < CallsLeft(w.pc)
  {
  }
}
