/** When the operator takes its own domain for somebody else's.

    The state of a resource is stored by the writes after the records are; a reconcile that
    created the domain and ends before one of them lands leaves a resource without a state.  The
    next probe then finds the operator's own domain, and stores it as not managed and failed. */
module DomainOwn {
  import opened Basics
  import opened Kube
  import opened Runs
  import opened DomainProtocol
  import opened DomainInvariants
  import opened DomainOrphans
  import opened DomainClean
  import opened DomainOnce
  import Acc = Account

  /** The domain Mailgun finds under `name` was created for `id`. */
  ghost predicate FindsOwn(a: Acc.Account, origin: map<nat, Id>, id: Id, name: string) {
    var k := Acc.Find(a.domains, name);
    k < |a.domains| && a.domains[k].createdAt in origin && origin[a.domains[k].createdAt] == id
  }

  /** Whoever a domain was created for has a creation counted. */
  ghost predicate OriginsCounted(gh: History) {
    forall t | t in gh.origin :: At(gh.creates, gh.origin[t]) > 0
  }

  lemma NoteCountsOrigins(s: State, s': State, r: Reply)
    requires s.worker.Busy? && OriginsCounted(s.gh)
    ensures OriginsCounted(Note(s, s', r))
  {
  }

  lemma StepCountsOrigins(s: State, a: Action)
    requires OriginsCounted(s.gh)
    ensures OriginsCounted(Step(s, a).gh)
  {
    if a.Work? && s.worker.Busy? {
      var d := Perform(s, OpOf(s.worker, a.password), a.fate);
      NoteCountsOrigins(s, d.state, d.reply);
    }
  }

  lemma {:induction false} RunsCountOrigins(trace: seq<State>, run: seq<Action>, i: nat)
    requires IsRun(trace, run) && i <= |run|
    ensures OriginsCounted(trace[i].gh)
  {
    if i > 0 {
      Advance(Step, trace, run, i - 1);
      RunsCountOrigins(trace, run, i - 1);
      StepCountsOrigins(trace[i - 1], run[i - 1]);
    }
  }

  /** What is present and uncharged is what Mailgun finds. */
  lemma PresentIsFound(a: Acc.Account, gh: History, id: Id, name: string)
    requires Present(a.domains, gh.origin, id, name) && FirstOfName(a.domains, gh) && gh.charged == map[]
    ensures FindsOwn(a, gh.origin, id, name)
  {
    var i :| 0 <= i < |a.domains| && a.domains[i].createdAt in gh.origin && gh.origin[a.domains[i].createdAt] == id
             && a.domains[i].name == name;
    assert Uncharged(gh, a.domains[i]);
    Acc.FirstMatch(a.domains, name, i);
  }

  lemma CreatedIsFound(s: State)
    requires Ground(s) && NamesOk(s) && OnceKnown(s) && NoOrphans(s) && Clean(s)
    requires s.worker.Busy? && s.worker.pc.AtProbe? && !s.worker.base.deleting && Me(s.worker) !in s.gh.excused
    requires At(s.gh.creates, Me(s.worker)) > 0
    ensures FindsOwn(s.acct, s.gh.origin, Me(s.worker), s.worker.mem.spec.domain)
  {
    assert NameOk(s.gh, s.worker.key, s.worker.base);
    PresentIsFound(s.acct, s.gh, Me(s.worker), s.gh.named[Me(s.worker)]);
  }

  /** In every benign run, for a live resource whose creation was never excused: the domain its
      probe finds is its own if and only if it created before. */
  lemma ProbeFindsOwn(trace: seq<State>, run: seq<Action>, i: nat)
    requires IsRun(trace, run) && i <= |run| && BenignRun(trace, run)
    requires var w := trace[i].worker;
             w.Busy? && w.pc.AtProbe? && !w.base.deleting && Me(w) !in trace[i].gh.excused
    ensures var e := trace[i];
            FindsOwn(e.acct, e.gh.origin, Me(e.worker), e.worker.mem.spec.domain) <==> At(e.gh.creates, Me(e.worker)) > 0
  {
    RunsKeepGround(trace, run, i);
    RunsKeepNames(trace, run, i);
    RunsKnowOnce(trace, run, i);
    RunsLeaveNoOrphans(trace, run, i);
    BenignRunsAreClean(trace, run, i);
    RunsCountOrigins(trace, run, i);
    if At(trace[i].gh.creates, Me(trace[i].worker)) > 0 { CreatedIsFound(trace[i]); }
  }

  /** An answered probe that finds a domain, whoever's, leads to the write that disowns it. */
  lemma FoundIsDisowned(s: State, password: string, now: nat)
    requires s.worker.Busy? && s.worker.pc.AtProbe?
    ensures WorkStep(s, Fine, password, now).worker
            == if Acc.Lists(s.acct, s.worker.mem.spec.domain) then s.worker.(pc := AtSettle, mem := NotOurs(s.worker.mem))
               else s.worker.(pc := AtCreate)
  {
  }

  /** So an answered probe makes the operator disown its own domain if and only if the resource
      created before, and once that is stored it stays. */
  lemma OwnDomainDisowned(trace: seq<State>, run: seq<Action>, i: nat)
    requires IsRun(trace, run) && i < |run| && BenignRun(trace, run) && run[i].Work? && run[i].fate == Fine
    requires var w := trace[i].worker;
             w.Busy? && w.pc.AtProbe? && !w.base.deleting && Me(w) !in trace[i].gh.excused
    ensures var e, w := trace[i], trace[i].worker;
            FindsOwn(e.acct, e.gh.origin, Me(w), w.mem.spec.domain) && trace[i + 1].worker == w.(pc := AtSettle, mem := NotOurs(w.mem))
            <==> At(e.gh.creates, Me(w)) > 0
  {
    ProbeFindsOwn(trace, run, i);
    Advance(Step, trace, run, i);
    FoundIsDisowned(trace[i], run[i].password, run[i].now);
  }

  /** Which writes store a state: those of the round, of the DNSEndpoint and of a failure.  The
      write that stores the records, and every update, leave the resource without one. */
  lemma StateIsStoredLate(s: State, fate: Fate, password: string)
    requires Ground(s) && s.worker.Busy?
    requires var api' := Perform(s, OpOf(s.worker, password), fate).state.api;
             api' != s.api && s.worker.key in api'.objs && s.worker.key in s.api.objs
             && s.api.objs[s.worker.key].status.state == Unset
    ensures var pc, api' := s.worker.pc, Perform(s, OpOf(s.worker, password), fate).state.api;
            api'.objs[s.worker.key].status.state != Unset
            <==> pc.AtSettle? || pc.AtStoreEndpoint? || pc.AtStoreRound? || pc.AtReportDelete?
  {
    var w := s.worker;
    CallTouches(s, fate, password);
    if IsUpdate(w.pc) {
      UpdateAnswer(s.api, w.key, w.mem, w.base, fate);
    } else if IsStatus(w.pc) {
      MemStatusOk(w);
      StatusAnswer(s.api, w.key, w.mem, w.base, fate);
    }
  }
}
