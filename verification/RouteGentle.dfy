/** Runs of the Route controller that lose nothing, told by what a caller could check before each
    step, and what they leave on Mailgun. */
module RouteGentle {
  import opened Basics
  import opened Kube
  import opened Runs
  import opened RouteProtocol
  import opened RouteInvariants
  import opened RouteOrphans
  import opened RouteLife
  import Acc = Account

  /** Excluded are: a creation whose answer is lost; the write of a new id that fails or meets
      another version; a deletion probe that fails although the route is there; a crash before the
      id is written; and the removal of a resource with an id by somebody else while our finalizer
      is not on it and its route is there.  Everything else is allowed. */
  ghost predicate Gentle(s: State, a: Action) {
    match a
    case Work(fate, _) =>
      s.worker.Busy? ==>
        var w := s.worker;
        && (w.pc.AtCreate? ==> fate != FailsAfter)
        && (w.pc.AtStoreId? ==> fate != FailsBefore && w.key in s.api.objs && s.api.objs[w.key] == w.base)
        && (w.pc.AtDeleteProbe? && IdOf(w.mem) in s.acct.routes ==> fate == Fine && !Acc.Fails(s.acct, "get", IdOf(w.mem)))
    case Crash => s.worker.Busy? ==> !s.worker.pc.AtStoreId?
    case DeleteCR(key) => RemovesLast(s.api, key, a) && HasId(s.api.objs[key]) ==> IdOf(s.api.objs[key]) !in s.acct.routes
    case SetFinalizers(key, _) => RemovesLast(s.api, key, a) && HasId(s.api.objs[key]) ==> IdOf(s.api.objs[key]) !in s.acct.routes
    case _ => true
  }

  ghost predicate GentleRun(trace: seq<State>, run: seq<Action>) {
    |trace| == |run| + 1 && forall i | 0 <= i < |run| :: Gentle(trace[i], run[i])
  }

  /** Nothing is charged, and the last deletion probe was honest. */
  ghost predicate Unharmed(s: State) {
    s.gh.charged == map[] && !s.gh.lied
  }

  lemma GentleProbe(s: State, fate: Fate, random: string)
    requires Ground(s) && Unharmed(s) && Gentle(s, Work(fate, random)) && s.worker.Busy? && s.worker.pc.AtDeleteProbe?
    ensures Unharmed(WorkStep(s, fate, random))
  {
  }

  lemma GentleDrop(s: State, fate: Fate, random: string)
    requires Ground(s) && Honest(s) && Unharmed(s) && s.worker.Busy? && s.worker.pc.AtDropFinalizer?
    ensures Unharmed(WorkStep(s, fate, random))
  {
    DropRemoves(s, fate, random);
    DropMeetsBase(s, fate, random);
  }

  /** The resource that goes is the version the worker read. */
  lemma DropMeetsBase(s: State, fate: Fate, random: string)
    requires Ground(s) && s.worker.Busy? && s.worker.pc.AtDropFinalizer?
    ensures var w, s' := s.worker, WorkStep(s, fate, random);
            w.key in s.api.objs && w.key !in s'.api.objs ==> s.api.objs[w.key] == w.base
    ensures WorkStep(s, fate, random).gh.lied == s.gh.lied
  {
    DropRemoves(s, fate, random);
  }

  lemma GentleCreate(s: State, fate: Fate, random: string)
    requires Unharmed(s) && Fresh(s, Work(fate, random)) && Gentle(s, Work(fate, random))
    requires s.worker.Busy? && s.worker.pc.AtCreate?
    ensures Unharmed(WorkStep(s, fate, random))
  {
    CreationShape(s, fate, random);
  }

  lemma GentleStore(s: State, fate: Fate, random: string)
    requires Ground(s) && Unharmed(s) && Gentle(s, Work(fate, random)) && s.worker.Busy? && s.worker.pc.AtStoreId?
    ensures Unharmed(WorkStep(s, fate, random))
  {
    StoreShape(s, fate, random);
    StoreLands(s, fate, random);
  }

  lemma GentlePlain(s: State, fate: Fate, random: string)
    requires Unharmed(s) && s.worker.Busy? && IsPlain(s.worker.pc) && !s.worker.pc.AtDeleteProbe?
    ensures Unharmed(WorkStep(s, fate, random))
  {
    var d := Perform(s, OpOf(s.worker), fate, random);
    PlainNotes(s, d.state, d.reply, random);
  }

  lemma GentleWork(s: State, fate: Fate, random: string)
    requires Ground(s) && Honest(s) && Unharmed(s) && s.worker.Busy?
    requires Fresh(s, Work(fate, random)) && Gentle(s, Work(fate, random))
    ensures Unharmed(WorkStep(s, fate, random))
  {
    if s.worker.pc.AtCreate? {
      GentleCreate(s, fate, random);
    } else if s.worker.pc.AtStoreId? {
      GentleStore(s, fate, random);
    } else if s.worker.pc.AtDropFinalizer? {
      GentleDrop(s, fate, random);
    } else if s.worker.pc.AtDeleteProbe? {
      GentleProbe(s, fate, random);
    } else {
      GentlePlain(s, fate, random);
    }
  }

  lemma GentleUser(s: State, a: Action)
    requires Unharmed(s) && Gentle(s, a) && (a.DeleteCR? || a.SetFinalizers?)
    ensures Unharmed(Step(s, a))
  {
    UserRemoves(s, a);
  }

  lemma StepStaysUnharmed(s: State, a: Action)
    requires Ground(s) && Honest(s) && Unharmed(s) && Fresh(s, a) && Gentle(s, a)
    ensures Unharmed(Step(s, a))
  {
    match a {
      case Work(fate, random) => if s.worker.Busy? { GentleWork(s, fate, random); }
      case DeleteCR(_) => GentleUser(s, a);
      case SetFinalizers(_, _) => GentleUser(s, a);
      case _ =>
    }
  }

  lemma {:induction false} GentleRunsChargeNothing(trace: seq<State>, run: seq<Action>, i: nat)
    requires IsRun(trace, run) && i <= |run| && FreshRun(trace, run) && GentleRun(trace, run)
    ensures Unharmed(trace[i])
  {
    if i > 0 {
      Advance(Step, trace, run, i - 1);
      GentleRunsChargeNothing(trace, run, i - 1);
      RunsKeepGround(trace, run, i - 1);
      RunsStayHonest(trace, run, i - 1);
      StepStaysUnharmed(trace[i - 1], run[i - 1]);
    }
  }

  /** In every state of such a run each route the operator created and Mailgun has is in the
      worker's hands or recorded in a stored resource. */
  lemma GentleRunsKeepRoutes(trace: seq<State>, run: seq<Action>, i: nat, t: string)
    requires IsRun(trace, run) && i <= |run| && FreshRun(trace, run) && GentleRun(trace, run)
    requires t in trace[i].gh.made && t in trace[i].acct.routes
    ensures Hand(trace[i].worker) == Some(t) || Recorded(trace[i].api.objs, trace[i].gh.made, t)
  {
    GentleRunsChargeNothing(trace, run, i);
    RoutesAreAccounted(trace, run, i, t);
  }

  /** So whenever the controller rests, a resource has at most one route on Mailgun, the one it
      records, and a resource that is gone has none. */
  lemma GentleRunsLeaveOneRoute(trace: seq<State>, run: seq<Action>, i: nat, t: string, u: string)
    requires IsRun(trace, run) && i <= |run| && FreshRun(trace, run) && GentleRun(trace, run) && trace[i].worker.Idle?
    requires var e := trace[i]; t in e.gh.made && t in e.acct.routes && u in e.gh.made && u in e.acct.routes
    ensures var e := trace[i];
            && e.gh.made[t].key in e.api.objs && e.api.objs[e.gh.made[t].key].uid == e.gh.made[t].uid
            && e.api.objs[e.gh.made[t].key].status.routeID == Some(t)
    ensures trace[i].gh.made[t] == trace[i].gh.made[u] ==> t == u
  {
    GentleRunsChargeNothing(trace, run, i);
    UnchargedRunsLeaveOneRoute(trace, run, i, t, u);
  }
}
