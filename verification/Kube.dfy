/** The Kubernetes side of the operator: one kind of custom resource with a status
    subresource, kept by the API server, and the informer cache the reconcilers read from.

    `S` is the spec of the kind and `T` its status.  Every write gets a fresh resource
    version from `clock`, every created object a fresh uid.  `past` holds every contents
    the server ever had, oldest first; the cache is the snapshot `past[seen]`, which may
    lag behind but never moves backwards. */
module Kube {
  import opened Basics

  /** The finalizers of the two controllers, and everybody else's. */
  datatype Finalizer = DomainFinalizer | RouteFinalizer | Foreign(name: string)

  datatype Obj<S, T> = Obj(uid: nat, rv: nat, deleting: bool, finalizers: set<Finalizer>, spec: S, status: T)

  type Objs<S, T> = map<Key, Obj<S, T>>

  datatype Api<S, T> = Api(objs: Objs<S, T>, past: seq<Objs<S, T>>, seen: nat, clock: nat)

  /** What a caller gets back from one API call. */
  datatype Answer<S, T> = Found(obj: Obj<S, T>) | Missing | Refused

  datatype Write<S, T> = Write(api: Api<S, T>, answer: Answer<S, T>)

  /** How one remote call goes: answered; failed with nothing done; or carried out and the
      answer lost on the way back. */
  datatype Fate = Fine | FailsBefore | FailsAfter

  function Empty<S, T>(): Api<S, T> {
    Api(map[], [map[]], 0, 0)
  }

  function Commit<S, T>(api: Api<S, T>, objs: Objs<S, T>): Api<S, T> {
    Api(objs, api.past + [objs], api.seen, api.clock + 1)
  }

  /** A stored object replaced by `obj` under a fresh resource version. */
  function Put<S, T>(api: Api<S, T>, key: Key, obj: Obj<S, T>): Api<S, T> {
    Commit(api, api.objs[key := obj.(rv := api.clock + 1)])
  }

  // ----- users and other controllers -----

  function UserCreate<S, T>(api: Api<S, T>, key: Key, spec: S, status: T, finalizers: set<Finalizer>): Api<S, T> {
    if key in api.objs then api
    else Put(api, key, Obj(api.clock + 1, 0, false, finalizers, spec, status))
  }

  function UserEdit<S(==), T>(api: Api<S, T>, key: Key, spec: S): Api<S, T> {
    if key !in api.objs || api.objs[key].spec == spec then api
    else Put(api, key, api.objs[key].(spec := spec))
  }

  /** A delete request removes an object without finalizers and marks any other one. */
  function UserDelete<S, T>(api: Api<S, T>, key: Key): Api<S, T> {
    if key !in api.objs || api.objs[key].deleting then api
    else if api.objs[key].finalizers == {} then Commit(api, api.objs - {key})
    else Put(api, key, api.objs[key].(deleting := true))
  }

  /** Other controllers set the finalizers other than `mine`; none can be added to an object
      under deletion, and taking the last one away completes the deletion. */
  function SetOthers<S, T>(api: Api<S, T>, key: Key, mine: Finalizer, others: set<Finalizer>): Api<S, T> {
    if key !in api.objs then api
    else
      var obj := api.objs[key];
      var kept := (others - {mine}) + (obj.finalizers * {mine});
      if kept == obj.finalizers || (obj.deleting && !(kept <= obj.finalizers)) then api
      else if obj.deleting && kept == {} then Commit(api, api.objs - {key})
      else Put(api, key, obj.(finalizers := kept))
  }

  /** The cache catches up with the server, fully or partly. */
  function Sync<S, T>(api: Api<S, T>, to: nat): Api<S, T> {
    if api.seen <= to < |api.past| then api.(seen := to) else api
  }

  // ----- the reconciler's client -----

  /** `client.Get`: answered from the cache. */
  function Get<S, T>(api: Api<S, T>, key: Key): Answer<S, T> {
    if api.seen < |api.past| && key in api.past[api.seen] then Found(api.past[api.seen][key]) else Missing
  }

  /** `client.Update`: optimistic locking on the resource version; writes spec and finalizers,
      leaves the stored status alone and hands the stored object back. */
  function Update<S(==), T>(api: Api<S, T>, key: Key, mem: Obj<S, T>): Write<S, T> {
    if key !in api.objs then Write(api, Missing)
    else
      var obj := api.objs[key];
      if obj.rv != mem.rv || obj.uid != mem.uid then Write(api, Refused)
      else if obj.deleting && !(mem.finalizers <= obj.finalizers) then Write(api, Refused)
      else
        var next := obj.(spec := mem.spec, finalizers := mem.finalizers);
        if next.spec == obj.spec && next.finalizers == obj.finalizers then Write(api, Found(obj))
        else if obj.deleting && next.finalizers == {} then
          Write(Commit(api, api.objs - {key}), Found(next))
        else Write(Put(api, key, next), Found(next.(rv := api.clock + 1)))
  }

  /** `client.Status().Update`: the same locking; writes the status only. */
  function StatusUpdate<S, T(==)>(api: Api<S, T>, key: Key, mem: Obj<S, T>): Write<S, T> {
    if key !in api.objs then Write(api, Missing)
    else
      var obj := api.objs[key];
      if obj.rv != mem.rv || obj.uid != mem.uid then Write(api, Refused)
      else if obj.status == mem.status then Write(api, Found(obj))
      else
        var next := obj.(status := mem.status);
        Write(Put(api, key, next), Found(next.(rv := api.clock + 1)))
  }

  /** A write under a given fate: lost writes leave the server alone, and lost answers hide
      what happened. */
  function Under<S, T>(fate: Fate, before: Api<S, T>, w: Write<S, T>): Write<S, T> {
    match fate
    case Fine => w
    case FailsBefore => Write(before, Refused)
    case FailsAfter => Write(w.api, Refused)
  }

  // ----- what every server history keeps -----

  /** Snapshots are numbered versions: resource versions identify contents, and a deletion
      mark stays for the life of a uid. */
  ghost predicate Consistent<S, T>(api: Api<S, T>) {
    && api.seen < |api.past|
    && api.past[|api.past| - 1] == api.objs
    && (forall i, k | 0 <= i < |api.past| && k in api.past[i] ::
          api.past[i][k].rv <= api.clock && api.past[i][k].uid <= api.clock)
    && (forall i, k | 0 <= i < |api.past| && k in api.past[i] && k in api.objs ::
          api.past[i][k].rv == api.objs[k].rv ==> api.past[i][k] == api.objs[k])
    && (forall i, j, k | 0 <= i <= j < |api.past| && k in api.past[i] && k in api.past[j] ::
          api.past[i][k].uid == api.past[j][k].uid && api.past[i][k].deleting ==> api.past[j][k].deleting)
  }

  /** Every live object that the cache still shows, or will come to show, with finalizer `mine`
      carries it on the server too. */
  ghost predicate Held<S, T>(api: Api<S, T>, mine: Finalizer) {
    forall i, k | api.seen <= i < |api.past| && k in api.past[i] ::
      mine in api.past[i][k].finalizers && !api.past[i][k].deleting ==> Holds(api, k, api.past[i][k].uid, mine)
  }

  ghost predicate Holds<S, T>(api: Api<S, T>, k: Key, uid: nat, mine: Finalizer) {
    k in api.objs && api.objs[k].uid == uid && mine in api.objs[k].finalizers
  }

  /** `base` is a version of `key` that the server had at some time. */
  ghost predicate Version<S, T>(api: Api<S, T>, key: Key, base: Obj<S, T>) {
    && base.rv <= api.clock && base.uid <= api.clock
    && (key in api.objs && api.objs[key].rv == base.rv ==> api.objs[key] == base)
  }

  /** From the cache's position on, every version of `key` under `uid` is marked for deletion. */
  ghost predicate Condemned<S, T>(api: Api<S, T>, key: Key, uid: nat) {
    forall i | api.seen <= i < |api.past| && key in api.past[i] ::
      api.past[i][key].uid == uid ==> api.past[i][key].deleting
  }

  /** One commit leaves each object alone, rewrites it under the same uid, or starts a new uid. */
  ghost predicate Lawful<S, T>(api: Api<S, T>, objs: Objs<S, T>) {
    forall k | k in objs ::
      || (k in api.objs && objs[k] == api.objs[k])
      || (&& k in api.objs && objs[k].uid == api.objs[k].uid && objs[k].rv == api.clock + 1
          && (api.objs[k].deleting ==> objs[k].deleting))
      || (objs[k].uid == objs[k].rv == api.clock + 1)
  }

  ghost predicate KeepsFinalizer<S, T>(api: Api<S, T>, objs: Objs<S, T>, mine: Finalizer) {
    forall k | k in api.objs && mine in api.objs[k].finalizers ::
      k in objs && objs[k].uid == api.objs[k].uid && mine in objs[k].finalizers
  }

  lemma CommitConsistent<S, T>(api: Api<S, T>, objs: Objs<S, T>)
    requires Consistent(api) && Lawful(api, objs)
    ensures Consistent(Commit(api, objs))
  {
    var api' := Commit(api, objs);
    var n := |api.past|;
    forall i, k | 0 <= i < |api'.past| && k in api'.past[i] && k in objs
      ensures api'.past[i][k].rv == objs[k].rv ==> api'.past[i][k] == objs[k]
    {
      if i < n { assert api'.past[i] == api.past[i]; }
    }
    forall i, j, k | 0 <= i <= j < |api'.past| && k in api'.past[i] && k in api'.past[j]
      ensures api'.past[i][k].uid == api'.past[j][k].uid && api'.past[i][k].deleting ==> api'.past[j][k].deleting
    {
      if i < n {
        assert api'.past[i] == api.past[i];
        if j < n {
          assert api'.past[j] == api.past[j];
        } else if k in api.objs {
          assert api.past[n - 1] == api.objs;
        }
      }
    }
  }

  lemma CommitHeld<S, T>(api: Api<S, T>, objs: Objs<S, T>, mine: Finalizer)
    requires Consistent(api) && Held(api, mine) && KeepsFinalizer(api, objs, mine)
    ensures Held(Commit(api, objs), mine)
  {
    var api' := Commit(api, objs);
    forall i, k | api'.seen <= i < |api'.past| && k in api'.past[i]
      ensures mine in api'.past[i][k].finalizers && !api'.past[i][k].deleting
              ==> Holds(api', k, api'.past[i][k].uid, mine)
    {
      if i < |api.past| { assert api'.past[i] == api.past[i]; }
    }
  }

  lemma CommitVersion<S, T>(api: Api<S, T>, objs: Objs<S, T>, key: Key, base: Obj<S, T>)
    requires Lawful(api, objs) && Version(api, key, base)
    ensures Version(Commit(api, objs), key, base)
  {
  }

  lemma CommitCondemned<S, T>(api: Api<S, T>, objs: Objs<S, T>, key: Key, uid: nat)
    requires Consistent(api) && Lawful(api, objs) && Condemned(api, key, uid) && uid <= api.clock
    ensures Condemned(Commit(api, objs), key, uid)
  {
    var api' := Commit(api, objs);
    forall i | api'.seen <= i < |api'.past| && key in api'.past[i]
      ensures api'.past[i][key].uid == uid ==> api'.past[i][key].deleting
    {
      if i < |api.past| {
        assert api'.past[i] == api.past[i];
      } else if key in api.objs {
        assert api.past[|api.past| - 1] == api.objs;
      }
    }
  }

  /** The finalizer `mine` may leave one condemned object without breaking `Held`. */
  lemma DropHeld<S, T>(api: Api<S, T>, key: Key, base: Obj<S, T>, objs: Objs<S, T>, mine: Finalizer)
    requires Consistent(api) && Held(api, mine)
    requires key in api.objs && api.objs[key] == base && Condemned(api, key, base.uid)
    requires forall k | k in api.objs && k != key :: k in objs && objs[k] == api.objs[k]
    requires forall k | k in objs && k != key :: k in api.objs
    requires key in objs ==> objs[key].deleting
    ensures Held(Commit(api, objs), mine)
  {
    var api' := Commit(api, objs);
    forall i, k | api'.seen <= i < |api'.past| && k in api'.past[i]
      ensures mine in api'.past[i][k].finalizers && !api'.past[i][k].deleting
              ==> Holds(api', k, api'.past[i][k].uid, mine)
    {
      if i < |api.past| {
        assert api'.past[i] == api.past[i];
        if mine in api.past[i][k].finalizers && !api.past[i][k].deleting {
          assert Holds(api, k, api.past[i][k].uid, mine);
        }
      } else if k != key {
        assert api.past[|api.past| - 1] == api.objs;
      }
    }
  }

  /** Whatever the cache shows marked for deletion is condemned. */
  lemma ReadCondemned<S, T>(api: Api<S, T>, key: Key)
    requires Consistent(api) && Get(api, key).Found? && Get(api, key).obj.deleting
    ensures Condemned(api, key, Get(api, key).obj.uid)
  {
  }

  /** The cache shows versions the server had. */
  lemma ReadIsVersion<S, T>(api: Api<S, T>, key: Key)
    requires Consistent(api) && Get(api, key).Found?
    ensures Version(api, key, Get(api, key).obj)
  {
  }

  // ----- one step of anybody -----

  ghost predicate Sound<S, T>(api: Api<S, T>, mine: Finalizer) {
    Consistent(api) && Held(api, mine)
  }

  /** A step that writes at most once and takes finalizer `mine` from nobody. */
  ghost predicate Moves<S, T>(api: Api<S, T>, api': Api<S, T>, mine: Finalizer) {
    || api' == api
    || (&& api' == Commit(api, api'.objs) && Lawful(api, api'.objs)
        && KeepsFinalizer(api, api'.objs, mine))
  }

  /** Such a step keeps the server sound, and with it every version and condemnation known. */
  lemma MoveKeeps<S, T>(api: Api<S, T>, api': Api<S, T>, mine: Finalizer, key: Key, base: Obj<S, T>)
    requires Sound(api, mine) && Moves(api, api', mine)
    ensures Sound(api', mine)
    ensures Version(api, key, base) ==> Version(api', key, base)
    ensures Condemned(api, key, base.uid) && base.uid <= api.clock ==> Condemned(api', key, base.uid)
    ensures Holds(api, key, base.uid, mine) ==> Holds(api', key, base.uid, mine)
  {
    if api' != api {
      CommitConsistent(api, api'.objs);
      CommitHeld(api, api'.objs, mine);
      if Condemned(api, key, base.uid) && base.uid <= api.clock { CommitCondemned(api, api'.objs, key, base.uid); }
    }
  }

  lemma SyncKeeps<S, T>(api: Api<S, T>, to: nat, mine: Finalizer, key: Key, base: Obj<S, T>)
    requires Sound(api, mine)
    ensures Sound(Sync(api, to), mine)
    ensures Condemned(api, key, base.uid) ==> Condemned(Sync(api, to), key, base.uid)
  {
    var api' := Sync(api, to);
    assert Consistent(api');
    forall i, k | api'.seen <= i < |api'.past| && k in api'.past[i]
      ensures mine in api'.past[i][k].finalizers && !api'.past[i][k].deleting
              ==> Holds(api', k, api'.past[i][k].uid, mine)
    {
      assert mine in api.past[i][k].finalizers && !api.past[i][k].deleting
             ==> Holds(api, k, api.past[i][k].uid, mine);
    }
  }

  lemma PutMoves<S, T>(api: Api<S, T>, key: Key, obj: Obj<S, T>, mine: Finalizer)
    requires Consistent(api)
    requires key in api.objs && obj.uid == api.objs[key].uid && (api.objs[key].deleting ==> obj.deleting)
    requires mine in api.objs[key].finalizers ==> mine in obj.finalizers
    ensures Moves(api, Put(api, key, obj), mine)
  {
    assert api.past[|api.past| - 1] == api.objs;
    assert api.objs[key].uid <= api.clock;
  }

  lemma CreateMoves<S, T>(api: Api<S, T>, key: Key, mine: Finalizer, spec: S, status: T, fs: set<Finalizer>)
    requires Consistent(api)
    ensures Moves(api, UserCreate(api, key, spec, status, fs), mine)
  {
    assert api.past[|api.past| - 1] == api.objs;
  }

  lemma RemoveMoves<S, T>(api: Api<S, T>, key: Key, mine: Finalizer)
    requires Consistent(api)
    requires key in api.objs && mine !in api.objs[key].finalizers
    ensures Moves(api, Commit(api, api.objs - {key}), mine)
  {
    assert api.past[|api.past| - 1] == api.objs;
  }

  lemma EditMoves<S, T>(api: Api<S, T>, key: Key, mine: Finalizer, spec: S)
    requires Consistent(api)
    ensures Moves(api, UserEdit(api, key, spec), mine)
  {
    if UserEdit(api, key, spec) != api { PutMoves(api, key, api.objs[key].(spec := spec), mine); }
  }

  lemma DeleteMoves<S, T>(api: Api<S, T>, key: Key, mine: Finalizer)
    requires Consistent(api)
    ensures Moves(api, UserDelete(api, key), mine)
  {
    if key in api.objs && !api.objs[key].deleting {
      if api.objs[key].finalizers == {} {
        RemoveMoves(api, key, mine);
      } else {
        PutMoves(api, key, api.objs[key].(deleting := true), mine);
      }
    }
  }

  lemma SetOthersMoves<S, T>(api: Api<S, T>, key: Key, mine: Finalizer, others: set<Finalizer>)
    requires Consistent(api)
    ensures Moves(api, SetOthers(api, key, mine, others), mine)
  {
    if key in api.objs {
      var obj := api.objs[key];
      var kept := (others - {mine}) + (obj.finalizers * {mine});
      assert mine in obj.finalizers <==> mine in kept;
      if kept == {} {
        RemoveMoves(api, key, mine);
      }
      PutMoves(api, key, obj.(finalizers := kept), mine);
    }
  }

  lemma StatusMoves<S, T>(api: Api<S, T>, key: Key, mem: Obj<S, T>, fate: Fate, mine: Finalizer)
    requires Consistent(api)
    ensures Moves(api, Under(fate, api, StatusUpdate(api, key, mem)).api, mine)
  {
    if key in api.objs { PutMoves(api, key, api.objs[key].(status := mem.status), mine); }
  }

  lemma UpdateMoves<S, T>(api: Api<S, T>, key: Key, mem: Obj<S, T>, fate: Fate, mine: Finalizer)
    requires Consistent(api)
    requires mine in mem.finalizers
             || (key in api.objs && api.objs[key].rv == mem.rv ==> mine !in api.objs[key].finalizers)
    ensures Moves(api, Under(fate, api, Update(api, key, mem)).api, mine)
  {
    if key in api.objs && api.objs[key].rv == mem.rv && api.objs[key].uid == mem.uid {
      if mem.finalizers == {} { RemoveMoves(api, key, mine); }
      PutMoves(api, key, api.objs[key].(spec := mem.spec, finalizers := mem.finalizers), mine);
    }
  }

  /** What an `Update` that takes `mine` off a condemned object does when it lands. */
  ghost predicate Dropped<S, T>(api: Api<S, T>, api': Api<S, T>, key: Key, base: Obj<S, T>, mine: Finalizer) {
    && api' == Commit(api, api'.objs) && Lawful(api, api'.objs)
    && key in api.objs && api.objs[key] == base
    && (forall k | k in api.objs && k != key :: k in api'.objs && api'.objs[k] == api.objs[k])
    && (forall k | k in api'.objs && k != key :: k in api.objs)
    && (key in api'.objs ==> && api'.objs[key].uid == base.uid && api'.objs[key].deleting
                             && mine !in api'.objs[key].finalizers
                             && api'.objs[key].spec == base.spec && api'.objs[key].status == base.status)
  }

  lemma DropShape<S, T>(api: Api<S, T>, key: Key, base: Obj<S, T>, fate: Fate, mine: Finalizer)
    requires Version(api, key, base) && base.deleting && mine in base.finalizers
    ensures var api' := Under(fate, api, Update(api, key, base.(finalizers := base.finalizers - {mine}))).api;
            api' == api || Dropped(api, api', key, base, mine)
    ensures Under(fate, api, Update(api, key, base.(finalizers := base.finalizers - {mine}))).answer.Found?
            ==> Under(fate, api, Update(api, key, base.(finalizers := base.finalizers - {mine}))).api != api
  {
    assert mine in base.finalizers && mine !in base.finalizers - {mine};
  }

  /** Taking `mine` off a condemned object, the one write that releases a hold. */
  lemma DropKeeps<S, T>(api: Api<S, T>, api': Api<S, T>, key: Key, base: Obj<S, T>, mine: Finalizer)
    requires Sound(api, mine) && Condemned(api, key, base.uid) && base.uid <= api.clock
    requires Dropped(api, api', key, base, mine)
    ensures Sound(api', mine) && Condemned(api', key, base.uid)
  {
    assert api.past[|api.past| - 1] == api.objs;
    CommitConsistent(api, api'.objs);
    DropHeld(api, key, base, api'.objs, mine);
    CommitCondemned(api, api'.objs, key, base.uid);
  }

  // ----- what a writer may conclude from an answer -----

  /** A write that is answered met the very version it was based on. */
  lemma UpdateAnswer<S, T>(api: Api<S, T>, key: Key, mem: Obj<S, T>, base: Obj<S, T>, fate: Fate)
    requires Version(api, key, base) && mem.rv == base.rv && mem.uid == base.uid
    ensures var w := Under(fate, api, Update(api, key, mem));
            && (w.answer.Found? ==>
                  && key in api.objs && api.objs[key] == base
                  && w.answer.obj == base.(spec := mem.spec, finalizers := mem.finalizers, rv := w.answer.obj.rv)
                  && Version(w.api, key, w.answer.obj)
                  && (mem.finalizers != {} ==> key in w.api.objs && w.api.objs[key] == w.answer.obj))
            && (w.api != api ==> key in api.objs && api.objs[key] == base && w.api == Commit(api, w.api.objs))
  {
  }

  lemma StatusAnswer<S, T>(api: Api<S, T>, key: Key, mem: Obj<S, T>, base: Obj<S, T>, fate: Fate)
    requires Version(api, key, base) && mem.rv == base.rv && mem.uid == base.uid
    ensures var w := Under(fate, api, StatusUpdate(api, key, mem));
            && (w.answer.Found? ==>
                  && key in api.objs && api.objs[key] == base
                  && w.answer.obj == base.(status := mem.status, rv := w.answer.obj.rv)
                  && key in w.api.objs && w.api.objs[key] == w.answer.obj
                  && Version(w.api, key, w.answer.obj))
            && (w.api != api ==>
                  && key in api.objs && api.objs[key] == base && mem.status != base.status
                  && w.api == Put(api, key, base.(status := mem.status)))
  {
  }

  /** Every write of a reconciler's is lawful. */
  lemma UpdateIsLawful<S, T>(api: Api<S, T>, key: Key, mem: Obj<S, T>, fate: Fate)
    requires Consistent(api)
    ensures var api' := Under(fate, api, Update(api, key, mem)).api;
            api' == api || (api' == Commit(api, api'.objs) && Lawful(api, api'.objs))
  {
    assert api.past[|api.past| - 1] == api.objs;
  }

  lemma StatusIsLawful<S, T>(api: Api<S, T>, key: Key, mem: Obj<S, T>, fate: Fate)
    requires Consistent(api)
    ensures var api' := Under(fate, api, StatusUpdate(api, key, mem)).api;
            api' == api || (api' == Commit(api, api'.objs) && Lawful(api, api'.objs))
  {
    assert api.past[|api.past| - 1] == api.objs;
  }
}
