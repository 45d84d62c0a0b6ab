/** The Database controller: it creates a logical database on the server of a ready Datastore and
    drops it again when the Database object is deleted. */
module DatabaseController {
  import opened Api
  import opened Server
  import opened Cluster
  import opened Ownership
  import opened Keeper

  const FINALIZER := "db.fatiudeen.dev/database-finalizer"

  const PLAN: Plan<DatabaseSpec, string> := Plan(
    FINALIZER,
    (s: DatabaseSpec) => s.datastoreRef,
    (k: Key, s: DatabaseSpec, e: Engine) => k.name,
    (s: Servers) => s.databases,
    (x: set<Place>) => {},
    (p: Place, m: Mishaps) => m.falls[p] > 0)

  const BLANK := DatabaseStatus("", false, None)

  predicate Coherent(s: DatabaseStatus) {
    (s.phase == "Ready" <==> s.ready) && (s.ready ==> s.createdAt.Some?)
  }

  /** Statuses stay coherent, and the creation time is written once. */
  predicate Follows(s: DatabaseStatus, t: DatabaseStatus) {
    && (Coherent(s) ==> Coherent(t))
    && (s.createdAt.Some? ==> t.createdAt == s.createdAt)
  }

  const RULES: Rules<DatabaseSpec, DatabaseStatus> := Rules(FINALIZER, BLANK, (s, t) => Follows(s, t), (s, t) => true)

  // ---------------------------------------------------------------- a pass in a quiet world

  type Bodies = map<Key, Body<DatabaseSpec, DatabaseStatus>>
  type StoreBodies = map<Key, Body<DatastoreSpec, ReadyStatus>>

  function Failing(s: DatabaseStatus, phase: string): DatabaseStatus {
    s.(phase := phase, ready := false)
  }

  /** Dropping a database: only SQL Server minds that it is not there. */
  function CleanUp(server: Servers, engine: Engine, p: Place): Option<Servers> {
    match engine
    case Unsupported => None
    case SQLServer => if p in server.databases then Some(DropAll(server, {p})) else None
    case _ => Some(DropAll(server, {p}))
  }

  function DeletingPass(dbs: Bodies, stores: StoreBodies, server: Servers, reachable: set<Key>, k: Key)
    : (Bodies, Servers)
    requires k in dbs
  {
    var b := dbs[k];
    var ds := Key(k.ns, b.spec.datastoreRef);
    var released := PutBody(dbs, k, b.(finalizers := RemoveFinalizer(b.finalizers, FINALIZER)));
    if FINALIZER !in b.finalizers then (dbs, server)
    else if ds !in stores then (released, server)
    else if ds !in reachable then (dbs, server)
    else match CleanUp(server, EngineOf(stores[ds].spec.datastoreType), Ext(ds, k.name))
      case None => (dbs, server)
      case Some(server') => (released, server')
  }

  /** `found` is where the reference to the Datastore leads. */
  predicate Creatable(stores: StoreBodies, reachable: set<Key>, found: Option<Key>) {
    && found.Some? && found.value in stores && stores[found.value].status.ready
    && found.value in reachable && !EngineOf(stores[found.value].spec.datastoreType).Unsupported?
  }

  function Prepared(b: Body<DatabaseSpec, DatabaseStatus>): Body<DatabaseSpec, DatabaseStatus> {
    b.(finalizers := AddFinalizer(b.finalizers, FINALIZER),
       status := if b.status.phase == "" then Failing(b.status, "Creating") else b.status)
  }

  /** The status a pass over a live object ends with. */
  function Verdict(s: DatabaseStatus, stores: StoreBodies, reachable: set<Key>, found: Option<Key>, now: nat)
    : DatabaseStatus
  {
    if found.None? || found.value !in stores then Failing(s, "Failed")
    else if !stores[found.value].status.ready then Failing(s, "Waiting")
    else if !Creatable(stores, reachable, found) then Failing(s, "Failed")
    else DatabaseStatus("Ready", true, if s.createdAt.None? then Some(now) else s.createdAt)
  }

  function Served(server: Servers, stores: StoreBodies, reachable: set<Key>, found: Option<Key>,
      name: string): Servers {
    if Creatable(stores, reachable, found)
    then server.(databases := server.databases + {Ext(found.value, name)})
    else server
  }

  function Settled(b: Body<DatabaseSpec, DatabaseStatus>, stores: StoreBodies, reachable: set<Key>, found: Option<Key>,
                   now: nat): Body<DatabaseSpec, DatabaseStatus>
  {
    b.(finalizers := AddFinalizer(b.finalizers, FINALIZER), status := Verdict(b.status, stores, reachable, found, now))
  }

  function LivePass(dbs: Bodies, stores: StoreBodies, server: Servers, reachable: set<Key>, k: Key, found: Option<Key>,
                    now: nat): (Bodies, Servers)
    requires k in dbs
  {
    (dbs[k := Settled(dbs[k], stores, reachable, found, now)], Served(server, stores, reachable, found, k.name))
  }

  /** Storing a first status on the way makes no difference to where a pass ends. */
  lemma PreparingSettles(dbs: Bodies, stores: StoreBodies, server: Servers, reachable: set<Key>, k: Key,
                         found: Option<Key>, now: nat)
    requires k in dbs
    ensures var p := Prepared(dbs[k]);
            LivePass(dbs, stores, server, reachable, k, found, now) ==
              (dbs[k := p][k := p.(status := Verdict(p.status, stores, reachable, found, now))],
               Served(server, stores, reachable, found, k.name))
  {
    var p := Prepared(dbs[k]);
    var settled := p.(status := Verdict(p.status, stores, reachable, found, now));
    assert settled == Settled(dbs[k], stores, reachable, found, now);
    assert dbs[k := p][k := settled] == dbs[k := settled];
  }

  /** What one pass over `k` does when nobody interferes and no call is lost; `found` is where the
      reference of a live object leads. */
  function Pass(dbs: Bodies, stores: StoreBodies, server: Servers, reachable: set<Key>, k: Key, found: Option<Key>,
                now: nat): (Bodies, Servers)
  {
    if k !in dbs then (dbs, server)
    else if dbs[k].deleting then DeletingPass(dbs, stores, server, reachable, k)
    else LivePass(dbs, stores, server, reachable, k, found, now)
  }

  /** Does the reference of the object, if it is a live one, lead there? */
  ghost predicate Finds(dbs: Bodies, stores: StoreBodies, k: Key, found: Option<Key>) {
    k in dbs && !dbs[k].deleting ==> LeadsTo(stores.Keys, k.ns, dbs[k].spec.datastoreRef, found)
  }

  predicate Released(dbs: Bodies, k: Key) {
    k !in dbs || FINALIZER !in dbs[k].finalizers
  }

  /** How such a pass ends: a live object that did not become ready is tried again later, a deleting one
      that could not be let go is an error. */
  function Outcome(dbs: Bodies, dbs': Bodies, k: Key): Result {
    if k !in dbs then Done
    else if dbs[k].deleting then if Released(dbs', k) then Done else Error
    else if k in dbs' && dbs'[k].status.ready then Done
    else Requeue
  }

  /** A deleting object that cannot be let go: the server of its Datastore is out of reach or of no kind
      that is supported, or it is a SQL Server, where a database that is gone cannot be dropped again. */
  predicate Blocked(b: Body<DatabaseSpec, DatabaseStatus>, stores: StoreBodies, server: Servers, reachable: set<Key>,
      k: Key)
  {
    var ds := Key(k.ns, b.spec.datastoreRef);
    ds in stores &&
    var t := stores[ds].spec.datastoreType;
    ds !in reachable || t !in KNOWN_TYPES || (t in SQLSERVER_TYPES && Ext(ds, k.name) !in server.databases)
  }

  /** Whatever state earlier passes were cut in, one undisturbed pass over a deleting object lets it go
      exactly if it is not blocked, with the database dropped where the Datastore is still there;
      otherwise nothing happens, and the next pass will do no better. */
  lemma DeletingEnds(dbs: Bodies, stores: StoreBodies, server: Servers, reachable: set<Key>, k: Key, found: Option<Key>,
                     now: nat)
    requires k in dbs && dbs[k].deleting && FINALIZER in dbs[k].finalizers
    ensures var (dbs', server') := Pass(dbs, stores, server, reachable, k, found, now);
            var ds := Key(k.ns, dbs[k].spec.datastoreRef);
            && (Released(dbs', k) <==> !Blocked(dbs[k], stores, server, reachable, k))
            && (Released(dbs', k) && ds in stores ==> server' == DropAll(server, {Ext(ds, k.name)}))
            && (Released(dbs', k) && ds !in stores ==> server' == server)
            && (Released(dbs', k) ==> (k in dbs' <==> exists f :: f in dbs[k].finalizers && f != FINALIZER))
            && (!Released(dbs', k) ==> dbs' == dbs && server' == server)
            && Outcome(dbs, dbs', k) == (if Released(dbs', k) then Done else Error)
            && (forall g :: g != k ==> (g in dbs' <==> g in dbs) && (g in dbs ==> dbs'[g] == dbs[g]))
  {
    KeptByOthers(dbs[k].finalizers, FINALIZER);
    var ds := Key(k.ns, dbs[k].spec.datastoreRef);
    if ds in stores && ds in reachable {
      var _ := CleanUp(server, EngineOf(stores[ds].spec.datastoreType), Ext(ds, k.name));
    }
  }

  /** What a pass leaves deleting with the finalizer was blocked, and stays as it is. */
  lemma LeftIsBlocked(dbs: Bodies, stores: StoreBodies, server: Servers, reachable: set<Key>, k: Key,
                      found: Option<Key>, now: nat)
    ensures var (dbs', server') := Pass(dbs, stores, server, reachable, k, found, now);
            && (!Released(dbs', k) && dbs'[k].deleting ==>
                  && dbs' == dbs && server' == server && Outcome(dbs, dbs', k) == Error
                  && Blocked(dbs[k], stores, server, reachable, k))
            && (!Released(dbs, k) && dbs[k].deleting && Blocked(dbs[k], stores, server, reachable, k) ==>
                  dbs' == dbs && server' == server && Outcome(dbs, dbs', k) == Error)
  {
    if !Released(dbs, k) && dbs[k].deleting {
      DeletingEnds(dbs, stores, server, reachable, k, found, now);
    }
  }

  // ---------------------------------------------------------------- the reconciler

  type Own = Obj<DatabaseSpec, DatabaseStatus>
  type Job = Work<DatabaseSpec, DatabaseStatus, string>

  predicate Claims(s: DatabaseStatus) {
    s.ready
  }

  class DatabaseReconciler {
    const c: Cluster<DatabaseSpec, DatabaseStatus>
    const kp: Keeper<DatabaseSpec, DatabaseStatus, string>

    /** A run in which nobody else makes logical databases. */
    constructor (c: Cluster<DatabaseSpec, DatabaseStatus>)
      requires c.Valid() && c.rules == RULES && c.objs == Kind([map[]], 0) && !c.others.bases
      ensures Valid() && this.c == c && fresh(kp)
      ensures kp.book == Book(c.server.databases, map[], [])
    {
      this.c := c;
      kp := new Keeper(c, PLAN, Claims, true);
    }

    ghost predicate Valid()
      reads this, kp, c
    {
      && kp.c == c && kp.plan == PLAN && kp.claims == Claims && kp.careful && c.rules == RULES
      && kp.Valid() && !c.others.bases
    }

    /** The three dialects of dropping a database. */
    method Drop(ghost w: Job, engine: Engine, p: Place) returns (ok: bool, ghost w': Job)
      requires Valid() && kp.On(w) && w.phase == Cleaning(Some(p)) && engine != Unsupported
      modifies c
      ensures Valid()
      ensures ok ==> w' == w.(phase := Cleaning(None)) && kp.On(w')
      ensures kp.Same()
      ensures old(c.Quiet()) ==>
                match CleanUp(old(c.server), engine, p)
                case None => !ok && c.server == old(c.server)
                case Some(server) => ok && c.server == server
    {
      hide History, kp.Kept, Drifted, kp.On, c.Smooth, kp.Valid;
      if engine != MySQL {
        // PostgreSQL ends other sessions, SQL Server goes single-user; failing at that is ignored
        var _, _, _ := kp.Sql(w, Nop);
      }
      ghost var mid, took;
      ok, mid, took := kp.Sql(w, DropDatabase(p, engine != SQLServer));
      w' := w;
      if ok {
        kp.Cleared(w);
        w' := w.(phase := Cleaning(None));
      }
    }

    /** Drop the database, if the Datastore can still be found; nothing to do if it cannot. */
    method Cleanup(k: Key, o: Own, ghost at: nat) returns (ok: bool, ghost w: Job)
      requires Valid() && at == c.objs.seen && k in c.objs.Cached() && c.objs.Cached()[k] == o
      requires o.body.deleting && FINALIZER in o.body.finalizers
      modifies c
      ensures Valid()
      ensures ok ==> w == Work(k, o, at, Cleaning(None)) && kp.On(w)
      ensures kp.Same()
      ensures old(c.Quiet()) ==>
                var ds := Key(k.ns, o.body.spec.datastoreRef);
                if ds !in old(c.datastores.Now()) then ok && c.server == old(c.server)
                else if ds !in c.reachable then !ok && c.server == old(c.server)
                else
                  var engine := EngineOf(old(c.datastores.Now())[ds].body.spec.datastoreType);
                  match CleanUp(old(c.server), engine, Ext(ds, k.name))
                     case None => !ok && c.server == old(c.server)
                     case Some(server) => ok && c.server == server
    {
      hide History, kp.Kept, Grew, Drifted, kp.On, c.Smooth, kp.Valid;
      var ds := Key(k.ns, o.body.spec.datastoreRef);
      var got;
      got, w := kp.LookUp(k, o, at, ds);
      if !got.Found? {
        return got.NotFound?, w;
      }
      var engine := EngineOf(got.value.body.spec.datastoreType);
      ok := kp.Connect(w, ds, engine);
      if ok {
        ok, w := Drop(w, engine, Ext(ds, k.name));
      }
    }

    /** Issue CREATE DATABASE. */
    method Create(ghost w: Job, p: Place, ifNotExists: bool) returns (ok: bool)
      requires Valid() && kp.On(w)
      requires w.phase.Working? && w.phase.store.Some?
      requires w.phase.store.value.value.body.status.ready
      requires p == Ext(w.phase.store.value.ds, w.k.name) && p.ds.name == w.o.body.spec.datastoreRef
      modifies kp, c
      ensures Valid() && kp.On(w) && kp.Same()
      ensures ok ==> p in c.server.databases
      ensures c.server.databases <= old(c.server.databases) + {p}
      ensures old(c.Quiet()) ==>
                && ok == (ifNotExists || p !in old(c.server.databases))
                && c.server == old(c.server).(databases := old(c.server.databases) + {p})
    {
      hide History, kp.Kept, Grew, kp.On, c.Smooth, kp.Valid;
      ghost var mid, took;
      var refused;
      ok, refused, mid, took := kp.SqlCreate(w, CreateDatabase(p, ifNotExists), p);
      assert p in mid.databases ==> mid.databases == mid.databases + {p};
    }

    /** Ask whether the database is there. */
    method Exists(ghost w: Job, p: Place) returns (answer: Option<bool>)
      requires Valid() && kp.On(w)
      modifies c
      ensures Valid() && kp.On(w) && kp.Same()
      ensures c.server.databases <= old(c.server.databases)
      ensures answer.Some? ==> answer.value == (p in c.server.databases)
      ensures old(c.Quiet()) ==> answer.Some? && c.server == old(c.server)
    {
      hide History, kp.Kept, Grew, kp.On, c.Smooth, kp.Valid;
      answer := kp.Ask(w, (s: Servers) => Some(p in s.databases));
    }

    /** "Ensure that the database exists", in the three dialects. */
    method EnsureDatabase(ghost w: Job, engine: Engine, p: Place) returns (ok: bool)
      requires Valid() && kp.On(w) && engine != Unsupported
      requires w.phase.Working? && w.phase.store.Some?
      requires w.phase.store.value.value.body.status.ready
      requires p == Ext(w.phase.store.value.ds, w.k.name) && p.ds.name == w.o.body.spec.datastoreRef
      modifies kp, c
      ensures Valid() && kp.On(w)
      ensures ok ==> p in c.server.databases
      ensures c.server.databases <= old(c.server.databases) + {p}
      ensures kp.Same()
      ensures old(c.Quiet()) ==> ok && c.server == old(c.server).(databases := old(c.server.databases) + {p})
    {
      hide History, kp.Kept, Grew, kp.On, c.Smooth, kp.Valid, Drifted, Strayed;
      match engine
      case MySQL =>
        ok := Create(w, p, true);
      case PostgreSQL =>
        var exists_ := Exists(w, p);
        if exists_.None? {
          return false;
        }
        ok := exists_.value;
        if !ok {
          ok := Create(w, p, false);
        }
      case SQLServer =>
        ok := Create(w, p, false);
        if !ok {
          // perhaps it was there already
          var exists_ := Exists(w, p);
          ok := exists_ == Some(true);
        }
    }

    /** Connect with the credentials of the Datastore and create the database. */
    method CreateOrUpdate(ghost w: Job, d: Key, engine: Engine, name: string) returns (ok: bool, ghost w': Job)
      requires Valid() && kp.On(w)
      requires w.phase.Working? && w.phase.store.Some? && w.k.name == name
      requires w.phase.store.value.value.body.status.ready
      requires d == w.phase.store.value.ds && d.name == w.o.body.spec.datastoreRef
      modifies kp, c
      ensures Valid() && kp.On(w')
      ensures w'.phase.Working? && w' == w.(phase := w.phase.(stood := w'.phase.stood))
      ensures ok ==> w'.phase.stood.Some?
      ensures kp.Same()
      ensures old(c.Quiet()) ==>
                && ok == (d in c.reachable && engine != Unsupported)
                && c.server == if ok then old(c.server).(databases := old(c.server.databases) + {Ext(d, name)})
                               else old(c.server)
    {
      hide History, kp.Kept, Grew, Drifted, kp.On, c.Smooth, kp.Valid;
      w' := w;
      ok := kp.Connect(w, d, engine);
      if ok {
        ok := EnsureDatabase(w, engine, Ext(d, name));
        if ok {
          w' := kp.Stands(w);
        }
      }
    }

    /** Resolve the Datastore, wait for it, and create the database: `status` says how it went. */
    method Serve(ghost w: Job, k: Key, o: Own)
      returns (status: DatabaseStatus, r: Result, ghost w': Job, ghost found: Option<Key>)
      requires Valid() && kp.On(w) && w.k == k && w.o == o && w.phase == Working(None, None)
      modifies kp, c
      ensures Valid() && kp.On(w') && w' == w.(phase := w'.phase) && w'.phase.Working?
      ensures Follows(o.body.status, status)
      ensures r == Done <==> status.ready
      ensures status.ready ==>
                && w'.phase.store.Some? && w'.phase.store.value.value.body.status.ready && w'.phase.stood.Some?
                && w'.phase.store.value.ds.name == o.body.spec.datastoreRef
      ensures kp.Same()
      ensures old(c.Quiet()) ==>
                var stores := old(View(c.datastores.Now()));
                && LeadsTo(stores.Keys, k.ns, o.body.spec.datastoreRef, found)
                && c.server == Served(old(c.server), stores, c.reachable, found, k.name)
                && status == Verdict(o.body.status, stores, c.reachable, found, c.clock) && r != Error
    {
      hide History, kp.Kept, Grew, Drifted, kp.On, View, LeadsTo, Resolves, c.Smooth, kp.Valid;
      var resolved;
      resolved, w' := kp.Resolve(w, k.ns, o.body.spec.datastoreRef);
      found := FoundKey(resolved);
      if old(c.Quiet()) {
        kp.Readable();
        ResolvedLeads(c.datastores.Now(), k.ns, o.body.spec.datastoreRef, resolved);
      }
      if !resolved.Resolved? {
        return Failing(o.body.status, "Failed"), if resolved.ListFailed? then Error else Requeue, w', found;
      }
      if !resolved.value.body.status.ready {
        return Failing(o.body.status, "Waiting"), Requeue, w', found;
      }
      var ok;
      ok, w' := CreateOrUpdate(w', resolved.k, EngineOf(resolved.value.body.spec.datastoreType), k.name);
      if !ok {
        return Failing(o.body.status, "Failed"), Requeue, w', found;
      }
      var now := c.Clock();
      var created := if o.body.status.createdAt.None? then Some(now) else o.body.status.createdAt;
      return DatabaseStatus("Ready", true, created), Done, w', found;
    }

    /** Store the finalizer, and a first status. */
    method Prepare(k: Key, fetched: Own, ghost at: nat) returns (held: Reply<Own>, ghost w: Job)
      requires Valid() && at == c.objs.seen && k in c.objs.Cached() && c.objs.Cached()[k] == fetched
      requires !fetched.body.deleting
      modifies c
      ensures Valid() && c.Elapsed()
      ensures held.Found? ==> kp.On(w) && w == Work(k, held.value, w.at, Working(None, None))
      ensures held.Found? ==> held.value.body == Prepared(fetched.body)
      ensures old(c.Quiet()) && k in old(c.objs.Now()) && old(c.objs.Now())[k] == fetched ==>
                && held.Found? && c.server == old(c.server)
                && c.datastores.hist == old(c.datastores.hist)
                && k in c.objs.Now() && c.objs.Now()[k] == held.value
                && View(c.objs.Now()) == old(View(c.objs.Now()))[k := held.value.body]
    {
      hide History, kp.Kept, Grew, View, Drifted, kp.On, c.Smooth, kp.Valid;
      held, w := kp.Hold(k, fetched, at);
      if held.Found? && held.value.body.status.phase == "" {
        held, w := kp.SetStatus(w, k, held.value, Failing(held.value.body.status, "Creating"));
      }
    }

    /** Serve the object and write down how it went. */
    method Finish(ghost w: Job, k: Key, o: Own) returns (r: Result, ghost found: Option<Key>)
      requires Valid() && kp.On(w) && w.k == k && w.o == o && w.phase == Working(None, None)
      modifies kp, c
      ensures Valid() && c.Elapsed()
      ensures old(c.Quiet()) && k in old(c.objs.Now()) && old(c.objs.Now())[k] == o ==>
                var stores := old(View(c.datastores.Now()));
                && c.datastores.hist == old(c.datastores.hist)
                && LeadsTo(stores.Keys, k.ns, o.body.spec.datastoreRef, found)
                && c.server == Served(old(c.server), stores, c.reachable, found, k.name)
                && r == (if Verdict(o.body.status, stores, c.reachable, found, c.clock).ready then Done else Requeue)
                && View(c.objs.Now()) == old(View(c.objs.Now()))[
                     k := o.body.(status := Verdict(o.body.status, stores, c.reachable, found, c.clock))]
    {
      hide History, kp.Kept, Grew, View, Served, Verdict, Follows, Keeps, Drifted, kp.On, LeadsTo, c.Smooth, kp.Valid;
      var status, held;
      ghost var w';
      status, r, w', found := Serve(w, k, o);
      held, w' := kp.SetStatus(w', k, o, status);
      if !held.Found? {
        r := Error;
      }
    }

    /** The part of a pass that works towards a ready database. */
    method ReconcileLive(k: Key, fetched: Own, ghost at: nat) returns (r: Result, ghost found: Option<Key>)
      requires Valid() && at == c.objs.seen && k in c.objs.Cached() && c.objs.Cached()[k] == fetched
      requires !fetched.body.deleting
      modifies kp, c
      ensures Valid() && c.Elapsed()
      ensures old(c.Quiet()) && k in old(c.objs.Now()) && old(c.objs.Now())[k] == fetched ==>
                && c.datastores.hist == old(c.datastores.hist)
                && LeadsTo(old(View(c.datastores.Now())).Keys, k.ns, fetched.body.spec.datastoreRef, found)
                && (View(c.objs.Now()), c.server) ==
                   LivePass(old(View(c.objs.Now())), old(View(c.datastores.Now())), old(c.server), c.reachable, k,
                            found, c.clock)
                && r == Outcome(old(View(c.objs.Now())), View(c.objs.Now()), k)
    {
      hide History, kp.Kept, Grew, Served, Verdict, LivePass, Drifted, kp.On, LeadsTo, c.Smooth, kp.Valid;
      kp.Readable();
      ghost var dbs, stores, server := View(c.objs.Now()), View(c.datastores.Now()), c.server;
      var held, w := Prepare(k, fetched, at);
      if !held.Found? {
        return Error, None;
      }
      r, found := Finish(w, k, held.value);
      if k in dbs {
        PreparingSettles(dbs, stores, server, c.reachable, k, found, c.clock);
      }
    }

    /** The part of a pass that lets a deleting database go. */
    method ReconcileDeleting(k: Key, fetched: Own, ghost at: nat) returns (r: Result)
      requires Valid() && at == c.objs.seen && k in c.objs.Cached() && c.objs.Cached()[k] == fetched
      requires fetched.body.deleting
      modifies kp, c
      ensures Valid() && c.Elapsed()
      ensures old(c.Quiet()) && k in old(c.objs.Now()) && old(c.objs.Now())[k] == fetched ==>
                && c.datastores.hist == old(c.datastores.hist)
                && (View(c.objs.Now()), c.server) ==
                   DeletingPass(old(View(c.objs.Now())), old(View(c.datastores.Now())), old(c.server), c.reachable, k)
                && r == Outcome(old(View(c.objs.Now())), View(c.objs.Now()), k)
    {
      hide History, kp.Kept, Grew, Drifted, kp.On, c.Smooth, kp.Valid;
      if FINALIZER !in fetched.body.finalizers {
        return Done;
      }
      var clean, w := Cleanup(k, fetched, at);
      if !clean {
        return Error;
      }
      var released := kp.Release(w, k, fetched, RemoveFinalizer(fetched.body.finalizers, FINALIZER));
      return if released then Done else Error;
    }

    /** One pass over `k`; `found` is where the reference of a live object led. */
    method Reconcile(k: Key) returns (r: Result, ghost found: Option<Key>)
      requires Valid()
      modifies kp, c
      ensures Valid() && c.Elapsed()
      ensures old(c.schedule) != [] ==> |c.schedule| < |old(c.schedule)|
      ensures old(c.Quiet()) ==>
                && c.datastores.hist == old(c.datastores.hist)
                && Finds(old(View(c.objs.Now())), old(View(c.datastores.Now())), k, found)
                && (View(c.objs.Now()), c.server) ==
                   Pass(old(View(c.objs.Now())), old(View(c.datastores.Now())), old(c.server), c.reachable, k, found,
                        c.clock)
                && r == Outcome(old(View(c.objs.Now())), View(c.objs.Now()), k)
    {
      hide History, kp.Kept, Grew, Drifted, LeadsTo, LivePass, DeletingPass, kp.On, c.Smooth, kp.Valid;
      found := None;
      var got, at := kp.Fetch(k);
      if !got.Found? {
        return if got.NotFound? then Done else Error, None;
      }
      if got.value.body.deleting {
        r := ReconcileDeleting(k, got.value, at);
      } else {
        r, found := ReconcileLive(k, got.value, at);
      }
    }

    /** A worker: pass after pass, whatever each of them runs into. */
    method RunWorker(requests: seq<Key>)
      requires Valid()
      modifies kp, c
      ensures Valid() && c.Elapsed()
    {
      for i := 0 to |requests|
        invariant Valid() && c.Elapsed()
      {
        var _, _ := Reconcile(requests[i]);
      }
    }

    /** Deletion is retried. Whatever cuts the passes before the world has become quiet, at `b` and `sv`,
        the one after that lets a deleting object go, with the database dropped, exactly if it is not
        blocked; so that one which is left is blocked. */
    method RetryDeletion(k: Key)
      returns (r: Result, ghost b: Option<Body<DatabaseSpec, DatabaseStatus>>, ghost sv: Servers)
      requires Valid() && c.recovers
      modifies kp, c
      ensures Valid() && c.Quiet()
      ensures !Released(View(c.objs.Now()), k) && c.objs.Now()[k].body.deleting ==>
                r == Error && Blocked(c.objs.Now()[k].body, View(c.datastores.Now()), c.server, c.reachable, k)
      ensures b.Some? && b.value.deleting && FINALIZER in b.value.finalizers ==>
                var stores, ds := View(c.datastores.Now()), Key(k.ns, b.value.spec.datastoreRef);
                && (Released(View(c.objs.Now()), k) <==> !Blocked(b.value, stores, sv, c.reachable, k))
                && (Released(View(c.objs.Now()), k) <==> r == Done)
                && (Released(View(c.objs.Now()), k) && ds in stores ==> Ext(ds, k.name) !in c.server.databases)
                && (!Released(View(c.objs.Now()), k) ==> c.server == sv)
    {
      hide History, kp.Kept, kp.On, Pass, Blocked, LeadsTo, c.Smooth, kp.Valid;
      while c.schedule != []
        invariant Valid()
        decreases |c.schedule|
      {
        var _, _ := Reconcile(k);
      }
      kp.Readable();
      ghost var dbs, stores := View(c.objs.Now()), View(c.datastores.Now());
      b, sv := if k in dbs then Some(dbs[k]) else None, c.server;
      ghost var found;
      r, found := Reconcile(k);
      LeftIsBlocked(dbs, stores, sv, c.reachable, k, found, c.clock);
      if k in dbs && dbs[k].deleting && FINALIZER in dbs[k].finalizers {
        DeletingEnds(dbs, stores, sv, c.reachable, k, found, c.clock);
      }
    }

    /** A pass over a deleting object on a SQL Server whose process dies after the database was dropped
        and before the finalizer was taken off. */
    method DiesAfterDrop(k: Key)
      requires Valid() && c.Quiet()
      requires k in c.objs.Now() && c.objs.Now()[k].body.deleting && FINALIZER in c.objs.Now()[k].body.finalizers
      requires var ds := Key(k.ns, c.objs.Now()[k].body.spec.datastoreRef);
               && ds in c.datastores.Now() && EngineOf(c.datastores.Now()[ds].body.spec.datastoreType) == SQLServer
               && ds in c.reachable && Ext(ds, k.name) in c.server.databases
      modifies kp, c
      ensures Valid() && c.Quiet()
      ensures c.objs.hist == old(c.objs.hist) && c.datastores.hist == old(c.datastores.hist)
      ensures var ds := Key(k.ns, old(c.objs.Now())[k].body.spec.datastoreRef);
              c.server == DropAll(old(c.server), {Ext(ds, k.name)})
      ensures !Released(View(c.objs.Now()), k) && c.objs.Now()[k].body.deleting
      ensures Blocked(c.objs.Now()[k].body, View(c.datastores.Now()), c.server, c.reachable, k)
    {
      hide History, kp.Kept, kp.On, c.Smooth, kp.Valid;
      var got, at := kp.Fetch(k);
      var dropped, _ := Cleanup(k, got.value, at);
    }

    /** No later pass can let go what is blocked, though nothing else goes wrong. */
    method RetryInVain(k: Key, passes: nat) returns (r: Result)
      requires Valid() && c.Quiet() && passes > 0
      requires !Released(View(c.objs.Now()), k) && c.objs.Now()[k].body.deleting
      requires Blocked(c.objs.Now()[k].body, View(c.datastores.Now()), c.server, c.reachable, k)
      modifies kp, c
      ensures Valid() && View(c.objs.Now()) == old(View(c.objs.Now())) && c.server == old(c.server)
      ensures r == Error
    {
      hide History, kp.Kept, kp.On, Pass, Finds, Outcome, c.Smooth;
      ghost var dbs, stores, sv := View(c.objs.Now()), View(c.datastores.Now()), c.server;
      r := Done;
      for i := 0 to passes
        invariant Valid() && c.Quiet()
        invariant View(c.objs.Now()) == dbs && View(c.datastores.Now()) == stores && c.server == sv
        invariant i > 0 ==> r == Error
      {
        ghost var found;
        r, found := Reconcile(k);
        LeftIsBlocked(dbs, stores, sv, c.reachable, k, found, c.clock);
      }
    }
  }
}
