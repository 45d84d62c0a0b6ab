/** The DatabaseRole controller: it creates a role on the server of a ready Datastore and drops it when
    the object is deleted, unless it cannot read what it needs to get there. Admission keeps the
    Datastore of a role fixed. */
module RoleController {
  import opened Api
  import opened Server
  import opened Cluster
  import opened Ownership
  import opened Keeper

  const FINALIZER := "db.fatiudeen.dev/role-finalizer"

  datatype RoleSpec = RoleSpec(datastoreRef: string, privileges: seq<string>, databaseRef: Option<string>)

  datatype RoleStatus = RoleStatus(phase: string, ready: bool, created: bool, lastUpdated: Option<nat>)

  const BLANK := RoleStatus("", false, false, None)

  const PLAN: Plan<RoleSpec, string> := Plan(
    FINALIZER,
    (s: RoleSpec) => s.datastoreRef,
    (k: Key, s: RoleSpec, e: Engine) => k.name,
    (s: Servers) => s.roles.Keys,
    (x: set<Place>) => x,
    (p: Place, m: Mishaps) => false)

  predicate Coherent(s: RoleStatus) {
    (s.phase == "Ready" <==> s.ready) && (s.ready <==> s.created)
  }

  predicate Follows(s: RoleStatus, t: RoleStatus) {
    Coherent(s) ==> Coherent(t)
  }

  /** What admission holds an update to: the Datastore reference must not change. */
  predicate Admits(s: RoleSpec, t: RoleSpec) {
    s.datastoreRef == t.datastoreRef
  }

  const RULES: Rules<RoleSpec, RoleStatus> := Rules(FINALIZER, BLANK, (s, t) => Follows(s, t), (s, t) => Admits(s, t))

  predicate Claims(s: RoleStatus) {
    s.ready
  }

  /** Fewer spellings than the other controllers know. */
  function RoleEngine(datastoreType: string): Engine {
    if datastoreType == "mysql" || datastoreType == "mariadb" then MySQL
    else if datastoreType == "postgresql" then PostgreSQL
    else if datastoreType == "sqlserver" then SQLServer
    else Unsupported
  }

  lemma RoleEnginesByType(t: string)
    ensures RoleEngine(t) == MySQL <==> t in MYSQL_TYPES
    ensures RoleEngine(t) == PostgreSQL <==> t == "postgresql"
    ensures RoleEngine(t) == SQLServer <==> t == "sqlserver"
  {
  }

  // ---------------------------------------------------------------- lists of finalizers

  method ContainsString(slice: seq<string>, s: string) returns (r: bool)
    ensures r <==> s in slice
  {
    for i := 0 to |slice|
      invariant s !in slice[..i]
    {
      if slice[i] == s {
        return true;
      }
    }
    return false;
  }

  method RemoveString(slice: seq<string>, s: string) returns (result: seq<string>)
    ensures result == RemoveFinalizer(slice, s)
  {
    result := [];
    for i := 0 to |slice|
      invariant result == RemoveFinalizer(slice[..i], s)
    {
      RemoveLast(slice[..i], slice[i], s);
      assert slice[..i + 1] == slice[..i] + [slice[i]];
      if slice[i] != s {
        result := result + [slice[i]];
      }
    }
    assert slice[..|slice|] == slice;
  }

  lemma {:induction false} RemoveLast(slice: seq<string>, last: string, s: string)
    ensures RemoveFinalizer(slice + [last], s) == RemoveFinalizer(slice, s) + if last == s then [] else [last]
  {
    if slice == [] {
      assert slice + [last] == [last] && [last][1..] == [];
    } else {
      RemoveLast(slice[1..], last, s);
      assert (slice + [last])[1..] == slice[1..] + [last];
    }
  }

  // ---------------------------------------------------------------- a pass in a quiet world

  type Bodies = map<Key, Body<RoleSpec, RoleStatus>>
  type StoreBodies = map<Key, Body<DatastoreSpec, ReadyStatus>>
  type BaseBodies = map<Key, Body<DatabaseSpec, DatabaseStatus>>

  predicate ReadyStore(stores: StoreBodies, ds: Key) {
    ds in stores && stores[ds].status.phase == "Ready" && stores[ds].status.ready
  }

  predicate ReadyBase(dbs: BaseBodies, ns: string, ref: Option<string>) {
    ref.Some? ==>
      var db := Key(ns, ref.value);
      db in dbs && dbs[db].status.phase == "Ready" && dbs[db].status.ready
  }

  function Given(held: set<Grant>, privileges: seq<string>, scope: Option<string>): set<Grant> {
    held + (set i | 0 <= i < |privileges| :: Grant(privileges[i], scope))
  }

  /** The role exists and has what is listed, on top of what it had. */
  function WithRole(server: Servers, p: Place, spec: RoleSpec): Servers {
    var held := if p in server.roles then server.roles[p] else {};
    server.(roles := server.roles[p := Given(held, spec.privileges, spec.databaseRef)])
  }

  /** MySQL is told to mind no role that is there already. The others refuse to create it again, and it
      depends on how they put that whether the pass goes on. */
  predicate Makes(server: Servers, engine: Engine, p: Place, lenient: bool) {
    engine != Unsupported && (engine == MySQL || p !in server.roles || lenient)
  }

  function Verdict(k: Key, b: Body<RoleSpec, RoleStatus>, dbs: BaseBodies, stores: StoreBodies, server: Servers,
                   reachable: set<Key>, lenient: bool, now: nat): RoleStatus
  {
    var ds, ref := Key(k.ns, b.spec.datastoreRef), b.spec.databaseRef;
    var failed, pending := RoleStatus("Failed", false, false, Some(now)),
        RoleStatus("Pending", false, false, Some(now));
    if ds !in stores then failed
    else if !ReadyStore(stores, ds) then pending
    else if ref.Some? && Key(k.ns, ref.value) !in dbs then failed
    else if !ReadyBase(dbs, k.ns, ref) then pending
    else if ds !in reachable || !Makes(server, RoleEngine(stores[ds].spec.datastoreType), Ext(ds, k.name), lenient)
    then failed
    else RoleStatus("Ready", true, true, Some(now))
  }

  /** A pass over a live object only stores the finalizer if it was not there. */
  function LivePass(roles: Bodies, dbs: BaseBodies, stores: StoreBodies, server: Servers, reachable: set<Key>,
                    lenient: bool, k: Key, now: nat): (Bodies, Servers)
    requires k in roles
  {
    var b := roles[k];
    if FINALIZER !in b.finalizers then (roles[k := b.(finalizers := AddFinalizer(b.finalizers, FINALIZER))], server)
    else
      var status := Verdict(k, b, dbs, stores, server, reachable, lenient, now);
      (roles[k := b.(status := status)],
       if status.ready then WithRole(server, Ext(Key(k.ns, b.spec.datastoreRef), k.name), b.spec) else server)
  }

  /** Dropping a role: only SQL Server minds that it is not there. */
  function CleanUp(server: Servers, engine: Engine, p: Place): Option<Servers> {
    match engine
    case Unsupported => None
    case SQLServer => if p in server.roles then Some(server.(roles := server.roles - {p})) else None
    case _ => Some(server.(roles := server.roles - {p}))
  }

  /** What is left on the servers once a deleting role can be let go, if it can. */
  function Clearing(stores: StoreBodies, server: Servers, secrets: set<Key>, reachable: set<Key>, k: Key,
                    spec: RoleSpec): Option<Servers>
  {
    var ds := Key(k.ns, spec.datastoreRef);
    if ds !in stores || ds !in secrets then Some(server)
    else if ds !in reachable then None
    else CleanUp(server, RoleEngine(stores[ds].spec.datastoreType), Ext(ds, k.name))
  }

  function DeletingPass(roles: Bodies, stores: StoreBodies, server: Servers, secrets: set<Key>, reachable: set<Key>,
                        k: Key): (Bodies, Servers)
    requires k in roles
  {
    var b := roles[k];
    match Clearing(stores, server, secrets, reachable, k, b.spec)
    case None => (roles, server)
    case Some(server') => (PutBody(roles, k, b.(finalizers := RemoveFinalizer(b.finalizers, FINALIZER))), server')
  }

  /** What one pass over `k` does when nobody interferes and no call is lost. */
  function Pass(roles: Bodies, dbs: BaseBodies, stores: StoreBodies, server: Servers, secrets: set<Key>,
                reachable: set<Key>, lenient: bool, k: Key, now: nat): (Bodies, Servers)
  {
    if k !in roles then (roles, server)
    else if roles[k].deleting then DeletingPass(roles, stores, server, secrets, reachable, k)
    else LivePass(roles, dbs, stores, server, reachable, lenient, k, now)
  }

  /** How such a pass ends: storing the finalizer asks for another pass, a deleting object that could not
      be let go is an error, and everything else is done, ready or not. */
  function Outcome(roles: Bodies, stores: StoreBodies, server: Servers, secrets: set<Key>, reachable: set<Key>, k: Key)
    : Result
  {
    if k !in roles then Done
    else if roles[k].deleting then
      if Clearing(stores, server, secrets, reachable, k, roles[k].spec).Some? then Done else Error
    else if FINALIZER in roles[k].finalizers then Done
    else Requeue
  }

  // ---------------------------------------------------------------- deletion ends

  predicate Released(roles: Bodies, k: Key) {
    k !in roles || FINALIZER !in roles[k].finalizers
  }

  /** Nothing keeps a deleting role: its Datastore or its Secret is missing, or the server can be reached and
      can drop the role, which a SQL Server can only while it is there. Not every spelling is known here. */
  predicate Clearable(b: Body<RoleSpec, RoleStatus>, stores: StoreBodies, server: Servers, secrets: set<Key>,
                      reachable: set<Key>, k: Key)
  {
    var ds := Key(k.ns, b.spec.datastoreRef);
    ds in stores && ds in secrets ==>
      && ds in reachable
      && var t := stores[ds].spec.datastoreType;
         t in MYSQL_TYPES || t == "postgresql" || (t == "sqlserver" && Ext(ds, k.name) in server.roles)
  }

  /** Whatever state earlier passes were cut in, one undisturbed pass over a deleting role lets it go exactly
      if nothing keeps it, with the role dropped, and nothing else, if Datastore and Secret are there;
      otherwise nothing happens, and the pass is an error. */
  lemma DeletingEnds(roles: Bodies, dbs: BaseBodies, stores: StoreBodies, server: Servers, secrets: set<Key>,
                     reachable: set<Key>, lenient: bool, k: Key, now: nat)
    requires k in roles && roles[k].deleting
    ensures var (roles', server') := Pass(roles, dbs, stores, server, secrets, reachable, lenient, k, now);
            var ds, fins := Key(k.ns, roles[k].spec.datastoreRef), roles[k].finalizers;
            && (forall g :: g != k ==> (g in roles' <==> g in roles) && (g in roles ==> roles'[g] == roles[g]))
            && if Clearable(roles[k], stores, server, secrets, reachable, k) then
                 && Outcome(roles, stores, server, secrets, reachable, k) == Done
                 && Released(roles', k) && (k in roles' <==> exists f :: f in fins && f != FINALIZER)
                 && server' == server.(roles := server'.roles)
                 && server'.roles == if ds in stores && ds in secrets then server.roles - {Ext(ds, k.name)}
                                     else server.roles
               else
                 roles' == roles && server' == server && Outcome(roles, stores, server, secrets, reachable, k) == Error
  {
    KeptByOthers(roles[k].finalizers, FINALIZER);
  }

  // ---------------------------------------------------------------- the reconciler

  type Own = Obj<RoleSpec, RoleStatus>
  type Job = Work<RoleSpec, RoleStatus, string>

  /** The reason came up when the caches had got this far, and so many calls had been lost. */
  predicate CameUp(reason: Reason, seen: nat, seenStores: nat, lost: nat) {
    match reason
    case NoDatastore(p, q) => seen <= p && seenStores <= q
    case NoSecret(p) => seen <= p
    case CallLost(n) => lost <= n
  }

  /** Whatever is forsaken was so before, or is now, for that reason. */
  ghost predicate Forsakes(before: map<Place, Origin>, after: map<Place, Origin>, reason: Option<Reason>) {
    forall id :: id in after && after[id].forsaken.Some? ==>
      after[id].forsaken == reason || (id in before && after[id].forsaken == before[id].forsaken)
  }

  /** The object at hand lists the privilege for the role. */
  predicate Asks(w: Job, p: Place, g: Grant) {
    && w.phase.Working? && p == Ext(Key(w.k.ns, w.o.body.spec.datastoreRef), w.k.name)
    && g.privilege in w.o.body.spec.privileges && g.scope == w.o.body.spec.databaseRef
  }

  /** Whatever is granted to roles was so when the run began, or some object lists it. */
  ghost predicate Listed(begin: set<(Place, Grant)>, granted: set<(Place, Grant)>, authors: seq<Job>) {
    forall p, g :: (p, g) in granted ==> (p, g) in begin || Authored(authors, p, g)
  }

  ghost predicate Authored(authors: seq<Job>, p: Place, g: Grant) {
    exists i :: 0 <= i < |authors| && Asks(authors[i], p, g)
  }

  /** Roles may come and go; what is left of them is listed as before. */
  lemma FewerListed(begin: set<(Place, Grant)>, roles: map<Place, set<Grant>>, roles': map<Place, set<Grant>>,
                    authors: seq<Job>)
    requires Listed(begin, RoleGrants(roles), authors)
    requires forall p :: p in roles' ==> roles'[p] == {} || (p in roles && roles'[p] == roles[p])
    ensures Listed(begin, RoleGrants(roles'), authors)
  {
    assert RoleGrants(roles') <= RoleGrants(roles);
  }

  lemma MoreAuthors(begin: set<(Place, Grant)>, granted: set<(Place, Grant)>, authors: seq<Job>, w: Job)
    requires Listed(begin, granted, authors)
    ensures Listed(begin, granted, authors + [w])
  {
    forall p, g | (p, g) in granted && Authored(authors, p, g) ensures Authored(authors + [w], p, g) {
      var i :| 0 <= i < |authors| && Asks(authors[i], p, g);
      assert Asks((authors + [w])[i], p, g);
    }
  }

  lemma GrantingLists(begin: set<(Place, Grant)>, roles: map<Place, set<Grant>>, authors: seq<Job>, p: Place, g: Grant)
    requires Listed(begin, RoleGrants(roles), authors) && p in roles && Authored(authors, p, g)
    ensures Listed(begin, RoleGrants(roles[p := roles[p] + {g}]), authors)
  {
    assert RoleGrants(roles[p := roles[p] + {g}]) == RoleGrants(roles) + {(p, g)};
  }

  class RoleReconciler {
    const c: Cluster<RoleSpec, RoleStatus>
    const kp: Keeper<RoleSpec, RoleStatus, string>
    /** Do PostgreSQL and SQL Server put it so that the controller can tell that a role already exists? */
    const lenient: bool
    /** What was granted to roles when the run began. */
    ghost const beginning: set<(Place, Grant)>

    /** A run in which the User controller may make roles. */
    constructor (c: Cluster<RoleSpec, RoleStatus>, lenient: bool)
      requires c.Valid() && c.rules == RULES && c.objs == Kind([map[]], 0) && c.others.roles != Anyone
      ensures Valid() && this.c == c && this.lenient == lenient && fresh(kp)
      ensures kp.book == Book(c.server.roles.Keys, map[], []) && beginning == RoleGrants(c.server.roles)
    {
      this.c, this.lenient, this.beginning := c, lenient, RoleGrants(c.server.roles);
      kp := new Keeper(c, PLAN, Claims, false);
    }

    /** A role is only ever created through a Datastore in the namespace of its object, and given what some
        stored version of it lists. */
    ghost predicate Valid()
      reads this, kp, c
    {
      && kp.c == c && kp.plan == PLAN && kp.claims == Claims && !kp.careful && c.rules == RULES
      && kp.Valid() && c.others.roles != Anyone
      && AtHome(kp.book.origins)
      && Listed(beginning, RoleGrants(c.server.roles), kp.book.vouched)
    }

    /** Create the role if it is missing. */
    method CreateMissing(ghost w: Job, engine: Engine, p: Place) returns (ok: bool)
      requires Valid() && kp.On(w) && engine != Unsupported
      requires w.phase.Working? && w.phase.store.Some? && p == Ext(w.phase.store.value.ds, w.k.name)
      requires p.ds == Key(w.k.ns, w.o.body.spec.datastoreRef) && w.phase.store.value.value.body.status.ready
      modifies kp, c
      ensures Valid() && kp.On(w) && kp.Same()
      ensures Forsakes(old(kp.book).origins, kp.book.origins, None)
      ensures ok ==> p in c.server.roles
      ensures old(c.Quiet()) ==>
                && ok == Makes(old(c.server), engine, p, lenient)
                && c.server == if ok then old(c.server).(roles := old(c.server.roles)[
                                 p := if p in old(c.server.roles) then old(c.server.roles)[p] else {}])
                               else old(c.server)
    {
      hide History, kp.Kept, Grew, LogDrifted, kp.On, c.Smooth, Listed, RoleGrants, kp.Valid;
      ghost var mid, took;
      var refused;
      ok, refused, mid, took := kp.SqlCreate(w, CreateRole(p, engine == MySQL), p);
      if refused && p in mid.roles {
        assert mid.roles[p := mid.roles[p]] == mid.roles;
      }
      FewerListed(beginning, mid.roles, c.server.roles, kp.book.vouched);
      if !ok && engine != MySQL {
        ok := refused && lenient;
      }
    }

    /** Grant the listed privileges to the role, one statement each. */
    method GrantAll(ghost w: Job, p: Place, privileges: seq<string>, scope: Option<string>) returns (ok: bool)
      requires Valid() && kp.On(w)
      requires forall g :: g in privileges ==> Authored(kp.book.vouched, p, Grant(g, scope))
      modifies c
      ensures Valid() && kp.On(w) && kp.Same()
      ensures ok && p in old(c.server.roles) ==>
                p in c.server.roles && c.server.roles[p] == Given(old(c.server.roles)[p], privileges, scope)
      ensures old(c.Quiet()) && p in old(c.server.roles) ==>
                ok && c.server == old(c.server).(roles := old(c.server.roles)[
                  p := Given(old(c.server.roles)[p], privileges, scope)])
    {
      hide History, kp.Kept, Grew, LogDrifted, Given, kp.On, c.Smooth, Listed, RoleGrants, kp.Valid;
      ghost var roles, server := c.server.roles, c.server;
      GivenNothing(server, p, privileges, scope);
      for i := 0 to |privileges|
        invariant Valid() && kp.On(w) && kp.Same()
        invariant p in roles ==> p in c.server.roles && c.server.roles[p] == Given(roles[p], privileges[..i], scope)
        invariant old(c.Quiet()) && p in roles ==>
                    c.server == server.(roles := roles[p := Given(roles[p], privileges[..i], scope)])
      {
        ghost var mid, took;
        ok, mid, took := kp.Sql(w, GrantToRole(p, Grant(privileges[i], scope)));
        if took {
          GrantingLists(beginning, mid.roles, kp.book.vouched, p, Grant(privileges[i], scope));
        }
        if !ok {
          return;
        }
        if p in roles {
          GivenOneMore(roles, p, privileges, scope, i);
        }
      }
      assert privileges[..|privileges|] == privileges;
      ok := true;
    }

    /** Put the work on the books, as the reason for what is granted. */
    ghost method Author(w: Job, p: Place, spec: RoleSpec)
      requires Valid() && kp.On(w) && spec == w.o.body.spec && w.phase.Working?
      requires p == Ext(Key(w.k.ns, spec.datastoreRef), w.k.name)
      modifies kp
      ensures Valid() && kp.On(w) && kp.book == old(kp.book).(vouched := old(kp.book).vouched + [w])
      ensures forall g :: g in spec.privileges ==> Authored(kp.book.vouched, p, Grant(g, spec.databaseRef))
    {
      hide kp.Kept, History, kp.On, Listed, kp.Valid;
      kp.Remembers(w);
      MoreAuthors(beginning, RoleGrants(c.server.roles), kp.book.vouched, w);
      kp.Vouch(w);
      forall g | g in spec.privileges ensures Authored(kp.book.vouched, p, Grant(g, spec.databaseRef)) {
        assert Asks(kp.book.vouched[|kp.book.vouched| - 1], p, Grant(g, spec.databaseRef));
      }
    }

    /** Grant what the object lists, on its behalf. */
    method GrantListed(ghost w: Job, p: Place, spec: RoleSpec) returns (ok: bool)
      requires Valid() && kp.On(w) && spec == w.o.body.spec && w.phase.Working?
      requires p == Ext(Key(w.k.ns, spec.datastoreRef), w.k.name) && p in c.server.roles
      modifies kp, c
      ensures Valid() && kp.On(w) && kp.Same()
      ensures kp.book == old(kp.book).(vouched := old(kp.book).vouched + [w])
      ensures ok ==>
                && p in c.server.roles
                && c.server.roles[p] == Given(old(c.server.roles)[p], spec.privileges, spec.databaseRef)
      ensures old(c.Quiet()) ==>
                ok && c.server == old(c.server).(roles := old(c.server.roles)[
                  p := Given(old(c.server.roles)[p], spec.privileges, spec.databaseRef)])
    {
      hide History, kp.Kept, Grew, LogDrifted, Given, kp.On, AtHome, c.Smooth, Listed, RoleGrants, kp.Valid;
      Author(w, p, spec);
      ok := GrantAll(w, p, spec.privileges, spec.databaseRef);
    }

    /** Make the server read its grants again. */
    method Flush(ghost w: Job) returns (ok: bool)
      requires Valid() && kp.On(w)
      modifies c
      ensures Valid() && kp.On(w) && kp.Same()
      ensures kp.OfOurs() <= old(kp.OfOurs())
      ensures forall p :: p in old(c.server.roles) ==>
                p in c.server.roles && c.server.roles[p] == old(c.server.roles)[p]
      ensures old(c.Quiet()) ==> ok && c.server == old(c.server)
    {
      hide History, kp.Kept, Grew, LogDrifted, kp.On, AtHome, c.Smooth, Listed, RoleGrants, kp.Valid;
      ghost var mid, took;
      ok, mid, took := kp.Sql(w, Nop);
    }

    /** Create the role, grant, and, on MySQL, flush. The other engines do not flush. */
    method EnsureRole(ghost w: Job, engine: Engine, p: Place, spec: RoleSpec) returns (ok: bool)
      requires Valid() && kp.On(w) && engine != Unsupported && spec == w.o.body.spec
      requires w.phase.Working? && w.phase.store.Some? && p == Ext(w.phase.store.value.ds, w.k.name)
      requires p.ds == Key(w.k.ns, spec.datastoreRef) && w.phase.store.value.value.body.status.ready
      modifies kp, c
      ensures Valid() && kp.On(w) && kp.Same()
      ensures Forsakes(old(kp.book).origins, kp.book.origins, None)
      ensures ok ==>
                p in c.server.roles && Given(c.server.roles[p], spec.privileges, spec.databaseRef) == c.server.roles[p]
      ensures old(c.Quiet()) ==>
                && ok == Makes(old(c.server), engine, p, lenient)
                && c.server == if ok then WithRole(old(c.server), p, spec) else old(c.server)
    {
      hide History, kp.Kept, Grew, LogDrifted, Given, kp.On, AtHome, c.Smooth, Makes, Forsakes, Listed, RoleGrants,
        kp.Valid;
      ok := CreateMissing(w, engine, p);
      if ok {
        GivenAgain(c.server.roles[p], spec.privileges, spec.databaseRef);
        ok := GrantListed(w, p, spec);
      }
      if ok && engine == MySQL {
        ok := Flush(w);
      }
    }

    /** Read the Secret, connect, and see to the role. */
    method CreateOrUpdate(ghost w: Job, ds: Key, engine: Engine, name: string, spec: RoleSpec)
      returns (ok: bool, ghost w': Job)
      requires Valid() && kp.On(w) && spec == w.o.body.spec && name == w.k.name
      requires w.phase.Working? && w.phase.store.Some? && ds == w.phase.store.value.ds == Key(w.k.ns, spec.datastoreRef)
      requires w.phase.store.value.value.body.status.ready
      modifies kp, c
      ensures Valid() && kp.On(w') && kp.Same()
      ensures w'.phase.Working? && w' == w.(phase := w.phase.(stood := w'.phase.stood))
      ensures ok ==> w'.phase.stood.Some?
      ensures Forsakes(old(kp.book).origins, kp.book.origins, None)
      ensures old(c.Quiet()) ==>
                && ok == (ds in c.reachable && Makes(old(c.server), engine, Ext(ds, name), lenient))
                && c.server == if ok then WithRole(old(c.server), Ext(ds, name), spec) else old(c.server)
    {
      hide History, kp.Kept, Grew, LogDrifted, Given, WithRole, AtHome, kp.On, c.Smooth, Listed, RoleGrants;
      w' := w;
      ok := kp.Secret(w, ds);
      if ok {
        ok := kp.Ping(w, ds, engine);
      }
      if ok {
        ok := EnsureRole(w, engine, Ext(ds, name), spec);
      }
      if ok {
        w' := kp.Stands(w);
      }
    }

    /** Is the Database there, and if so, is it ready? */
    method AwaitDatabase(ghost w: Job, db: Key) returns (ready: Option<bool>)
      requires Valid() && kp.On(w)
      modifies c
      ensures Valid() && kp.On(w) && kp.Same()
      ensures old(c.Quiet()) ==>
                var dbs := old(View(c.databases.Now()));
                && c.server == old(c.server)
                && ready == if db !in dbs then None else Some(dbs[db].status.phase == "Ready" && dbs[db].status.ready)
    {
      hide History, kp.Kept, Grew, LogDrifted, AtHome, kp.On, c.Smooth, Listed, RoleGrants, kp.Valid;
      var base := kp.FindDatabase(w, db);
      if !base.Found? {
        return None;
      }
      return Some(base.value.body.status.phase == "Ready" && base.value.body.status.ready);
    }

    /** Find a ready Datastore and a ready Database at home, and see to the role. */
    method Serve(ghost w: Job, k: Key, o: Own) returns (status: RoleStatus, ghost w': Job)
      requires Valid() && kp.On(w) && w.k == k && w.o == o && w.phase == Working(None, None)
      modifies kp, c
      ensures Valid() && kp.On(w') && w' == w.(phase := w'.phase) && w'.phase.Working?
      ensures Coherent(status)
      ensures status.ready ==>
                && w'.phase.store.Some? && w'.phase.store.value.value.body.status.ready && w'.phase.stood.Some?
                && w'.phase.store.value.ds.name == o.body.spec.datastoreRef
      ensures kp.Same()
      ensures Forsakes(old(kp.book).origins, kp.book.origins, None)
      ensures old(c.Quiet()) ==>
                var p := Ext(Key(k.ns, o.body.spec.datastoreRef), k.name);
                && status == Verdict(k, o.body, old(View(c.databases.Now())), old(View(c.datastores.Now())),
                                     old(c.server), c.reachable, lenient, c.clock)
                && c.server == if status.ready then WithRole(old(c.server), p, o.body.spec) else old(c.server)
    {
      hide History, kp.Kept, Grew, LogDrifted, WithRole, AtHome, kp.On, c.Smooth, Makes, Listed, RoleGrants, kp.Valid;
      var ds := Key(k.ns, o.body.spec.datastoreRef);
      var now := c.Clock();
      var failed, pending := RoleStatus("Failed", false, false, Some(now)),
          RoleStatus("Pending", false, false, Some(now));
      var store;
      store, w' := kp.Find(w, ds);
      if !store.Found? {
        return failed, w';
      }
      if store.value.body.status.phase != "Ready" || !store.value.body.status.ready {
        return pending, w';
      }
      if o.body.spec.databaseRef.Some? {
        var base := AwaitDatabase(w', Key(k.ns, o.body.spec.databaseRef.value));
        if base.None? {
          return failed, w';
        }
        if !base.value {
          return pending, w';
        }
      }
      var ok;
      ok, w' := CreateOrUpdate(w', ds, RoleEngine(store.value.body.spec.datastoreType), k.name, o.body.spec);
      return if ok then RoleStatus("Ready", true, true, Some(now)) else failed, w';
    }

    /** Serve the object and write down how it went. */
    method Finish(ghost w: Job, k: Key, o: Own) returns (r: Result)
      requires Valid() && kp.On(w) && w.k == k && w.o == o && w.phase == Working(None, None)
      modifies kp, c
      ensures Valid() && c.Elapsed()
      ensures Forsakes(old(kp.book).origins, kp.book.origins, None)
      ensures old(c.Quiet()) && k in old(c.objs.Now()) && old(c.objs.Now())[k] == o ==>
                && c.datastores.hist == old(c.datastores.hist) && c.databases.hist == old(c.databases.hist) &&
                var p := Ext(Key(k.ns, o.body.spec.datastoreRef), k.name);
                var status := Verdict(k, o.body, old(View(c.databases.Now())), old(View(c.datastores.Now())),
                                      old(c.server), c.reachable, lenient, c.clock);
                && c.server == (if status.ready then WithRole(old(c.server), p, o.body.spec) else old(c.server))
                && View(c.objs.Now()) == old(View(c.objs.Now()))[k := o.body.(status := status)] && r == Done
    {
      hide History, kp.Kept, Grew, LogDrifted, View, WithRole, Verdict, AtHome, Keeps, kp.On, c.Smooth, Forsakes,
        Listed, RoleGrants, kp.Valid;
      var status, held;
      ghost var w';
      status, w' := Serve(w, k, o);
      held, w' := kp.SetStatus(w', k, o, status);
      return if held.Found? then Done else Error;
    }

    /** The part of a pass that works towards a ready role. */
    method ReconcileLive(k: Key, o: Own, ghost at: nat) returns (r: Result)
      requires Valid() && at == c.objs.seen && k in c.objs.Cached() && c.objs.Cached()[k] == o
      requires !o.body.deleting
      modifies kp, c
      ensures Valid() && c.Elapsed()
      ensures Forsakes(old(kp.book).origins, kp.book.origins, None)
      ensures old(c.Quiet()) && k in old(c.objs.Now()) && old(c.objs.Now())[k] == o ==>
                && c.datastores.hist == old(c.datastores.hist) && c.databases.hist == old(c.databases.hist)
                && (View(c.objs.Now()), c.server) ==
                   LivePass(old(View(c.objs.Now())), old(View(c.databases.Now())), old(View(c.datastores.Now())),
                            old(c.server), c.reachable, lenient, k, c.clock)
                && r == (if FINALIZER in o.body.finalizers then Done else Requeue)
    {
      hide History, kp.Kept, Grew, LogDrifted, WithRole, AtHome, Verdict, Keeps, kp.On, c.Smooth, LivePass, View,
        Listed, RoleGrants, Timely, Coherent, kp.Valid;
      kp.Readable();
      LiveCases(c.objs.Now(), View(c.databases.Now()), View(c.datastores.Now()), c.server, c.reachable, lenient, k, o,
                c.clock);
      var held, w := kp.Hold(k, o, at);
      if !held.Found? {
        return Error;
      }
      var present := ContainsString(o.body.finalizers, FINALIZER);
      if present {
        assert held.value.body == o.body;
        r := Finish(w, k, held.value);
      } else {
        r := Requeue;
      }
    }

    /** The three dialects of dropping a role. */
    method Drop(ghost w: Job, engine: Engine, p: Place) returns (ok: bool, ghost w': Job)
      requires Valid() && kp.On(w) && w.phase == Cleaning(Some(p)) && engine != Unsupported
      modifies c
      ensures Valid()
      ensures ok ==> w' == w.(phase := Cleaning(None)) && kp.On(w') && p !in kp.OfOurs()
      ensures kp.Same()
      ensures old(c.Quiet()) ==>
                match CleanUp(old(c.server), engine, p)
                case None => !ok && c.server == old(c.server)
                case Some(server) => ok && c.server == server
    {
      hide History, kp.Kept, LogDrifted, AtHome, kp.On, c.Smooth, Listed, RoleGrants, kp.Valid;
      ghost var mid, took;
      ok, mid, took := kp.Sql(w, DropRole(p, engine != SQLServer));
      FewerListed(beginning, mid.roles, c.server.roles, kp.book.vouched);
      w' := w;
      if ok {
        kp.Cleared(w);
        w' := w.(phase := Cleaning(None));
        if engine == MySQL {
          // failing to flush is only logged
          var _ := Flush(w');
        }
      }
    }

    /** Nothing has been said to a server since; and if a call was lost, it was the only one, the read that
        failed. */
    twostate predicate Unsaid(reason: Reason)
      reads c
    {
      && Drifted(old(c.server), c.server, c.others)
      && (reason.CallLost? ==> reason.n == old(c.mishaps).lost && c.mishaps.lost == old(c.mishaps).lost + 1)
    }

    /** Drop the role if the Datastore and its Secret can be read; if not, let it be, for that reason. */
    method Cleanup(k: Key, o: Own, ghost at: nat) returns (ok: bool, ghost w: Job, ghost reason: Option<Reason>)
      requires Valid() && at == c.objs.seen && k in c.objs.Cached() && c.objs.Cached()[k] == o
      requires o.body.deleting
      modifies kp, c
      ensures Valid()
      ensures ok ==> w == Work(k, o, at, Cleaning(None)) && kp.On(w)
      ensures kp.Same()
      ensures reason.None? ==>
                kp.book == old(kp.book) && (ok ==> Ext(Key(k.ns, o.body.spec.datastoreRef), k.name) !in kp.OfOurs())
      ensures reason.Some? ==>
                && ok && kp.book == old(kp.book).(origins := Forsaking(c.objs, old(kp.book).origins, k, o.uid,
                     reason.value))
                && Unread(c.objs, c.datastores, c.secrets, c.mishaps.lost, PLAN, k, reason.value)
                && CameUp(reason.value, at, old(c.datastores).seen, old(c.mishaps).lost)
                && Unsaid(reason.value)
      ensures old(c.Quiet()) ==>
                && (reason.Some? <==> Key(k.ns, o.body.spec.datastoreRef) !in old(c.datastores.Now()).Keys * c.secrets)
                && match Clearing(old(View(c.datastores.Now())), old(c.server), c.secrets, c.reachable, k, o.body.spec)
                   case None => !ok && c.server == old(c.server)
                   case Some(server) => ok && c.server == server
    {
      hide History, kp.Kept, LogDrifted, Forsaking, kp.On, c.Smooth, Unread, CameUp, Listed, RoleGrants, kp.Valid;
      var store;
      store, w, reason := Read(k, o, at);
      if store.None? {
        w := kp.Forsake(k, o, at, reason.value);
        return true, w, reason;
      }
      var ds, engine := Key(k.ns, o.body.spec.datastoreRef), RoleEngine(store.value.body.spec.datastoreType);
      ok := kp.Ping(w, ds, engine);
      if ok {
        ok, w := Drop(w, engine, Ext(ds, k.name));
      }
    }

    /** Read the Datastore of a deleting role, and its Secret; or else there is a reason why not. */
    method Read(k: Key, o: Own, ghost at: nat)
      returns (store: Option<Obj<DatastoreSpec, ReadyStatus>>, ghost w: Job, ghost reason: Option<Reason>)
      requires Valid() && at == c.objs.seen && k in c.objs.Cached() && c.objs.Cached()[k] == o
      requires o.body.deleting
      modifies c
      ensures Valid() && kp.Same()
      ensures at <= c.objs.seen && kp.Copy(w) && w == Work(k, o, at, w.phase)
      ensures store.Some? ==>
                reason.None? && w.phase == Cleaning(Some(Ext(Key(k.ns, o.body.spec.datastoreRef), k.name))) && kp.On(w)
      ensures store.None? ==>
                && reason.Some?
                && Unread(c.objs, c.datastores, c.secrets, c.mishaps.lost, PLAN, k, reason.value)
                && CameUp(reason.value, at, old(c.datastores).seen, old(c.mishaps).lost)
                && Unsaid(reason.value)
      ensures old(c.Quiet()) ==>
                var ds := Key(k.ns, o.body.spec.datastoreRef);
                && c.server == old(c.server)
                && store == if ds in old(c.datastores.Now()) && ds in c.secrets then Some(old(c.datastores.Now())[ds])
                            else None
    {
      hide History, kp.Kept, LogDrifted, kp.On, c.Smooth, Listed, RoleGrants;
      var ds := Key(k.ns, o.body.spec.datastoreRef);
      var got;
      got, w := kp.LookUp(k, o, at, ds);
      if !got.Found? {
        return None, w, Some(if got.NotFound? then NoDatastore(at, c.datastores.seen)
            else CallLost(old(c.mishaps).lost));
      }
      ghost var mid := c.server;
      var ok := kp.Secret(w, ds);
      DriftedTransitively(old(c.server), mid, c.server, c.others);
      kp.Remembers(w);
      if !ok {
        return None, w, Some(if ds !in c.secrets then NoSecret(at) else CallLost(old(c.mishaps).lost));
      }
      return Some(got.value), w, None;
    }

    /** The part of a pass that lets a deleting role go. */
    method ReconcileDeleting(k: Key, o: Own, ghost at: nat) returns (r: Result, ghost reason: Option<Reason>)
      requires Valid() && at == c.objs.seen && k in c.objs.Cached() && c.objs.Cached()[k] == o
      requires o.body.deleting
      modifies kp, c
      ensures Valid() && c.Elapsed()
      ensures Forsakes(old(kp.book).origins, kp.book.origins, reason)
      ensures reason.Some? ==>
                CameUp(reason.value, at, old(c.datastores).seen, old(c.mishaps).lost)
                && (reason.value.CallLost? ==> c.mishaps.lost > old(c.mishaps).lost)
      ensures old(c.Quiet()) && k in old(c.objs.Now()) && old(c.objs.Now())[k] == o ==>
                && c.datastores.hist == old(c.datastores.hist) && c.databases.hist == old(c.databases.hist)
                && (View(c.objs.Now()), c.server) ==
                   DeletingPass(old(View(c.objs.Now())), old(View(c.datastores.Now())), old(c.server), c.secrets,
                                c.reachable, k)
                && var cleared := Clearing(old(View(c.datastores.Now())), old(c.server), c.secrets, c.reachable, k,
                                           o.body.spec);
                   r == if cleared.Some? then Done else Error
    {
      hide History, kp.Kept, Grew, LogDrifted, AtHome, Clearing, kp.On, c.Smooth, Listed, RoleGrants, kp.Valid;
      var clean;
      ghost var w;
      clean, w, reason := Cleanup(k, o, at);
      if !clean {
        return Error, reason;
      }
      var rest := RemoveString(o.body.finalizers, FINALIZER);
      var released := kp.Release(w, k, o, rest);
      return if released then Done else Error, reason;
    }

    /** One pass over `k`. Whatever it forsakes, it forsakes for a reason that came up in it. */
    method Reconcile(k: Key) returns (r: Result, ghost reason: Option<Reason>)
      requires Valid()
      modifies kp, c
      ensures Valid() && c.Elapsed()
      ensures old(c.schedule) != [] ==> |c.schedule| < |old(c.schedule)|
      ensures Forsakes(old(kp.book).origins, kp.book.origins, reason)
      ensures reason.Some? ==>
                CameUp(reason.value, old(c.objs).seen, old(c.datastores).seen, old(c.mishaps).lost)
                && (reason.value.CallLost? ==> c.mishaps.lost > old(c.mishaps).lost)
      ensures old(c.Quiet()) ==>
                && c.datastores.hist == old(c.datastores.hist) && c.databases.hist == old(c.databases.hist)
                && (View(c.objs.Now()), c.server) ==
                   Pass(old(View(c.objs.Now())), old(View(c.databases.Now())), old(View(c.datastores.Now())),
                        old(c.server), c.secrets, c.reachable, lenient, k, c.clock)
                && r == Outcome(old(View(c.objs.Now())), old(View(c.datastores.Now())), old(c.server), c.secrets,
                     c.reachable, k)
    {
      hide History, kp.Kept, Grew, LogDrifted, LivePass, DeletingPass, AtHome, Clearing, kp.On, c.Smooth, Listed,
        RoleGrants, kp.Valid;
      reason := None;
      var got, at := kp.Fetch(k);
      if !got.Found? {
        return if got.NotFound? then Done else Error, None;
      }
      if got.value.body.deleting {
        r, reason := ReconcileDeleting(k, got.value, at);
      } else {
        r := ReconcileLive(k, got.value, at);
      }
    }

    /** Deletion is retried. Whatever cuts the passes before the world has become quiet, at `b` and `sv`,
        the one after that lets a deleting role go exactly if nothing keeps it. */
    method RetryDeletion(k: Key) returns (r: Result, ghost b: Option<Body<RoleSpec, RoleStatus>>, ghost sv: Servers)
      requires Valid() && c.recovers
      modifies kp, c
      ensures Valid() && c.Quiet()
      ensures b.Some? && b.value.deleting && FINALIZER in b.value.finalizers ==>
                var stores, ds := View(c.datastores.Now()), Key(k.ns, b.value.spec.datastoreRef);
                && (Released(View(c.objs.Now()), k) <==> Clearable(b.value, stores, sv, c.secrets, c.reachable, k))
                && (Released(View(c.objs.Now()), k) <==> r == Done)
                && (if Released(View(c.objs.Now()), k) && ds in stores && ds in c.secrets
                    then c.server == sv.(roles := sv.roles - {Ext(ds, k.name)}) else c.server == sv)
    {
      hide History, kp.Kept, kp.On, Pass, Clearable, c.Smooth, kp.Valid, Listed, RoleGrants, AtHome, Outcome;
      while c.schedule != []
        invariant Valid()
        decreases |c.schedule|
      {
        var _, _ := Reconcile(k);
      }
      kp.Readable();
      ghost var roles, dbs, stores := View(c.objs.Now()), View(c.databases.Now()), View(c.datastores.Now());
      b, sv := if k in roles then Some(roles[k]) else None, c.server;
      ghost var reason;
      r, reason := Reconcile(k);
      if k in roles && roles[k].deleting {
        DeletingEnds(roles, dbs, stores, sv, c.secrets, c.reachable, lenient, k, c.clock);
      }
    }

    /** A worker: pass after pass, whatever each of them runs into. */
    method RunWorker(requests: seq<Key>)
      requires Valid()
      modifies kp, c
      ensures Valid() && c.Elapsed()
    {
      for i := 0 to |requests|
        invariant Valid() && c.Elapsed()
      {
        var _, _ := Reconcile(requests[i]);
      }
    }
  }

  /** The two cases of a pass over a live object, in the order of its writes. */
  lemma LiveCases(m: Objs<RoleSpec, RoleStatus>, dbs: BaseBodies, stores: StoreBodies, server: Servers,
                  reachable: set<Key>, lenient: bool, k: Key, o: Obj<RoleSpec, RoleStatus>, now: nat)
    ensures k in m && m[k] == o ==>
              && k in View(m) && View(m)[k] == o.body &&
              var roles, b := View(m), o.body;
              var full := b.(finalizers := AddFinalizer(b.finalizers, FINALIZER));
              var status := Verdict(k, b, dbs, stores, server, reachable, lenient, now);
              LivePass(roles, dbs, stores, server, reachable, lenient, k, now) ==
              if FINALIZER !in b.finalizers then (roles[k := full], server)
              else (roles[k := full][k := b.(status := status)],
                    if status.ready then WithRole(server, Ext(Key(k.ns, b.spec.datastoreRef), k.name), b.spec)
                    else server)
  {
    hide Verdict, WithRole;
    var roles := View(m);
    if k in m && m[k] == o && FINALIZER in o.body.finalizers {
      assert roles[k := o.body] == roles;
    }
  }

  lemma GivenNothing(server: Servers, p: Place, privileges: seq<string>, scope: Option<string>)
    ensures p in server.roles ==>
              && Given(server.roles[p], privileges[..0], scope) == server.roles[p]
              && server == server.(roles := server.roles[p := Given(server.roles[p], privileges[..0], scope)])
  {
    if p in server.roles {
      assert server.roles[p := server.roles[p]] == server.roles;
    }
  }

  lemma GivenAgain(held: set<Grant>, privileges: seq<string>, scope: Option<string>)
    ensures Given(Given(held, privileges, scope), privileges, scope) == Given(held, privileges, scope)
  {
  }

  lemma GivenOneMore(roles: map<Place, set<Grant>>, p: Place, privileges: seq<string>, scope: Option<string>, i: nat)
    requires p in roles && i < |privileges|
    ensures Given(roles[p], privileges[..i + 1], scope)
              == Given(roles[p], privileges[..i], scope) + {Grant(privileges[i], scope)}
    ensures var held := Given(roles[p], privileges[..i], scope);
            roles[p := held][p := held + {Grant(privileges[i], scope)}]
                == roles[p := Given(roles[p], privileges[..i + 1], scope)]
  {
    var some, more := privileges[..i], privileges[..i + 1];
    forall g ensures g in Given(roles[p], more, scope)
        <==> g in Given(roles[p], some, scope) + {Grant(privileges[i], scope)} {
      if g in Given(roles[p], some, scope) && g !in roles[p] {
        var j :| 0 <= j < i && g == Grant(some[j], scope);
        assert more[j] == some[j];
      }
      if g == Grant(privileges[i], scope) {
        assert more[i] == privileges[i];
      }
    }
  }

  ghost predicate AtHome<A(!new)>(origins: map<Ext<A>, Origin>) {
    forall id :: id in origins ==> id.ds.ns == origins[id].k.ns
  }
}
