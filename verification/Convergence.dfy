/** Convergence. In a world where nothing fails and nobody interferes, visiting every resource three
    times over, in any order, makes everything ready; after that a visit changes nothing but the time
    on a role. One visit is one undisturbed pass of the controller in charge, as the controllers'
    `Reconcile` methods are proved to make it. */
module Convergence {
  import opened Api
  import opened Base64
  import opened Server
  import opened Cluster
  import opened Grants
  import opened Idempotence
  import Stores = DatastoreController
  import Bases = DatabaseController
  import Users = UserController
  import Books = MigrationBooks
  import Migrations = MigrationController
  import Roles = RoleController
  import Safety = MigrationSafety

  datatype Resource =
    | Store(k: Key)
    | Base(k: Key)
    | User(k: Key)
    | Migration(k: Key)
    | Role(k: Key)

  datatype World = World(
    stores: Stores.Bodies,
    bases: Bases.Bodies,
    users: Users.Bodies,
    migrations: Migrations.Bodies,
    roles: Roles.Bodies,
    server: Servers)
  {
    predicate Has(r: Resource) {
      match r
      case Store(k) => k in stores
      case Base(k) => k in bases
      case User(k) => k in users
      case Migration(k) => k in migrations
      case Role(k) => k in roles
    }
  }

  /** What does not change: Secrets, what servers accept, which servers let controllers in, among them the role
      controller, which may come with another password, how servers put it that a role exists, checksums. */
  datatype Env = Env(vault: Stores.Vault, accepts: string -> bool, secrets: set<Key>, reachable: set<Key>,
                     byRoles: set<Key>, lenient: bool, checksum: string -> string)

  /** A visit, with the time, the incarnation and the moment that go into logs and statuses. */
  datatype Visit = Visit(what: Resource, now: nat, uid: nat, at: Moment)

  /** A reference that resolves at home leads there. */
  function Home(keys: set<Key>, k: Key, ref: string): Option<Key> {
    if Key(k.ns, ref) in keys then Some(Key(k.ns, ref)) else None
  }

  predicate Named(bases: Bases.Bodies, ref: Option<string>) {
    ref.Some? ==> exists k :: k in bases && k.name == ref.value
  }

  function Step(w: World, env: Env, v: Visit): World {
    match v.what
    case Store(k) =>
      var found := if k in w.stores then Home(env.vault.Keys, k, w.stores[k].spec.secretRef) else None;
      w.(stores := Stores.Pass(w.stores, env.vault, env.accepts, k, found))
    case Base(k) =>
      var found := if k in w.bases then Home(w.stores.Keys, k, w.bases[k].spec.datastoreRef) else None;
      var (bases, server) := Bases.Pass(w.bases, w.stores, w.server, env.reachable, k, found, v.now);
      w.(bases := bases, server := server)
    case User(k) =>
      var named := k in w.users && Named(w.bases, w.users[k].spec.databaseRef);
      var found := if k in w.users then Home(w.stores.Keys, k, w.users[k].spec.datastoreRef) else None;
      var (users, server) := Users.Pass(w.users, w.stores, named, w.server, env.reachable, k, found, v.now);
      w.(users := users, server := server)
    case Migration(k) =>
      var found := if k in w.migrations then Home(w.bases.Keys, k, w.migrations[k].spec.databaseRef) else None;
      var (migrations, server) :=
        Migrations.Pass(w.migrations, w.bases, w.stores, w.server, env.reachable, k, v.uid, found, v.at, v.now,
            env.checksum);
      w.(migrations := migrations, server := server)
    case Role(k) =>
      var (roles, server) :=
        Roles.Pass(w.roles, w.bases, w.stores, w.server, env.secrets, env.byRoles, env.lenient, k, v.now);
      w.(roles := roles, server := server)
  }

  function Run(w: World, env: Env, vs: seq<Visit>): World
    decreases |vs|
  {
    if vs == [] then w else Run(Step(w, env, vs[0]), env, vs[1..])
  }

  // ---------------------------------------------------------------- what is assumed

  function StoreOf(k: Key, ref: string): Key {
    Key(k.ns, ref)
  }

  function EngineFor(w: World, k: Key, ref: string): Engine
    requires StoreOf(k, ref) in w.stores
  {
    EngineOf(w.stores[StoreOf(k, ref)].spec.datastoreType)
  }

  function AccountOf(w: World, k: Key): Account
    requires k in w.users && StoreOf(k, w.users[k].spec.datastoreRef) in w.stores
  {
    var spec := w.users[k].spec;
    Ext(StoreOf(k, spec.datastoreRef), Users.LoginOf(spec, EngineFor(w, k, spec.datastoreRef)))
  }

  predicate GoodStore(w: World, env: Env, k: Key)
    requires k in w.stores
  {
    var b := w.stores[k];
    var secret := Key(k.ns, b.spec.secretRef);
    && !b.deleting && secret in env.vault && Stores.Unlocks(b.spec, k.name, env.vault[secret], env.accepts)
    && k in env.reachable
  }

  predicate GoodUser(w: World, k: Key)
    requires k in w.users
  {
    var b := w.users[k];
    && !b.deleting && StoreOf(k, b.spec.datastoreRef) in w.stores && Decode(b.spec.password).Some?
    && (b.spec.databaseRef.Some? ==> Key(k.ns, b.spec.databaseRef.value) in w.bases)
  }

  predicate GoodRole(w: World, env: Env, k: Key)
    requires k in w.roles
  {
    var b := w.roles[k];
    var ds := StoreOf(k, b.spec.datastoreRef);
    && !b.deleting && ds in w.stores && ds in env.byRoles
    && (w.stores[ds].spec.datastoreType in MYSQL_TYPES
        || (env.lenient && w.stores[ds].spec.datastoreType in {"postgresql", "sqlserver"}))
    && (b.spec.databaseRef.Some? ==> Key(k.ns, b.spec.databaseRef.value) in w.bases)
  }

  /** Nothing is being deleted, references resolve at home, connections are accepted, passwords decode, and
      where a role cannot be created twice the controller can tell that it exists. */
  ghost predicate Good(w: World, env: Env) {
    && (forall k :: k in w.stores ==> GoodStore(w, env, k))
    && (forall k :: k in w.bases ==> !w.bases[k].deleting && StoreOf(k, w.bases[k].spec.datastoreRef) in w.stores)
    && (forall k :: k in w.users ==> GoodUser(w, k))
    && (forall k :: k in w.migrations ==>
          !w.migrations[k].deleting && Key(k.ns, w.migrations[k].spec.databaseRef) in w.bases)
    && (forall k :: k in w.roles ==> GoodRole(w, env, k))
  }

  /** Users that share an account ask for the same password, or, on MySQL, for the same default role, if
      both list any roles at all. */
  ghost predicate Compatible(w: World) {
    forall k, g :: Compatibly(w, k, g)
  }

  predicate Compatibly(w: World, k: Key, g: Key) {
    Share(w, k, g) ==> Agreeing(w, k, g)
  }

  predicate Share(w: World, k: Key, g: Key) {
    k in w.users && GoodUser(w, k) && g in w.users && GoodUser(w, g) && AccountOf(w, k) == AccountOf(w, g)
  }

  predicate Agreeing(w: World, k: Key, g: Key)
    requires k in w.users && GoodUser(w, k) && g in w.users && GoodUser(w, g)
  {
    var engine, s, t := EngineFor(w, k, w.users[k].spec.datastoreRef), w.users[k].spec, w.users[g].spec;
    if engine == MySQL then s.roles == [] || t.roles == [] || s.roles[|s.roles| - 1] == t.roles[|t.roles| - 1]
    else Decode(s.password) == Decode(t.password)
  }

  // ---------------------------------------------------------------- what is reached, and when

  function ScriptOf(w: World, k: Key): seq<Statement>
    requires k in w.users && GoodUser(w, k)
  {
    Users.ScriptFor(w.users[k].spec, EngineFor(w, k, w.users[k].spec.datastoreRef),
        StoreOf(k, w.users[k].spec.datastoreRef))
  }

  predicate BaseReady(w: World, k: Key)
    requires k in w.bases
  {
    var b := w.bases[k];
    && Bases.FINALIZER in b.finalizers
    && b.status.phase == "Ready" && b.status.ready && b.status.createdAt.Some?
    && Ext(StoreOf(k, b.spec.datastoreRef), k.name) in w.server.databases
  }

  ghost predicate UserReady(w: World, k: Key)
    requires k in w.users && GoodUser(w, k)
  {
    var b := w.users[k];
    && Users.FINALIZER in b.finalizers
    && b.status.phase == "Ready" && b.status.ready && b.status.created && b.status.createdAt.Some?
    && HasListed(w.server, ScriptOf(w, k), AccountOf(w, k))
  }

  /** The account has the password and the default role that the user asks for. */
  predicate UserSuited(w: World, k: Key)
    requires k in w.users && GoodUser(w, k)
  {
    var spec := w.users[k].spec;
    && AccountOf(w, k) in w.server.accounts
    && Suits(w.server.accounts[AccountOf(w, k)], EngineFor(w, k, spec.datastoreRef), Decode(spec.password).value,
         spec.roles)
  }

  predicate RoleReady(w: World, k: Key)
    requires k in w.roles
  {
    var b := w.roles[k];
    var p := Ext(StoreOf(k, b.spec.datastoreRef), k.name);
    && b.status.phase == "Ready" && b.status.ready && b.status.created
    && p in w.server.roles && Roles.Given(w.server.roles[p], b.spec.privileges, b.spec.databaseRef) == w.server.roles[p]
  }

  /** What a resource has reached by the end of sweep `n`, if that sweep is the one it is waiting for. */
  ghost predicate Reached(n: nat, w: World, env: Env, r: Resource)
    requires Good(w, env) && w.Has(r)
  {
    match r
    case Store(k) => n == 1 ==> w.stores[k].status == ReadyStatus("Ready", true)
    case Base(k) => n == 2 ==> BaseReady(w, k)
    case User(k) => n == 2 ==> UserReady(w, k) && (Compatible(w) ==> UserSuited(w, k))
    case Migration(k) => n == 3 ==> w.migrations[k].status.applied && Books.FINALIZER in w.migrations[k].finalizers
    case Role(k) => (n == 1 ==> Roles.FINALIZER in w.roles[k].finalizers) && (n == 3 ==> RoleReady(w, k))
  }

  ghost predicate Stage(n: nat, w: World, env: Env) {
    Good(w, env) && forall m: nat, r :: 1 <= m <= n && w.Has(r) ==> Reached(m, w, env, r)
  }

  // ---------------------------------------------------------------- one visit

  ghost predicate Alike<S(!new), T(!new)>(m: map<Key, Body<S, T>>, m': map<Key, Body<S, T>>) {
    m'.Keys == m.Keys && forall k :: k in m ==> m'[k].spec == m[k].spec && m'[k].deleting == m[k].deleting
  }

  /** A visit keeps the cast and what everybody asks for. */
  ghost predicate SameCast(w: World, w': World) {
    && Alike(w.stores, w'.stores)
    && Alike(w.bases, w'.bases)
    && Alike(w.users, w'.users)
    && Alike(w.migrations, w'.migrations)
    && Alike(w.roles, w'.roles)
  }

  lemma UserStaysGood(w: World, w': World, k: Key)
    requires SameCast(w, w') && k in w.users && GoodUser(w, k)
    ensures k in w'.users && w'.users[k].spec == w.users[k].spec
    ensures GoodUser(w', k) && AccountOf(w', k) == AccountOf(w, k) && ScriptOf(w', k) == ScriptOf(w, k)
    ensures EngineFor(w', k, w'.users[k].spec.datastoreRef) == EngineFor(w, k, w.users[k].spec.datastoreRef)
  {
    hide Decode, Users.ScriptFor, EngineOf;
  }

  lemma StoreStaysGood(w: World, w': World, env: Env, k: Key)
    requires Alike(w.stores, w'.stores) && k in w.stores && GoodStore(w, env, k)
    ensures k in w'.stores && GoodStore(w', env, k)
  {
    hide EngineOf, Stores.Opens;
  }

  lemma RoleStaysGood(w: World, w': World, env: Env, k: Key)
    requires SameCast(w, w') && k in w.roles && GoodRole(w, env, k)
    ensures k in w'.roles && GoodRole(w', env, k)
  {
    hide Roles.RoleEngine;
  }

  lemma CastStaysGood(w: World, w': World, env: Env)
    requires Good(w, env) && SameCast(w, w')
    ensures Good(w', env)
    ensures forall r :: w.Has(r) <==> w'.Has(r)
  {
    hide GoodStore, GoodUser, GoodRole;
    forall k | k in w'.stores ensures GoodStore(w', env, k) {
      StoreStaysGood(w, w', env, k);
    }
    forall k | k in w'.users ensures GoodUser(w', k) {
      UserStaysGood(w, w', k);
    }
    forall k | k in w'.roles ensures GoodRole(w', env, k) {
      RoleStaysGood(w, w', env, k);
    }
  }

  /** Who shares an account with whom, and whether they agree, is a matter of the cast. */
  lemma StaysCompatible(w: World, w': World, env: Env)
    requires Good(w, env) && Good(w', env) && SameCast(w, w')
    ensures Compatible(w') <==> Compatible(w)
  {
    hide Compatibly;
    forall k, g ensures Compatibly(w', k, g) == Compatibly(w, k, g) {
      SameAgreement(w, w', env, k, g);
    }
  }

  lemma SameAgreement(w: World, w': World, env: Env, k: Key, g: Key)
    requires Good(w, env) && Good(w', env) && SameCast(w, w')
    ensures Compatibly(w', k, g) == Compatibly(w, k, g)
  {
    hide Decode, EngineOf, GoodUser, GoodStore, GoodRole, AccountOf, ScriptOf, Agreeing;
    if k in w.users && g in w.users {
      UserStaysGood(w, w', k);
      UserStaysGood(w, w', g);
      SameTerms(w, w', k, g);
    }
  }

  lemma SameTerms(w: World, w': World, k: Key, g: Key)
    requires k in w.users && GoodUser(w, k) && g in w.users && GoodUser(w, g)
    requires k in w'.users && GoodUser(w', k) && g in w'.users && GoodUser(w', g)
    requires w'.users[k].spec == w.users[k].spec && w'.users[g].spec == w.users[g].spec
    requires EngineFor(w', k, w'.users[k].spec.datastoreRef) == EngineFor(w, k, w.users[k].spec.datastoreRef)
    requires AccountOf(w', k) == AccountOf(w, k) && AccountOf(w', g) == AccountOf(w, g)
    ensures Share(w', k, g) == Share(w, k, g) && Agreeing(w', k, g) == Agreeing(w, k, g)
  {
    hide Decode, EngineOf, AccountOf;
  }

  lemma AbsentStore(w: World, env: Env, v: Visit, k: Key)
    requires v.what == Store(k) && k !in w.stores
    ensures Step(w, env, v) == w
  {
  }

  lemma StoreVisit(w: World, env: Env, v: Visit, k: Key)
    requires Good(w, env) && v.what == Store(k)
    ensures var w' := Step(w, env, v);
            && w' == w.(stores := w'.stores) && Alike(w.stores, w'.stores)
            && (forall g :: g in w.stores && g != k ==> w'.stores[g] == w.stores[g])
            && (k in w.stores ==> w'.stores[k].status == ReadyStatus("Ready", true))
  {
    hide Stores.Pass, Stores.Unlocks;
    if k in w.stores {
      assert GoodStore(w, env, k);
      Stores.ReadyExactly(w.stores, env.vault, env.accepts, k, Some(Key(k.ns, w.stores[k].spec.secretRef)));
    } else {
      AbsentStore(w, env, v, k);
    }
  }

  predicate StoreReady(w: World, env: Env, ds: Key) {
    ds in w.stores && w.stores[ds].status == ReadyStatus("Ready", true) && ds in env.reachable
    && !EngineOf(w.stores[ds].spec.datastoreType).Unsupported?
  }

  lemma StoresAreReady(w: World, env: Env, ds: Key)
    requires Stage(1, w, env) && ds in w.stores
    ensures StoreReady(w, env, ds)
  {
    hide GoodUser, GoodRole, AccountOf, Compatible;
    assert GoodStore(w, env, ds) && Reached(1, w, env, Store(ds));
  }

  lemma BaseVisit(w: World, env: Env, v: Visit, k: Key)
    requires v.what == Base(k) && (k in w.bases ==> !w.bases[k].deleting)
    ensures var w' := Step(w, env, v);
            && w' == w.(bases := w'.bases, server := w.server.(databases := w'.server.databases))
            && Alike(w.bases, w'.bases) && w.server.databases <= w'.server.databases
            && (forall g :: g in w.bases && g != k ==> w'.bases[g] == w.bases[g])
  {
    hide EngineOf;
  }

  lemma BaseVisitWorks(w: World, env: Env, v: Visit, k: Key)
    requires v.what == Base(k) && k in w.bases && !w.bases[k].deleting
    requires StoreReady(w, env, StoreOf(k, w.bases[k].spec.datastoreRef))
    ensures var w' := Step(w, env, v);
            k in w'.bases && BaseReady(w', k) && (BaseReady(w, k) ==> w' == w)
  {
    hide EngineOf;
    var w', b, p := Step(w, env, v), w.bases[k], Ext(StoreOf(k, w.bases[k].spec.datastoreRef), k.name);
    if BaseReady(w, k) {
      assert w.server.databases + {p} == w.server.databases;
      assert w'.bases[k] == b;
      assert w.bases[k := b] == w.bases;
    }
  }

  /** What a visit to a user leaves alone: databases and logs, roles that are there, other accounts; and
      nothing is taken from its own. */
  ghost predicate Spares(s: Servers, t: Servers, a: Account) {
    && t.databases == s.databases && t.logs == s.logs
    && (forall p :: p in s.roles ==> p in t.roles && t.roles[p] == s.roles[p])
    && (forall b :: b in s.accounts && b != a ==> b in t.accounts && t.accounts[b] == s.accounts[b])
    && Gains(s, t)
  }

  lemma UserVisit(w: World, env: Env, v: Visit, k: Key)
    requires v.what == User(k)
    requires k in w.users ==> GoodUser(w, k)
    ensures var w' := Step(w, env, v);
            && w' == w.(users := w'.users, server := w'.server)
            && Alike(w.users, w'.users)
            && (forall g :: g in w.users && g != k ==> w'.users[g] == w.users[g])
            && (k in w.users ==> Spares(w.server, w'.server, AccountOf(w, k)))
            && (k !in w.users ==> w' == w)
  {
    hide Decode, EngineOf, RunAll, Script, Named, Roles.Given;
    if k in w.users {
      var b, ds := w.users[k], StoreOf(k, w.users[k].spec.datastoreRef);
      if Users.Creatable(b.spec, w.stores, Named(w.bases, b.spec.databaseRef), env.reachable, Some(ds)) {
        RunSpares(w, k);
      }
    }
  }

  lemma ScriptIsProper(w: World, k: Key)
    requires k in w.users && GoodUser(w, k)
    requires !EngineFor(w, k, w.users[k].spec.datastoreRef).Unsupported?
    ensures Proper(ScriptOf(w, k), AccountOf(w, k), Decode(w.users[k].spec.password).value)
  {
    var spec := w.users[k].spec;
    var engine := EngineFor(w, k, spec.datastoreRef);
    hide Decode, EngineOf, Script, Proper;
    ScriptsAreProper(engine, AccountOf(w, k), Decode(spec.password).value, spec.privileges, spec.roles,
        spec.databaseRef);
  }

  lemma RunSpares(w: World, k: Key)
    requires k in w.users && GoodUser(w, k)
    requires !EngineFor(w, k, w.users[k].spec.datastoreRef).Unsupported?
    ensures Spares(w.server, RunAll(w.server, ScriptOf(w, k)), AccountOf(w, k))
  {
    hide Decode, EngineOf, Proper, AccountOf, ScriptOf;
    ScriptIsProper(w, k);
    var script, a, password := ScriptOf(w, k), AccountOf(w, k), Decode(w.users[k].spec.password).value;
    OthersSpared(w.server, script, a, password, |script|);
    ScriptsGain(w.server, script, a, password, |script|);
  }

  /** What a visit does for a user whose Datastore is ready. */
  lemma UserVisitRuns(w: World, env: Env, v: Visit, k: Key)
    requires v.what == User(k) && k in w.users && GoodUser(w, k)
    requires StoreReady(w, env, StoreOf(k, w.users[k].spec.datastoreRef))
    ensures var w', b := Step(w, env, v), w.users[k];
            && k in w'.users && w'.server == RunAll(w.server, ScriptOf(w, k))
            && Users.FINALIZER in w'.users[k].finalizers
            && w'.users[k].status.phase == "Ready" && w'.users[k].status.ready && w'.users[k].status.created
            && w'.users[k].status.createdAt.Some?
            && (UserReady(w, k) ==> w'.users == w.users)
  {
    hide Decode, EngineOf, RunAll, Script, Proper, HasListed;
    var w', b := Step(w, env, v), w.users[k];
    assert b.spec.databaseRef.Some? ==> Key(k.ns, b.spec.databaseRef.value).name == b.spec.databaseRef.value;
    assert Named(w.bases, b.spec.databaseRef);
    if UserReady(w, k) {
      assert w'.users[k] == b;
      assert w.users[k := b] == w.users;
    }
  }

  lemma UserVisitWorks(w: World, env: Env, v: Visit, k: Key)
    requires v.what == User(k) && k in w.users && GoodUser(w, k)
    requires StoreReady(w, env, StoreOf(k, w.users[k].spec.datastoreRef))
    ensures var w' := Step(w, env, v);
            && k in w'.users && GoodUser(w', k) && UserReady(w', k) && UserSuited(w', k)
            && (UserReady(w, k) && UserSuited(w, k) ==> w' == w)
            && (w'.server == w.server ==> UserSuited(w, k))
  {
    hide Decode, EngineOf, RunAll, Script, Proper, HasAll, HasListed, Step, Suits, Users.Pass;
    var w', b := Step(w, env, v), w.users[k];
    var a, engine, password := AccountOf(w, k), EngineFor(w, k, b.spec.datastoreRef), Decode(b.spec.password).value;
    var script := ScriptOf(w, k);
    UserVisit(w, env, v, k);
    UserStaysGood(w, w', k);
    UserVisitRuns(w, env, v, k);
    ScriptIsProper(w, k);
    CompletePassHasAll(w.server, script, a, password);
    AccountIsThere(w'.server, script, a);
    HasAllMeans(w'.server, engine, a, password, b.spec.privileges, b.spec.roles, b.spec.databaseRef);
    if UserReady(w, k) && UserSuited(w, k) {
      HasAllMeans(w.server, engine, a, password, b.spec.privileges, b.spec.roles, b.spec.databaseRef);
      NextPassIsIdle(w.server, script, a, password);
    }
  }

  lemma MigratingOnlyLogs(server: Servers, p: Place, k: Key, spec: Books.MigrationSpec, at: Moment, sum: string)
    ensures var t := Migrations.Migrated(server, p, k, spec, at, sum);
            t == server.(logs := t.logs)
  {
    hide HasRow;
  }

  lemma MigrationVisit(w: World, env: Env, v: Visit, k: Key)
    requires v.what == Migration(k) && (k in w.migrations ==> !w.migrations[k].deleting)
    ensures var w' := Step(w, env, v);
            && w' == w.(migrations := w'.migrations, server := w.server.(logs := w'.server.logs))
            && Alike(w.migrations, w'.migrations)
            && (forall g :: g in w.migrations && g != k ==> w'.migrations[g] == w.migrations[g])
            && (k in w.migrations && w.migrations[k].status.applied ==> w'.migrations[k].status.applied)
            && (k in w.migrations ==> Books.FINALIZER in w'.migrations[k].finalizers)
  {
    hide EngineOf, Migrations.Migrated, Migrations.Applicable, Migrations.Undoing, Books.PlaceOf, Roles.RoleEngine,
      Decode;
    if k in w.migrations {
      var spec := w.migrations[k].spec;
      var db := Key(k.ns, spec.databaseRef);
      if db in w.bases {
        MigratingOnlyLogs(w.server, Books.PlaceOf(db, w.bases[db].spec), k, spec, v.at, env.checksum(spec.sql));
      }
    }
  }

  lemma MigrationVisitAgain(w: World, env: Env, v: Visit, k: Key)
    requires v.what == Migration(k) && k in w.migrations && !w.migrations[k].deleting
    requires w.migrations[k].status.applied && Books.FINALIZER in w.migrations[k].finalizers
    ensures Step(w, env, v) == w
  {
    hide EngineOf, Migrations.Serving, Migrations.Undoing;
    assert w.migrations[k := w.migrations[k]] == w.migrations;
  }

  lemma MigrationVisitWorks(w: World, env: Env, v: Visit, k: Key)
    requires v.what == Migration(k) && k in w.migrations && !w.migrations[k].deleting
    requires var db := Key(k.ns, w.migrations[k].spec.databaseRef);
             db in w.bases && BaseReady(w, db) && StoreReady(w, env, StoreOf(db, w.bases[db].spec.datastoreRef))
    ensures var w' := Step(w, env, v);
            k in w'.migrations && w'.migrations[k].status.applied && Books.FINALIZER in w'.migrations[k].finalizers
  {
    hide EngineOf, Migrations.Migrated;
    var b := w.migrations[k];
    var db := Key(k.ns, b.spec.databaseRef);
    assert Migrations.Applicable(w.stores, w.server, env.reachable, Books.PlaceOf(db, w.bases[db].spec));
  }

  function RolePlace(w: World, k: Key): Place
    requires k in w.roles
  {
    Ext(StoreOf(k, w.roles[k].spec.datastoreRef), k.name)
  }

  lemma RoleVisit(w: World, env: Env, v: Visit, k: Key)
    requires v.what == Role(k) && (k in w.roles ==> !w.roles[k].deleting)
    ensures var w' := Step(w, env, v);
            && w' == w.(roles := w'.roles, server := w.server.(roles := w'.server.roles))
            && Alike(w.roles, w'.roles)
            && (forall g :: g in w.roles && g != k ==> w'.roles[g] == w.roles[g])
            && (k in w.roles ==> Roles.FINALIZER in w'.roles[k].finalizers)
            && (forall p :: p in w.server.roles ==> p in w'.server.roles)
            && (forall p :: p in w.server.roles && (k in w.roles ==> p != RolePlace(w, k)) ==>
                  w'.server.roles[p] == w.server.roles[p])
            && (k !in w.roles ==> w' == w)
  {
    hide Roles.RoleEngine, Roles.Given, Roles.ReadyStore;
  }

  /** Only the time on a role has moved. */
  function Touched(w: World, k: Key, now: nat): World
    requires k in w.roles
  {
    w.(roles := w.roles[k := w.roles[k].(status := w.roles[k].status.(lastUpdated := Some(now)))])
  }

  lemma RoleVisitWorks(w: World, env: Env, v: Visit, k: Key)
    requires v.what == Role(k) && k in w.roles && GoodRole(w, env, k) && Roles.FINALIZER in w.roles[k].finalizers
    requires StoreReady(w, env, StoreOf(k, w.roles[k].spec.datastoreRef))
    requires var ref := w.roles[k].spec.databaseRef;
             ref.Some? ==> Key(k.ns, ref.value) in w.bases && BaseReady(w, Key(k.ns, ref.value))
    ensures var w' := Step(w, env, v);
            && k in w'.roles && RoleReady(w', k) && Roles.FINALIZER in w'.roles[k].finalizers
            && (RoleReady(w, k) ==> w' == Touched(w, k, v.now))
  {
    hide EngineOf, Roles.RoleEngine;
    Roles.RoleEnginesByType(w.stores[StoreOf(k, w.roles[k].spec.datastoreRef)].spec.datastoreType);
    var w', b, p := Step(w, env, v), w.roles[k], RolePlace(w, k);
    assert Roles.Verdict(k, b, w.bases, w.stores, w.server, env.byRoles, env.lenient, v.now)
           == Roles.RoleStatus("Ready", true, true, Some(v.now));
    assert w'.server == Roles.WithRole(w.server, p, b.spec);
    if RoleReady(w, k) {
      assert w.server.roles[p := w.server.roles[p]] == w.server.roles;
    }
  }

  // ---------------------------------------------------------------- any visit

  lemma VisitKeepsCast(w: World, env: Env, v: Visit)
    requires Good(w, env)
    ensures SameCast(w, Step(w, env, v))
  {
    hide Step, GoodStore, GoodRole, AccountOf, ScriptOf, GoodUser;
    match v.what {
      case Store(k) => StoreVisit(w, env, v, k);
      case Base(k) => BaseVisit(w, env, v, k);
      case User(k) => UserVisit(w, env, v, k);
      case Migration(k) => MigrationVisit(w, env, v, k);
      case Role(k) =>
        DeletingRole(w, env, k);
        RoleVisit(w, env, v, k);
    }
  }

  lemma VisitStaysGood(w: World, env: Env, v: Visit)
    requires Good(w, env)
    ensures var w' := Step(w, env, v);
            SameCast(w, w') && Good(w', env) && forall r :: w.Has(r) <==> w'.Has(r)
  {
    hide Step, Good, SameCast;
    VisitKeepsCast(w, env, v);
    CastStaysGood(w, Step(w, env, v), env);
  }

  lemma DeletingRole(w: World, env: Env, k: Key)
    ensures k in w.roles && GoodRole(w, env, k) ==> !w.roles[k].deleting
  {
  }

  lemma KeepsBase(w: World, env: Env, v: Visit, g: Key)
    requires Stage(1, w, env) && g in w.bases && BaseReady(w, g)
    ensures var w' := Step(w, env, v);
            g in w'.bases && BaseReady(w', g)
  {
    hide Step, GoodStore, GoodRole, GoodUser, AccountOf, ScriptOf, RoleReady, UserReady, Reached;
    match v.what {
      case Store(k) => StoreVisit(w, env, v, k);
      case Base(k) =>
        BaseVisit(w, env, v, k);
        if k == g {
          StoresAreReady(w, env, StoreOf(g, w.bases[g].spec.datastoreRef));
          BaseVisitWorks(w, env, v, g);
        }
      case User(k) => UserVisit(w, env, v, k);
      case Migration(k) => MigrationVisit(w, env, v, k);
      case Role(k) =>
        DeletingRole(w, env, k);
        RoleVisit(w, env, v, k);
    }
  }

  /** No other visit touches the object of a user, or takes anything from its account. */
  lemma OthersLeaveUser(w: World, env: Env, v: Visit, g: Key)
    requires Good(w, env) && g in w.users && v.what != User(g)
    ensures StoreOf(g, w.users[g].spec.datastoreRef) in w.stores
    ensures var w', a := Step(w, env, v), AccountOf(w, g);
            && g in w'.users && w'.users[g] == w.users[g]
            && Gains(w.server, w'.server)
            && (a in w.server.accounts && (v.what.User? && v.what.k in w.users ==> AccountOf(w, v.what.k) != a) ==>
                  a in w'.server.accounts && w'.server.accounts[a] == w.server.accounts[a])
  {
    hide Step, GoodStore, GoodRole, GoodUser, AccountOf, ScriptOf;
    UsersStore(w, g);
    match v.what {
      case Store(k) => StoreVisit(w, env, v, k);
      case Base(k) => BaseVisit(w, env, v, k);
      case User(k) => UserVisit(w, env, v, k);
      case Migration(k) => MigrationVisit(w, env, v, k);
      case Role(k) =>
        DeletingRole(w, env, k);
        RoleVisit(w, env, v, k);
    }
  }

  lemma KeepsUser(w: World, env: Env, v: Visit, g: Key)
    requires Stage(1, w, env) && g in w.users && UserReady(w, g)
    ensures var w' := Step(w, env, v);
            g in w'.users && GoodUser(w', g) && UserReady(w', g)
  {
    hide Step, GoodStore, GoodRole, GoodUser, AccountOf, ScriptOf, BaseReady, RoleReady, Reached, HasListed, SameCast,
      Gains;
    var w' := Step(w, env, v);
    UsersStore(w, g);
    if v.what == User(g) {
      StoresAreReady(w, env, StoreOf(g, w.users[g].spec.datastoreRef));
      UserVisitWorks(w, env, v, g);
    } else {
      VisitStaysGood(w, env, v);
      UserStaysGood(w, w', g);
      OthersLeaveUser(w, env, v, g);
      ListedStays(w.server, w'.server, ScriptOf(w, g), AccountOf(w, g));
    }
  }

  /** A user stays suited as long as those who share its account agree with it. */
  lemma KeepsSuited(w: World, env: Env, v: Visit, g: Key)
    requires Stage(1, w, env) && g in w.users && UserSuited(w, g) && Compatible(w)
    ensures var w' := Step(w, env, v);
            g in w'.users && GoodUser(w', g) && UserSuited(w', g)
  {
    hide Step, GoodStore, GoodRole, GoodUser, AccountOf, ScriptOf, BaseReady, RoleReady, Reached, SameCast, Gains,
      Suits, Agreeing, EngineOf, Decode;
    var w' := Step(w, env, v);
    UsersStore(w, g);
    VisitStaysGood(w, env, v);
    UserStaysGood(w, w', g);
    if v.what == User(g) {
      StoresAreReady(w, env, StoreOf(g, w.users[g].spec.datastoreRef));
      UserVisitWorks(w, env, v, g);
    } else {
      OthersLeaveUser(w, env, v, g);
      if v.what.User? && v.what.k in w.users {
        UsersStore(w, v.what.k);
        if AccountOf(w, v.what.k) == AccountOf(w, g) {
          assert Compatibly(w, g, v.what.k) && Share(w, g, v.what.k);
          SharedStaysSuited(w, env, v, v.what.k, g);
        } else {
          SameAccountSuits(w, w', g);
        }
      } else {
        SameAccountSuits(w, w', g);
      }
    }
  }

  lemma SameAccountSuits(w: World, w': World, g: Key)
    requires g in w.users && GoodUser(w, g) && UserSuited(w, g)
    requires g in w'.users && GoodUser(w', g) && w'.users[g].spec == w.users[g].spec
    requires AccountOf(w', g) == AccountOf(w, g)
    requires EngineFor(w', g, w'.users[g].spec.datastoreRef) == EngineFor(w, g, w.users[g].spec.datastoreRef)
    requires AccountOf(w, g) in w'.server.accounts
    requires w'.server.accounts[AccountOf(w, g)] == w.server.accounts[AccountOf(w, g)]
    ensures UserSuited(w', g)
  {
    hide Decode, EngineOf, AccountOf;
  }

  lemma SharedStaysSuited(w: World, env: Env, v: Visit, k: Key, g: Key)
    requires Stage(1, w, env) && v.what == User(k) && k in w.users && g in w.users
    requires GoodUser(w, k) && GoodUser(w, g) && UserSuited(w, g)
    requires AccountOf(w, k) == AccountOf(w, g) && Agreeing(w, g, k)
    ensures var w' := Step(w, env, v);
            g in w'.users && GoodUser(w', g) && UserSuited(w', g)
  {
    hide Step, GoodStore, GoodRole, ScriptOf, BaseReady, RoleReady, Reached, SameCast, Gains, EngineOf, Decode,
      Compatible, RunAll, Script;
    var w', s, t := Step(w, env, v), w.users[k].spec, w.users[g].spec;
    VisitStaysGood(w, env, v);
    UserStaysGood(w, w', g);
    UserStaysGood(w, w', k);
    StoresAreReady(w, env, StoreOf(k, s.datastoreRef));
    UserVisitWorks(w, env, v, k);
    UserVisitRuns(w, env, v, k);
    ScriptUnfolds(w, k);
    RunMoves(w.server, EngineFor(w, k, s.datastoreRef), AccountOf(w, k), Decode(s.password).value, s.privileges,
             s.roles, s.databaseRef);
  }

  lemma ScriptUnfolds(w: World, k: Key)
    requires k in w.users && GoodUser(w, k)
    ensures var spec := w.users[k].spec;
            ScriptOf(w, k) == Script(EngineFor(w, k, spec.datastoreRef), AccountOf(w, k), Decode(spec.password).value,
                                     spec.privileges, spec.roles, spec.databaseRef)
  {
    hide Decode, EngineOf, Script;
  }

  lemma UsersStore(w: World, g: Key)
    requires g in w.users && GoodUser(w, g)
    ensures StoreOf(g, w.users[g].spec.datastoreRef) in w.stores
  {
  }

  lemma KeepsRole(w: World, env: Env, v: Visit, g: Key)
    requires Stage(2, w, env) && g in w.roles && RoleReady(w, g)
    ensures var w' := Step(w, env, v);
            g in w'.roles && RoleReady(w', g)
  {
    hide Step, GoodStore, GoodUser, AccountOf, ScriptOf, BaseReady, UserReady, Roles.Given;
    assert GoodRole(w, env, g);
    match v.what {
      case Store(k) => StoreVisit(w, env, v, k);
      case Base(k) => BaseVisit(w, env, v, k);
      case User(k) => UserVisit(w, env, v, k);
      case Migration(k) => MigrationVisit(w, env, v, k);
      case Role(k) =>
        RoleVisit(w, env, v, k);
        if k == g {
          RoleIsServed(w, env, v, g);
        }
    }
  }

  lemma RoleIsServed(w: World, env: Env, v: Visit, g: Key)
    requires Stage(2, w, env) && g in w.roles && v.what == Role(g)
    ensures var w' := Step(w, env, v);
            && g in w'.roles && RoleReady(w', g) && Roles.FINALIZER in w'.roles[g].finalizers
            && (RoleReady(w, g) ==> w' == Touched(w, g, v.now))
  {
    hide Step, GoodStore, GoodUser, AccountOf, ScriptOf, UserReady, Roles.Given, BaseReady, RoleReady;
    assert GoodRole(w, env, g) && Reached(1, w, env, Role(g));
    assert Stage(1, w, env);
    StoresAreReady(w, env, StoreOf(g, w.roles[g].spec.datastoreRef));
    var ref := w.roles[g].spec.databaseRef;
    if ref.Some? {
      assert Reached(2, w, env, Base(Key(g.ns, ref.value)));
    }
    RoleVisitWorks(w, env, v, g);
  }

  // ---------------------------------------------------------------- sweeps

  /** What has been reached is not lost. */
  lemma KeepsReached(n: nat, w: World, env: Env, v: Visit, r: Resource)
    requires 1 <= n <= 3 && Stage(n - 1, w, env) && w.Has(r) && Reached(n, w, env, r)
    ensures var w' := Step(w, env, v);
            Good(w', env) && w'.Has(r) && Reached(n, w', env, r)
  {
    hide Step, GoodStore, GoodRole, GoodUser, AccountOf, ScriptOf, BaseReady, UserReady, RoleReady, SameCast;
    VisitStaysGood(w, env, v);
    match r {
      case Store(g) => StatusesMove(w, env, v);
      case Base(g) => if n == 2 { KeepsBase(w, env, v, g); }
      case User(g) =>
        if n == 2 {
          KeepsUser(w, env, v, g);
          StaysCompatible(w, Step(w, env, v), env);
          if Compatible(w) {
            KeepsSuited(w, env, v, g);
          }
        }
      case Migration(g) => StatusesMove(w, env, v);
      case Role(g) =>
        StatusesMove(w, env, v);
        if n == 3 { KeepsRole(w, env, v, g); }
    }
  }

  lemma StatusesMove(w: World, env: Env, v: Visit)
    requires Good(w, env)
    ensures var w' := Step(w, env, v);
            && (forall g :: g in w.stores && g in w'.stores && w.stores[g].status == ReadyStatus("Ready", true) ==>
                  w'.stores[g].status == ReadyStatus("Ready", true))
            && (forall g :: g in w.migrations && g in w'.migrations && w.migrations[g].status.applied
                            && Books.FINALIZER in w.migrations[g].finalizers ==>
                  w'.migrations[g].status.applied && Books.FINALIZER in w'.migrations[g].finalizers)
            && (forall g :: g in w.roles && g in w'.roles && Roles.FINALIZER in w.roles[g].finalizers ==>
                  Roles.FINALIZER in w'.roles[g].finalizers)
  {
    hide Step, GoodStore, GoodRole, GoodUser, AccountOf, ScriptOf;
    match v.what {
      case Store(k) => StoreVisit(w, env, v, k);
      case Base(k) => BaseVisit(w, env, v, k);
      case User(k) => UserVisit(w, env, v, k);
      case Migration(k) => MigrationVisit(w, env, v, k);
      case Role(k) =>
        DeletingRole(w, env, k);
        RoleVisit(w, env, v, k);
    }
  }

  /** A visit reaches what the resource was waiting for. */
  lemma VisitReaches(n: nat, w: World, env: Env, v: Visit)
    requires 1 <= n <= 3 && Stage(n - 1, w, env) && w.Has(v.what)
    ensures var w' := Step(w, env, v);
            Good(w', env) && w'.Has(v.what) && Reached(n, w', env, v.what)
  {
    hide Step, GoodStore, GoodRole, GoodUser, AccountOf, ScriptOf, BaseReady, UserReady, RoleReady, SameCast;
    VisitStaysGood(w, env, v);
    match v.what {
      case Store(g) => StoreVisit(w, env, v, g);
      case Base(g) =>
        if n == 2 {
          StoresAreReady(w, env, StoreOf(g, w.bases[g].spec.datastoreRef));
          BaseVisitWorks(w, env, v, g);
        }
      case User(g) =>
        if n == 2 {
          UsersStore(w, g);
          StoresAreReady(w, env, StoreOf(g, w.users[g].spec.datastoreRef));
          UserVisitWorks(w, env, v, g);
        }
      case Migration(g) =>
        MigrationVisit(w, env, v, g);
        if n == 3 {
          var db := Key(g.ns, w.migrations[g].spec.databaseRef);
          assert Reached(2, w, env, Base(db));
          assert Stage(1, w, env);
          StoresAreReady(w, env, StoreOf(db, w.bases[db].spec.datastoreRef));
          MigrationVisitWorks(w, env, v, g);
        }
      case Role(g) =>
        DeletingRole(w, env, g);
        RoleVisit(w, env, v, g);
        if n == 3 {
          RoleIsServed(w, env, v, g);
        }
    }
  }

  lemma VisitKeepsStage(n: nat, w: World, env: Env, v: Visit)
    requires n <= 3 && Stage(n, w, env)
    ensures Stage(n, Step(w, env, v), env)
  {
    hide Step, Reached;
    var w' := Step(w, env, v);
    VisitStaysGood(w, env, v);
    forall m: nat, r | 1 <= m <= n && w'.Has(r) ensures Reached(m, w', env, r) {
      assert Stage(m - 1, w, env);
      KeepsReached(m, w, env, v, r);
    }
  }

  ghost predicate Covers(vs: seq<Visit>, w: World) {
    forall r :: w.Has(r) ==> exists i :: 0 <= i < |vs| && vs[i].what == r
  }

  lemma {:induction false} SweepReaches(n: nat, w: World, env: Env, vs: seq<Visit>)
    requires 1 <= n <= 3 && Stage(n - 1, w, env)
    ensures var w' := Run(w, env, vs);
            && Stage(n - 1, w', env) && (forall r :: w.Has(r) <==> w'.Has(r))
            && (forall r :: w.Has(r) && (Reached(n, w, env, r) || exists i :: 0 <= i < |vs| && vs[i].what == r) ==>
                  Reached(n, w', env, r))
    decreases |vs|
  {
    hide Step, Reached, Good, World.Has;
    if vs != [] {
      var v, rest := vs[0], vs[1..];
      var u := Step(w, env, v);
      VisitKeepsStage(n - 1, w, env, v);
      VisitStaysGood(w, env, v);
      SweepReaches(n, u, env, rest);
      forall r | w.Has(r) && (Reached(n, w, env, r) || exists i :: 0 <= i < |vs| && vs[i].what == r)
        ensures Reached(n, Run(w, env, vs), env, r)
      {
        if Reached(n, w, env, r) {
          KeepsReached(n, w, env, v, r);
        } else if r == v.what {
          VisitReaches(n, w, env, v);
        } else {
          var i :| 0 <= i < |vs| && vs[i].what == r;
          assert rest[i - 1].what == r;
        }
      }
    }
  }

  lemma SweepAdvances(n: nat, w: World, env: Env, vs: seq<Visit>)
    requires 1 <= n <= 3 && Stage(n - 1, w, env) && Covers(vs, w)
    ensures Stage(n, Run(w, env, vs), env) && forall r :: w.Has(r) <==> Run(w, env, vs).Has(r)
  {
    hide Step, Reached, Run, Good;
    SweepReaches(n, w, env, vs);
    var w' := Run(w, env, vs);
    forall m: nat, r | 1 <= m <= n && w'.Has(r) ensures Reached(m, w', env, r) {
      if m < n {
        assert Stage(n - 1, w', env);
      } else {
        assert w.Has(r);
      }
    }
  }

  // ---------------------------------------------------------------- main results

  /** The account of the user, by its user name and, on MySQL and MariaDB, its host, is there and has what the
      user lists: on SQL Server privileges come only with a Database, and no roles; on MySQL the roles are
      there too. */
  predicate Listed(w: World, k: Key)
    requires k in w.users && StoreOf(k, w.users[k].spec.datastoreRef) in w.stores
  {
    var spec := w.users[k].spec;
    var ds := StoreOf(k, spec.datastoreRef);
    var t := w.stores[ds].spec.datastoreType;
    var a := Ext(ds, Login(spec.username, if t in MYSQL_TYPES then spec.host else ""));
    a in w.server.accounts &&
    var h := w.server.accounts[a];
    && (t !in SQLSERVER_TYPES ==> forall g :: g in spec.privileges ==> Grant(g, spec.databaseRef) in h.grants)
    && (t in SQLSERVER_TYPES && spec.databaseRef.Some? ==>
          forall g :: g in spec.privileges ==> Grant(g, None) in h.grants)
    && (t !in SQLSERVER_TYPES ==> forall r :: r in spec.roles ==> r in h.roles)
    && (t in MYSQL_TYPES ==> forall r :: r in spec.roles ==> Ext(ds, r) in w.server.roles)
  }

  /** Everything is ready, and the servers show for it. */
  ghost predicate AllReady(w: World) {
    && (forall k :: k in w.stores ==> w.stores[k].status == ReadyStatus("Ready", true))
    && (forall k :: k in w.bases ==>
          && w.bases[k].status.ready && w.bases[k].status.phase == "Ready"
          && Ext(StoreOf(k, w.bases[k].spec.datastoreRef), k.name) in w.server.databases)
    && (forall k :: k in w.users ==>
          && w.users[k].status.ready && w.users[k].status.phase == "Ready"
          && StoreOf(k, w.users[k].spec.datastoreRef) in w.stores && Listed(w, k))
    && (forall k :: k in w.migrations ==> w.migrations[k].status.applied)
    && (forall k :: k in w.roles ==>
          && w.roles[k].status.ready && w.roles[k].status.phase == "Ready"
          && RolePlace(w, k) in w.server.roles
          && forall g :: g in w.roles[k].spec.privileges ==>
               Grant(g, w.roles[k].spec.databaseRef) in w.server.roles[RolePlace(w, k)])
  }

  lemma ListedInScript(s: Servers, engine: Engine, a: Account, password: seq<Byte>, spec: Users.UserSpec)
    requires engine != Unsupported
    requires HasListed(s, Script(engine, a, password, spec.privileges, spec.roles, spec.databaseRef), a)
    ensures a in s.accounts
    ensures engine != SQLServer ==>
              forall i :: 0 <= i < |spec.privileges| ==>
                Grant(spec.privileges[i], spec.databaseRef) in s.accounts[a].grants
    ensures engine == SQLServer && spec.databaseRef.Some? ==>
              forall i :: 0 <= i < |spec.privileges| ==> Grant(spec.privileges[i], None) in s.accounts[a].grants
    ensures engine != SQLServer ==> forall i :: 0 <= i < |spec.roles| ==> spec.roles[i] in s.accounts[a].roles
    ensures engine == MySQL ==> forall i :: 0 <= i < |spec.roles| ==> Ext(a.ds, spec.roles[i]) in s.roles
  {
    hide Script;
    var script := Script(engine, a, password, spec.privileges, spec.roles, spec.databaseRef);
    var n, scope := if engine == MySQL then 1 else if engine == PostgreSQL then 2 else 3,
                    if engine == SQLServer then None else spec.databaseRef;
    Users.Layout(engine, a, password, spec);
    if engine != SQLServer || spec.databaseRef.Some? {
      forall i | 0 <= i < |spec.privileges| ensures Grant(spec.privileges[i], scope) in s.accounts[a].grants {
        assert script[n + i] == Privileges(a, spec.privileges, scope)[i];
        assert Idle(s, a, script[n + i]);
      }
    }
    if engine != SQLServer {
      var m := n + |spec.privileges|;
      forall i | 0 <= i < |spec.roles|
        ensures spec.roles[i] in s.accounts[a].roles && (engine == MySQL ==> Ext(a.ds, spec.roles[i]) in s.roles)
      {
        if engine == MySQL {
          Users.RoleOf(a, spec.roles, i);
          assert script[m + 3 * i] == Grants.Roles(a, spec.roles)[3 * i];
          assert script[m + (3 * i + 1)] == Grants.Roles(a, spec.roles)[3 * i + 1];
          assert Idle(s, a, script[m + 3 * i]) && Idle(s, a, script[m + (3 * i + 1)]);
        } else {
          assert script[m + i] == Members(a, spec.roles)[i];
          assert Idle(s, a, script[m + i]);
        }
      }
    }
  }

  lemma AccountByName(w: World, k: Key)
    requires k in w.users && StoreOf(k, w.users[k].spec.datastoreRef) in w.stores
    ensures var spec, ds := w.users[k].spec, StoreOf(k, w.users[k].spec.datastoreRef);
            var host := if w.stores[ds].spec.datastoreType in MYSQL_TYPES then spec.host else "";
            AccountOf(w, k) == Ext(ds, Login(spec.username, host))
  {
  }

  /** Two users share an account exactly if they name the same Datastore in one namespace, have the same user
      name and, on MySQL and MariaDB, the same host. */
  lemma SharingMeans(w: World, k: Key, g: Key)
    requires k in w.users && GoodUser(w, k) && g in w.users && GoodUser(w, g)
    ensures var s, t := w.users[k].spec, w.users[g].spec;
            Share(w, k, g) <==>
              && k.ns == g.ns && s.datastoreRef == t.datastoreRef && s.username == t.username
              && (w.stores[Key(k.ns, s.datastoreRef)].spec.datastoreType in MYSQL_TYPES ==> s.host == t.host)
  {
    hide Decode;
    AccountByName(w, k);
    AccountByName(w, g);
  }

  lemma ReadyIsListed(w: World, env: Env, k: Key)
    requires k in w.users && GoodUser(w, k) && UserReady(w, k)
    requires StoreReady(w, env, StoreOf(k, w.users[k].spec.datastoreRef))
    ensures Listed(w, k)
  {
    hide Decode, EngineOf, Script, HasListed, AccountOf;
    var spec := w.users[k].spec;
    ScriptUnfolds(w, k);
    AccountByName(w, k);
    EnginesByType(w.stores[StoreOf(k, spec.datastoreRef)].spec.datastoreType);
    ListedInScript(w.server, EngineFor(w, k, spec.datastoreRef), AccountOf(w, k), Decode(spec.password).value, spec);
  }

  lemma RoleHasPrivileges(w: World, k: Key)
    requires k in w.roles && RoleReady(w, k)
    ensures RolePlace(w, k) in w.server.roles
    ensures forall g :: g in w.roles[k].spec.privileges ==>
              Grant(g, w.roles[k].spec.databaseRef) in w.server.roles[RolePlace(w, k)]
  {
  }

  lemma StageMeansReady(w: World, env: Env)
    requires Stage(3, w, env)
    ensures AllReady(w)
  {
    hide GoodStore, GoodRole, GoodUser, AccountOf, ScriptOf, HasListed, Listed, RoleReady, UserReady, Compatible;
    forall k | k in w.stores ensures w.stores[k].status == ReadyStatus("Ready", true) {
      assert Reached(1, w, env, Store(k));
    }
    forall k | k in w.bases ensures BaseReady(w, k) {
      assert Reached(2, w, env, Base(k));
    }
    forall k | k in w.users
      ensures w.users[k].status.ready && w.users[k].status.phase == "Ready"
      ensures StoreOf(k, w.users[k].spec.datastoreRef) in w.stores && Listed(w, k)
    {
      assert Reached(2, w, env, User(k)) && Stage(1, w, env);
      UsersStore(w, k);
      StoresAreReady(w, env, StoreOf(k, w.users[k].spec.datastoreRef));
      ReadyIsListed(w, env, k);
      ReadyStatusOf(w, k);
    }
    forall k | k in w.migrations ensures w.migrations[k].status.applied {
      assert Reached(3, w, env, Migration(k));
    }
    forall k | k in w.roles
      ensures w.roles[k].status.ready && w.roles[k].status.phase == "Ready" && RolePlace(w, k) in w.server.roles
      ensures forall g :: g in w.roles[k].spec.privileges ==>
                Grant(g, w.roles[k].spec.databaseRef) in w.server.roles[RolePlace(w, k)]
    {
      assert Reached(3, w, env, Role(k));
      RoleHasPrivileges(w, k);
      RoleStatusOf(w, k);
    }
  }

  lemma ReadyStatusOf(w: World, k: Key)
    requires k in w.users && GoodUser(w, k) && UserReady(w, k)
    ensures w.users[k].status.ready && w.users[k].status.phase == "Ready"
  {
  }

  lemma RoleStatusOf(w: World, k: Key)
    requires k in w.roles && RoleReady(w, k)
    ensures w.roles[k].status.ready && w.roles[k].status.phase == "Ready"
  {
  }

  /** Once everything is ready, a visit changes nothing but the time at which a role was last updated;
      and everything stays ready. */
  lemma IdleVisit(w: World, env: Env, v: Visit)
    requires Stage(3, w, env) && Compatible(w)
    ensures var w' := Step(w, env, v);
            && Stage(3, w', env)
            && w' == if v.what.Role? && v.what.k in w.roles then Touched(w, v.what.k, v.now) else w
  {
    hide Step, GoodStore, GoodRole, GoodUser, AccountOf, ScriptOf, BaseReady, UserReady, RoleReady;
    VisitKeepsStage(3, w, env, v);
    assert Stage(2, w, env) && Stage(1, w, env);
    match v.what {
      case Store(g) =>
        StoreVisit(w, env, v, g);
        if g in w.stores {
          assert Reached(1, w, env, Store(g));
          StoreVisitAgain(w, env, v, g);
        }
      case Base(g) =>
        BaseVisit(w, env, v, g);
        if g in w.bases {
          assert Reached(2, w, env, Base(g));
          StoresAreReady(w, env, StoreOf(g, w.bases[g].spec.datastoreRef));
          BaseVisitWorks(w, env, v, g);
        } else {
          AbsentBase(w, env, v, g);
        }
      case User(g) =>
        UserVisit(w, env, v, g);
        if g in w.users {
          assert Reached(2, w, env, User(g));
          UserVisitAgain(w, env, v, g);
        }
      case Migration(g) =>
        MigrationVisit(w, env, v, g);
        if g in w.migrations {
          assert Reached(3, w, env, Migration(g));
          MigrationVisitAgain(w, env, v, g);
        } else {
          AbsentMigration(w, env, v, g);
        }
      case Role(g) =>
        DeletingRole(w, env, g);
        RoleVisit(w, env, v, g);
        if g in w.roles {
          assert Reached(3, w, env, Role(g));
          RoleIsServed(w, env, v, g);
        }
    }
  }

  lemma UserVisitAgain(w: World, env: Env, v: Visit, g: Key)
    requires Stage(1, w, env) && v.what == User(g) && g in w.users && UserReady(w, g) && UserSuited(w, g)
    ensures Step(w, env, v) == w
  {
    hide Step, GoodStore, GoodRole, GoodUser, AccountOf, ScriptOf, UserReady, UserSuited, Compatible;
    UsersStore(w, g);
    StoresAreReady(w, env, StoreOf(g, w.users[g].spec.datastoreRef));
    UserVisitWorks(w, env, v, g);
  }

  lemma StoreVisitAgain(w: World, env: Env, v: Visit, g: Key)
    requires Good(w, env) && v.what == Store(g) && (g in w.stores ==> w.stores[g].status == ReadyStatus("Ready", true))
    ensures Step(w, env, v) == w
  {
    hide Stores.Pass, Stores.Unlocks;
    if g in w.stores {
      assert GoodStore(w, env, g);
      Stores.ReadyExactly(w.stores, env.vault, env.accepts, g, Some(Key(g.ns, w.stores[g].spec.secretRef)));
    } else {
      AbsentStore(w, env, v, g);
    }
  }

  lemma AbsentBase(w: World, env: Env, v: Visit, g: Key)
    requires v.what == Base(g) && g !in w.bases
    ensures Step(w, env, v) == w
  {
  }

  lemma AbsentMigration(w: World, env: Env, v: Visit, g: Key)
    requires v.what == Migration(g) && g !in w.migrations
    ensures Step(w, env, v) == w
  {
  }

  // ---------------------------------------------------------------- migrations on record

  /** Whatever is applied is on record where its Database leads. */
  ghost predicate Honest(w: World) {
    forall k :: k in w.migrations && w.migrations[k].status.applied ==> OnRecord(w, k)
  }

  predicate OnRecord(w: World, k: Key)
    requires k in w.migrations
  {
    var db := Key(k.ns, w.migrations[k].spec.databaseRef);
    db in w.bases && HasRow(w.server.Log(Books.PlaceOf(db, w.bases[db].spec)), w.migrations[k].spec.version)
  }

  /** A visit to a migration takes no record away, and makes the one that it applies. */
  lemma MigrationVisitRecords(w: World, env: Env, v: Visit, k: Key)
    requires v.what == Migration(k) && k in w.migrations && !w.migrations[k].deleting
    requires Key(k.ns, w.migrations[k].spec.databaseRef) in w.bases
    ensures var w', db := Step(w, env, v), Key(k.ns, w.migrations[k].spec.databaseRef);
            && (forall p, version :: HasRow(w.server.Log(p), version) ==> HasRow(w'.server.Log(p), version))
            && (k in w'.migrations && w'.migrations[k].status.applied && !w.migrations[k].status.applied ==>
                  HasRow(w'.server.Log(Books.PlaceOf(db, w.bases[db].spec)), w.migrations[k].spec.version))
  {
    hide HasRow, Migrations.Migrated, EngineOf;
    var spec, db := w.migrations[k].spec, Key(k.ns, w.migrations[k].spec.databaseRef);
    var q, sum := Books.PlaceOf(db, w.bases[db].spec), env.checksum(spec.sql);
    forall p, version | HasRow(w.server.Log(p), version)
      ensures HasRow(Migrations.Migrated(w.server, q, k, spec, v.at, sum).Log(p), version)
    {
      Safety.MigratedRows(w.server, q, k, spec, v.at, sum, p, version);
    }
    Safety.MigratedIsOnRecord(w.server, q, k, spec, v.at, sum);
  }

  lemma StaysHonest(w: World, env: Env, v: Visit)
    requires Good(w, env) && Honest(w)
    ensures Honest(Step(w, env, v))
  {
    hide Step, GoodStore, GoodRole, GoodUser, AccountOf, ScriptOf, HasRow, OnRecord;
    var w' := Step(w, env, v);
    VisitStaysGood(w, env, v);
    forall g | g in w'.migrations && w'.migrations[g].status.applied ensures OnRecord(w', g) {
      if v.what == Migration(g) {
        StaysOnRecord(w, env, v, g, g);
      } else {
        OthersLeaveMigration(w, env, v, g);
        if v.what.Migration? && v.what.k in w.migrations {
          StaysOnRecord(w, env, v, v.what.k, g);
        } else {
          LogsStay(w, env, v, g);
        }
      }
    }
  }

  lemma OthersLeaveMigration(w: World, env: Env, v: Visit, g: Key)
    requires Good(w, env) && g in w.migrations && v.what != Migration(g)
    ensures g in Step(w, env, v).migrations && Step(w, env, v).migrations[g] == w.migrations[g]
  {
    hide Step, GoodStore, GoodRole, GoodUser, AccountOf, ScriptOf;
    match v.what {
      case Store(k) => StoreVisit(w, env, v, k);
      case Base(k) => BaseVisit(w, env, v, k);
      case User(k) => UserVisit(w, env, v, k);
      case Migration(k) => MigrationVisit(w, env, v, k);
      case Role(k) =>
        DeletingRole(w, env, k);
        RoleVisit(w, env, v, k);
    }
  }

  lemma StaysOnRecord(w: World, env: Env, v: Visit, k: Key, g: Key)
    requires Good(w, env) && v.what == Migration(k) && k in w.migrations && g in w.migrations
    requires w.migrations[g].status.applied ==> OnRecord(w, g)
    requires g != k ==> w.migrations[g].status.applied
    ensures var w' := Step(w, env, v);
            g in w'.migrations && (w'.migrations[g].status.applied ==> OnRecord(w', g))
  {
    hide Step, GoodStore, GoodRole, GoodUser, AccountOf, ScriptOf, HasRow;
    MigrationVisit(w, env, v, k);
    MigrationVisitRecords(w, env, v, k);
  }

  lemma LogsStay(w: World, env: Env, v: Visit, g: Key)
    requires Good(w, env) && g in w.migrations && OnRecord(w, g) && (v.what.Migration? ==> v.what.k !in w.migrations)
    requires g in Step(w, env, v).migrations && Step(w, env, v).migrations[g] == w.migrations[g]
    ensures OnRecord(Step(w, env, v), g)
  {
    hide Step, GoodStore, GoodRole, GoodUser, AccountOf, ScriptOf, HasRow;
    match v.what {
      case Store(k) => StoreVisit(w, env, v, k);
      case Base(k) => BaseVisit(w, env, v, k);
      case User(k) => UserVisit(w, env, v, k);
      case Migration(k) => AbsentMigration(w, env, v, k);
      case Role(k) =>
        DeletingRole(w, env, k);
        RoleVisit(w, env, v, k);
    }
  }

  /** What no run of visits changes: the cast, who shares an account with whom, and honesty. */
  lemma {:induction false} RunKeeps(w: World, env: Env, vs: seq<Visit>)
    requires Good(w, env)
    ensures var w' := Run(w, env, vs);
            Good(w', env) && (Compatible(w') <==> Compatible(w)) && (Honest(w) ==> Honest(w'))
    decreases |vs|
  {
    hide Step, Good, Compatible, Honest, SameCast;
    if vs != [] {
      var u := Step(w, env, vs[0]);
      VisitStaysGood(w, env, vs[0]);
      StaysCompatible(w, u, env);
      if Honest(w) {
        StaysHonest(w, env, vs[0]);
      }
      RunKeeps(u, env, vs[1..]);
    }
  }

  // ---------------------------------------------------------------- sweep after sweep

  function Sweeps(w: World, env: Env, sweeps: seq<seq<Visit>>): World
    decreases |sweeps|
  {
    if sweeps == [] then w else Sweeps(Run(w, env, sweeps[0]), env, sweeps[1..])
  }

  ghost predicate AllCover(sweeps: seq<seq<Visit>>, w: World) {
    forall i :: 0 <= i < |sweeps| ==> Covers(sweeps[i], w)
  }

  /** The world but for the times on roles. */
  function Timeless(w: World): World {
    w.(roles := map k | k in w.roles :: w.roles[k].(status := w.roles[k].status.(lastUpdated := None)))
  }

  lemma NothingToReach(w: World, env: Env)
    requires Good(w, env)
    ensures Stage(0, w, env)
  {
  }

  lemma {:induction false} SweepsAdvance(n: nat, w: World, env: Env, sweeps: seq<seq<Visit>>)
    requires n <= 3 && Stage(n, w, env) && AllCover(sweeps, w) && n + |sweeps| >= 3
    ensures Stage(3, Sweeps(w, env, sweeps), env)
    decreases |sweeps|
  {
    hide Step, Run, Reached, Good;
    if sweeps != [] {
      var u := Run(w, env, sweeps[0]);
      assert Covers(sweeps[0], w);
      if n < 3 {
        SweepAdvances(n + 1, w, env, sweeps[0]);
      } else {
        assert Stage(2, w, env);
        SweepAdvances(3, w, env, sweeps[0]);
      }
      forall i | 0 <= i < |sweeps[1..]| ensures Covers(sweeps[1..][i], u) {
        assert Covers(sweeps[i + 1], w);
      }
      SweepsAdvance(if n < 3 then n + 1 else 3, u, env, sweeps[1..]);
    }
  }

  lemma {:induction false} SweepsKeep(w: World, env: Env, sweeps: seq<seq<Visit>>)
    requires Good(w, env)
    ensures var w' := Sweeps(w, env, sweeps);
            Good(w', env) && (Compatible(w') <==> Compatible(w)) && (Honest(w) ==> Honest(w'))
    decreases |sweeps|
  {
    hide Run, Good, Compatible, Honest;
    if sweeps != [] {
      RunKeeps(w, env, sweeps[0]);
      SweepsKeep(Run(w, env, sweeps[0]), env, sweeps[1..]);
    }
  }

  /** Once everything is ready, and users that share an account agree, no run of visits changes anything,
      on the servers or in the store, but the times at which roles were last updated. */
  lemma {:induction false} NothingChanges(w: World, env: Env, vs: seq<Visit>)
    requires Stage(3, w, env) && Compatible(w)
    ensures Timeless(Run(w, env, vs)) == Timeless(w)
    decreases |vs|
  {
    hide Step, Reached, Good, Compatible;
    if vs != [] {
      IdleVisit(w, env, vs[0]);
      RunKeeps(w, env, [vs[0]]);
      assert Run(w, env, [vs[0]]) == Step(w, env, vs[0]) by {
        OneVisit(w, env, vs[0]);
      }
      NothingChanges(Step(w, env, vs[0]), env, vs[1..]);
    }
  }

  lemma OneVisit(w: World, env: Env, v: Visit)
    ensures Run(w, env, [v]) == Step(w, env, v)
  {
    hide Step;
    assert Run(Step(w, env, v), env, [v][1..]) == Step(w, env, v);
  }

  /** Any three sweeps, each visiting every resource at least once, in any order and as often as they
      like, end with everything ready, accounts and roles with all that is listed for them; and with
      every migration on record, if those that were applied to begin with were. */
  lemma ThreeSweeps(w: World, env: Env, sweeps: seq<seq<Visit>>)
    requires Good(w, env) && |sweeps| == 3 && AllCover(sweeps, w)
    ensures AllReady(Sweeps(w, env, sweeps))
    ensures Honest(w) ==> forall k :: k in Sweeps(w, env, sweeps).migrations ==> OnRecord(Sweeps(w, env, sweeps), k)
  {
    hide Step, Run, Reached, Good, Listed, OnRecord, Compatible;
    NothingToReach(w, env);
    SweepsAdvance(0, w, env, sweeps);
    StageMeansReady(Sweeps(w, env, sweeps), env);
    SweepsKeep(w, env, sweeps);
  }

  /** Whatever is visited, nothing changes any more but the times on roles. */
  ghost predicate Settled(w: World, env: Env) {
    forall later :: Timeless(Run(w, env, later)) == Timeless(w)
  }

  /** A visit to a user that changes nothing on the servers found the account as that user wants it. */
  lemma UnchangedIsSuited(w: World, env: Env, k: Key)
    requires Stage(3, w, env) && k in w.users && Settled(w, env)
    ensures GoodUser(w, k) && UserSuited(w, k)
  {
    hide Step, Reached, GoodStore, GoodRole, GoodUser, Compatible, UserSuited;
    var v := Visit(User(k), 0, 0, Moment(0, 0));
    OneVisit(w, env, v);
    assert Timeless(Run(w, env, [v])) == Timeless(w);
    UsersStore(w, k);
    assert Stage(1, w, env);
    StoresAreReady(w, env, StoreOf(k, w.users[k].spec.datastoreRef));
    UserVisitWorks(w, env, v, k);
  }

  lemma SettledIsCompatible(w: World, env: Env)
    requires Stage(3, w, env) && Settled(w, env)
    ensures Compatible(w)
  {
    hide Settled, Stage, Agreeing, UserSuited, GoodUser;
    forall k, g ensures Compatibly(w, k, g) {
      if Share(w, k, g) {
        UnchangedIsSuited(w, env, k);
        UnchangedIsSuited(w, env, g);
        PasswordsDecode(w, k);
        PasswordsDecode(w, g);
        SuitedAgree(w, k, g);
      }
    }
  }

  lemma SuitedAgree(w: World, k: Key, g: Key)
    requires Share(w, k, g) && UserSuited(w, k) && UserSuited(w, g)
    requires Decode(w.users[k].spec.password).Some? && Decode(w.users[g].spec.password).Some?
    ensures Agreeing(w, k, g)
  {
    hide Decode, EngineOf;
  }

  /** After three sweeps nothing changes any more but the times on roles, whatever is visited and however
      often, exactly if users that share an account agree: on its password, or, on MySQL, on the last role
      listed, if both list any. */
  lemma ThenNothingChanges(w: World, env: Env, sweeps: seq<seq<Visit>>)
    requires Good(w, env) && |sweeps| == 3 && AllCover(sweeps, w)
    ensures Compatible(w) <==> Settled(Sweeps(w, env, sweeps), env)
  {
    hide Step, Run, Reached, Good, Sweeps, Timeless, Covers, Compatible;
    NothingToReach(w, env);
    SweepsAdvance(0, w, env, sweeps);
    SweepsKeep(w, env, sweeps);
    var last := Sweeps(w, env, sweeps);
    if Compatible(w) {
      forall later ensures Timeless(Run(last, env, later)) == Timeless(last) {
        NothingChanges(last, env, later);
      }
    }
    if Settled(last, env) {
      SettledIsCompatible(last, env);
    }
  }

  lemma PasswordsDecode(w: World, k: Key)
    requires k in w.users && GoodUser(w, k)
    ensures Decode(w.users[k].spec.password).Some?
  {
  }

  // ---------------------------------------------------------------- a shared account

  const DS := Key("ns", "ds")
  const U := Key("ns", "u")
  const V := Key("ns", "v")

  /** Two users of one login on PostgreSQL, with different passwords. */
  function Shared(): World {
    World(
      map[DS := Body([], false, DatastoreSpec("postgres", "host", 5432, "admin", "secret", "", "", ""),
                     ReadyStatus("", false))],
      map[],
      map[U := Body([], false, Users.UserSpec("app", Encode([1]), "ds", None, [], [], ""), Users.BLANK),
          V := Body([], false, Users.UserSpec("app", Encode([2]), "ds", None, [], [], ""), Users.BLANK)],
      map[], map[],
      Servers({}, map[], map[], map[]))
  }

  function Anywhere(): Env {
    Env(map[Key("ns", "secret") := map["password" := "p"]], s => true, {DS}, {DS}, {DS}, true, s => s)
  }

  /** Nothing forbids that two users name the same account, and both become ready; but they never settle:
      whatever the sweeps, some later visit changes the password again. */
  lemma SharedAccountNeverSettles(sweeps: seq<seq<Visit>>)
    requires |sweeps| == 3 && AllCover(sweeps, Shared())
    ensures Good(Shared(), Anywhere())
    ensures AllReady(Sweeps(Shared(), Anywhere(), sweeps))
    ensures !Settled(Sweeps(Shared(), Anywhere(), sweeps), Anywhere())
  {
    hide Step, Run, Sweeps, Timeless, Covers, AllReady, Compatible;
    SharedIsGood();
    ThreeSweeps(Shared(), Anywhere(), sweeps);
    ThenNothingChanges(Shared(), Anywhere(), sweeps);
  }

  lemma SharedIsGood()
    ensures Good(Shared(), Anywhere()) && !Compatible(Shared())
  {
    hide Decode, Encode;
    var w := Shared();
    EncodedPasswordsPass([1]);
    EncodedPasswordsPass([2]);
    assert GoodUser(w, U) && GoodUser(w, V);
    assert GoodStore(w, Anywhere(), DS);
    assert Share(w, U, V) && !Agreeing(w, U, V);
    assert !Compatibly(w, U, V);
  }
}
