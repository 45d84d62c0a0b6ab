/** How an undisturbed pass over a live object ends, case by case: by the spellings of types, the phases that
    objects show, and what is on the servers afterwards. What a pass over a deleting object comes to stands with
    the controllers. */
module Endings {
  import opened Api
  import opened Base64
  import opened Server
  import opened Cluster
  import opened Grants
  import opened Idempotence
  import Bases = DatabaseController
  import Users = UserController
  import Books = MigrationBooks
  import Migrations = MigrationController
  import Roles = RoleController
  import Safety = MigrationSafety

  /** Only `k` has changed, and of it only finalizers, to which `f` was added, and the status. */
  ghost predicate OnlyServed<S(!new), T(!new)>(m: map<Key, Body<S, T>>, m': map<Key, Body<S, T>>, k: Key, f: string) {
    && k in m && m'.Keys == m.Keys
    && (forall g :: g in m && g != k ==> m'[g] == m[g])
    && m'[k] == m[k].(finalizers := m'[k].finalizers, status := m'[k].status)
    && f in m'[k].finalizers && (forall g :: g != f ==> (g in m'[k].finalizers <==> g in m[k].finalizers))
  }

  /** The Datastore lets controllers in that know all the spellings. */
  predicate Open(stores: Bases.StoreBodies, reachable: set<Key>, ds: Key) {
    ds in stores && stores[ds].spec.datastoreType in KNOWN_TYPES && ds in reachable
  }

  // ---------------------------------------------------------------- databases

  /** A Database fails if its Datastore is nowhere, or is ready but lets nobody in, or is of no known type; it
      waits if the Datastore is not ready; and otherwise it is ready, the first time with the time, and it is
      there, and nothing else has changed on the servers. */
  lemma DatabaseEnds(dbs: Bases.Bodies, stores: Bases.StoreBodies, server: Servers, reachable: set<Key>, k: Key,
                     found: Option<Key>, now: nat)
    requires k in dbs && !dbs[k].deleting
    ensures var (dbs', server') := Bases.Pass(dbs, stores, server, reachable, k, found, now);
            && OnlyServed(dbs, dbs', k, "db.fatiudeen.dev/database-finalizer")
            && var s, s', r := dbs[k].status, dbs'[k].status, Bases.Outcome(dbs, dbs', k);
               if found.None? || found.value !in stores then
                 s' == s.(phase := "Failed", ready := false) && server' == server && r == Requeue
               else if !stores[found.value].status.ready then
                 s' == s.(phase := "Waiting", ready := false) && server' == server && r == Requeue
               else if !Open(stores, reachable, found.value) then
                 s' == s.(phase := "Failed", ready := false) && server' == server && r == Requeue
               else
                 && s' == s.(phase := "Ready", ready := true, createdAt := s'.createdAt)
                 && s'.createdAt == (if s.createdAt.Some? then s.createdAt else Some(now))
                 && server' == server.(databases := server.databases + {Ext(found.value, k.name)}) && r == Done
  {
  }

  // ---------------------------------------------------------------- users

  /** A User fails if its Datastore or its Database is nowhere, or if the Datastore lets nobody in, or is of no
      known type, or if its password does not decode; it waits if the Datastore is not ready. Otherwise it is
      ready and created, and there is the one account of its user name and, on MySQL and MariaDB, its host,
      elsewhere of no host; where passwords are set, or if the account is new, with the password. No other
      account has changed. */
  lemma UserEnds(users: Users.Bodies, stores: Users.StoreBodies, dbs: Databases, server: Servers,
                 reachable: set<Key>, k: Key, found: Option<Key>, now: nat)
    requires k in users && !users[k].deleting
    ensures var b := users[k];
            var named := Users.Named(dbs, b.spec.databaseRef);
            var missing := b.spec.databaseRef.Some? && forall g :: g in dbs ==> g.name != b.spec.databaseRef.value;
            var (users', server') := Users.Pass(users, stores, named, server, reachable, k, found, now);
            && OnlyServed(users, users', k, "db.fatiudeen.dev/user-finalizer")
            && var s, s', r := b.status, users'[k].status, Users.Outcome(users, users', k);
               var created := s.created && s.phase != "";
               if found.None? || found.value !in stores then
                 s' == s.(phase := "Failed", ready := false, created := created) && server' == server && r == Requeue
               else if !stores[found.value].status.ready then
                 s' == s.(phase := "Waiting", ready := false, created := created) && server' == server && r == Requeue
               else if missing || !Open(stores, reachable, found.value) || Decode(b.spec.password).None? then
                 s' == s.(phase := "Failed", ready := false, created := created) && server' == server && r == Requeue
               else
                 && s' == s.(phase := "Ready", ready := true, created := true, createdAt := s'.createdAt)
                 && s'.createdAt == (if s.createdAt.Some? then s.createdAt else Some(now)) && r == Done
                 && HasAccount(server, server', b.spec, stores[found.value].spec.datastoreType, found.value)
  {
    hide RunAll, Users.ScriptFor, Decode, HasAccount, AddFinalizer;
    var spec := users[k].spec;
    if found.Some? && found.value in stores && Open(stores, reachable, found.value) && Decode(spec.password).Some? {
      RunGivesAccount(server, spec, stores[found.value].spec.datastoreType, found.value);
    }
  }

  /** Between the two, the account of the user was made or seen to, and no other one. */
  predicate HasAccount(s: Servers, t: Servers, spec: Users.UserSpec, datastoreType: string, ds: Key) {
    var a := Ext(ds, Login(spec.username, if datastoreType in MYSQL_TYPES then spec.host else ""));
    && t.accounts.Keys == s.accounts.Keys + {a}
    && (forall b :: b in s.accounts && b != a ==> t.accounts[b] == s.accounts[b])
    && (a !in s.accounts || datastoreType !in MYSQL_TYPES ==>
          Decode(spec.password) == Some(t.accounts[a].password))
    && t.databases == s.databases && t.logs == s.logs
    && (forall p :: p in s.roles ==> p in t.roles && t.roles[p] == s.roles[p])
  }

  lemma RunGivesAccount(s: Servers, spec: Users.UserSpec, datastoreType: string, ds: Key)
    requires datastoreType in KNOWN_TYPES && Decode(spec.password).Some?
    ensures HasAccount(s, RunAll(s, Users.ScriptFor(spec, EngineOf(datastoreType), ds)), spec, datastoreType, ds)
  {
    hide Decode, Script, Proper;
    var engine, password := EngineOf(datastoreType), Decode(spec.password).value;
    var host := if datastoreType in MYSQL_TYPES then spec.host else "";
    var a := Ext(ds, Login(spec.username, host));
    var script := Script(engine, a, password, spec.privileges, spec.roles, spec.databaseRef);
    assert script == Users.ScriptFor(spec, engine, ds);
    ScriptsAreProper(engine, a, password, spec.privileges, spec.roles, spec.databaseRef);
    OthersSpared(s, script, a, password, |script|);
    FirstIsThere(script, a, password);
    Reaches(s, script, a, password, |script|);
    RunMoves(s, engine, a, password, spec.privileges, spec.roles, spec.databaseRef);
    NobodyLeaves(s, script, a, password);
  }

  lemma FirstIsThere(script: seq<Statement>, a: Account, password: seq<Byte>)
    requires Proper(script, a, password)
    ensures |script| > 0
  {
  }

  lemma NobodyLeaves(s: Servers, script: seq<Statement>, a: Account, password: seq<Byte>)
    requires Proper(script, a, password)
    ensures RunAll(s, script).accounts.Keys >= s.accounts.Keys
  {
    hide Proper;
    ScriptsGain(s, script, a, password, |script|);
  }

  // ---------------------------------------------------------------- migrations

  /** The place that a Database stands for can be reached, and the logical database is there. */
  predicate There(dbs: Migrations.BaseBodies, stores: Migrations.StoreBodies, server: Servers, reachable: set<Key>,
                  db: Key)
  {
    && db in dbs
    && var ds := Key(db.ns, dbs[db].spec.datastoreRef);
       Open(stores, reachable, ds) && Ext(ds, db.name) in server.databases
  }

  /** What a pass that applies a migration adds to the log of its place. */
  function Extended(log: seq<Event>, spec: Books.MigrationSpec, k: Key, at: Moment, sum: string): seq<Event> {
    log + [TableCreated]
    + if HasRow(log, spec.version) then []
      else [Executed(spec.version, spec.sql, k, at), Recorded(spec.version, sum)]
  }

  /** A Migration that is applied is left alone. Another one fails if its Database is nowhere, or is ready but
      out of reach; it waits if the Database is not ready; and otherwise it is applied, with time and checksum,
      and its SQL has run and been recorded, unless its version was on record. Nothing else has changed. */
  lemma MigrationEnds(ms: Migrations.Bodies, dbs: Migrations.BaseBodies, stores: Migrations.StoreBodies,
                      server: Servers, reachable: set<Key>, k: Key, uid: nat, found: Option<Key>, at: Moment, now: nat,
                      checksum: string -> string)
    requires k in ms && !ms[k].deleting
    ensures var (ms', server') := Migrations.Pass(ms, dbs, stores, server, reachable, k, uid, found, at, now, checksum);
            && OnlyServed(ms, ms', k, "db.fatiudeen.dev/migration-finalizer")
            && server' == server.(logs := server'.logs)
            && var s, s', r, spec := ms[k].status, ms'[k].status, Migrations.Outcome(ms, ms', k), ms[k].spec;
               if s.applied then
                 s' == s && server' == server && r == Done
               else if found.None? || found.value !in dbs then
                 s' == s.(phase := "Failed", applied := false) && server' == server && r == Requeue
               else if !dbs[found.value].status.ready then
                 s' == s.(phase := "Waiting", applied := false) && server' == server && r == Requeue
               else if !There(dbs, stores, server, reachable, found.value) then
                 s' == s.(phase := "Failed", applied := false) && server' == server && r == Requeue
               else
                 var p, sum := Ext(Key(found.value.ns, dbs[found.value].spec.datastoreRef), found.value.name),
                     checksum(spec.sql);
                 && s' == Books.MigrationStatus("Applied", true, Some(now), Some(sum)) && r == Done
                 && (forall q :: q != p ==> server'.Log(q) == server.Log(q))
                 && server'.Log(p) == Extended(server.Log(p), spec, k, at, sum)
  {
    hide Rows, HasRow, Migrations.Migrated, Extended;
    var spec := ms[k].spec;
    if found.Some? && found.value in dbs {
      var p := Books.PlaceOf(found.value, dbs[found.value].spec);
      MigratingAdds(server, p, k, spec, at, checksum(spec.sql));
    }
  }

  lemma Added<T>(log: seq<T>, first: seq<T>, a: T, b: T)
    ensures log + first + [a] + [b] == log + first + [a, b] && log + first + [] == log + first
  {
  }

  lemma MigratingAdds(server: Servers, p: Place, k: Key, spec: Books.MigrationSpec, at: Moment, sum: string)
    ensures var server' := Migrations.Migrated(server, p, k, spec, at, sum);
            && server' == server.(logs := server'.logs)
            && (forall q :: q != p ==> server'.Log(q) == server.Log(q))
            && server'.Log(p) == Extended(server.Log(p), spec, k, at, sum)
  {
    hide Rows;
    var log, ran, row := server.Log(p), Executed(spec.version, spec.sql, k, at), Recorded(spec.version, sum);
    Safety.TableRows(log);
    Added(log, [TableCreated], ran, row);
  }

  // ---------------------------------------------------------------- roles

  /** A DatabaseRole that has no finalizer yet gets it, and comes back. Another one fails if its Datastore or
      its Database is not in its namespace; it is pending if one of them is there but not ready; and otherwise
      it is ready exactly if the server lets the controller in and the role can be made or is known to be there.
      Only the role has changed then: it has what is listed on top of what it had. */
  lemma RoleEnds(roles: Roles.Bodies, dbs: Roles.BaseBodies, stores: Roles.StoreBodies, server: Servers,
                 secrets: set<Key>, reachable: set<Key>, lenient: bool, k: Key, now: nat)
    requires k in roles && !roles[k].deleting
    ensures var (roles', server') := Roles.Pass(roles, dbs, stores, server, secrets, reachable, lenient, k, now);
            && OnlyServed(roles, roles', k, "db.fatiudeen.dev/role-finalizer")
            && server' == server.(roles := server'.roles)
            && var b, s', r := roles[k], roles'[k].status, Roles.Outcome(roles, stores, server, secrets, reachable, k);
               var ds, p := Key(k.ns, b.spec.datastoreRef), Ext(Key(k.ns, b.spec.datastoreRef), k.name);
               var failed, pending := Roles.RoleStatus("Failed", false, false, Some(now)),
                   Roles.RoleStatus("Pending", false, false, Some(now));
               if "db.fatiudeen.dev/role-finalizer" !in b.finalizers then
                 s' == b.status && server' == server && r == Requeue
               else
                 && r == Done
                 && if ds !in stores then s' == failed && server' == server
                    else if !Settled(stores[ds].status.phase, stores[ds].status.ready) then
                      s' == pending && server' == server
                    else if b.spec.databaseRef.Some? && Key(k.ns, b.spec.databaseRef.value) !in dbs then
                      s' == failed && server' == server
                    else if b.spec.databaseRef.Some? &&
                            var db := dbs[Key(k.ns, b.spec.databaseRef.value)];
                            !Settled(db.status.phase, db.status.ready) then
                      s' == pending && server' == server
                    else if ds in reachable && CanMake(stores[ds].spec.datastoreType, p in server.roles, lenient) then
                      s' == Roles.RoleStatus("Ready", true, true, Some(now)) && HasRole(server, server', b.spec, p)
                    else s' == failed && server' == server
  {
  }

  predicate Settled(phase: string, ready: bool) {
    phase == "Ready" && ready
  }

  predicate CanMake(datastoreType: string, there: bool, lenient: bool) {
    || datastoreType in MYSQL_TYPES
    || (datastoreType in {"postgresql", "sqlserver"} && (!there || lenient))
  }

  /** Between the two, the role was made or seen to, and no other one. */
  ghost predicate HasRole(s: Servers, t: Servers, spec: Roles.RoleSpec, p: Place) {
    && t.roles.Keys == s.roles.Keys + {p}
    && (forall q :: q in s.roles && q != p ==> t.roles[q] == s.roles[q])
    && forall g :: g in t.roles[p] <==>
         (p in s.roles && g in s.roles[p]) || (g.privilege in spec.privileges && g.scope == spec.databaseRef)
  }

  /** Admission knows PostgreSQL as "postgres" only, which is not how the role controller spells it: roles on a
      Datastore of that type never become ready, and are never let go while Datastore and Secret are there. */
  lemma PostgresRolesAreStuck(roles: Roles.Bodies, dbs: Roles.BaseBodies, stores: Roles.StoreBodies, server: Servers,
                              secrets: set<Key>, reachable: set<Key>, lenient: bool, k: Key, now: nat)
    requires k in roles && var ds := Key(k.ns, roles[k].spec.datastoreRef);
                           ds in stores && stores[ds].spec.datastoreType == "postgres" && ds in secrets
    ensures var (roles', server') := Roles.Pass(roles, dbs, stores, server, secrets, reachable, lenient, k, now);
            && server' == server && k in roles'
            && (roles[k].deleting ==> roles' == roles)
            && (!roles[k].deleting && "db.fatiudeen.dev/role-finalizer" in roles[k].finalizers ==>
                  !roles'[k].status.ready)
  {
    hide Roles.Pass, HasRole, CanMake;
    assert !CanMake("postgres", false, lenient) && !CanMake("postgres", true, lenient) by {
      NoRolesOnPostgres(lenient);
    }
    if roles[k].deleting {
      Roles.DeletingEnds(roles, dbs, stores, server, secrets, reachable, lenient, k, now);
    } else {
      RoleEnds(roles, dbs, stores, server, secrets, reachable, lenient, k, now);
    }
  }

  lemma NoRolesOnPostgres(lenient: bool)
    ensures !CanMake("postgres", false, lenient) && !CanMake("postgres", true, lenient)
  {
  }
}
