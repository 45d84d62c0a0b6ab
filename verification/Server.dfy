/** The external database servers: what stands on them and what each SQL statement does. A server
    is named by the key of the Datastore that leads to it. */
module Server {
  import opened Api
  import opened Base64

  /** Something on the server that the Datastore `ds` leads to. */
  datatype Ext<+A> = Ext(ds: Key, what: A)

  type Place = Ext<string>

  datatype Login = Login(user: string, host: string)

  type Account = Ext<Login>

  datatype Grant = Grant(privilege: string, scope: Option<string>)

  /** What an account has: its password, what was granted to it, and its default role. */
  datatype Holdings = Holdings(password: seq<Byte>, grants: set<Grant>, roles: set<string>, default: Option<string>)

  /** A moment, told by the versions that the stores had reached: the newest of the controller's own
      kind, and how many there were of Databases. */
  datatype Moment = Moment(version: nat, bases: nat)

  /** What happened to one logical database that matters to migrations. `Executed` also says on
      whose behalf, and when; `RolledBack` names the owner and its incarnation. */
  datatype Event =
    | TableCreated
    | Executed(version: string, sql: string, owner: Key, at: Moment)
    | Recorded(version: string, checksum: string)
    | RolledBack(version: string, sql: string, owner: Key, uid: nat)
    | Removed(version: string)
    | Dropped

  datatype Servers = Servers(
    databases: set<Place>,
    accounts: map<Account, Holdings>,
    roles: map<Place, set<Grant>>,
    logs: map<Place, seq<Event>>)
  {
    function Log(p: Place): seq<Event> {
      if p in logs then logs[p] else []
    }

    function Note(p: Place, e: Event): Servers {
      this.(logs := logs[p := Log(p) + [e]])
    }
  }

  // ---------------------------------------------------------------- schema_migrations

  /** The `schema_migrations` table a log leaves behind: none, or checksums by version. */
  function Rows(log: seq<Event>): Option<map<string, string>> {
    if log == [] then None
    else
      var rows := Rows(log[..|log| - 1]);
      match log[|log| - 1]
      case TableCreated => if rows.None? then Some(map[]) else rows
      case Recorded(v, c) => if rows.None? then None else Some(rows.value[v := c])
      case Removed(v) => if rows.None? then None else Some(rows.value - {v})
      case Dropped => None
      case _ => rows
  }

  predicate HasRow(log: seq<Event>, version: string) {
    Rows(log).Some? && version in Rows(log).value
  }

  // ---------------------------------------------------------------- statements

  datatype Statement =
    | Nop
    | CreateDatabase(p: Place, ifNotExists: bool)
    | DropDatabase(p: Place, ifExists: bool)
    | CreateUser(a: Account, password: seq<Byte>, ifNotExists: bool)
    | AlterUser(a: Account, password: seq<Byte>)
    | DropUser(a: Account, ifExists: bool)
    | GrantUser(a: Account, grant: Grant)
    | GrantRole(a: Account, role: string)
    | SetDefaultRole(a: Account, role: string)
    | CreateRole(p: Place, ifNotExists: bool)
    | GrantToRole(p: Place, grant: Grant)
    | DropRole(p: Place, ifExists: bool)
    | CreateTable(p: Place)
    | RunMigration(p: Place, version: string, sql: string, owner: Key)
    | InsertRecord(p: Place, version: string, checksum: string)
    | RunRollback(p: Place, version: string, sql: string, owner: Key, uid: nat)
    | DeleteRecord(p: Place, version: string)

  /** Does the server accept the statement? */
  predicate Accepts(s: Servers, st: Statement) {
    match st
    case Nop => true
    case CreateDatabase(p, ine) => ine || p !in s.databases
    case DropDatabase(p, ie) => ie || p in s.databases
    case CreateUser(a, _, ine) => ine || a !in s.accounts
    case AlterUser(a, _) => a in s.accounts
    case DropUser(a, ie) => ie || a in s.accounts
    case GrantUser(a, _) => a in s.accounts
    case GrantRole(a, r) => a in s.accounts
    case SetDefaultRole(a, r) => a in s.accounts && r in s.accounts[a].roles
    case CreateRole(p, ine) => ine || p !in s.roles
    case GrantToRole(p, _) => p in s.roles
    case DropRole(p, ie) => ie || p in s.roles
    case CreateTable(p) => p in s.databases
    case RunMigration(p, _, _, _) => p in s.databases
    case InsertRecord(p, v, _) => p in s.databases && Rows(s.Log(p)).Some? && !HasRow(s.Log(p), v)
    case RunRollback(p, _, _, _, _) => p in s.databases
    case DeleteRecord(p, _) => p in s.databases && Rows(s.Log(p)).Some?
  }

  /** What an accepted statement does when it is executed. */
  function Effect(s: Servers, st: Statement, at: Moment): Servers
    requires Accepts(s, st)
  {
    match st
    case Nop => s
    case CreateDatabase(p, _) => s.(databases := s.databases + {p})
    case DropDatabase(p, _) => DropAll(s, {p})
    case CreateUser(a, pw, _) =>
      if a in s.accounts then s
      else s.(accounts := s.accounts[a := Holdings(pw, {}, {}, None)])
    case AlterUser(a, pw) => s.(accounts := s.accounts[a := s.accounts[a].(password := pw)])
    case DropUser(a, _) => s.(accounts := s.accounts - {a})
    case GrantUser(a, g) =>
      s.(accounts := s.accounts[a := s.accounts[a].(grants := s.accounts[a].grants + {g})])
    case GrantRole(a, r) =>
      s.(accounts := s.accounts[a := s.accounts[a].(roles := s.accounts[a].roles + {r})])
    case SetDefaultRole(a, r) => s.(accounts := s.accounts[a := s.accounts[a].(default := Some(r))])
    case CreateRole(p, _) => if p in s.roles then s else s.(roles := s.roles[p := {}])
    case GrantToRole(p, g) => s.(roles := s.roles[p := s.roles[p] + {g}])
    case DropRole(p, _) => s.(roles := s.roles - {p})
    case CreateTable(p) => s.Note(p, TableCreated)
    case RunMigration(p, v, sql, owner) => s.Note(p, Executed(v, sql, owner, at))
    case InsertRecord(p, v, c) => s.Note(p, Recorded(v, c))
    case RunRollback(p, v, sql, owner, uid) => s.Note(p, RolledBack(v, sql, owner, uid))
    case DeleteRecord(p, v) => s.Note(p, Removed(v))
  }

  /** Logical databases are dropped, with every table in them. */
  function DropAll(s: Servers, ps: set<Place>): Servers {
    s.(databases := s.databases - ps,
       logs := map p | p in s.logs.Keys + ps * s.databases ::
         if p in ps * s.databases then s.Log(p) + [Dropped] else s.Log(p))
  }

  /** Who else touches the roles: nobody; the User controller, which makes those that are missing on
      MySQL; or anyone, in any way. */
  datatype Traffic = Nobody | Users | Anyone

  /** What others do to the servers, besides dropping logical databases: do they make them, too, and what
      becomes of the roles? */
  datatype Others = Others(bases: bool, roles: Traffic)

  function RoleGrants(roles: map<Place, set<Grant>>): set<(Place, Grant)> {
    set p, g | p in roles && g in roles[p] :: (p, g)
  }

  /** New roles have nothing granted to them, and old ones are left alone. */
  ghost predicate RolesDrifted(a: map<Place, set<Grant>>, b: map<Place, set<Grant>>, whose: Traffic) {
    match whose
    case Nobody => b == a
    case Users => RoleGrants(b) == RoleGrants(a) && forall p :: p in a ==> p in b && b[p] == a[p]
    case Anyone => true
  }

  /** What may happen to the servers between two calls of a controller: nobody else touches what it
      manages, but logical databases can be dropped under it, and, where the Database controller is
      somebody else, made again; and roles can be made under the role controller. */
  ghost predicate Drifted(a: Servers, b: Servers, others: Others) {
    && (others.bases || b.databases <= a.databases)
    && b.accounts == a.accounts
    && RolesDrifted(a.roles, b.roles, others.roles)
    && (forall p :: LogDrifted(a.Log(p), b.Log(p)))
    && (forall p :: p in a.databases && p !in b.databases ==> |a.Log(p)| < |b.Log(p)|)
  }

  ghost predicate LogDrifted(a: seq<Event>, b: seq<Event>) {
    && |a| <= |b|
    && b[..|a|] == a
    && (forall i :: |a| <= i < |b| ==> b[i] == Dropped)
  }

  /** A table that is there after some drift has been there all along. */
  lemma TableWitnessesNoDrop(a: seq<Event>, b: seq<Event>)
    requires LogDrifted(a, b) && Rows(b).Some?
    ensures a == b
  {
    assert b[..|b|] == b;
  }

  lemma {:induction false} DropsLeaveNoRecord(a: seq<Event>, b: seq<Event>, v: string)
    requires LogDrifted(a, b) && !HasRow(a, v)
    ensures !HasRow(b, v)
  {
    if |a| < |b| {
      assert b[|b| - 1] == Dropped;
    } else {
      assert a == b;
    }
  }

  /** The roles that a statement makes its own. */
  function Claimed(st: Statement): set<Place> {
    if st.CreateRole? then {st.p} else {}
  }

  /** What belonged to others before the statement, if it took effect, was made its own. */
  function Unclaimed(strays: set<Place>, st: Statement, took: bool): set<Place> {
    if took then strays + Claimed(st) else strays
  }

  /** Whatever roles are new belong to others, who keep theirs. */
  predicate Strayed(a: Servers, b: Servers, x: set<Place>, y: set<Place>) {
    x <= y && b.roles.Keys <= a.roles.Keys + y
  }

  lemma DriftedTransitively(a: Servers, b: Servers, c: Servers, others: Others)
    requires Drifted(a, b, others) && Drifted(b, c, others)
    ensures Drifted(a, c, others)
  {
    forall p ensures LogDrifted(a.Log(p), c.Log(p)) {
      LogDriftedTransitively(a.Log(p), b.Log(p), c.Log(p));
    }
    forall p | p in a.databases && p !in c.databases ensures |a.Log(p)| < |c.Log(p)| {
      assert LogDrifted(a.Log(p), b.Log(p)) && LogDrifted(b.Log(p), c.Log(p));
    }
  }

  lemma LogDriftedTransitively(a: seq<Event>, b: seq<Event>, c: seq<Event>)
    requires LogDrifted(a, b) && LogDrifted(b, c)
    ensures LogDrifted(a, c)
  {
    forall i | |a| <= i < |c| ensures c[i] == Dropped {
      if i < |b| {
        assert c[i] == c[..|b|][i];
      }
    }
    assert c[..|a|] == c[..|b|][..|a|];
  }
}
