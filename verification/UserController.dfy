/** The User controller: it creates an account on the server of a ready Datastore, grants it what the
    User object lists, and drops it again when the object is deleted. */
module UserController {
  import opened Api
  import opened Base64
  import opened Server
  import opened Cluster
  import opened Ownership
  import opened Keeper
  import opened Grants

  const FINALIZER := "db.fatiudeen.dev/user-finalizer"

  datatype UserSpec = UserSpec(
    username: string,
    password: string,
    datastoreRef: string,
    databaseRef: Option<string>,
    roles: seq<string>,
    privileges: seq<string>,
    host: string)

  datatype UserStatus = UserStatus(phase: string, ready: bool, created: bool, createdAt: Option<nat>)

  const BLANK := UserStatus("", false, false, None)

  /** Only MySQL tells accounts apart by host. */
  function LoginOf(spec: UserSpec, e: Engine): Login {
    Login(spec.username, if e == MySQL then spec.host else "")
  }

  /** On one server, two users stand for one account exactly if they have the same user name, and, on MySQL and
      MariaDB, the same host. */
  lemma AccountsAreShared(s: UserSpec, s': UserSpec, t: string)
    ensures LoginOf(s, EngineOf(t)) == LoginOf(s', EngineOf(t)) <==>
              s.username == s'.username && (t in MYSQL_TYPES ==> s.host == s'.host)
    ensures LoginOf(s, EngineOf(t)).user == s.username
    ensures LoginOf(s, EngineOf(t)).host == if t in MYSQL_TYPES then s.host else ""
  {
  }

  const PLAN: Plan<UserSpec, Login> := Plan(
    FINALIZER,
    (s: UserSpec) => s.datastoreRef,
    (k: Key, s: UserSpec, e: Engine) => LoginOf(s, e),
    (s: Servers) => s.accounts.Keys,
    (x: set<Place>) => {},
    (a: Account, m: Mishaps) => false)

  predicate Coherent(s: UserStatus) {
    && (s.phase == "Ready" <==> s.ready)
    && (s.ready ==> s.created)
    && (s.created ==> s.createdAt.Some? && s.phase != "")
  }

  /** Statuses stay coherent, an account once created stays created, and the time is written once. */
  predicate Follows(s: UserStatus, t: UserStatus) {
    Coherent(s) ==>
      && Coherent(t)
      && (s.created ==> t.created)
      && (s.createdAt.Some? ==> t.createdAt == s.createdAt)
  }

  const RULES: Rules<UserSpec, UserStatus> := Rules(FINALIZER, BLANK, (s, t) => Follows(s, t), (s, t) => true)

  predicate Claims(s: UserStatus) {
    s.ready
  }

  // ---------------------------------------------------------------- a pass in a quiet world

  type Bodies = map<Key, Body<UserSpec, UserStatus>>
  type StoreBodies = map<Key, Body<DatastoreSpec, ReadyStatus>>

  function Failing(s: UserStatus, phase: string): UserStatus {
    s.(phase := phase, ready := false)
  }

  function Prepared(b: Body<UserSpec, UserStatus>): Body<UserSpec, UserStatus> {
    b.(finalizers := AddFinalizer(b.finalizers, FINALIZER),
       status := if b.status.phase == "" then Failing(b.status, "Creating").(created := false) else b.status)
  }

  /** The Database that is asked for exists; nobody asks whether it is ready. */
  ghost predicate Named(dbs: Databases, ref: Option<string>) {
    ref.Some? ==> exists k :: k in dbs && k.name == ref.value
  }

  /** The Database that the object `k` asks for exists. */
  ghost predicate NamedBy(users: Objs<UserSpec, UserStatus>, dbs: Databases, k: Key) {
    k in users && Named(dbs, users[k].body.spec.databaseRef)
  }

  /** Everything a pass needs to get through; `found` is where the reference to the Datastore leads. */
  predicate Creatable(spec: UserSpec, stores: StoreBodies, named: bool, reachable: set<Key>, found: Option<Key>) {
    && found.Some? && found.value in stores && stores[found.value].status.ready
    && named
    && found.value in reachable && !EngineOf(stores[found.value].spec.datastoreType).Unsupported?
    && Decode(spec.password).Some?
  }

  /** The status a pass over a live object ends with; `named` says that its Database exists. */
  function Verdict(b: Body<UserSpec, UserStatus>, stores: StoreBodies, named: bool, reachable: set<Key>,
                   found: Option<Key>, now: nat): UserStatus
  {
    var s := b.status;
    if Creatable(b.spec, stores, named, reachable, found) then
      UserStatus("Ready", true, true, if s.createdAt.None? then Some(now) else s.createdAt)
    else if found.Some? && found.value in stores && !stores[found.value].status.ready then Failing(s, "Waiting")
    else Failing(s, "Failed")
  }

  function ScriptFor(spec: UserSpec, engine: Engine, ds: Key): seq<Statement>
    requires Decode(spec.password).Some?
  {
    Script(engine, Ext(ds, LoginOf(spec, engine)), Decode(spec.password).value, spec.privileges, spec.roles,
        spec.databaseRef)
  }

  function Served(server: Servers, spec: UserSpec, stores: StoreBodies, named: bool, reachable: set<Key>,
                  found: Option<Key>): Servers
  {
    if Creatable(spec, stores, named, reachable, found)
    then RunAll(server, ScriptFor(spec, EngineOf(stores[found.value].spec.datastoreType), found.value))
    else server
  }

  /** Dropping an account: only SQL Server minds that it is not there. */
  function CleanUp(server: Servers, engine: Engine, a: Account): Option<Servers> {
    match engine
    case Unsupported => None
    case SQLServer => if a in server.accounts then Some(server.(accounts := server.accounts - {a})) else None
    case _ => Some(server.(accounts := server.accounts - {a}))
  }

  function DeletingPass(users: Bodies, stores: StoreBodies, server: Servers, reachable: set<Key>, k: Key)
    : (Bodies, Servers)
    requires k in users
  {
    var b := users[k];
    var ds := Key(k.ns, b.spec.datastoreRef);
    var released := PutBody(users, k, b.(finalizers := RemoveFinalizer(b.finalizers, FINALIZER)));
    if FINALIZER !in b.finalizers then (users, server)
    else if ds !in stores then (released, server)
    else if ds !in reachable then (users, server)
    else
      var engine := EngineOf(stores[ds].spec.datastoreType);
      match CleanUp(server, engine, Ext(ds, LoginOf(b.spec, engine)))
      case None => (users, server)
      case Some(server') => (released, server')
  }

  function Settled(b: Body<UserSpec, UserStatus>, stores: StoreBodies, named: bool, reachable: set<Key>,
                   found: Option<Key>, now: nat): Body<UserSpec, UserStatus>
  {
    b.(finalizers := AddFinalizer(b.finalizers, FINALIZER),
       status := Verdict(Prepared(b), stores, named, reachable, found, now))
  }

  function LivePass(users: Bodies, stores: StoreBodies, named: bool, server: Servers, reachable: set<Key>, k: Key,
                    found: Option<Key>, now: nat): (Bodies, Servers)
    requires k in users
  {
    (users[k := Settled(users[k], stores, named, reachable, found, now)],
     Served(server, users[k].spec, stores, named, reachable, found))
  }

  /** What one pass over `k` does when nobody interferes and no call is lost; `found` is where the
      reference of a live object leads. */
  function Pass(users: Bodies, stores: StoreBodies, named: bool, server: Servers, reachable: set<Key>, k: Key,
                found: Option<Key>, now: nat): (Bodies, Servers)
  {
    if k !in users then (users, server)
    else if users[k].deleting then DeletingPass(users, stores, server, reachable, k)
    else LivePass(users, stores, named, server, reachable, k, found, now)
  }

  /** Does the reference of the object, if it is a live one, lead there? */
  ghost predicate Finds(users: Bodies, stores: StoreBodies, k: Key, found: Option<Key>) {
    k in users && !users[k].deleting ==> LeadsTo(stores.Keys, k.ns, users[k].spec.datastoreRef, found)
  }

  /** Storing a first status on the way makes no difference to where a pass ends. */
  lemma PreparingSettles(users: Bodies, stores: StoreBodies, named: bool, server: Servers, reachable: set<Key>,
                         k: Key, found: Option<Key>, now: nat)
    requires k in users
    ensures var p := Prepared(users[k]);
            LivePass(users, stores, named, server, reachable, k, found, now) ==
              (users[k := p][k := p.(status := Verdict(p, stores, named, reachable, found, now))],
               Served(server, p.spec, stores, named, reachable, found))
  {
    var p := Prepared(users[k]);
    var settled := p.(status := Verdict(p, stores, named, reachable, found, now));
    assert settled == Settled(users[k], stores, named, reachable, found, now);
    assert users[k := p][k := settled] == users[k := settled];
  }

  predicate Released(users: Bodies, k: Key) {
    k !in users || FINALIZER !in users[k].finalizers
  }

  /** How such a pass ends: a live object that did not become ready is tried again later, a deleting one
      that could not be let go is an error. */
  function Outcome(users: Bodies, users': Bodies, k: Key): Result {
    if k !in users then Done
    else if users[k].deleting then if Released(users', k) then Done else Error
    else if k in users' && users'[k].status.ready then Done
    else Requeue
  }

  lemma PreparedIsTheSame(b: Body<UserSpec, UserStatus>)
    ensures Prepared(b).deleting == b.deleting && Prepared(b).spec == b.spec && Prepared(b).status.phase != ""
  {
  }

  /** A pass over a live object, in the order of its writes. */
  lemma LiveCases(m: Objs<UserSpec, UserStatus>, stores: StoreBodies, named: bool, server: Servers, reachable: set<Key>,
                  k: Key, o: Obj<UserSpec, UserStatus>, found: Option<Key>, now: nat)
    ensures k in m && m[k] == o && !o.body.deleting ==>
              var users, p := View(m), Prepared(o.body);
              var status := Verdict(p, stores, named, reachable, found, now);
              var done := users[k := p][k := p.(status := status)];
              && LivePass(users, stores, named, server, reachable, k, found, now)
                   == (done, Served(server, p.spec, stores, named, reachable, found))
              && Outcome(users, done, k) == (if status.ready then Done else Requeue)
  {
    hide Verdict, Served, LivePass;
    if k in m && m[k] == o && !o.body.deleting {
      PreparingSettles(View(m), stores, named, server, reachable, k, found, now);
    }
  }

  /** A deleting object that cannot be let go: the server of its Datastore is out of reach or of no kind
      that is supported, or it is a SQL Server, where an account that is gone cannot be dropped again. */
  predicate Blocked(b: Body<UserSpec, UserStatus>, stores: StoreBodies, server: Servers, reachable: set<Key>, k: Key) {
    var ds := Key(k.ns, b.spec.datastoreRef);
    ds in stores &&
    var t := stores[ds].spec.datastoreType;
    || ds !in reachable || t !in KNOWN_TYPES
    || (t in SQLSERVER_TYPES && Ext(ds, Login(b.spec.username, "")) !in server.accounts)
  }

  /** Whatever state earlier passes were cut in, one undisturbed pass over a deleting object lets it go
      exactly if it is not blocked, with the account dropped where the Datastore is still there;
      otherwise nothing happens, and the next pass will do no better. */
  lemma DeletingEnds(users: Bodies, stores: StoreBodies, named: bool, server: Servers, reachable: set<Key>, k: Key,
                     found: Option<Key>, now: nat)
    requires k in users && users[k].deleting && FINALIZER in users[k].finalizers
    ensures var (users', server') := Pass(users, stores, named, server, reachable, k, found, now);
            var ds, spec := Key(k.ns, users[k].spec.datastoreRef), users[k].spec;
            && (Released(users', k) <==> !Blocked(users[k], stores, server, reachable, k))
            && (Released(users', k) && ds in stores ==>
                  var host := if stores[ds].spec.datastoreType in MYSQL_TYPES then spec.host else "";
                  server' == server.(accounts := server.accounts - {Ext(ds, Login(spec.username, host))}))
            && (Released(users', k) && ds !in stores ==> server' == server)
            && (Released(users', k) ==> (k in users' <==> exists f :: f in users[k].finalizers && f != FINALIZER))
            && (!Released(users', k) ==> users' == users && server' == server)
            && Outcome(users, users', k) == (if Released(users', k) then Done else Error)
            && (forall g :: g != k ==> (g in users' <==> g in users) && (g in users ==> users'[g] == users[g]))
  {
    KeptByOthers(users[k].finalizers, FINALIZER);
    var ds := Key(k.ns, users[k].spec.datastoreRef);
    if ds in stores && ds in reachable {
      var engine := EngineOf(stores[ds].spec.datastoreType);
      var _ := CleanUp(server, engine, Ext(ds, LoginOf(users[k].spec, engine)));
    }
  }

  /** What a pass leaves deleting with the finalizer was blocked, and stays as it is. */
  lemma LeftIsBlocked(users: Bodies, stores: StoreBodies, named: bool, server: Servers, reachable: set<Key>, k: Key,
                      found: Option<Key>, now: nat)
    ensures var (users', server') := Pass(users, stores, named, server, reachable, k, found, now);
            && (!Released(users', k) && users'[k].deleting ==>
                  && users' == users && server' == server && Outcome(users, users', k) == Error
                  && Blocked(users[k], stores, server, reachable, k))
            && (!Released(users, k) && users[k].deleting && Blocked(users[k], stores, server, reachable, k) ==>
                  users' == users && server' == server && Outcome(users, users', k) == Error)
  {
    if !Released(users, k) && users[k].deleting {
      DeletingEnds(users, stores, named, server, reachable, k, found, now);
    }
  }

  // ---------------------------------------------------------------- the reconciler

  type Own = Obj<UserSpec, UserStatus>
  type Job = Work<UserSpec, UserStatus, Login>

  predicate Has(script: seq<Statement>, n: nat, part: seq<Statement>) {
    n + |part| <= |script| && forall i :: 0 <= i < |part| ==> script[n + i] == part[i]
  }

  lemma Parts(a: seq<Statement>, b: seq<Statement>, c: seq<Statement>, d: seq<Statement>)
    ensures var script := a + b + c + d;
            Has(script, 0, a) && Has(script, |a|, b) && Has(script, |a| + |b|, c) && Has(script, |a| + |b| + |c|, d)
  {
  }

  lemma ThreeParts(a: seq<Statement>, b: seq<Statement>, c: seq<Statement>)
    ensures var script := a + b + c;
            Has(script, 0, a) && Has(script, |a|, b) && Has(script, |a| + |b|, c)
  {
  }

  lemma MySQLLayout(a: Account, password: seq<Byte>, privileges: seq<string>, roles: seq<string>,
                    database: Option<string>)
    ensures var script, n := Script(MySQL, a, password, privileges, roles, database), |privileges|;
            && Has(script, 0, [CreateUser(a, password, true)])
            && Has(script, 1, Privileges(a, privileges, database))
            && Has(script, 1 + n, Roles(a, roles))
            && Has(script, 1 + n + 3 * |roles|, [Nop])
            && |script| == n + 3 * |roles| + 2
  {
    assert |Privileges(a, privileges, database)| == |privileges| && |Roles(a, roles)| == 3 * |roles|;
    hide Has, Privileges, Roles;
    Parts([CreateUser(a, password, true)], Privileges(a, privileges, database), Roles(a, roles), [Nop]);
  }

  lemma PostgreSQLLayout(a: Account, password: seq<Byte>, privileges: seq<string>, roles: seq<string>,
                         database: Option<string>)
    ensures var script, n := Script(PostgreSQL, a, password, privileges, roles, database), |privileges|;
            && Has(script, 0, [CreateUser(a, password, false), AlterUser(a, password)])
            && Has(script, 2, Privileges(a, privileges, database))
            && Has(script, 2 + n, Members(a, roles))
            && |script| == n + |roles| + 2
  {
    assert |Privileges(a, privileges, database)| == |privileges| && |Members(a, roles)| == |roles|;
    hide Has, Privileges, Members;
    ThreeParts([CreateUser(a, password, false), AlterUser(a, password)], Privileges(a, privileges, database),
               Members(a, roles));
  }

  lemma SQLServerLayout(a: Account, password: seq<Byte>, privileges: seq<string>, roles: seq<string>,
                        database: Option<string>)
    ensures var script, n := Script(SQLServer, a, password, privileges, roles, database), |privileges|;
            && Has(script, 0, [CreateUser(a, password, false), AlterUser(a, password)])
            && (database.None? ==> |script| == 2)
            && (database.Some? ==>
                  && Has(script, 2, [Nop])
                  && Has(script, 3, Privileges(a, privileges, None))
                  && |script| == n + 3)
  {
    assert |Privileges(a, privileges, None)| == |privileges|;
    hide Has, Privileges;
    var first, grants := [CreateUser(a, password, false), AlterUser(a, password)], Privileges(a, privileges, None);
    if database.None? {
      ThreeParts(first, [], []);
      assert first + [] + [] == first + [];
    } else {
      ThreeParts(first, [Nop], grants);
      assert first + [Nop] + grants == first + ([Nop] + grants);
    }
  }

  /** Where the parts of a script are. */
  lemma Layout(engine: Engine, a: Account, password: seq<Byte>, spec: UserSpec)
    ensures var script := Script(engine, a, password, spec.privileges, spec.roles, spec.databaseRef);
            var n := |spec.privileges|;
            match engine
            case MySQL =>
              && Has(script, 0, [CreateUser(a, password, true)])
              && Has(script, 1, Privileges(a, spec.privileges, spec.databaseRef))
              && Has(script, 1 + n, Roles(a, spec.roles))
              && Has(script, 1 + n + 3 * |spec.roles|, [Nop])
              && |script| == n + 3 * |spec.roles| + 2
            case PostgreSQL =>
              && Has(script, 0, [CreateUser(a, password, false), AlterUser(a, password)])
              && Has(script, 2, Privileges(a, spec.privileges, spec.databaseRef))
              && Has(script, 2 + n, Members(a, spec.roles))
              && |script| == n + |spec.roles| + 2
            case SQLServer =>
              && Has(script, 0, [CreateUser(a, password, false), AlterUser(a, password)])
              && (spec.databaseRef.None? ==> |script| == 2)
              && (spec.databaseRef.Some? ==>
                    && Has(script, 2, [Nop])
                    && Has(script, 3, Privileges(a, spec.privileges, None))
                    && |script| == n + 3)
            case Unsupported => script == []
  {
    assert Script(Unsupported, a, password, spec.privileges, spec.roles, spec.databaseRef) == [];
    hide Script, Has, Privileges, Roles, Members;
    match engine
    case MySQL => MySQLLayout(a, password, spec.privileges, spec.roles, spec.databaseRef);
    case PostgreSQL => PostgreSQLLayout(a, password, spec.privileges, spec.roles, spec.databaseRef);
    case SQLServer => SQLServerLayout(a, password, spec.privileges, spec.roles, spec.databaseRef);
    case Unsupported =>
  }

  predicate Granting(st: Statement) {
    st.GrantUser? || st.GrantRole?
  }

  /** The account is the one that the object at hand names, on a Datastore that was ready. */
  predicate Targets(w: Job, a: Account) {
    && w.phase.Working? && w.phase.store.Some?
    && var s := w.phase.store.value;
       && s.value.body.status.ready && a.ds == s.ds && s.ds.name == w.o.body.spec.datastoreRef
       && a.what == LoginOf(w.o.body.spec, EngineOf(s.value.body.spec.datastoreType))
  }

  /** What a server is told about the account of a deleting object. */
  function DropScript(engine: Engine, a: Account): (r: seq<Statement>)
    ensures forall i :: 0 <= i < |r| ==> AboutAccounts(r[i])
  {
    var drop := DropUser(a, engine != SQLServer);
    if engine == MySQL then [drop, Nop] else if engine == PostgreSQL then [drop] else [Nop, drop]
  }

  /** The script is the one that the object at hand asks for, as of the version at hand: its own, for
      the engine of the ready Datastore it names, or, if it is deleting, the one that drops its account. */
  ghost predicate AskedBy(script: seq<Statement>, w: Job) {
    match w.phase
    case Working(store, _) =>
      && store.Some? && store.value.value.body.status.ready && store.value.ds.name == w.o.body.spec.datastoreRef
      && Decode(w.o.body.spec.password).Some?
      && script == ScriptFor(w.o.body.spec, EngineOf(store.value.value.body.spec.datastoreType), store.value.ds)
    case Cleaning(_) =>
      exists e :: script == DropScript(e, Ext(Key(w.k.ns, w.o.body.spec.datastoreRef), LoginOf(w.o.body.spec, e)))
  }

  /** Every script has its author. */
  ghost predicate Attributed(told: seq<Issued>, authors: seq<Job>) {
    |told| == |authors| && forall i :: 0 <= i < |told| ==> AskedBy(told[i].script, authors[i])
  }

  /** A script under way: where the servers stood when it began, what took effect so far, and whether
      the world was quiet. */
  datatype Talk = Talk(start: Servers, script: seq<Statement>, took: seq<bool>, calm: bool) {
    ghost predicate Fair() {
      && |took| <= |script|
      && AllAboutAccounts(script)
      && Plausible(start, script, took)
      && (calm ==> Thorough(start, script, took))
    }

    function Now(): Servers
      requires |took| <= |script|
    {
      Run(start, script, took)
    }

    /** The script goes on with these statements. */
    predicate Due(sts: seq<Statement>) {
      Has(script, |took|, sts)
    }

    /** No grant or membership was left out so far. */
    predicate Full() {
      |took| <= |script| && forall i :: 0 <= i < |took| && Granting(script[i]) ==> took[i]
    }

    /** The same script, further on. */
    predicate After(t: Talk) {
      && start == t.start && script == t.script && calm == t.calm
      && |t.took| <= |took|
    }
  }

  /** Such a statement makes no account, and drops none but the one it names. */
  lemma TouchesAccounts(st: Statement, ids: set<Account>)
    requires AboutAccounts(st) && !st.CreateUser? && (st.DropUser? ==> st.a in ids)
    ensures AddsOnly(PLAN, st, {}) && RemovesOnly(PLAN, st, ids)
  {
  }

  lemma Proper(t: Talk, st: Statement)
    requires t.Fair() && t.Due([st])
    ensures AboutAccounts(st)
  {
    assert t.script[|t.took|] == [st][0] == st;
  }

  /** One statement further in the conversation. */
  lemma Spoken(t: Talk, st: Statement, mid: Servers, took: bool, at: Moment)
    requires t.Fair() && t.Due([st]) && !st.CreateUser?
    requires Agree(mid, t.Now()) && (took ==> Accepts(mid, st)) && (t.calm ==> took == Accepts(mid, st))
    ensures AboutAccounts(st) && Accepts(mid, st) == Accepts(t.Now(), st)
    ensures var t' := t.(took := t.took + [took]);
            && t'.Fair()
            && t'.Now() == (if took then Effect(t.Now(), st, ANY_TIME) else t.Now())
            && Agree(if took then Effect(mid, st, at) else mid, t'.Now())
            && (took ==> Effect(mid, st, at) == Effect(mid, st, ANY_TIME))
            && (!st.DropUser? ==> t.Now().accounts.Keys <= t'.Now().accounts.Keys)
            && (t.Full() && (took || !Granting(st)) ==> t'.Full())
  {
    hide Run, Plausible, Thorough;
    assert t.script[|t.took|] == [st][0] == st;
    Congruent(mid, t.Now(), st, at);
    Step(t.start, t.script, t.took, took);
  }

  class UserReconciler {
    const c: Cluster<UserSpec, UserStatus>
    const kp: Keeper<UserSpec, UserStatus, Login>
    /** The servers at the start, and everything they have been told since. */
    ghost const beginning: Servers
    ghost var told: seq<Issued>

    constructor (c: Cluster<UserSpec, UserStatus>)
      requires c.Valid() && c.rules == RULES && c.objs == Kind([map[]], 0)
      ensures kp.book == Book(c.server.accounts.Keys, map[], [])
      ensures Valid() && this.c == c && fresh(kp) && told == [] && beginning == c.server
    {
      this.c := c;
      kp := new Keeper(c, PLAN, Claims, true);
      beginning, told := c.server, [];
    }

    ghost predicate Sane()
      reads this, kp, c
    {
      && kp.c == c && kp.plan == PLAN && kp.claims == Claims && kp.careful && c.rules == RULES
      && kp.Valid()
    }

    /** What is on the servers is exactly what they were told, and what they were told is what some stored
        version of a User asked for. */
    ghost predicate Valid()
      reads this, kp, c
    {
      && Sane()
      && GoodRun(beginning, told)
      && Agree(c.server, Grants.After(beginning, told))
      && Attributed(told, kp.book.vouched)
    }

    /** What the servers were told is what they show, and each script was asked for by a stored version of
        a User that held its finalizer. */
    ghost predicate Authored()
      reads this, kp, c
    {
      && GoodRun(beginning, told)
      && Agree(c.server, Grants.After(beginning, told))
      && Attributed(told, kp.book.vouched)
      && AllVouched(c.objs, c.datastores, PLAN, kp.book.vouched)
    }

    /** A script has been issued as far as `t.took` goes, and the servers show for it. */
    ghost predicate At(w: Job, t: Talk)
      reads this, kp, c
    {
      && Sane() && kp.On(w)
      && GoodRun(beginning, told) && Attributed(told, kp.book.vouched)
      && Agree(t.start, Grants.After(beginning, told))
      && t.Fair()
      && Agree(c.server, t.Now())
      && (t.calm ==> c.Quiet() && c.server == t.Now())
    }

    ghost method Close(w: Job, t: Talk)
      requires At(w, t) && AskedBy(t.script, w) && FINALIZER in w.o.body.finalizers
      modifies this, kp
      ensures Valid() && kp.On(w)
      ensures told == old(told) + [Issued(t.script, t.took)]
    {
      hide kp.Kept, Run, Plausible, AskedBy, kp.On, c.Smooth, kp.Valid;
      var p := Issued(t.script, t.took);
      RunCongruent(t.start, Grants.After(beginning, told), t.script, t.took);
      OneMore(beginning, told, p);
      kp.Vouch(w);
      told := told + [p];
    }

    /** Issue the next statement of the script. */
    method Say(ghost w: Job, st: Statement, ghost t: Talk) returns (ok: bool, ghost t': Talk)
      requires At(w, t) && t.Due([st]) && !st.CreateUser?
      requires st.DropUser? ==> w.phase == Cleaning(Some(st.a))
      modifies c
      ensures At(w, t') && t'.After(t) && |t'.took| == |t.took| + 1 && kp.Same()
      ensures ok ==> Accepts(t.Now(), st) && t'.Now() == Effect(t.Now(), st, ANY_TIME)
      ensures !st.DropUser? ==> t.Now().accounts.Keys <= t'.Now().accounts.Keys
      ensures t.Full() && (ok || !Granting(st)) ==> t'.Full()
      ensures t.calm ==> ok == Accepts(t.Now(), st) && (!ok ==> t'.Now() == t.Now())
    {
      hide History, kp.Kept, Grew, LogDrifted, GoodRun, Grants.After, Run, Plausible, Thorough, Attributed, AskedBy,
        kp.On, c.Smooth, kp.Valid, Worse, Effect, Accepts, Talk.Fair, Talk.Full, Talk.Now;
      ghost var mid, took;
      Proper(t, st);
      TouchesAccounts(st, kp.Target(w));
      ok, mid, took := kp.Sql(w, st);
      kp.Readable();
      Spoken(t, st, mid, took, Moment(|c.objs.hist| - 1, |c.databases.hist|));
      t' := t.(took := t.took + [took]);
    }

    /** Issue the CREATE USER that every script begins with. */
    method Create(ghost w: Job, a: Account, password: seq<Byte>, ifNotExists: bool, ghost t: Talk)
      returns (ok: bool, ghost t': Talk)
      requires At(w, t) && t.took == [] && t.Due([CreateUser(a, password, ifNotExists)])
      requires Targets(w, a)
      modifies kp, c
      ensures At(w, t') && t'.After(t) && |t'.took| == 1 && kp.Same() && t'.Full()
      ensures ok ==> a in t'.Now().accounts
      ensures t.Now().accounts.Keys <= t'.Now().accounts.Keys
      ensures ok && !ifNotExists ==> t'.Now().accounts[a].password == password
      ensures t.calm ==> ok == Accepts(t.Now(), CreateUser(a, password, ifNotExists))
    {
      hide History, kp.Kept, Grew, LogDrifted, GoodRun, Grants.After, Run, Plausible, Thorough, Attributed, AskedBy,
        kp.On, c.Smooth, kp.Valid;
      ghost var mid, took;
      var st := CreateUser(a, password, ifNotExists);
      assert t.script[0] == [st][0] == st && AboutAccounts(st);
      var refused;
      ok, refused, mid, took := kp.SqlCreate(w, st, a);
      kp.Readable();
      Congruent(mid, t.Now(), st, Moment(|c.objs.hist| - 1, |c.databases.hist|));
      Step(t.start, t.script, t.took, took);
      t' := t.(took := t.took + [took]);
    }

    /** Grant the listed privileges, one statement each. */
    method GrantPrivileges(ghost w: Job, a: Account, privileges: seq<string>, scope: Option<string>, ghost t: Talk)
      returns (ok: bool, ghost t': Talk)
      requires At(w, t) && a in t.Now().accounts && t.Due(Privileges(a, privileges, scope)) && t.Full()
      modifies c
      ensures At(w, t') && t'.After(t) && kp.Same() && a in t'.Now().accounts
      ensures ok ==> |t'.took| == |t.took| + |privileges| && t'.Full()
      ensures t.calm ==> ok
    {
      hide History, kp.Kept, Grew, LogDrifted, GoodRun, Grants.After, Run, Plausible, Thorough, Attributed, AskedBy,
        Agree, kp.On, c.Smooth, kp.Valid;
      t' := t;
      for i := 0 to |privileges|
        invariant At(w, t') && t'.After(t) && kp.Same() && a in t'.Now().accounts
        invariant |t'.took| == |t.took| + i && t'.Full()
      {
        assert t.script[|t.took| + i] == Privileges(a, privileges, scope)[i];
        ok, t' := Say(w, GrantUser(a, Grant(privileges[i], scope)), t');
        if !ok {
          return;
        }
      }
      ok := true;
    }

    /** Grant the listed memberships, one statement each. */
    method GrantMembers(ghost w: Job, a: Account, roles: seq<string>, ghost t: Talk)
      returns (ok: bool, ghost t': Talk)
      requires At(w, t) && a in t.Now().accounts && t.Due(Members(a, roles)) && t.Full()
      modifies c
      ensures At(w, t') && t'.After(t) && kp.Same() && a in t'.Now().accounts
      ensures ok ==> |t'.took| == |t.took| + |roles| && t'.Full()
      ensures t.calm ==> ok
    {
      hide History, kp.Kept, Grew, LogDrifted, GoodRun, Grants.After, Run, Plausible, Thorough, Attributed, AskedBy,
        Agree, kp.On, c.Smooth, kp.Valid;
      t' := t;
      for i := 0 to |roles|
        invariant At(w, t') && t'.After(t) && kp.Same() && a in t'.Now().accounts
        invariant |t'.took| == |t.took| + i && t'.Full()
      {
        assert t.script[|t.took| + i] == Members(a, roles)[i];
        ok, t' := Say(w, Statement.GrantRole(a, roles[i]), t');
        if !ok {
          return;
        }
      }
      ok := true;
    }

    /** Create a role, grant it, and try to make it the default. */
    method GrantRole(ghost w: Job, a: Account, role: string, ghost t: Talk)
      returns (ok: bool, ghost t': Talk)
      requires At(w, t) && a in t.Now().accounts && t.Full()
      requires t.Due([CreateRole(Ext(a.ds, role), true), Statement.GrantRole(a, role), SetDefaultRole(a, role)])
      modifies c
      ensures At(w, t') && t'.After(t) && kp.Same() && a in t'.Now().accounts
      ensures ok <==> |t'.took| == |t.took| + 3
      ensures ok ==> t'.Full()
      ensures t.calm ==> ok
    {
      hide History, kp.Kept, Grew, LogDrifted, GoodRun, Grants.After, Run, Plausible, Thorough, Attributed, AskedBy,
        Agree, kp.On, c.Smooth, AllAboutAccounts, Effect, kp.Valid;
      ghost var due := [CreateRole(Ext(a.ds, role), true), Statement.GrantRole(a, role), SetDefaultRole(a, role)];
      ghost var n := |t.took|;
      assert t.script[n] == due[0] && t.script[n + 1] == due[1] && t.script[n + 2] == due[2];
      ok, t' := Say(w, CreateRole(Ext(a.ds, role), true), t);
      if !ok {
        return;
      }
      ok, t' := Say(w, Statement.GrantRole(a, role), t');
      if !ok {
        return;
      }
      // older servers do not know default roles; failing at that is ignored
      var _, u := Say(w, SetDefaultRole(a, role), t');
      t' := u;
    }

    /** All the roles of a MySQL user. */
    method GrantRoles(ghost w: Job, a: Account, roles: seq<string>, ghost t: Talk)
      returns (ok: bool, ghost t': Talk)
      requires At(w, t) && a in t.Now().accounts && t.Due(Roles(a, roles)) && t.Full()
      modifies c
      ensures At(w, t') && t'.After(t) && kp.Same() && a in t'.Now().accounts
      ensures ok ==> |t'.took| == |t.took| + 3 * |roles| && t'.Full()
      ensures t.calm ==> ok
    {
      hide History, kp.Kept, Grew, LogDrifted, GoodRun, Grants.After, Run, Plausible, Thorough, Attributed, AskedBy,
        Agree, Roles, kp.On, c.Smooth, AllAboutAccounts, kp.Valid;
      t' := t;
      for i := 0 to |roles|
        invariant At(w, t') && t'.After(t) && kp.Same() && a in t'.Now().accounts
        invariant |t'.took| == |t.took| + 3 * i && t'.Full()
      {
        RoleOf(a, roles, i);
        ghost var n := |t.took|;
        assert t.script[n + 3 * i] == Roles(a, roles)[3 * i]
               && t.script[n + (3 * i + 1)] == Roles(a, roles)[3 * i + 1]
               && t.script[n + (3 * i + 2)] == Roles(a, roles)[3 * i + 2];
        ok, t' := GrantRole(w, a, roles[i], t');
        if !ok {
          return;
        }
      }
      ok := true;
    }

    /** MySQL and MariaDB: create if missing, grant, and flush. */
    method EnsureMySQL(ghost w: Job, a: Account, password: seq<Byte>, spec: UserSpec, ghost t: Talk)
      returns (ok: bool, ghost t': Talk)
      requires At(w, t) && t.took == []
      requires t.script == Script(MySQL, a, password, spec.privileges, spec.roles, spec.databaseRef)
      requires Targets(w, a)
      modifies kp, c
      ensures At(w, t') && t'.After(t) && kp.Same()
      ensures ok ==> |t'.took| == |t.script| && t'.Full() && a in t'.Now().accounts
      ensures t.calm ==> ok
    {
      hide History, kp.Kept, Grew, LogDrifted, GoodRun, Grants.After, Run, Plausible, Thorough, Attributed, AskedBy,
        Agree, Script, Has, Privileges, Roles, Members, kp.On, c.Smooth, Targets, AllAboutAccounts, kp.Valid, Follows,
        Effect, Sane;
      Layout(MySQL, a, password, spec);
      ok, t' := Create(w, a, password, true, t);
      if !ok {
        return;
      }
      ok, t' := GrantPrivileges(w, a, spec.privileges, spec.databaseRef, t');
      if !ok {
        return;
      }
      ok, t' := GrantRoles(w, a, spec.roles, t');
      if !ok {
        return;
      }
      ok, t' := Say(w, Nop, t');
    }

    /** Create the account, or else give it the password. */
    method CreateOrAlter(ghost w: Job, a: Account, password: seq<Byte>, ghost t: Talk)
      returns (ok: bool, ghost t': Talk)
      requires At(w, t) && t.took == [] && t.Due([CreateUser(a, password, false), AlterUser(a, password)])
      requires Targets(w, a)
      modifies kp, c
      ensures At(w, t') && t'.After(t) && kp.Same() && t'.Full()
      ensures ok ==> |t'.took| == 2 && a in t'.Now().accounts
      ensures t.calm ==> ok
    {
      hide History, kp.Kept, Grew, LogDrifted, GoodRun, Grants.After, Run, Plausible, Thorough, Attributed, AskedBy,
        Agree, kp.On, c.Smooth, kp.Valid;
      ghost var due := [CreateUser(a, password, false), AlterUser(a, password)];
      assert t.script[0] == due[0] && t.script[1] == due[1];
      ok, t' := Create(w, a, password, false, t);
      if ok {
        // the new account has that password, so there is nothing to alter
        AlteringChangesNothing(t'.Now(), a, password);
        Step(t'.start, t'.script, t'.took, false);
        t' := t'.(took := t'.took + [false]);
      } else {
        ok, t' := Say(w, AlterUser(a, password), t');
      }
    }

    method EnsurePostgreSQL(ghost w: Job, a: Account, password: seq<Byte>, spec: UserSpec, ghost t: Talk)
      returns (ok: bool, ghost t': Talk)
      requires At(w, t) && t.took == []
      requires t.script == Script(PostgreSQL, a, password, spec.privileges, spec.roles, spec.databaseRef)
      requires Targets(w, a)
      modifies kp, c
      ensures At(w, t') && t'.After(t) && kp.Same()
      ensures ok ==> |t'.took| == |t.script| && t'.Full() && a in t'.Now().accounts
      ensures t.calm ==> ok
    {
      hide History, kp.Kept, Grew, LogDrifted, GoodRun, Grants.After, Run, Plausible, Thorough, Attributed, AskedBy,
        Agree, Script, Has, Privileges, Roles, Members, kp.On, c.Smooth, kp.Valid;
      Layout(PostgreSQL, a, password, spec);
      ok, t' := CreateOrAlter(w, a, password, t);
      if !ok {
        return;
      }
      ok, t' := GrantPrivileges(w, a, spec.privileges, spec.databaseRef, t');
      if !ok {
        return;
      }
      ok, t' := GrantMembers(w, a, spec.roles, t');
    }

    method EnsureSQLServer(ghost w: Job, a: Account, password: seq<Byte>, spec: UserSpec, ghost t: Talk)
      returns (ok: bool, ghost t': Talk)
      requires At(w, t) && t.took == []
      requires t.script == Script(SQLServer, a, password, spec.privileges, spec.roles, spec.databaseRef)
      requires Targets(w, a)
      modifies kp, c
      ensures At(w, t') && t'.After(t) && kp.Same()
      ensures ok ==> |t'.took| == |t.script| && t'.Full() && a in t'.Now().accounts
      ensures t.calm ==> ok
    {
      hide History, kp.Kept, Grew, LogDrifted, GoodRun, Grants.After, Run, Plausible, Thorough, Attributed, AskedBy,
        Agree, Script, Has, Privileges, Roles, Members, kp.On, c.Smooth, kp.Valid;
      Layout(SQLServer, a, password, spec);
      ok, t' := CreateOrAlter(w, a, password, t);
      if !ok || spec.databaseRef.None? {
        return;
      }
      // the database user may be there already; failing at that is ignored
      var _, u := Say(w, Nop, t');
      ok, t' := GrantPrivileges(w, a, spec.privileges, None, u);
    }

    /** "Ensure that the account exists and has what is listed", in the three dialects. */
    method EnsureUser(ghost w: Job, engine: Engine, a: Account, password: seq<Byte>, spec: UserSpec) returns (ok: bool)
      requires Valid() && kp.On(w) && engine != Unsupported && Targets(w, a)
      requires spec == w.o.body.spec && Decode(spec.password) == Some(password)
      requires engine == EngineOf(w.phase.store.value.value.body.spec.datastoreType)
      modifies this, kp, c
      ensures Valid() && kp.On(w) && kp.Same()
      ensures var script := Script(engine, a, password, spec.privileges, spec.roles, spec.databaseRef);
              && |told| == |old(told)| + 1 && told[..|old(told)|] == old(told) && told[|old(told)|].script == script
              && (ok ==> Complete(script, told[|old(told)|].took) && a in c.server.accounts)
              && (old(c.Quiet()) ==> ok && c.server == RunAll(old(c.server), script))
    {
      hide History, kp.Kept, Grew, LogDrifted, GoodRun, Grants.After, Plausible, Thorough, Attributed, Script, kp.On,
        c.Smooth, kp.Valid;
      ghost var script := Script(engine, a, password, spec.privileges, spec.roles, spec.databaseRef);
      kp.Remembers(w);
      ghost var t := Opened(w, script);
      match engine {
        case MySQL => ok, t := EnsureMySQL(w, a, password, spec, t);
        case PostgreSQL => ok, t := EnsurePostgreSQL(w, a, password, spec, t);
        case SQLServer => ok, t := EnsureSQLServer(w, a, password, spec, t);
      }
      if t.calm {
        ThoroughIsAll(t.start, script, t.took);
      }
      Close(w, t);
    }

    /** The three dialects of dropping an account. */
    method Drop(ghost w: Job, engine: Engine, a: Account) returns (ok: bool, ghost w': Job)
      requires Valid() && kp.On(w) && w.phase == Cleaning(Some(a)) && engine != Unsupported
      requires FINALIZER in w.o.body.finalizers
      requires a == Ext(Key(w.k.ns, w.o.body.spec.datastoreRef), LoginOf(w.o.body.spec, engine))
      modifies this, kp, c
      ensures Valid()
      ensures ok ==> w' == w.(phase := Cleaning(None)) && kp.On(w')
      ensures kp.Same()
      ensures old(c.Quiet()) ==>
                match CleanUp(old(c.server), engine, a)
                case None => !ok && c.server == old(c.server)
                case Some(server) => ok && c.server == server
    {
      hide History, kp.Kept, Grew, LogDrifted, GoodRun, Grants.After, Plausible, Thorough, Run, Attributed, kp.On,
        c.Smooth, DropScript, kp.Valid;
      ghost var t := Opened(w, DropScript(engine, a));
      ok, t := TellDrop(w, engine, a, t);
      Close(w, t);
      w' := w;
      if ok {
        kp.Cleared(w);
        w' := w.(phase := Cleaning(None));
      }
    }

    /** Issue the script that drops an account. */
    method TellDrop(ghost w: Job, engine: Engine, a: Account, ghost t: Talk) returns (ok: bool, ghost t': Talk)
      requires At(w, t) && t.script == DropScript(engine, a) && t.took == [] && engine != Unsupported
      requires w.phase == Cleaning(Some(a))
      modifies c
      ensures At(w, t') && t'.script == t.script && t'.calm == t.calm && kp.Same()
      ensures ok ==> a !in c.server.accounts
      ensures t.calm ==>
                match CleanUp(t.start, engine, a)
                case None => !ok && c.server == t.start
                case Some(server) => ok && c.server == server
    {
      hide History, kp.Kept, Grew, LogDrifted, GoodRun, Grants.After, Plausible, Thorough, Attributed, kp.On,
        c.Smooth, kp.Valid, AboutAccounts;
      var drop := DropUser(a, engine != SQLServer);
      t' := t;
      if engine == SQLServer {
        // drop the database user first; failing at that is ignored
        var _, u := Say(w, Nop, t');
        t' := u;
      }
      ok, t' := Say(w, drop, t');
      if ok && engine == MySQL {
        ok, t' := Say(w, Nop, t');
      }
    }

    /** Drop the account, if the Datastore can still be found; nothing to do if it cannot. */
    method Cleanup(k: Key, o: Own, ghost at: nat) returns (ok: bool, ghost w: Job)
      requires Valid() && at == c.objs.seen && k in c.objs.Cached() && c.objs.Cached()[k] == o
      requires o.body.deleting && FINALIZER in o.body.finalizers
      modifies this, kp, c
      ensures Valid()
      ensures ok ==> w == Work(k, o, at, Cleaning(None)) && kp.On(w)
      ensures kp.Same()
      ensures old(c.Quiet()) ==>
                var ds := Key(k.ns, o.body.spec.datastoreRef);
                if ds !in old(c.datastores.Now()) then ok && c.server == old(c.server)
                else if ds !in c.reachable then !ok && c.server == old(c.server)
                else
                  var engine := EngineOf(old(c.datastores.Now())[ds].body.spec.datastoreType);
                  match CleanUp(old(c.server), engine, Ext(ds, LoginOf(o.body.spec, engine)))
                  case None => !ok && c.server == old(c.server)
                  case Some(server) => ok && c.server == server
    {
      hide History, kp.Kept, Grew, LogDrifted, Attributed, GoodRun, Grants.After, kp.On, c.Smooth, kp.Valid;
      var ds := Key(k.ns, o.body.spec.datastoreRef);
      var got;
      got, w := kp.LookUp(k, o, at, ds);
      if !got.Found? {
        return got.NotFound?, w;
      }
      var engine := EngineOf(got.value.body.spec.datastoreType);
      ok := kp.Connect(w, ds, engine);
      if ok {
        ok, w := Drop(w, engine, Ext(ds, LoginOf(o.body.spec, engine)));
      }
    }

    /** Connect with the credentials of the Datastore, decode the password, and see to the account. */
    method CreateOrUpdate(ghost w: Job, d: Key, engine: Engine, spec: UserSpec) returns (ok: bool, ghost w': Job)
      requires Valid() && kp.On(w) && Targets(w, Ext(d, LoginOf(spec, engine))) && spec == w.o.body.spec
      requires engine == EngineOf(w.phase.store.value.value.body.spec.datastoreType)
      modifies this, kp, c
      ensures Valid() && kp.On(w')
      ensures w'.phase.Working? && w' == w.(phase := w.phase.(stood := w'.phase.stood))
      ensures ok ==> w'.phase.stood.Some?
      ensures kp.Same()
      ensures old(c.Quiet()) ==>
                && ok == (d in c.reachable && engine != Unsupported && Decode(spec.password).Some?)
                && c.server == if ok then RunAll(old(c.server), ScriptFor(spec, engine, d)) else old(c.server)
    {
      hide History, kp.Kept, Grew, LogDrifted, Attributed, GoodRun, Grants.After, RunAll, Decode, Script, kp.On,
        c.Smooth, kp.Valid;
      w' := w;
      ok := kp.Connect(w, d, engine);
      if !ok {
        return;
      }
      var password := Decode(spec.password);
      if password.None? {
        return false, w;
      }
      ok := EnsureUser(w, engine, Ext(d, LoginOf(spec, engine)), password.value, spec);
      if ok {
        w' := kp.Stands(w);
      }
    }

    /** Look for the Database that is asked for, if any. */
    method FindDatabase(ghost w: Job, ns: string, ref: Option<string>) returns (named: bool, r: Result)
      requires Valid() && kp.On(w)
      modifies c
      ensures Valid() && kp.On(w) && kp.Same()
      ensures !named ==> r != Done
      ensures old(c.Quiet()) ==> c.server == old(c.server) && named == Named(old(c.databases.Now()), ref) && r != Error
    {
      hide History, kp.Kept, Grew, LogDrifted, Attributed, GoodRun, Grants.After, kp.On, c.Smooth, kp.Valid;
      if ref.None? {
        return true, Done;
      }
      var db := kp.ResolveDatabase(w, ns, ref.value);
      return db.Resolved?, if db.ListFailed? then Error else Requeue;
    }

    /** Resolve the Database, and see to the account on the Datastore `d`. */
    method ServeOn(ghost w: Job, ns: string, d: Key, engine: Engine, spec: UserSpec)
      returns (ok: bool, r: Result, ghost w': Job)
      requires Valid() && kp.On(w) && Targets(w, Ext(d, LoginOf(spec, engine))) && spec == w.o.body.spec
      requires engine == EngineOf(w.phase.store.value.value.body.spec.datastoreType)
      modifies this, kp, c
      ensures Valid() && kp.On(w')
      ensures w'.phase.Working? && w' == w.(phase := w.phase.(stood := w'.phase.stood))
      ensures ok ==> w'.phase.stood.Some?
      ensures kp.Same() && (!ok ==> r != Done) && (old(c.Quiet()) ==> r != Error)
      ensures old(c.Quiet()) ==>
                && ok == (Named(old(c.databases.Now()), spec.databaseRef)
                          && d in c.reachable && engine != Unsupported && Decode(spec.password).Some?)
                && c.server == if ok then RunAll(old(c.server), ScriptFor(spec, engine, d)) else old(c.server)
    {
      hide History, kp.Kept, Grew, LogDrifted, Attributed, GoodRun, Grants.After, RunAll, Decode, ScriptFor, Named,
        kp.On, c.Smooth, kp.Valid;
      w' := w;
      ok, r := FindDatabase(w, ns, spec.databaseRef);
      if ok {
        ok, w' := CreateOrUpdate(w, d, engine, spec);
        r := Requeue;
      }
    }

    /** Resolve the Datastore, wait for it, resolve the Database, and see to the account. */
    method Serve(ghost w: Job, k: Key, o: Own)
      returns (status: UserStatus, r: Result, ghost w': Job, ghost found: Option<Key>)
      requires Valid() && kp.On(w) && w.k == k && w.o == o && w.phase == Working(None, None)
      modifies this, kp, c
      ensures Valid() && kp.On(w') && w' == w.(phase := w'.phase) && w'.phase.Working?
      ensures o.body.status.phase != "" ==> Follows(o.body.status, status)
      ensures r == Done <==> status.ready
      ensures status.ready ==>
                && w'.phase.store.Some? && w'.phase.store.value.value.body.status.ready && w'.phase.stood.Some?
                && w'.phase.store.value.ds.name == o.body.spec.datastoreRef
      ensures kp.Same()
      ensures old(c.Quiet()) ==>
                var stores := old(View(c.datastores.Now()));
                var named := Named(old(c.databases.Now()), o.body.spec.databaseRef);
                && LeadsTo(stores.Keys, k.ns, o.body.spec.datastoreRef, found)
                && c.server == Served(old(c.server), o.body.spec, stores, named, c.reachable, found)
                && status == Verdict(o.body, stores, named, c.reachable, found, c.clock) && r != Error
    {
      hide History, kp.Kept, Grew, LogDrifted, Attributed, GoodRun, Grants.After, RunAll, Decode, ScriptFor, Named,
        kp.On, View, LeadsTo, Resolves, c.Smooth, kp.Valid, EngineOf;
      var resolved;
      resolved, w' := kp.Resolve(w, k.ns, o.body.spec.datastoreRef);
      found := FoundKey(resolved);
      if old(c.Quiet()) {
        kp.Readable();
        ResolvedLeads(c.datastores.Now(), k.ns, o.body.spec.datastoreRef, resolved);
      }
      if !resolved.Resolved? {
        return Failing(o.body.status, "Failed"), if resolved.ListFailed? then Error else Requeue, w', found;
      }
      if !resolved.value.body.status.ready {
        return Failing(o.body.status, "Waiting"), Requeue, w', found;
      }
      var ok;
      ok, r, w' := ServeOn(w', k.ns, resolved.k, EngineOf(resolved.value.body.spec.datastoreType), o.body.spec);
      if !ok {
        return Failing(o.body.status, "Failed"), r, w', found;
      }
      var now := c.Clock();
      var created := if o.body.status.createdAt.None? then Some(now) else o.body.status.createdAt;
      return UserStatus("Ready", true, true, created), Done, w', found;
    }

    /** Store the finalizer, and a first status. */
    method Prepare(k: Key, fetched: Own, ghost at: nat) returns (held: Reply<Own>, ghost w: Job)
      requires Valid() && at == c.objs.seen && k in c.objs.Cached() && c.objs.Cached()[k] == fetched
      requires !fetched.body.deleting
      modifies c
      ensures Valid() && c.Elapsed()
      ensures held.Found? ==> kp.On(w) && w == Work(k, held.value, w.at, Working(None, None))
      ensures held.Found? ==> held.value.body == Prepared(fetched.body)
      ensures old(c.Quiet()) && k in old(c.objs.Now()) && old(c.objs.Now())[k] == fetched ==>
                && held.Found? && c.server == old(c.server)
                && c.datastores.hist == old(c.datastores.hist) && c.databases.hist == old(c.databases.hist)
                && k in c.objs.Now() && c.objs.Now()[k] == held.value
                && View(c.objs.Now()) == old(View(c.objs.Now()))[k := held.value.body]
    {
      hide History, kp.Kept, Grew, LogDrifted, Attributed, View, GoodRun, Grants.After, kp.On, c.Smooth, kp.Valid;
      held, w := kp.Hold(k, fetched, at);
      if held.Found? && held.value.body.status.phase == "" {
        held, w := kp.SetStatus(w, k, held.value, Failing(held.value.body.status, "Creating").(created := false));
      }
    }

    /** Serve the object and write down how it went. */
    method Finish(ghost w: Job, k: Key, o: Own) returns (r: Result, ghost found: Option<Key>)
      requires Valid() && kp.On(w) && w.k == k && w.o == o && w.phase == Working(None, None)
      requires o.body.status.phase != ""
      modifies this, kp, c
      ensures Valid() && c.Elapsed()
      ensures old(c.Quiet()) && k in old(c.objs.Now()) && old(c.objs.Now())[k] == o ==>
                var stores := old(View(c.datastores.Now()));
                var named := Named(old(c.databases.Now()), o.body.spec.databaseRef);
                && c.datastores.hist == old(c.datastores.hist) && c.databases.hist == old(c.databases.hist)
                && LeadsTo(stores.Keys, k.ns, o.body.spec.datastoreRef, found)
                && c.server == Served(old(c.server), o.body.spec, stores, named, c.reachable, found)
                && r == (if Verdict(o.body, stores, named, c.reachable, found, c.clock).ready then Done else Requeue)
                && View(c.objs.Now()) == old(View(c.objs.Now()))[
                     k := o.body.(status := Verdict(o.body, stores, named, c.reachable, found, c.clock))]
    {
      hide History, kp.Kept, Grew, LogDrifted, Attributed, View, Served, Verdict, Follows, Keeps, GoodRun,
        Grants.After, kp.On, LeadsTo, Named, c.Smooth, kp.Valid;
      var status, held;
      ghost var w';
      status, r, w', found := Serve(w, k, o);
      held, w' := kp.SetStatus(w', k, o, status);
      if !held.Found? {
        r := Error;
      }
    }

    /** The part of a pass that works towards a ready user. */
    method ReconcileLive(k: Key, fetched: Own, ghost at: nat) returns (r: Result, ghost found: Option<Key>)
      requires Valid() && at == c.objs.seen && k in c.objs.Cached() && c.objs.Cached()[k] == fetched
      requires !fetched.body.deleting
      modifies this, kp, c
      ensures Valid() && c.Elapsed()
      ensures old(c.Quiet()) && k in old(c.objs.Now()) && old(c.objs.Now())[k] == fetched ==>
                && c.datastores.hist == old(c.datastores.hist) && c.databases.hist == old(c.databases.hist)
                && LeadsTo(old(View(c.datastores.Now())).Keys, k.ns, fetched.body.spec.datastoreRef, found)
                && (View(c.objs.Now()), c.server) ==
                   LivePass(old(View(c.objs.Now())), old(View(c.datastores.Now())),
                            Named(old(c.databases.Now()), fetched.body.spec.databaseRef),
                            old(c.server), c.reachable, k, found, c.clock)
                && r == Outcome(old(View(c.objs.Now())), View(c.objs.Now()), k)
    {
      hide History, kp.Kept, Grew, LogDrifted, Attributed, Served, Verdict, LivePass, LeadsTo, GoodRun, Grants.After,
        Named, kp.On, c.Smooth, kp.Valid, Prepared, Outcome, View;
      kp.Readable();
      ghost var m, stores, server := c.objs.Now(), View(c.datastores.Now()), c.server;
      ghost var named := Named(c.databases.Now(), fetched.body.spec.databaseRef);
      var held, w := Prepare(k, fetched, at);
      if !held.Found? {
        return Error, None;
      }
      PreparedIsTheSame(fetched.body);
      r, found := Finish(w, k, held.value);
      LiveCases(m, stores, named, server, c.reachable, k, fetched, found, c.clock);
    }

    /** The part of a pass that lets a deleting user go. */
    method ReconcileDeleting(k: Key, fetched: Own, ghost at: nat) returns (r: Result)
      requires Valid() && at == c.objs.seen && k in c.objs.Cached() && c.objs.Cached()[k] == fetched
      requires fetched.body.deleting
      modifies this, kp, c
      ensures Valid() && c.Elapsed()
      ensures old(c.Quiet()) && k in old(c.objs.Now()) && old(c.objs.Now())[k] == fetched ==>
                && c.datastores.hist == old(c.datastores.hist) && c.databases.hist == old(c.databases.hist)
                && (View(c.objs.Now()), c.server) ==
                   DeletingPass(old(View(c.objs.Now())), old(View(c.datastores.Now())), old(c.server), c.reachable, k)
                && r == Outcome(old(View(c.objs.Now())), View(c.objs.Now()), k)
    {
      hide History, kp.Kept, Grew, LogDrifted, Attributed, GoodRun, Grants.After, kp.On, c.Smooth, kp.Valid;
      if FINALIZER !in fetched.body.finalizers {
        return Done;
      }
      var clean, w := Cleanup(k, fetched, at);
      if !clean {
        return Error;
      }
      var released := kp.Release(w, k, fetched, RemoveFinalizer(fetched.body.finalizers, FINALIZER));
      return if released then Done else Error;
    }

    /** One pass over `k`; `found` is where the reference of a live object led. */
    method Reconcile(k: Key) returns (r: Result, ghost found: Option<Key>)
      requires Valid()
      modifies this, kp, c
      ensures Valid() && c.Elapsed()
      ensures old(c.schedule) != [] ==> |c.schedule| < |old(c.schedule)|
      ensures old(c.Quiet()) ==>
                && c.datastores.hist == old(c.datastores.hist) && c.databases.hist == old(c.databases.hist)
                && Finds(old(View(c.objs.Now())), old(View(c.datastores.Now())), k, found)
                && (View(c.objs.Now()), c.server) ==
                   Pass(old(View(c.objs.Now())), old(View(c.datastores.Now())),
                        NamedBy(old(c.objs.Now()), old(c.databases.Now()), k),
                        old(c.server), c.reachable, k, found, c.clock)
                && r == Outcome(old(View(c.objs.Now())), View(c.objs.Now()), k)
    {
      hide History, kp.Kept, Grew, LogDrifted, Attributed, GoodRun, Grants.After, LivePass, DeletingPass, Named,
        kp.On, LeadsTo, c.Smooth, kp.Valid;
      found := None;
      var got, at := kp.Fetch(k);
      if !got.Found? {
        return if got.NotFound? then Done else Error, None;
      }
      if got.value.body.deleting {
        r := ReconcileDeleting(k, got.value, at);
      } else {
        r, found := ReconcileLive(k, got.value, at);
      }
    }

    /** A worker: pass after pass, whatever each of them runs into. */
    method RunWorker(requests: seq<Key>)
      requires Valid()
      modifies this, kp, c
      ensures Valid() && c.Elapsed()
    {
      for i := 0 to |requests|
        invariant Valid() && c.Elapsed()
      {
        var _, _ := Reconcile(requests[i]);
      }
    }

    /** Deletion is retried. Whatever cuts the passes before the world has become quiet, at `b` and `sv`,
        the one after that lets a deleting object go, with the account dropped, exactly if it is not
        blocked; so that one which is left is blocked. */
    method RetryDeletion(k: Key) returns (r: Result, ghost b: Option<Body<UserSpec, UserStatus>>, ghost sv: Servers)
      requires Valid() && c.recovers
      modifies this, kp, c
      ensures Valid() && c.Quiet()
      ensures !Released(View(c.objs.Now()), k) && c.objs.Now()[k].body.deleting ==>
                r == Error && Blocked(c.objs.Now()[k].body, View(c.datastores.Now()), c.server, c.reachable, k)
      ensures b.Some? && b.value.deleting && FINALIZER in b.value.finalizers ==>
                var stores, ds := View(c.datastores.Now()), Key(k.ns, b.value.spec.datastoreRef);
                && (Released(View(c.objs.Now()), k) <==> !Blocked(b.value, stores, sv, c.reachable, k))
                && (Released(View(c.objs.Now()), k) <==> r == Done)
                && (Released(View(c.objs.Now()), k) && ds in stores ==>
                      var host := if stores[ds].spec.datastoreType in MYSQL_TYPES then b.value.spec.host else "";
                      Ext(ds, Login(b.value.spec.username, host)) !in c.server.accounts)
                && (!Released(View(c.objs.Now()), k) ==> c.server == sv)
    {
      hide History, kp.Kept, Attributed, GoodRun, Grants.After, kp.On, Pass, Blocked, Finds, NamedBy, c.Smooth,
        kp.Valid;
      while c.schedule != []
        invariant Valid()
        decreases |c.schedule|
      {
        var _, _ := Reconcile(k);
      }
      kp.Readable();
      ghost var users, stores := View(c.objs.Now()), View(c.datastores.Now());
      ghost var named := NamedBy(c.objs.Now(), c.databases.Now(), k);
      b, sv := if k in users then Some(users[k]) else None, c.server;
      ghost var found;
      r, found := Reconcile(k);
      LeftIsBlocked(users, stores, named, sv, c.reachable, k, found, c.clock);
      if k in users && users[k].deleting && FINALIZER in users[k].finalizers {
        DeletingEnds(users, stores, named, sv, c.reachable, k, found, c.clock);
      }
    }

    /** A pass over a deleting object on a SQL Server whose process dies after the account was dropped
        and before the finalizer was taken off. */
    method DiesAfterDrop(k: Key)
      requires Valid() && c.Quiet()
      requires k in c.objs.Now() && c.objs.Now()[k].body.deleting && FINALIZER in c.objs.Now()[k].body.finalizers
      requires var spec := c.objs.Now()[k].body.spec;
               var ds := Key(k.ns, spec.datastoreRef);
               && ds in c.datastores.Now() && EngineOf(c.datastores.Now()[ds].body.spec.datastoreType) == SQLServer
               && ds in c.reachable && Ext(ds, LoginOf(spec, SQLServer)) in c.server.accounts
      modifies this, kp, c
      ensures Valid() && c.Quiet()
      ensures c.objs.hist == old(c.objs.hist) && c.datastores.hist == old(c.datastores.hist)
      ensures var spec := old(c.objs.Now())[k].body.spec;
              var a := Ext(Key(k.ns, spec.datastoreRef), LoginOf(spec, SQLServer));
              c.server == old(c.server).(accounts := old(c.server).accounts - {a})
      ensures !Released(View(c.objs.Now()), k) && c.objs.Now()[k].body.deleting
      ensures Blocked(c.objs.Now()[k].body, View(c.datastores.Now()), c.server, c.reachable, k)
    {
      hide History, kp.Kept, Attributed, GoodRun, Grants.After, kp.On, c.Smooth, kp.Valid;
      var got, at := kp.Fetch(k);
      var dropped, _ := Cleanup(k, got.value, at);
    }

    /** No later pass can let go what is blocked, though nothing else goes wrong. */
    method RetryInVain(k: Key, passes: nat) returns (r: Result)
      requires Valid() && c.Quiet() && passes > 0
      requires !Released(View(c.objs.Now()), k) && c.objs.Now()[k].body.deleting
      requires Blocked(c.objs.Now()[k].body, View(c.datastores.Now()), c.server, c.reachable, k)
      modifies this, kp, c
      ensures Valid() && View(c.objs.Now()) == old(View(c.objs.Now())) && c.server == old(c.server)
      ensures r == Error
    {
      hide History, kp.Kept, Attributed, GoodRun, Grants.After, kp.On, Pass, Finds, Outcome, NamedBy, c.Smooth;
      ghost var users, stores, sv := View(c.objs.Now()), View(c.datastores.Now()), c.server;
      r := Done;
      for i := 0 to passes
        invariant Valid() && c.Quiet()
        invariant View(c.objs.Now()) == users && View(c.datastores.Now()) == stores && c.server == sv
        invariant i > 0 ==> r == Error
      {
        ghost var found, named;
        named := NamedBy(c.objs.Now(), c.databases.Now(), k);
        r, found := Reconcile(k);
        LeftIsBlocked(users, stores, named, sv, c.reachable, k, found, c.clock);
      }
    }

    lemma Opened(w: Job, script: seq<Statement>) returns (t: Talk)
      requires Valid() && kp.On(w) && AllAboutAccounts(script)
      ensures At(w, t) && t == Talk(c.server, script, [], c.Quiet())
    {
      t := Talk(c.server, script, [], c.Quiet());
    }
  }

  lemma RoleOf(a: Account, roles: seq<string>, i: nat)
    requires i < |roles|
    ensures 3 * i + 2 < |Roles(a, roles)| == 3 * |roles|
    ensures Roles(a, roles)[3 * i] == CreateRole(Ext(a.ds, roles[i]), true)
    ensures Roles(a, roles)[3 * i + 1] == Statement.GrantRole(a, roles[i])
    ensures Roles(a, roles)[3 * i + 2] == SetDefaultRole(a, roles[i])
  {
    assert (3 * i) / 3 == i && (3 * i + 1) / 3 == i && (3 * i + 2) / 3 == i;
  }

  lemma AlteringChangesNothing(s: Servers, a: Account, password: seq<Byte>)
    requires a in s.accounts && s.accounts[a].password == password
    ensures Effect(s, AlterUser(a, password), ANY_TIME) == s
  {
    assert s.accounts[a := s.accounts[a].(password := password)] == s.accounts;
  }

  // ---------------------------------------------------------------- what accounts hold, over a run

  // In every run `Valid()` holds, and with it `Authored()`, which is all that is needed here.

  /** In every run, what an account holds is what it held after some pass, if it was there, and what
      later passes granted it, each as far as it got, as long as none of them dropped it. Where it was
      not there, what it holds now is exactly what it has been granted since. */
  lemma HeldSince(r: UserReconciler, i: nat, a: Account)
    requires r.Authored() && i <= |r.told| && SparedBy(r.told[i..], a)
    ensures GoodRun(r.beginning, r.told[..i])
    ensures var before := Grants.After(r.beginning, r.told[..i]);
            && (a in before.accounts ==> a in r.c.server.accounts)
            && (forall g :: g in GrantsOf(r.c.server, a) <==> g in GrantsOf(before, a) || Granted(r.told[i..], a, g))
            && (forall role :: role in RolesOf(r.c.server, a) <==>
                  role in RolesOf(before, a) || Enrolled(r.told[i..], a, role))
            && DefaultOf(r.c.server, a) == LastDefault(r.told[i..], a, DefaultOf(before, a))
  {
    hide Run, Attributed, AllVouched;
    InTwoParts(r.beginning, r.told, i);
    Accumulation(Grants.After(r.beginning, r.told[..i]), r.told[i..], a);
  }

  /** A stored version of a live User that held its finalizer and names the account. */
  ghost predicate NamesAccount(users: Kind<UserSpec, UserStatus>, k: Key, p: nat, a: Account) {
    && p < |users.hist| && Holds(users.hist[p], k, FINALIZER) && !users.hist[p][k].body.deleting
    && var spec := users.hist[p][k].body.spec;
       spec.datastoreRef == a.ds.name && spec.username == a.what.user && a.what.host in {spec.host, ""}
  }

  /** Scripts give nothing but what is listed, and to nobody but the account. */
  lemma ScriptsGiveWhatIsListed(spec: UserSpec, engine: Engine, ds: Key, i: nat)
    requires Decode(spec.password).Some? && i < |ScriptFor(spec, engine, ds)|
    ensures var st, a := ScriptFor(spec, engine, ds)[i], Ext(ds, LoginOf(spec, engine));
            && (st.GrantUser? ==> st.a == a && st.grant.privilege in spec.privileges
                                  && (st.grant.scope == spec.databaseRef || st.grant.scope.None?))
            && (st.GrantRole? ==> st.a == a && st.role in spec.roles)
            && !st.DropUser?
  {
  }

  /** Whatever an account has been granted since some pass, a User that names it listed. */
  lemma GrantsHaveAuthors(r: UserReconciler, i: nat, a: Account, g: Grant) returns (k: Key, p: nat)
    requires r.Authored() && i <= |r.told| && SparedBy(r.told[i..], a)
    requires GoodRun(r.beginning, r.told[..i])
    requires g in GrantsOf(r.c.server, a) && g !in GrantsOf(Grants.After(r.beginning, r.told[..i]), a)
    ensures NamesAccount(r.c.objs, k, p, a)
    ensures g.privilege in r.c.objs.hist[p][k].body.spec.privileges
  {
    hide Run, ScriptFor, GoodRun, GrantsOf, RolesOf, DefaultOf, Granted, Enrolled, UserReconciler.Authored, Attributed;
    HeldSince(r, i, a);
    assert Granted(r.told[i..], a, g);
    var j, n := GrantedBy(r.told[i..], a, g);
    k, p := Author(r, i + j, n, a);
  }

  lemma RolesHaveAuthors(r: UserReconciler, i: nat, a: Account, role: string) returns (k: Key, p: nat)
    requires r.Authored() && i <= |r.told| && SparedBy(r.told[i..], a)
    requires GoodRun(r.beginning, r.told[..i])
    requires role in RolesOf(r.c.server, a) && role !in RolesOf(Grants.After(r.beginning, r.told[..i]), a)
    ensures NamesAccount(r.c.objs, k, p, a)
    ensures role in r.c.objs.hist[p][k].body.spec.roles
  {
    hide Run, ScriptFor, GoodRun, GrantsOf, RolesOf, DefaultOf, Granted, Enrolled, UserReconciler.Authored, Attributed;
    HeldSince(r, i, a);
    assert Enrolled(r.told[i..], a, role);
    var j, n := EnrolledBy(r.told[i..], a, role);
    k, p := Author(r, i + j, n, a);
  }

  /** The version of a User on whose behalf a statement that gives something was issued. */
  lemma Author(r: UserReconciler, j: nat, n: nat, a: Account) returns (k: Key, p: nat)
    requires r.Authored() && j < |r.told| && n < |r.told[j].script|
    requires var st := r.told[j].script[n]; (st.GrantUser? && st.a == a) || (st.GrantRole? && st.a == a)
    ensures NamesAccount(r.c.objs, k, p, a)
    ensures var st, spec := r.told[j].script[n], r.c.objs.hist[p][k].body.spec;
            && (st.GrantUser? ==> st.grant.privilege in spec.privileges)
            && (st.GrantRole? ==> st.role in spec.roles)
  {
    hide GoodRun, Script;
    var w := r.kp.book.vouched[j];
    assert Vouched(r.c.objs, r.c.datastores, PLAN, w);
    assert AskedBy(r.told[j].script, w);
    k, p := w.k, w.at;
    var s := w.phase.store.value;
    var engine := EngineOf(s.value.body.spec.datastoreType);
    ScriptsGiveWhatIsListed(w.o.body.spec, engine, s.ds, n);
    assert a.what == LoginOf(w.o.body.spec, engine);
  }

  /** An account disappears only on behalf of a deleting User that holds its finalizer and names it. */
  lemma DropsHaveAuthors(r: UserReconciler, i: nat, a: Account) returns (k: Key, p: nat)
    requires r.Authored() && i <= |r.told| && GoodRun(r.beginning, r.told[..i])
    requires a in Grants.After(r.beginning, r.told[..i]).accounts && a !in r.c.server.accounts
    ensures p < |r.c.objs.hist| && Holds(r.c.objs.hist[p], k, FINALIZER) && r.c.objs.hist[p][k].body.deleting
    ensures var spec := r.c.objs.hist[p][k].body.spec;
            a.ds == Key(k.ns, spec.datastoreRef) && a.what.user == spec.username && a.what.host in {spec.host, ""}
  {
    hide Run, GoodRun, GrantsOf, RolesOf, DefaultOf, Granted, Enrolled, UserReconciler.Authored, Attributed, AskedBy,
        Spares;
    if SparedBy(r.told[i..], a) {
      HeldSince(r, i, a);
      assert false;
    }
    var j :| 0 <= j < |r.told[i..]| && !Spares(r.told[i..][j].script, a);
    k, p := Dropper(r, i + j, a);
  }

  lemma Dropper(r: UserReconciler, j: nat, a: Account) returns (k: Key, p: nat)
    requires r.Authored() && j < |r.told| && !Spares(r.told[j].script, a)
    ensures p < |r.c.objs.hist| && Holds(r.c.objs.hist[p], k, FINALIZER) && r.c.objs.hist[p][k].body.deleting
    ensures var spec := r.c.objs.hist[p][k].body.spec;
            a.ds == Key(k.ns, spec.datastoreRef) && a.what.user == spec.username && a.what.host in {spec.host, ""}
  {
    hide GoodRun, Script;
    var w := r.kp.book.vouched[j];
    assert Vouched(r.c.objs, r.c.datastores, PLAN, w);
    assert AskedBy(r.told[j].script, w);
    k, p := w.k, w.at;
    var script := r.told[j].script;
    var n :| 0 <= n < |script| && script[n].DropUser? && script[n].a == a;
    if w.phase.Working? {
      var s := w.phase.store.value;
      ScriptsGiveWhatIsListed(w.o.body.spec, EngineOf(s.value.body.spec.datastoreType), s.ds, n);
    } else {
      var e :| script == DropScript(e, Ext(Key(w.k.ns, w.o.body.spec.datastoreRef), LoginOf(w.o.body.spec, e)));
      assert a.what == LoginOf(w.o.body.spec, e);
    }
  }
}
