/** The world around one controller, and the calls a reconciler makes into it. Before every call
    other parties act and the caches may catch up; then the call itself succeeds, is lost, or takes
    effect while its reply is lost. All of that is written down in `schedule`, one slot a call, so
    whatever holds for every schedule holds for every interleaving and every pattern of faults.

    When the schedule runs out, either every further call is lost, which is how a process that dies
    looks from outside, or the world has become quiet for good. */
module Cluster {
  import opened Api
  import opened Server

  datatype DatastoreSpec = DatastoreSpec(
    datastoreType: string,
    host: string,
    port: nat,
    username: string,
    secretRef: string,
    passwordKey: string,
    sslMode: string,
    instance: string)

  datatype ReadyStatus = ReadyStatus(phase: string, ready: bool)

  datatype DatabaseSpec = DatabaseSpec(datastoreRef: string)

  datatype DatabaseStatus = DatabaseStatus(phase: string, ready: bool, createdAt: Option<nat>)

  type Datastores = Objs<DatastoreSpec, ReadyStatus>
  type Databases = Objs<DatabaseSpec, DatabaseStatus>

  /** The spellings of the types of Datastores that most controllers know. */
  const MYSQL_TYPES := {"mysql", "mariadb"}
  const POSTGRESQL_TYPES := {"postgres", "postgresql"}
  const SQLSERVER_TYPES := {"sqlserver", "mssql"}
  const KNOWN_TYPES := MYSQL_TYPES + POSTGRESQL_TYPES + SQLSERVER_TYPES

  datatype Engine = MySQL | PostgreSQL | SQLServer | Unsupported

  function EngineOf(datastoreType: string): Engine {
    if datastoreType == "mysql" || datastoreType == "mariadb" then MySQL
    else if datastoreType == "postgres" || datastoreType == "postgresql" then PostgreSQL
    else if datastoreType == "sqlserver" || datastoreType == "mssql" then SQLServer
    else Unsupported
  }

  /** The engines, by the spellings of their types. */
  lemma EnginesByType(t: string)
    ensures EngineOf(t) == MySQL <==> t in MYSQL_TYPES
    ensures EngineOf(t) == PostgreSQL <==> t in POSTGRESQL_TYPES
    ensures EngineOf(t) == SQLServer <==> t in SQLSERVER_TYPES
    ensures EngineOf(t) == Unsupported <==> t !in KNOWN_TYPES
  {
  }

  datatype Fault = NoFault | Lost | LostReply

  /** `None` for a cache position means that the cache has caught up. */
  datatype Slot<+S> = Slot(
    moves: seq<Move<S>>,
    datastores: seq<Datastores>,
    databases: seq<Databases>,
    drops: set<Place>,
    makes: set<Place>,
    roles: map<Place, set<Grant>>,
    see: Option<nat>,
    seeDatastores: Option<nat>,
    seeDatabases: Option<nat>,
    now: nat,
    fault: Fault)

  /** How a pass ends: until something changes, to be tried again later, or with an error. */
  datatype Result = Done | Requeue | Error

  datatype Reply<+A> = Found(value: A) | NotFound | Failed

  function Look<S, T>(kd: Kind<S, T>, see: Option<nat>): (r: Kind<S, T>)
    requires kd.Ok()
    ensures r.Ok() && Grew(kd, r) && r.hist == kd.hist
  {
    See(kd, if see.None? then |kd.hist| else see.value)
  }

  /** Others act on the controller's own kind, and the cache moves on. */
  function Happens<S(==), T(==)>(kd: Kind<S, T>, ms: seq<Move<S>>, see: Option<nat>, rules: Rules<S, T>): (r: Kind<S,
      T>)
    requires kd.Ok()
    ensures r.Ok() && Grew(kd, r)
  {
    Look(ApplyMoves(kd, ms, rules), see)
  }

  lemma HappensLawfully<S(!new), T(!new)>(kd: Kind<S, T>, ms: seq<Move<S>>, see: Option<nat>, rules: Rules<S, T>)
    requires History(kd, rules)
    ensures History(Happens(kd, ms, see, rules), rules)
    ensures Passed(kd, Happens(kd, ms, see, rules), rules)
  {
    MovesKeep(kd, ms, rules);
    var moved := ApplyMoves(kd, ms, rules);
    assert Passed(moved, Look(moved, see), rules);
    PassedTransitively(kd, moved, Look(moved, see), rules);
  }

  // ---------------------------------------------------------------- time

  /** How far everything else had come when a version of the controller's own kind was stored: the
      number of versions of Datastores and of Databases, and of states the servers had been in. */
  datatype Stamp = Stamp(stores: nat, bases: nat, servers: nat)

  /** A stamp for every version of the controller's own kind, and every state of the servers. */
  datatype Times = Times(stamps: seq<Stamp>, past: seq<Servers>)

  predicate NotAfter(a: Stamp, b: Stamp) {
    a.stores <= b.stores && a.bases <= b.bases && a.servers <= b.servers
  }

  ghost predicate Timely(t: Times, versions: nat, end: Stamp) {
    && |t.stamps| == versions
    && |t.past| == end.servers > 0
    && (forall i :: 0 <= i < |t.stamps| ==> NotAfter(t.stamps[i], end))
    && (forall i, j :: 0 <= i <= j < |t.stamps| ==> NotAfter(t.stamps[i], t.stamps[j]))
  }

  /** Time goes on: nothing is rewritten, and new versions are stamped no earlier than old ones. */
  ghost predicate Onward(a: Times, b: Times) {
    && |a.stamps| <= |b.stamps| && |a.past| <= |b.past|
    && (forall i :: 0 <= i < |a.stamps| ==> b.stamps[i] == a.stamps[i])
    && (forall i :: 0 <= i < |a.past| ==> b.past[i] == a.past[i])
    && (forall i, j :: 0 <= i < |a.stamps| <= j < |b.stamps| ==> NotAfter(a.stamps[i], b.stamps[j]))
  }

  /** New versions, up to `versions` in all, are stamped with what has happened so far. */
  ghost function Stamped(t: Times, versions: nat, end: Stamp): Times {
    t.(stamps := t.stamps + seq(if versions < |t.stamps| then 0 else versions - |t.stamps|, i => end))
  }

  lemma StampingIsTimely(t: Times, versions: nat, end: Stamp, versions': nat)
    requires Timely(t, versions, end) && versions <= versions'
    ensures Timely(Stamped(t, versions', end), versions', end) && Onward(t, Stamped(t, versions', end))
  {
  }

  lemma TimeGoesOn(t: Times, versions: nat, end: Stamp, end': Stamp, server: Servers)
    requires Timely(t, versions, end) && end'.servers == end.servers + 1 && NotAfter(end, end')
    ensures var t' := t.(past := t.past + [server]);
            Timely(t', versions, end') && Onward(t, t')
  {
  }

  lemma OnwardTransitively(a: Times, b: Times, c: Times)
    requires Onward(a, b) && Onward(b, c)
    ensures Onward(a, c)
  {
  }

  lemma OnwardIsLonger(a: Times, b: Times)
    requires Onward(a, b)
    ensures |a.stamps| <= |b.stamps| && |a.past| <= |b.past|
  {
  }

  /** Between two points in time: as far as `n` versions go. */
  ghost function UpTo(t: Times, n: nat): Times
    requires n <= |t.stamps|
  {
    t.(stamps := t.stamps[..n])
  }

  lemma NothingMore<S(!new), T(!new)>(kd: Kind<S, T>, t: Times, rules: Rules<S, T>)
    requires kd.Ok() && |t.stamps| == |kd.hist|
    ensures UpTo(t, |kd.hist|) == t && Onward(t, t)
    ensures Passed(kd, kd, rules)
  {
    assert t.stamps[..|t.stamps|] == t.stamps;
  }

  /** What has gone wrong so far: calls that were lost or whose reply was lost, and logical databases
      that others dropped. */
  datatype Mishaps = Mishaps(lost: nat, falls: multiset<Place>)

  predicate Worse(a: Mishaps, b: Mishaps) {
    a.lost <= b.lost && a.falls <= b.falls
  }

  /** Between the two, some call was lost, or `p` was dropped. */
  predicate Mishap(a: Mishaps, b: Mishaps, p: Place) {
    a.lost < b.lost || a.falls[p] < b.falls[p]
  }

  ghost predicate Noted(s: Servers, t: Servers, a: Mishaps, b: Mishaps) {
    forall p :: t.Log(p) != s.Log(p) ==> a.falls[p] < b.falls[p]
  }

  lemma NotedTransitively(s: Servers, t: Servers, u: Servers, a: Mishaps, b: Mishaps, c: Mishaps)
    requires Noted(s, t, a, b) && Noted(t, u, b, c) && Worse(a, b) && Worse(b, c)
    ensures Noted(s, u, a, c)
  {
    forall p | u.Log(p) != s.Log(p) ensures a.falls[p] < c.falls[p] {
      assert a.falls[p] <= b.falls[p] <= c.falls[p];
    }
  }

  lemma DropsAreNoted(s: Servers, drops: set<Place>, t: Servers, others: Others, a: Mishaps, b: Mishaps)
    requires b.falls == a.falls + multiset(drops * s.databases)
    requires t.accounts == s.accounts && RolesDrifted(s.roles, t.roles, others.roles)
              && t.logs == DropAll(s, drops).logs
    requires DropAll(s, drops).databases <= t.databases
    requires others.bases || t.databases == DropAll(s, drops).databases
    ensures Drifted(s, t, others) && Noted(s, t, a, b)
  {
    forall p ensures t.Log(p) == if p in drops * s.databases then s.Log(p) + [Dropped] else s.Log(p) {
    }
  }

  /** What others make of the roles. */
  function Reworked(roles: map<Place, set<Grant>>, whose: Traffic, wish: map<Place, set<Grant>>)
    : (r: map<Place, set<Grant>>)
    ensures RolesDrifted(roles, r, whose)
  {
    match whose
    case Nobody => roles
    case Users =>
      var made := map p | p in roles.Keys + wish.Keys :: if p in roles then roles[p] else {};
      assert RoleGrants(made) == RoleGrants(roles);
      made
    case Anyone => wish
  }

  /** The servers after a turn of the others. */
  function Swept<S>(s: Servers, slot: Slot<S>, others: Others): Servers {
    var t := DropAll(s, slot.drops);
    t.(databases := t.databases + if others.bases then slot.makes else {},
       roles := Reworked(s.roles, others.roles, slot.roles))
  }

  lemma SweptDrifts<S>(s: Servers, slot: Slot<S>, others: Others, a: Mishaps, b: Mishaps)
    requires b.falls == a.falls + multiset(slot.drops * s.databases)
    ensures Drifted(s, Swept(s, slot, others), others) && Noted(s, Swept(s, slot, others), a, b)
  {
    hide RolesDrifted;
    DropsAreNoted(s, slot.drops, Swept(s, slot, others), others, a, b);
  }

  predicate SmoothSlot<S>(slot: Slot<S>) {
    slot.fault == NoFault && slot.drops == {}
  }

  class Cluster<S(!new, ==), T(!new, ==)> {
    const rules: Rules<S, T>
    /** Datastores whose Secret can be read, and those whose server also accepts what is in it. */
    const secrets: set<Key>
    const reachable: set<Key>
    /** What others do to the servers. */
    const others: Others
    /** Does the world become quiet once the schedule has run out? */
    const recovers: bool
    const clock: nat

    var objs: Kind<S, T>
    var datastores: Kind<DatastoreSpec, ReadyStatus>
    var databases: Kind<DatabaseSpec, DatabaseStatus>
    var server: Servers
    var schedule: seq<Slot<S>>

    ghost var times: Times
    ghost var mishaps: Mishaps
    /** Roles that others made, and that the controller has not created since. */
    ghost var strays: set<Place>

    /** A run starts with no objects of the controller's kind and anything at all elsewhere. */
    constructor (rules: Rules<S, T>, secrets: set<Key>, reachable: set<Key>, others: Others, recovers: bool, clock: nat,
                 datastores: Datastores, databases: Databases, server: Servers, schedule: seq<Slot<S>>)
      requires Sound(rules) && reachable <= secrets
      ensures Valid()
      ensures this.rules == rules && this.secrets == secrets && this.reachable == reachable
      ensures this.others == others && this.recovers == recovers
      ensures this.objs == Kind([map[]], 0) && this.server == server && this.schedule == schedule
      ensures this.datastores == Kind([datastores], 0) && this.databases == Kind([databases], 0)
      ensures mishaps == Mishaps(0, multiset{}) && strays == {}
    {
      this.rules, this.secrets, this.reachable := rules, secrets, reachable;
      this.others, this.recovers, this.clock := others, recovers, clock;
      this.objs, this.server, this.schedule := Kind([map[]], 0), server, schedule;
      this.datastores, this.databases := Kind([datastores], 0), Kind([databases], 0);
      this.times, this.mishaps, this.strays := Times([Stamp(1, 1, 1)], [server]), Mishaps(0, multiset{}), {};
    }

    /** Everything that has happened by now. */
    ghost function Present(): Stamp
      reads this
    {
      Stamp(|datastores.hist|, |databases.hist|, |times.past|)
    }

    ghost predicate Valid()
      reads this
    {
      && objs.Ok() && History(objs, rules)
      && datastores.Ok()
      && databases.Ok()
      && reachable <= secrets
      && Timely(times, |objs.hist|, Present())
      && times.past[|times.past| - 1] == server
    }

    predicate Quiet()
      reads this`schedule
    {
      schedule == [] && recovers
    }

    /** From here on no call is lost and no logical database is dropped. */
    predicate Smooth()
      reads this`schedule
    {
      recovers && forall i :: 0 <= i < |schedule| ==> SmoothSlot(schedule[i])
    }

    /** What a call leaves to others: everything only grows, and nobody else takes the finalizer. */
    twostate predicate Around()
      reads this
    {
      && old(objs.Ok()) && objs.Ok()
      && Grew(old(objs), objs)
      && Grew(old(datastores), datastores)
      && Grew(old(databases), databases)
      && Onward(old(times), times)
      && Elapsed()
    }

    /** The schedule runs down, no cache moves backwards, mishaps add up, and a world that is quiet, or
        smooth, stays so. */
    twostate predicate Elapsed()
      reads this
    {
      && |schedule| <= |old(schedule)|
      && old(objs).seen <= objs.seen && old(datastores).seen <= datastores.seen && old(databases).seen <= databases.seen
      && Worse(old(mishaps), mishaps)
      && (old(Quiet()) ==> Quiet())
      && (old(Smooth()) ==> Smooth() && mishaps == old(mishaps))
    }

    /** A drop by others is on the books. */
    twostate predicate DropsNoted(mid: Servers)
      reads this
    {
      Noted(old(server), mid, old(mishaps), mishaps)
    }

    /** Until the servers stood as in `mid`, only others touched them. */
    twostate predicate Adrift(mid: Servers)
      reads this
    {
      && Drifted(old(server), mid, others)
      && DropsNoted(mid)
      && Strayed(old(server), mid, old(strays), strays)
    }

    twostate predicate Undisturbed()
      reads this
    {
      && Passed(old(objs), objs, rules)
      && Adrift(server)
    }

    /** In a quiet world a call finds everything as it was, with the caches caught up. */
    twostate predicate Still()
      reads this
    {
      && objs.hist == old(objs.hist) && objs.seen == |objs.hist| - 1
      && datastores.hist == old(datastores.hist) && datastores.seen == |datastores.hist| - 1
      && databases.hist == old(databases.hist) && databases.seen == |databases.hist| - 1
      && server == old(server)
    }

    /** The same, but for what the call itself did to the servers, or to objects of its own kind. */
    twostate predicate Calm()
      reads this
    {
      && objs.hist == old(objs.hist) && objs.seen == |objs.hist| - 1
      && datastores.hist == old(datastores.hist) && datastores.seen == |datastores.hist| - 1
      && databases.hist == old(databases.hist) && databases.seen == |databases.hist| - 1
    }

    twostate predicate Elsewhere()
      reads this
    {
      && datastores.hist == old(datastores.hist) && datastores.seen == |datastores.hist| - 1
      && databases.hist == old(databases.hist) && databases.seen == |databases.hist| - 1
      && server == old(server)
    }

    /** Did the call come back with what really happened? If not, that is a mishap. */
    twostate predicate Heard(clear: bool)
      reads this
    {
      && (clear ==> mishaps.lost == old(mishaps).lost)
      && (!clear ==> mishaps.lost == old(mishaps).lost + 1)
    }

    /** Let the others act, then take the fault planned for this call. */
    method Turn() returns (fault: Fault, now: nat)
      requires Valid()
      modifies this
      ensures Valid() && Around() && Undisturbed()
      ensures old(schedule) != [] ==> |schedule| < |old(schedule)|
      ensures Heard(fault == NoFault)
      ensures old(Quiet()) ==> Still() && fault == NoFault
    {
      if schedule == [] {
        fault, now := Last();
        return;
      }
      var slot := schedule[0];
      schedule := schedule[1..];
      fault, now := slot.fault, slot.now;
      Others(slot);
    }

    /** The schedule has run out. */
    method Last() returns (fault: Fault, now: nat)
      requires Valid() && schedule == []
      modifies this
      ensures Valid() && Around() && Undisturbed()
      ensures Heard(fault == NoFault)
      ensures old(Quiet()) ==> Still() && fault == NoFault
    {
      if !recovers {
        mishaps := mishaps.(lost := mishaps.lost + 1);
        return Fault.Lost, clock;
      }
      HappensLawfully(objs, [], None, rules);
      objs, datastores, databases := Happens(objs, [], None, rules), Look(datastores, None), Look(databases, None);
      return NoFault, clock;
    }

    /** What others do before a call. */
    method Others(slot: Slot<S>)
      requires Valid()
      modifies this`objs, this`datastores, this`databases, this`server, this`times, this`mishaps, this`strays
      ensures Valid() && Undisturbed()
      ensures Grew(old(objs), objs) && Grew(old(datastores), datastores) && Grew(old(databases), databases)
      ensures Onward(old(times), times)
      ensures Worse(old(mishaps), mishaps)
      ensures Heard(slot.fault == NoFault)
      ensures SmoothSlot(slot) ==> mishaps == old(mishaps)
    {
      hide History, Passed, Timely, Onward, Drifted, Noted, Worse;
      HappensLawfully(objs, slot.moves, slot.see, rules);
      Move(Happens(objs, slot.moves, slot.see, rules));
      ghost var moved := times;
      Meanwhile(slot);
      OnwardTransitively(old(times), moved, times);
    }

    /** What others do to Datastores, Databases and the servers. */
    method Meanwhile(slot: Slot<S>)
      requires Valid()
      modifies this`datastores, this`databases, this`server, this`times, this`mishaps, this`strays
      ensures Valid() && Adrift(server)
      ensures Grew(old(datastores), datastores) && Grew(old(databases), databases)
      ensures Onward(old(times), times)
      ensures Worse(old(mishaps), mishaps)
      ensures Heard(slot.fault == NoFault)
      ensures SmoothSlot(slot) ==> mishaps == old(mishaps)
    {
      hide History, Timely, Onward, Drifted, Noted, Swept;
      datastores := Look(datastores.(hist := datastores.hist + slot.datastores), slot.seeDatastores);
      databases := Look(databases.(hist := databases.hist + slot.databases), slot.seeDatabases);
      ghost var fallen := slot.drops * server.databases;
      mishaps := Mishaps(mishaps.lost + if slot.fault == NoFault then 0 else 1, mishaps.falls + multiset(fallen));
      var next := Swept(server, slot, others);
      strays := strays + (next.roles.Keys - server.roles.Keys);
      SweptDrifts(server, slot, others, old(mishaps), mishaps);
      TimeGoesOn(times, |objs.hist|, Stamp(|old(datastores).hist|, |old(databases).hist|, |times.past|),
                 Stamp(|datastores.hist|, |databases.hist|, |times.past| + 1), next);
      times := times.(past := times.past + [next]);
      server := next;
    }

    /** The controller's own kind moves on, and what is new is stamped. */
    method Move(next: Kind<S, T>)
      requires Valid() && History(next, rules) && Grew(objs, next)
      modifies this`objs, this`times
      ensures Valid() && objs == next && Onward(old(times), times) && times.past == old(times).past
      ensures forall i :: |old(objs).hist| <= i < |objs.hist| ==> times.stamps[i] == Present()
    {
      StampingIsTimely(times, |objs.hist|, Present(), |next.hist|);
      times := Stamped(times, |next.hist|, Present());
      objs := next;
    }

    method Clock() returns (now: nat)
      ensures Quiet() ==> now == clock
    {
      now := if schedule == [] then clock else schedule[0].now;
    }

    /** Read an object of the controller's own kind; `at` is the version the answer comes from. */
    method Get(k: Key) returns (r: Reply<Obj<S, T>>, ghost at: nat)
      requires Valid()
      modifies this
      ensures Valid() && Around() && Undisturbed()
      ensures old(schedule) != [] ==> |schedule| < |old(schedule)|
      ensures at == objs.seen
      ensures r.Found? ==> k in objs.Cached() && r.value == objs.Cached()[k]
      ensures r.NotFound? ==> k !in objs.Cached()
      ensures Heard(!r.Failed?)
      ensures old(Quiet()) ==> Still() && !r.Failed?
    {
      hide History, Passed, Drifted, Timely, Onward, Grew, DropsNoted;
      var fault, _ := Turn();
      at := objs.seen;
      if fault != NoFault {
        return Failed, at;
      }
      r := if k in objs.Cached() then Found(objs.Cached()[k]) else NotFound;
    }

    method GetDatastore(k: Key) returns (r: Reply<Obj<DatastoreSpec, ReadyStatus>>)
      requires Valid()
      modifies this
      ensures Valid() && Around() && Undisturbed()
      ensures r.Found? ==> k in datastores.Cached() && r.value == datastores.Cached()[k]
      ensures r.NotFound? ==> k !in datastores.Cached()
      ensures Heard(!r.Failed?)
      ensures old(Quiet()) ==> Still() && !r.Failed?
    {
      hide History, Passed, Drifted, Timely, Onward, Grew, DropsNoted;
      var fault, _ := Turn();
      if fault != NoFault {
        return Reply.Failed;
      }
      r := if k in datastores.Cached() then Found(datastores.Cached()[k]) else NotFound;
    }

    method GetDatabase(k: Key) returns (r: Reply<Obj<DatabaseSpec, DatabaseStatus>>)
      requires Valid()
      modifies this
      ensures Valid() && Around() && Undisturbed()
      ensures r.Found? ==> k in databases.Cached() && r.value == databases.Cached()[k]
      ensures r.NotFound? ==> k !in databases.Cached()
      ensures Heard(!r.Failed?)
      ensures old(Quiet()) ==> Still() && !r.Failed?
    {
      hide History, Passed, Drifted, Timely, Onward, Grew, DropsNoted;
      var fault, _ := Turn();
      if fault != NoFault {
        return Reply.Failed;
      }
      r := if k in databases.Cached() then Found(databases.Cached()[k]) else NotFound;
    }

    /** List every Datastore, in no particular order. */
    method ListDatastores() returns (r: Reply<seq<(Key, Obj<DatastoreSpec, ReadyStatus>)>>)
      requires Valid()
      modifies this
      ensures Valid() && Around() && Undisturbed()
      ensures r.Found? ==> Lists(r.value, datastores.Cached())
      ensures !r.NotFound?
      ensures old(Quiet()) ==> Still() && r.Found?
    {
      hide History, Passed, Drifted, Timely, Onward, Grew, DropsNoted;
      var fault, _ := Turn();
      if fault != NoFault {
        return Reply.Failed;
      }
      var items := Items(datastores.Cached());
      r := Found(items);
    }

    method ListDatabases() returns (r: Reply<seq<(Key, Obj<DatabaseSpec, DatabaseStatus>)>>)
      requires Valid()
      modifies this
      ensures Valid() && Around() && Undisturbed()
      ensures r.Found? ==> Lists(r.value, databases.Cached())
      ensures !r.NotFound?
      ensures old(Quiet()) ==> Still() && r.Found?
    {
      hide History, Passed, Drifted, Timely, Onward, Grew, DropsNoted;
      var fault, _ := Turn();
      if fault != NoFault {
        return Reply.Failed;
      }
      var items := Items(databases.Cached());
      r := Found(items);
    }

    /** Find a Datastore by name: in the namespace of the object that refers to it, or else the first
        one of that name in any namespace. `q` is the version the answer comes from. */
    method ResolveDatastore(ns: string, name: string)
      returns (r: Resolution<DatastoreSpec, ReadyStatus>, ghost q: nat)
      requires Valid()
      modifies this
      ensures Valid() && Around() && Undisturbed()
      ensures q <= datastores.seen
      ensures r.Resolved? ==> r.k.name == name && r.k in datastores.hist[q] && datastores.hist[q][r.k] == r.value
      ensures old(Quiet()) ==> Still() && Resolves(datastores.Now(), ns, name, r)
    {
      hide History, Passed, Drifted, Timely, Onward, Noted, LogDrifted, Smooth, NoneLost;
      var got := GetDatastore(Key(ns, name));
      q := datastores.seen;
      match got
      case Found(ds) => r := Resolved(Key(ns, name), ds);
      case Failed => r := LookupFailed;
      case NotFound =>
        ghost var kd, stores, bases, sv, t, m := objs, datastores, databases, server, times, mishaps;
        var list := ListDatastores();
        PassedTransitively(old(objs), kd, objs, rules);
        DriftedTransitively(old(server), sv, server, others);
        OnwardTransitively(old(times), t, times);
        NotedTransitively(old(server), sv, server, old(mishaps), m, mishaps);
        q := datastores.seen;
        if !list.Found? {
          return ListFailed, q;
        }
        r := FirstNamed(list.value, name);
    }

    method ResolveDatabase(ns: string, name: string)
      returns (r: Resolution<DatabaseSpec, DatabaseStatus>, ghost q: nat)
      requires Valid()
      modifies this
      ensures Valid() && Around() && Undisturbed()
      ensures q <= databases.seen
      ensures r.Resolved? ==> r.k.name == name && r.k in databases.hist[q] && databases.hist[q][r.k] == r.value
      ensures old(Quiet()) ==> Still() && Resolves(databases.Now(), ns, name, r)
    {
      hide History, Passed, Drifted, Timely, Onward, Noted, LogDrifted, Smooth, Keeps, Quiet;
      var got := GetDatabase(Key(ns, name));
      q := databases.seen;
      match got
      case Found(db) => r := Resolved(Key(ns, name), db);
      case Failed => r := LookupFailed;
      case NotFound =>
        ghost var kd, stores, bases, sv, t, m := objs, datastores, databases, server, times, mishaps;
        var list := ListDatabases();
        PassedTransitively(old(objs), kd, objs, rules);
        DriftedTransitively(old(server), sv, server, others);
        OnwardTransitively(old(times), t, times);
        NotedTransitively(old(server), sv, server, old(mishaps), m, mishaps);
        q := databases.seen;
        if !list.Found? {
          return ListFailed, q;
        }
        r := FirstNamed(list.value, name);
    }

    /** Write metadata and spec of a copy that was last stored at version `at`. Only a deleting copy
        that came from the cache may drop the finalizer. On success the fresh object comes back.
        `mid` is the kind as the server found it when the write arrived. */
    method Update(k: Key, o: Obj<S, T>, ghost at: nat)
      returns (r: Reply<Obj<S, T>>, ghost mid: Kind<S, T>, ghost taken: bool)
      requires Valid() && CopyOf(objs, k, o, at)
      requires rules.finalizer in objs.hist[at][k].body.finalizers && rules.finalizer !in o.body.finalizers ==>
                 o.body.deleting && at <= objs.seen
      modifies this
      ensures Valid() && Around() && Adrift(server)
      ensures History(mid, rules) && Passed(old(objs), mid, rules)
      ensures objs == if taken then Api.Update(mid, k, o) else mid
      ensures taken ==> k in mid.Now() && mid.Now()[k] == old(objs).hist[at][k]
      ensures rules.finalizer in o.body.finalizers || rules.finalizer !in old(objs).hist[at][k].body.finalizers ==>
                Passed(old(objs), objs, rules)
      ensures forall g :: g != k && g in mid.Now() ==> g in objs.Now() && objs.Now()[g] == mid.Now()[g]
      ensures Grew(mid, objs) && Silent(mid, objs, rules.blank)
      ensures StampedWith(mid)
      ensures Onward(old(times), UpTo(times, |mid.hist|)) && Onward(UpTo(times, |mid.hist|), times)
      ensures r.Found? ==> taken && (k in objs.Now() ==> r.value == objs.Now()[k])
      ensures old(Quiet()) ==> mid.hist == old(objs).hist && mid.seen == |mid.hist| - 1
      ensures old(Quiet()) ==> taken == Current(old(objs), k, o) && r.Found? == taken && Elsewhere()
    {
      hide Drifted, Onward, Noted, UpTo, Timely, StepAt, ReleasedBehind, NoneLost, Silent, Smooth, Strayed, Keeps,
        NotAfter, Passed;
      var fault, accepted := Arrive(k, o, at);
      mid, taken, r := objs, accepted, Failed;
      if accepted {
        RvBound(objs, rules, at, k);
        ghost var t := times;
        Write(k, objs.Now()[k].body.(finalizers := o.body.finalizers, spec := o.body.spec));
        OnwardTransitively(old(times), t, times);
        if rules.finalizer in o.body.finalizers || rules.finalizer !in mid.Now()[k].body.finalizers {
          PassedTransitively(old(objs), mid, objs, rules);
        }
        if fault == NoFault {
          r := Found(if k in objs.Now() then objs.Now()[k] else o);
        }
      } else {
        NothingMore(mid, times, rules);
      }
    }

    /** Write the status of a copy that was last stored at version `at`. */
    method UpdateStatus(k: Key, o: Obj<S, T>, ghost at: nat)
      returns (r: Reply<Obj<S, T>>, ghost mid: Kind<S, T>, ghost taken: bool)
      requires Valid() && CopyOf(objs, k, o, at)
      requires rules.lawful(objs.hist[at][k].body.status, o.body.status)
      modifies this
      ensures Valid() && Around() && Adrift(server)
      ensures History(mid, rules) && Passed(old(objs), mid, rules)
      ensures Grew(mid, objs) && Keeps(mid.Now(), objs.Now(), rules.finalizer) && NoneLost(mid, objs, rules.finalizer)
      ensures StampedWith(mid)
      ensures taken ==> k in mid.Now() && mid.Now()[k] == old(objs).hist[at][k]
      ensures objs == if taken then Put(mid, k, mid.Now()[k].body.(status := o.body.status)) else mid
      ensures Onward(old(times), UpTo(times, |mid.hist|)) && Onward(UpTo(times, |mid.hist|), times)
      ensures r.Found? ==> taken && (k in objs.Now() ==> r.value == objs.Now()[k])
      ensures old(Quiet()) ==> mid.hist == old(objs).hist && mid.seen == |mid.hist| - 1
      ensures old(Quiet()) ==> taken == Current(old(objs), k, o) && r.Found? == taken && Elsewhere()
    {
      hide Drifted, Onward, Noted, UpTo, Timely, StepAt, ReleasedBehind, NoneLost, Silent, Smooth;
      var fault, accepted := Arrive(k, o, at);
      mid, taken, r := objs, accepted, Failed;
      if accepted {
        ghost var t := times;
        Write(k, objs.Now()[k].body.(status := o.body.status));
        OnwardTransitively(old(times), t, times);
        if fault == NoFault {
          r := Found(if k in objs.Now() then objs.Now()[k] else o);
        }
      } else {
        NothingMore(mid, times, rules);
      }
    }

    /** A write arrives: is it lost, or accepted? */
    method Arrive(k: Key, o: Obj<S, T>, ghost at: nat) returns (fault: Fault, taken: bool)
      requires Valid() && CopyOf(objs, k, o, at)
      modifies this
      ensures Valid() && Around() && Undisturbed()
      ensures taken == (fault != Fault.Lost && Current(objs, k, o))
      ensures taken ==> k in objs.Now() && objs.Now()[k] == old(objs).hist[at][k]
      ensures old(Quiet()) ==> Still() && fault == NoFault
      ensures |times.stamps| == |objs.hist|
    {
      hide Passed, Drifted, Onward, Noted, Smooth;
      var now;
      fault, now := Turn();
      taken := fault != Fault.Lost && Current(objs, k, o);
      if taken {
        SameRv(objs, rules, at, |objs.hist| - 1, k);
      }
    }

    /** An accepted write is carried out. */
    method Write(k: Key, body: Body<S, T>)
      requires Valid() && k in objs.Now()
      requires objs.Now()[k].body.deleting ==> body.deleting
      requires rules.lawful(objs.Now()[k].body.status, body.status) && rules.admits(objs.Now()[k].body.spec, body.spec)
      requires rules.finalizer in objs.Now()[k].body.finalizers && rules.finalizer !in body.finalizers ==>
                 objs.Now()[k].body.deleting && objs.Now()[k].rv <= objs.seen
      modifies this`objs, this`times
      ensures Valid() && objs == Put(old(objs), k, body) && Grew(old(objs), objs)
      ensures rules.finalizer in body.finalizers || rules.finalizer !in old(objs.Now())[k].body.finalizers ==>
                Keeps(old(objs.Now()), objs.Now(), rules.finalizer) && NoneLost(old(objs), objs, rules.finalizer)
      ensures body.status == old(objs.Now())[k].body.status ==> Silent(old(objs), objs, rules.blank)
      ensures forall g :: g != k && g in old(objs.Now()) ==> g in objs.Now() && objs.Now()[g] == old(objs.Now())[g]
      ensures Onward(old(times), times) && UpTo(times, |old(objs).hist|) == old(times)
      ensures StampedWith(old(objs))
    {
      hide NoneLost, Silent;
      PutKeeps(objs, k, body, rules);
      Move(Put(objs, k, body));
      assert times.stamps[..|old(objs).hist|] == old(times).stamps;
    }

    /** A version that was not there before the write carries the present stamp. */
    twostate predicate StampedWith(new mid: Kind<S, T>)
      reads this
    {
      |times.stamps| == |objs.hist| && forall i :: |mid.hist| <= i < |objs.hist| ==> times.stamps[i] == Present()
    }

    /** Read the Secret of a Datastore. */
    method Secret(ds: Key) returns (ok: bool)
      requires Valid()
      modifies this
      ensures Valid() && Around() && Undisturbed()
      ensures ds in secrets ==> Heard(ok)
      ensures ok ==> ds in secrets
      ensures old(Quiet()) ==> Still() && ok == (ds in secrets)
    {
      hide History, Passed, Drifted, Timely, Onward, Grew, DropsNoted;
      var fault, _ := Turn();
      ok := fault == NoFault && ds in secrets;
    }

    /** Open a connection and ping it. */
    method Ping(ds: Key, engine: Engine) returns (ok: bool)
      requires Valid()
      modifies this
      ensures Valid() && Around() && Undisturbed()
      ensures ok ==> engine != Unsupported
      ensures old(Quiet()) ==> Still() && ok == (engine != Unsupported && ds in reachable)
    {
      hide History, Passed, Drifted, Timely, Onward, Grew, DropsNoted;
      var fault, _ := Turn();
      ok := fault == NoFault && engine != Unsupported && ds in reachable;
    }

    /** Execute one statement. `took` says whether it took effect, whatever was reported; `refused`
        that the server is known to have declined it. */
    method Exec(st: Statement) returns (ok: bool, refused: bool, ghost mid: Servers, ghost took: bool)
      requires Valid()
      modifies this
      ensures Valid() && Around() && Passed(old(objs), objs, rules)
      ensures Drifted(old(server), mid, others) && DropsNoted(mid)
      ensures Strayed(old(server), mid, old(strays), Unclaimed(strays, st, took))
      ensures took ==> strays !! Claimed(st)
      ensures took ==> Accepts(mid, st) && server == Effect(mid, st, Moment(|objs.hist| - 1, |databases.hist|))
      ensures !took ==> server == mid
      ensures ok ==> took
      ensures took && !ok ==> mishaps.lost > old(mishaps).lost
      ensures !took ==> !Accepts(mid, st) || mishaps.lost > old(mishaps).lost
      ensures refused ==> !Accepts(mid, st) && !took
      ensures old(Quiet()) ==> Calm() && mid == old(server) && took == ok == Accepts(mid, st) && refused == !ok
    {
      hide History, Passed, Drifted, Grew, Accepts, Effect, Timely, Onward;
      var fault, _ := Turn();
      mid := server;
      took := fault != Fault.Lost && Accepts(server, st);
      ok := fault == NoFault && Accepts(server, st);
      refused := fault == NoFault && !ok;
      if fault != Fault.Lost && Accepts(server, st) {
        ghost var t := times;
        Change(Effect(server, st, Moment(|objs.hist| - 1, |databases.hist|)));
        strays := strays - Claimed(st);
        OnwardTransitively(old(times), t, times);
      }
    }

    method Change(next: Servers)
      requires Valid()
      modifies this`server, this`times
      ensures Valid() && server == next && Onward(old(times), times)
    {
      hide History;
      ghost var end := Present();
      TimeGoesOn(times, |objs.hist|, end, end.(servers := end.servers + 1), next);
      times := times.(past := times.past + [next]);
      server := next;
    }

    /** Ask the server a yes-or-no question about its present state; the question may be refused. */
    method Ask(question: Servers -> Option<bool>) returns (answer: Option<bool>)
      requires Valid()
      modifies this
      ensures Valid() && Around() && Undisturbed()
      ensures answer.Some? ==> answer == question(server)
      ensures old(Quiet()) ==> Still() && answer == question(server)
    {
      hide History, Passed, Drifted, Timely, Onward, Grew, DropsNoted;
      var fault, _ := Turn();
      answer := if fault == NoFault then question(server) else None;
    }
  }

  /** `o` is a working copy of the object `k` as it stood at version `at`. */
  predicate CopyOf<S(==), T>(kd: Kind<S, T>, k: Key, o: Obj<S, T>, at: nat) {
    && at < |kd.hist|
    && k in kd.hist[at]
    && kd.hist[at][k].uid == o.uid
    && kd.hist[at][k].rv == o.rv
    && kd.hist[at][k].body.deleting == o.body.deleting
    && kd.hist[at][k].body.spec == o.body.spec
  }

  datatype Resolution<+S, +T> = Resolved(k: Key, value: Obj<S, T>) | Missing | ListFailed | LookupFailed

  /** A reference is resolved at home if it can be; it is missing only if the name exists nowhere. */
  ghost predicate Resolves<S(!new), T(!new)>(m: Objs<S, T>, ns: string, name: string, r: Resolution<S, T>) {
    if Key(ns, name) in m then r == Resolved(Key(ns, name), m[Key(ns, name)])
    else if exists k :: k in m && k.name == name then
      r.Resolved? && r.k in m && r.k.name == name && r.value == m[r.k]
    else r == Missing
  }

  /** Where a reference leads, as far as names go: home if it can, else anywhere, and nowhere only if
      nothing has the name. */
  ghost predicate LeadsTo(keys: set<Key>, ns: string, name: string, found: Option<Key>) {
    if Key(ns, name) in keys then found == Some(Key(ns, name))
    else if exists k :: k in keys && k.name == name then
      found.Some? && found.value in keys && found.value.name == name
    else found.None?
  }

  function FoundKey<S, T>(r: Resolution<S, T>): Option<Key> {
    if r.Resolved? then Some(r.k) else None
  }

  lemma ResolvedLeads<S(!new), T(!new)>(m: Objs<S, T>, ns: string, name: string, r: Resolution<S, T>)
    requires Resolves(m, ns, name, r)
    ensures LeadsTo(View(m).Keys, ns, name, FoundKey(r))
    ensures r.Resolved? ==> r.k in View(m) && View(m)[r.k] == r.value.body
    ensures !r.Resolved? ==> r == Missing
  {
    assert View(m).Keys == m.Keys;
  }

  /** The resolver's scan: the first item with the wanted name. */
  method FirstNamed<S(!new), T(!new)>(items: seq<(Key, Obj<S, T>)>, name: string) returns (r: Resolution<S, T>)
    ensures r.Resolved? ==>
              r.k.name == name &&
              exists i :: 0 <= i < |items| && items[i] == (r.k, r.value)
                          && forall j :: 0 <= j < i ==> items[j].0.name != name
    ensures !r.Resolved? ==> r == Missing && forall i :: 0 <= i < |items| ==> items[i].0.name != name
  {
    r := Missing;
    for i := 0 to |items|
      invariant r == Missing
      invariant forall j :: 0 <= j < i ==> items[j].0.name != name
    {
      if items[i].0.name == name {
        assert (items[i].0, items[i].1) == items[i];
        return Resolved(items[i].0, items[i].1);
      }
    }
  }

  ghost predicate Lists<S(!new), T(!new)>(items: seq<(Key, Obj<S, T>)>, m: Objs<S, T>) {
    && (forall i :: 0 <= i < |items| ==> items[i].0 in m && m[items[i].0] == items[i].1)
    && (forall k :: k in m ==> (k, m[k]) in items)
  }

  method Items<S(!new, ==), T(!new, ==)>(m: Objs<S, T>) returns (items: seq<(Key, Obj<S, T>)>)
    ensures Lists(items, m)
  {
    items := [];
    var left := m.Keys;
    while left != {}
      invariant left <= m.Keys
      invariant forall i :: 0 <= i < |items| ==> items[i].0 in m && m[items[i].0] == items[i].1
      invariant forall g :: g in m && g !in left ==> (g, m[g]) in items
    {
      var k :| k in left;
      left := left - {k};
      items := items + [(k, m[k])];
      assert items[|items| - 1] == (k, m[k]);
    }
  }
}
