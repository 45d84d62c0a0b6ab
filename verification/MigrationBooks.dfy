/** What the Migration controller keeps true of its two stores together: the Migration objects and
    the event logs of the databases. Every call of a pass is one of a few steps, and each step keeps
    the books. */
module MigrationBooks {
  import opened Api
  import opened Server
  import opened Cluster
  import opened MigrationLog

  const FINALIZER := "db.fatiudeen.dev/migration-finalizer"

  datatype MigrationSpec = MigrationSpec(databaseRef: string, sql: string, version: string, rollbackSql: string)

  datatype MigrationStatus = MigrationStatus(phase: string, applied: bool, appliedAt: Option<nat>,
      checksum: Option<string>)

  const BLANK := MigrationStatus("", false, None, None)

  predicate Coherent(s: MigrationStatus) {
    && (s.phase == "Applied" <==> s.applied)
    && (s.applied ==> s.appliedAt.Some? && s.checksum.Some?)
  }

  /** Statuses stay coherent, and an applied one never changes again. */
  predicate Follows(s: MigrationStatus, t: MigrationStatus) {
    && (Coherent(s) ==> Coherent(t))
    && (s.applied ==> t == s)
  }

  const RULES: Rules<MigrationSpec, MigrationStatus> := Rules(FINALIZER, BLANK, (s, t) => Follows(s, t), (s, t) => true)

  type Own = Obj<MigrationSpec, MigrationStatus>
  type Migrations = Kind<MigrationSpec, MigrationStatus>
  type Bases = Kind<DatabaseSpec, DatabaseStatus>

  function PlaceOf(db: Key, spec: DatabaseSpec): Place {
    Ext(Key(db.ns, spec.datastoreRef), db.name)
  }

  /** What the books are about. */
  datatype World = World(objs: Migrations, bases: Bases, times: Times, server: Servers)

  ghost predicate Sane(w: World) {
    w.objs.Ok() && |w.times.stamps| == |w.objs.hist|
  }

  /** Everything in the one world is still there in the other, and time has gone on. */
  ghost predicate Later(a: World, b: World) {
    Sane(a) && Sane(b) && Grew(a.objs, b.objs) && Grew(a.bases, b.bases) && Onward(a.times, b.times)
  }

  // ---------------------------------------------------------------- who wrote the log, and why

  /** Some version of the Database `db` was ready and stands for the place `p`. */
  predicate ReadyDatabase(bases: Bases, q: nat, db: Key, name: string, p: Place) {
    && q < |bases.hist| && db in bases.hist[q] && bases.hist[q][db].body.status.ready
    && db.name == name
    && p == PlaceOf(db, bases.hist[q][db].body.spec)
  }

  lemma StillReady(bases: Bases, bases': Bases, q: nat, db: Key, name: string, p: Place)
    requires ReadyDatabase(bases, q, db, name, p) && Grew(bases, bases')
    ensures ReadyDatabase(bases', q, db, name, p)
  {
    assert bases'.hist[q] == bases.hist[q];
  }

  /** The Database that `k` names in its own namespace stood for the place `p`. */
  predicate HomeIs(bases: Bases, q: nat, k: Key, name: string, p: Place) {
    var db := Key(k.ns, name);
    q < |bases.hist| && db in bases.hist[q] && p == PlaceOf(db, bases.hist[q][db].body.spec)
  }

  /** When the SQL ran, an object held its finalizer that had asked for it by then, at a version that was
      not applied, and its Database had been ready by then. */
  predicate Ordered(objs: Migrations, bases: Bases, p: Place, version: string, sql: string, owner: Key, at: Moment,
                    j: nat, q: nat, db: Key)
  {
    && at.version < |objs.hist| && Holds(objs.hist[at.version], owner, FINALIZER)
    && j <= at.version && owner in objs.hist[j] && objs.hist[j][owner].uid == objs.hist[at.version][owner].uid
    && !objs.hist[j][owner].body.status.applied
    && q < at.bases
    && var spec := objs.hist[j][owner].body.spec;
       spec.version == version && spec.sql == sql && ReadyDatabase(bases, q, db, spec.databaseRef, p)
  }

  /** A deleting object asked for this rollback, and its Database stood for this place. */
  predicate Condemned(objs: Migrations, bases: Bases, p: Place, version: string, sql: string, owner: Key, uid: nat,
                      j: nat, q: nat)
  {
    && j < |objs.hist| && Holds(objs.hist[j], owner, FINALIZER)
    && objs.hist[j][owner].uid == uid && objs.hist[j][owner].body.deleting
    && var spec := objs.hist[j][owner].body.spec;
       spec.version == version && spec.rollbackSql == sql && HomeIs(bases, q, owner, spec.databaseRef, p)
  }

  ghost predicate Warranted(objs: Migrations, bases: Bases, p: Place, e: Event) {
    match e
    case Executed(v, sql, owner, at) => exists j: nat, q: nat, db ::
        Ordered(objs, bases, p, v, sql, owner, at, j, q, db)
    case RolledBack(_, _, _, _) => CondemnedSince(objs, bases, p, e, 0)
    case _ => true
  }

  /** The rollback was asked for by an object as it stood at some version no earlier than `from`. */
  ghost predicate CondemnedSince(objs: Migrations, bases: Bases, p: Place, e: Event, from: nat)
    requires e.RolledBack?
  {
    exists j: nat, q: nat :: from <= j && Condemned(objs, bases, p, e.version, e.sql, e.owner, e.uid, j, q)
  }

  lemma StillCondemned(objs: Migrations, objs': Migrations, bases: Bases, bases': Bases, p: Place, e: Event, from: nat,
                       from': nat)
    requires Grew(objs, objs') && Grew(bases, bases') && e.RolledBack? && from' <= from
    requires CondemnedSince(objs, bases, p, e, from)
    ensures CondemnedSince(objs', bases', p, e, from')
  {
    var j: nat, q: nat :| from <= j && Condemned(objs, bases, p, e.version, e.sql, e.owner, e.uid, j, q);
    assert objs'.hist[j] == objs.hist[j] && bases'.hist[q] == bases.hist[q];
    assert Condemned(objs', bases', p, e.version, e.sql, e.owner, e.uid, j, q);
  }

  lemma StillWarranted(objs: Migrations, objs': Migrations, bases: Bases, bases': Bases, p: Place, e: Event)
    requires Grew(objs, objs') && Grew(bases, bases') && Warranted(objs, bases, p, e)
    ensures Warranted(objs', bases', p, e)
  {
    match e
    case Executed(v, sql, owner, at) =>
      var j: nat, q: nat, db :| Ordered(objs, bases, p, v, sql, owner, at, j, q, db);
      assert objs'.hist[j] == objs.hist[j] && objs'.hist[at.version] == objs.hist[at.version];
      assert bases'.hist[q] == bases.hist[q];
      assert Ordered(objs', bases', p, v, sql, owner, at, j, q, db);
    case RolledBack(_, _, _, _) => StillCondemned(objs, objs', bases, bases', p, e, 0, 0);
    case _ =>
  }

  // ---------------------------------------------------------------- the books

  /** The logs go on where they stood at the beginning, and have the right shape. */
  ghost predicate Kept(begin: Servers, server: Servers, checksum: string -> string) {
    forall p :: begin.Log(p) <= server.Log(p) && Shape(server.Log(p), checksum)
  }

  /** Whatever the run added to a log, somebody asked for. */
  ghost predicate Attributed(w: World, begin: Servers) {
    forall p, i :: |begin.Log(p)| <= i < |w.server.Log(p)| ==> Warranted(w.objs, w.bases, p, w.server.Log(p)[i])
  }

  /** Where to find the record behind an applied status: in the log of `p` after `m` events, which is
      what it was when the servers were in their `n`-th state, for the version that the object named at
      version `j` of its store, once Database `db` had been seen ready at `q`. */
  datatype Proof = Proof(p: Place, m: nat, n: nat, j: nat, q: nat, db: Key)

  /** All of that was so by version `i` of the store, and by the time `stamp`; and what was rolled back
      there afterwards was asked for no earlier than the object came to be. */
  ghost predicate Shown(w: World, begin: Servers, k: Key, uid: nat, i: nat, stamp: Stamp, e: Proof) {
    && e.j <= i && e.j < |w.objs.hist| && k in w.objs.hist[e.j] && w.objs.hist[e.j][k].uid == uid
    && e.q < stamp.bases && e.n < stamp.servers && e.n < |w.times.past|
    && var spec, log := w.objs.hist[e.j][k].body.spec, w.server.Log(e.p);
       && ReadyDatabase(w.bases, e.q, e.db, spec.databaseRef, e.p)
       && |begin.Log(e.p)| < e.m <= |log| && w.times.past[e.n].Log(e.p) == log[..e.m]
       && HasRow(log[..e.m], spec.version) && !log[e.m - 1].RolledBack?
       && RolledBackSince(w, e.p, log, e.m, uid)
  }

  ghost predicate RolledBackSince(w: World, p: Place, log: seq<Event>, m: nat, uid: nat) {
    forall x :: m <= x < |log| && log[x].RolledBack? ==> CondemnedSince(w.objs, w.bases, p, log[x], uid)
  }

  ghost predicate Rests(w: World, begin: Servers, checksum: string -> string, k: Key, uid: nat, i: nat, stamp: Stamp,
                        sum: Option<string>)
  {
    exists e :: Shown(w, begin, k, uid, i, stamp, e) && sum == Some(checksum(w.objs.hist[e.j][k].body.spec.sql))
  }

  /** Every applied status rests on a record that was there before it, and the cache has come as far as
      its object. */
  ghost predicate Evident(w: World, begin: Servers, checksum: string -> string, floor: nat)
    requires Sane(w)
  {
    forall i, k :: 0 <= i < |w.objs.hist| && k in w.objs.hist[i] && w.objs.hist[i][k].body.status.applied ==>
      && w.objs.hist[i][k].uid <= floor
      && Rests(w, begin, checksum, k, w.objs.hist[i][k].uid, i, w.times.stamps[i],
           w.objs.hist[i][k].body.status.checksum)
  }

  /** Why a deleting object with something to roll back could be let go: it was rolled back, and its
      record removed, as the servers' `n`-th state shows, or there was no such Database. */
  datatype Farewell = Undone(p: Place, q: nat, n: nat) | NoDatabase(q: nat)

  ghost predicate Settled(w: World, k: Key, uid: nat, spec: MigrationSpec, stamp: Stamp, g: Farewell) {
    match g
    case Undone(p, q, n) =>
      && q < stamp.bases && HomeIs(w.bases, q, k, spec.databaseRef, p)
      && n < stamp.servers && n < |w.times.past|
      && var log := w.times.past[n].Log(p);
         && |log| >= 2 && log[|log| - 1] == Removed(spec.version)
         && log[|log| - 2] == RolledBack(spec.version, spec.rollbackSql, k, uid)
    case NoDatabase(q) => q < stamp.bases && q < |w.bases.hist| && Key(k.ns, spec.databaseRef) !in w.bases.hist[q]
  }

  ghost predicate Cleared(w: World, k: Key, uid: nat, spec: MigrationSpec, stamp: Stamp) {
    spec.rollbackSql == "" || exists g :: Settled(w, k, uid, spec, stamp, g)
  }

  ghost predicate LetGo(w: World, i: nat, k: Key)
    requires Sane(w) && 0 < i < |w.objs.hist| && k in w.objs.hist[i - 1]
  {
    Cleared(w, k, w.objs.hist[i - 1][k].uid, w.objs.hist[i - 1][k].body.spec, w.times.stamps[i])
  }

  /** Nobody lost the finalizer before that. */
  ghost predicate AllCleared(w: World)
    requires Sane(w)
  {
    forall i, k :: Api.Lost(w.objs.hist, i, k, FINALIZER) ==> LetGo(w, i, k)
  }

  /** For every place and version: how many executions have no record after them. */
  type Tally = multiset<(Place, string)>

  ghost predicate Balanced(begin: Servers, server: Servers, owed: Tally) {
    forall p, v :: Lapses(server.Log(p), |begin.Log(p)|, |server.Log(p)|, v) == owed[(p, v)]
  }

  ghost predicate Booked(w: World, begin: Servers, checksum: string -> string, floor: nat, owed: Tally) {
    && Sane(w)
    && Kept(begin, w.server, checksum) && Attributed(w, begin) && Evident(w, begin, checksum, floor)
    && AllCleared(w) && Balanced(begin, w.server, owed)
  }

  // ---------------------------------------------------------------- what lasts

  /** The log of a place has grown, and what was rolled back there was asked for no earlier than `uid`. */
  ghost predicate Further(a: World, b: World, p: Place, uid: nat) {
    && a.server.Log(p) <= b.server.Log(p)
    && RolledBackSince(b, p, b.server.Log(p), |a.server.Log(p)|, uid)
  }

  lemma StillRests(a: World, b: World, begin: Servers, checksum: string -> string, k: Key, uid: nat, i: nat, i': nat,
                   stamp: Stamp, stamp': Stamp, sum: Option<string>)
    requires Later(a, b) && i <= i' && NotAfter(stamp, stamp')
    requires forall p :: Further(a, b, p, uid)
    requires Rests(a, begin, checksum, k, uid, i, stamp, sum)
    ensures Rests(b, begin, checksum, k, uid, i', stamp', sum)
  {
    hide HasRow, Rows;
    var e :| Shown(a, begin, k, uid, i, stamp, e) && sum == Some(checksum(a.objs.hist[e.j][k].body.spec.sql));
    var log, log' := a.server.Log(e.p), b.server.Log(e.p);
    assert Further(a, b, e.p, uid);
    assert b.objs.hist[e.j] == a.objs.hist[e.j] && b.times.past[e.n] == a.times.past[e.n];
    StillReady(a.bases, b.bases, e.q, e.db, a.objs.hist[e.j][k].body.spec.databaseRef, e.p);
    assert log'[..e.m] == log[..e.m];
    forall x | e.m <= x < |log'| && log'[x].RolledBack? ensures CondemnedSince(b.objs, b.bases, e.p, log'[x], uid) {
      if x < |log| {
        assert log'[x] == log[x];
        StillCondemned(a.objs, b.objs, a.bases, b.bases, e.p, log[x], uid, uid);
      }
    }
    assert Shown(b, begin, k, uid, i', stamp', e);
  }

  lemma StillCleared(a: World, b: World, k: Key, uid: nat, spec: MigrationSpec, stamp: Stamp, stamp': Stamp)
    requires Later(a, b) && NotAfter(stamp, stamp') && Cleared(a, k, uid, spec, stamp)
    ensures Cleared(b, k, uid, spec, stamp')
  {
    if spec.rollbackSql != "" {
      var g :| Settled(a, k, uid, spec, stamp, g);
      assert b.bases.hist[g.q] == a.bases.hist[g.q];
      if g.Undone? {
        assert b.times.past[g.n] == a.times.past[g.n];
      }
      assert Settled(b, k, uid, spec, stamp', g);
    }
  }

  lemma {:induction false} DropsKeepLog(log: seq<Event>, log': seq<Event>, lo: nat, checksum: string -> string)
    requires Shape(log, checksum) && LogDrifted(log, log') && lo <= |log|
    ensures Shape(log', checksum)
    ensures forall v :: Lapses(log', lo, |log'|, v) == Lapses(log, lo, |log|, v)
    decreases |log'|
  {
    if |log'| > |log| {
      var front := log'[..|log'| - 1];
      assert front[..|log|] == log'[..|log|];
      DropsKeepLog(log, front, lo, checksum);
      assert log' == front + [Dropped];
      ShapeAppend(front, Dropped, checksum);
      forall v ensures Lapses(log', lo, |log'|, v) == Lapses(log, lo, |log|, v) {
        LapsesAppend(front, Dropped, lo, v);
      }
    } else {
      assert log' == log;
    }
  }

  lemma DriftGoesFurther(a: World, b: World, others: Others, p: Place, uid: nat)
    requires Drifted(a.server, b.server, others)
    ensures Further(a, b, p, uid)
  {
    assert LogDrifted(a.server.Log(p), b.server.Log(p));
  }

  // ---------------------------------------------------------------- others act

  lemma DriftKeepsLogs(begin: Servers, server: Servers, server': Servers, others: Others, checksum: string -> string,
                       owed: Tally)
    requires Drifted(server, server', others) && Kept(begin, server, checksum) && Balanced(begin, server, owed)
    ensures Kept(begin, server', checksum) && Balanced(begin, server', owed)
  {
    hide Shape, Lapses;
    forall p ensures begin.Log(p) <= server'.Log(p) && Shape(server'.Log(p), checksum)
      ensures forall v :: Lapses(server'.Log(p), |begin.Log(p)|, |server'.Log(p)|, v)
                       == Lapses(server.Log(p), |begin.Log(p)|, |server.Log(p)|, v)
    {
      assert LogDrifted(server.Log(p), server'.Log(p));
      DropsKeepLog(server.Log(p), server'.Log(p), |begin.Log(p)|, checksum);
    }
  }

  lemma DriftKeepsWarrants(a: World, b: World, begin: Servers, others: Others)
    requires Later(a, b) && Drifted(a.server, b.server, others) && Attributed(a, begin)
    ensures Attributed(b, begin)
  {
    hide Warranted;
    forall p, i | |begin.Log(p)| <= i < |b.server.Log(p)| ensures Warranted(b.objs, b.bases, p, b.server.Log(p)[i]) {
      assert LogDrifted(a.server.Log(p), b.server.Log(p));
      if i < |a.server.Log(p)| {
        assert b.server.Log(p)[i] == a.server.Log(p)[i];
        StillWarranted(a.objs, b.objs, a.bases, b.bases, p, a.server.Log(p)[i]);
      } else {
        DropsNeedNoWarrant(b.objs, b.bases, p);
      }
    }
  }

  lemma DropsNeedNoWarrant(objs: Migrations, bases: Bases, p: Place)
    ensures Warranted(objs, bases, p, Dropped)
  {
  }

  /** Nobody writes a status: what was evident stays so. */
  lemma SilenceKeepsEvidence(a: World, b: World, begin: Servers, checksum: string -> string, floor: nat)
    requires Later(a, b) && Silent(a.objs, b.objs, BLANK) && Evident(a, begin, checksum, floor)
    requires forall p, uid :: Further(a, b, p, uid)
    ensures Evident(b, begin, checksum, floor)
  {
    hide Rests, Further;
    forall i, k | 0 <= i < |b.objs.hist| && k in b.objs.hist[i] && b.objs.hist[i][k].body.status.applied
      ensures b.objs.hist[i][k].uid <= floor
      ensures Rests(b, begin, checksum, k, b.objs.hist[i][k].uid, i, b.times.stamps[i],
                    b.objs.hist[i][k].body.status.checksum)
    {
      var o := b.objs.hist[i][k];
      var n := if i < |a.objs.hist| then i else |a.objs.hist| - 1;
      assert k in a.objs.hist[n] && a.objs.hist[n][k].uid == o.uid
          && a.objs.hist[n][k].body.status == o.body.status by {
        if i < |a.objs.hist| {
          assert b.objs.hist[i] == a.objs.hist[i];
        } else {
          assert o.body.status != BLANK && a.objs.Now() == a.objs.hist[n];
          assert k in a.objs.Now() && o.uid == a.objs.Now()[k].uid;
        }
      }
      assert NotAfter(a.times.stamps[n], b.times.stamps[i]);
      StillRests(a, b, begin, checksum, k, o.uid, n, i, a.times.stamps[n], b.times.stamps[i], o.body.status.checksum);
    }
  }

  /** Nobody loses the finalizer but `k`, if anyone, with the last version. */
  lemma AllStayCleared(a: World, b: World, k: Key)
    requires Later(a, b) && AllCleared(a)
    requires forall i, g :: |a.objs.hist| <= i < |b.objs.hist| && Api.Lost(b.objs.hist, i, g, FINALIZER) ==>
               g == k && i == |b.objs.hist| - 1
    requires Api.Lost(b.objs.hist, |b.objs.hist| - 1, k, FINALIZER) && |b.objs.hist| > |a.objs.hist| ==>
               LetGo(b, |b.objs.hist| - 1, k)
    ensures AllCleared(b)
  {
    hide Cleared;
    forall i, g | Api.Lost(b.objs.hist, i, g, FINALIZER) ensures LetGo(b, i, g) {
      if i < |a.objs.hist| {
        assert b.objs.hist[i] == a.objs.hist[i] && b.objs.hist[i - 1] == a.objs.hist[i - 1];
        assert Api.Lost(a.objs.hist, i, g, FINALIZER);
        var o := a.objs.hist[i - 1][g];
        StillCleared(a, b, g, o.uid, o.body.spec, a.times.stamps[i], b.times.stamps[i]);
      }
    }
  }

  /** A call in which the controller itself writes nothing but its finalizer. */
  lemma OthersAct(a: World, b: World, begin: Servers, others: Others, checksum: string -> string, floor: nat,
      owed: Tally)
    requires Later(a, b) && Passed(a.objs, b.objs, RULES) && Drifted(a.server, b.server, others)
    requires Booked(a, begin, checksum, floor, owed)
    ensures Booked(b, begin, checksum, floor, owed)
  {
    hide Kept, Balanced, Attributed, Evident, AllCleared, Onward, Further, Drifted, Silent;
    DriftKeepsLogs(begin, a.server, b.server, others, checksum, owed);
    DriftKeepsWarrants(a, b, begin, others);
    forall p, uid: nat ensures Further(a, b, p, uid) {
      DriftGoesFurther(a, b, others, p, uid);
    }
    SilenceKeepsEvidence(a, b, begin, checksum, floor);
    assert forall i, g :: |a.objs.hist| <= i < |b.objs.hist| ==> !Api.Lost(b.objs.hist, i, g, FINALIZER);
    if |b.objs.hist| > |a.objs.hist| {
      assert !Api.Lost(b.objs.hist, |b.objs.hist| - 1, Key("", ""), FINALIZER);
    }
    AllStayCleared(a, b, Key("", ""));
  }

  // ---------------------------------------------------------------- the controller writes

  /** What the tally is after one more event. */
  function Tallied(owed: Tally, p: Place, e: Event): Tally {
    match e
    case Executed(v, _, _, _) => owed + multiset{(p, v)}
    case Recorded(v, _) => owed - multiset{(p, v)}
    case _ => owed
  }

  lemma NotingKeepsLogs(begin: Servers, server: Servers, checksum: string -> string, owed: Tally, p: Place, e: Event)
    requires Kept(begin, server, checksum) && Balanced(begin, server, owed)
    requires Fits(server.Log(p) + [e], |server.Log(p)|, checksum)
    requires e.Recorded? ==> |server.Log(p)| > |begin.Log(p)|
    ensures Kept(begin, server.Note(p, e), checksum) && Balanced(begin, server.Note(p, e), Tallied(owed, p, e))
  {
    hide Shape, Lapses, Rows;
    var server' := server.Note(p, e);
    var log, lo := server.Log(p), |begin.Log(p)|;
    ShapeAppend(log, e, checksum);
    forall g, v ensures Lapses(server'.Log(g), |begin.Log(g)|, |server'.Log(g)|, v) == Tallied(owed, p, e)[(g, v)] {
      assert Lapses(server.Log(g), |begin.Log(g)|, |server.Log(g)|, v) == owed[(g, v)];
      if g == p {
        LapsesAppend(log, e, lo, v);
      }
    }
    forall g ensures begin.Log(g) <= server'.Log(g) && Shape(server'.Log(g), checksum) {
      assert begin.Log(g) <= server.Log(g);
    }
  }

  lemma NotingKeepsWarrants(w: World, begin: Servers, p: Place, e: Event)
    requires Attributed(w, begin) && Warranted(w.objs, w.bases, p, e)
    ensures Attributed(w.(server := w.server.Note(p, e)), begin)
  {
    hide Warranted;
    var server' := w.server.Note(p, e);
    forall g, i | |begin.Log(g)| <= i < |server'.Log(g)| ensures Warranted(w.objs, w.bases, g, server'.Log(g)[i]) {
      if i < |w.server.Log(g)| {
        assert server'.Log(g)[i] == w.server.Log(g)[i];
      } else {
        assert g == p && server'.Log(g)[i] == e;
      }
    }
  }

  lemma NotingKeepsEvidence(w: World, begin: Servers, checksum: string -> string, floor: nat, p: Place, e: Event)
    requires Sane(w) && Evident(w, begin, checksum, floor)
    requires e.RolledBack? ==> CondemnedSince(w.objs, w.bases, p, e, floor)
    ensures Evident(w.(server := w.server.Note(p, e)), begin, checksum, floor)
  {
    hide Rests;
    var w' := w.(server := w.server.Note(p, e));
    forall i, k | 0 <= i < |w.objs.hist| && k in w.objs.hist[i] && w.objs.hist[i][k].body.status.applied
      ensures Rests(w', begin, checksum, k, w.objs.hist[i][k].uid, i, w.times.stamps[i],
                    w.objs.hist[i][k].body.status.checksum)
    {
      var o := w.objs.hist[i][k];
      forall g ensures Further(w, w', g, o.uid) {
        if g == p && e.RolledBack? {
          StillCondemned(w.objs, w.objs, w.bases, w.bases, p, e, floor, o.uid);
        }
      }
      StillRests(w, w', begin, checksum, k, o.uid, i, i, w.times.stamps[i], w.times.stamps[i], o.body.status.checksum);
    }
  }

  /** One more event keeps the books if it fits, is warranted, and, if it is a rollback, was asked for no
      earlier than the cache has come. */
  lemma NotingKeeps(w: World, begin: Servers, checksum: string -> string, floor: nat, owed: Tally, p: Place, e: Event)
    requires Booked(w, begin, checksum, floor, owed)
    requires Fits(w.server.Log(p) + [e], |w.server.Log(p)|, checksum) && Warranted(w.objs, w.bases, p, e)
    requires e.Recorded? ==> |w.server.Log(p)| > |begin.Log(p)|
    requires e.RolledBack? ==> CondemnedSince(w.objs, w.bases, p, e, floor)
    ensures Booked(w.(server := w.server.Note(p, e)), begin, checksum, floor, Tallied(owed, p, e))
  {
    hide Kept, Balanced, Evident, Attributed, Warranted, Fits, LetGo;
    NotingKeepsLogs(begin, w.server, checksum, owed, p, e);
    NotingKeepsWarrants(w, begin, p, e);
    NotingKeepsEvidence(w, begin, checksum, floor, p, e);
    var w' := w.(server := w.server.Note(p, e));
    forall i, k | Api.Lost(w'.objs.hist, i, k, FINALIZER) ensures LetGo(w', i, k) {
      assert LetGo(w, i, k);
      ServersDoNotClear(w, w', i, k);
    }
  }

  lemma ServersDoNotClear(w: World, w': World, i: nat, k: Key)
    requires Sane(w) && w' == w.(server := w'.server) && 0 < i < |w.objs.hist| && k in w.objs.hist[i - 1]
              && LetGo(w, i, k)
    ensures LetGo(w', i, k)
  {
    var o := w.objs.hist[i - 1][k];
    StillCleared(w, w', k, o.uid, o.body.spec, w.times.stamps[i], w.times.stamps[i]);
  }

  /** A status write: `b` is what it makes of `a`. What it claims must rest on a record. */
  lemma StatusKeepsEvidence(a: World, b: World, begin: Servers, checksum: string -> string, floor: nat, k: Key,
                            status: MigrationStatus)
    requires Later(a, b) && b.server == a.server && k in a.objs.Now() && Evident(a, begin, checksum, floor)
    requires b.objs == Put(a.objs, k, a.objs.Now()[k].body.(status := status))
    requires status.applied ==> a.objs.Now()[k].uid <= floor
    requires status.applied && |b.objs.hist| > |a.objs.hist| ==>
               Rests(b, begin, checksum, k, a.objs.Now()[k].uid, |b.objs.hist| - 1, b.times.stamps[|b.objs.hist| - 1],
                     status.checksum)
    ensures Evident(b, begin, checksum, floor)
  {
    hide Rests;
    forall i, g | 0 <= i < |b.objs.hist| && g in b.objs.hist[i] && b.objs.hist[i][g].body.status.applied
      ensures b.objs.hist[i][g].uid <= floor
      ensures Rests(b, begin, checksum, g, b.objs.hist[i][g].uid, i, b.times.stamps[i],
                    b.objs.hist[i][g].body.status.checksum)
    {
      var o := b.objs.hist[i][g];
      if i < |a.objs.hist| || g != k {
        var n := if i < |a.objs.hist| then i else |a.objs.hist| - 1;
        assert i == |a.objs.hist| || b.objs.hist[i] == a.objs.hist[i];
        assert g in a.objs.hist[n] && a.objs.hist[n][g] == o;
        assert NotAfter(a.times.stamps[n], b.times.stamps[i]);
        StillRests(a, b, begin, checksum, g, o.uid, n, i, a.times.stamps[n], b.times.stamps[i], o.body.status.checksum);
      }
    }
  }

  lemma WarrantsGrow(a: World, b: World, begin: Servers)
    requires Later(a, b) && b.server == a.server && Attributed(a, begin)
    ensures Attributed(b, begin)
  {
    hide Warranted;
    forall p, i | |begin.Log(p)| <= i < |b.server.Log(p)| ensures Warranted(b.objs, b.bases, p, b.server.Log(p)[i]) {
      StillWarranted(a.objs, b.objs, a.bases, b.bases, p, a.server.Log(p)[i]);
    }
  }

  lemma StatusKeeps(a: World, b: World, begin: Servers, checksum: string -> string, floor: nat, owed: Tally, k: Key,
                    status: MigrationStatus)
    requires Later(a, b) && b.server == a.server && k in a.objs.Now() && Booked(a, begin, checksum, floor, owed)
    requires b.objs == Put(a.objs, k, a.objs.Now()[k].body.(status := status))
    requires NoneLost(a.objs, b.objs, FINALIZER)
    requires status.applied ==> a.objs.Now()[k].uid <= floor
    requires status.applied && |b.objs.hist| > |a.objs.hist| ==>
               Rests(b, begin, checksum, k, a.objs.Now()[k].uid, |b.objs.hist| - 1, b.times.stamps[|b.objs.hist| - 1],
                     status.checksum)
    ensures Booked(b, begin, checksum, floor, owed)
  {
    hide Kept, Balanced, Attributed, Evident, AllCleared, Onward, Rests, Put;
    WarrantsGrow(a, b, begin);
    StatusKeepsEvidence(a, b, begin, checksum, floor, k, status);
    if |b.objs.hist| > |a.objs.hist| {
      assert !Api.Lost(b.objs.hist, |b.objs.hist| - 1, k, FINALIZER);
    }
    AllStayCleared(a, b, k);
  }

  /** The finalizer is taken off `k`, for which everything is cleared. */
  lemma ReleaseKeeps(a: World, b: World, begin: Servers, checksum: string -> string, floor: nat, owed: Tally, k: Key)
    requires Later(a, b) && b.server == a.server && Booked(a, begin, checksum, floor, owed)
    requires Silent(a.objs, b.objs, BLANK) && |b.objs.hist| <= |a.objs.hist| + 1
    requires forall g :: g != k && g in a.objs.Now() ==> g in b.objs.Now() && b.objs.Now()[g] == a.objs.Now()[g]
    requires k in a.objs.Now() && |b.objs.hist| > |a.objs.hist| ==>
               Cleared(b, k, a.objs.Now()[k].uid, a.objs.Now()[k].body.spec, b.times.stamps[|b.objs.hist| - 1])
    ensures Booked(b, begin, checksum, floor, owed)
  {
    hide Kept, Balanced, Attributed, Evident, AllCleared, Onward, Silent, Cleared;
    WarrantsGrow(a, b, begin);
    forall p, uid ensures Further(a, b, p, uid) {
    }
    SilenceKeepsEvidence(a, b, begin, checksum, floor);
    AllStayCleared(a, b, k);
  }
}
