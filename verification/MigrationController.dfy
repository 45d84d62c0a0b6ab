/** The Migration controller: it runs the SQL of a Migration once on its database, records it there,
    and marks the object as applied; when the object is deleted it runs the rollback and takes the
    record away. */
module MigrationController {
  import opened Api
  import opened Server
  import opened Cluster
  import opened MigrationLog
  import opened MigrationBooks

  /** A pass under way over version `at` of the object `k`. */
  datatype Job = Job(k: Key, o: Own, at: nat)

  type Bodies = map<Key, Body<MigrationSpec, MigrationStatus>>
  type StoreBodies = map<Key, Body<DatastoreSpec, ReadyStatus>>
  type BaseBodies = map<Key, Body<DatabaseSpec, DatabaseStatus>>

  function Failing(s: MigrationStatus, phase: string): MigrationStatus {
    s.(phase := phase, applied := false)
  }

  // ---------------------------------------------------------------- a pass in a quiet world

  /** The place can be reached, and is there. */
  predicate Applicable(stores: StoreBodies, server: Servers, reachable: set<Key>, p: Place) {
    && p.ds in stores && p.ds in reachable && EngineOf(stores[p.ds].spec.datastoreType) != Unsupported
    && p in server.databases
  }

  function Migrated(server: Servers, p: Place, k: Key, spec: MigrationSpec, at: Moment, sum: string): Servers {
    var server' := server.Note(p, TableCreated);
    if HasRow(server'.Log(p), spec.version) then server'
    else server'.Note(p, Executed(spec.version, spec.sql, k, at)).Note(p, Recorded(spec.version, sum))
  }

  /** The status and the servers a pass over a live object ends with; `found` is where the reference to
      the Database leads. */
  function Serving(b: Body<MigrationSpec, MigrationStatus>, dbs: BaseBodies, stores: StoreBodies, server: Servers,
                   reachable: set<Key>, k: Key, found: Option<Key>, at: Moment, now: nat, checksum: string -> string)
    : (MigrationStatus, Servers)
  {
    if found.None? || found.value !in dbs then (Failing(b.status, "Failed"), server)
    else if !dbs[found.value].status.ready then (Failing(b.status, "Waiting"), server)
    else
      var p := PlaceOf(found.value, dbs[found.value].spec);
      var sum := checksum(b.spec.sql);
      if !Applicable(stores, server, reachable, p) then (Failing(b.status, "Failed"), server)
      else (MigrationStatus("Applied", true, Some(now), Some(sum)), Migrated(server, p, k, b.spec, at, sum))
  }

  function Prepared(b: Body<MigrationSpec, MigrationStatus>): Body<MigrationSpec, MigrationStatus> {
    b.(finalizers := AddFinalizer(b.finalizers, FINALIZER),
       status := if !b.status.applied && b.status.phase == "" then Failing(b.status, "Pending") else b.status)
  }

  function LivePass(ms: Bodies, dbs: BaseBodies, stores: StoreBodies, server: Servers, reachable: set<Key>,
                    k: Key, found: Option<Key>, at: Moment, now: nat, checksum: string -> string): (Bodies, Servers)
    requires k in ms
  {
    var b := ms[k].(finalizers := AddFinalizer(ms[k].finalizers, FINALIZER));
    if b.status.applied then (ms[k := b], server)
    else
      var (status, server') := Serving(b, dbs, stores, server, reachable, k, found, at, now, checksum);
      (ms[k := b.(status := status)], server')
  }

  /** Storing a first status on the way makes no difference to where a pass ends. */
  lemma PreparingSettles(ms: Bodies, dbs: BaseBodies, stores: StoreBodies, server: Servers, reachable: set<Key>,
                         k: Key, found: Option<Key>, at: Moment, now: nat, checksum: string -> string)
    requires k in ms
    ensures var p := Prepared(ms[k]);
            var (status, server') := Serving(p, dbs, stores, server, reachable, k, found, at, now, checksum);
            LivePass(ms, dbs, stores, server, reachable, k, found, at, now, checksum) ==
              if p.status.applied then (ms[k := p], server) else (ms[k := p][k := p.(status := status)], server')
  {
    var p := Prepared(ms[k]);
    var (status, server') := Serving(p, dbs, stores, server, reachable, k, found, at, now, checksum);
    assert ms[k := p][k := p.(status := status)] == ms[k := p.(status := status)];
  }

  /** Does undoing succeed, and what does it leave on the servers? */
  function Undoing(dbs: BaseBodies, stores: StoreBodies, server: Servers, reachable: set<Key>, k: Key, uid: nat,
                   spec: MigrationSpec): (bool, Servers)
  {
    var db := Key(k.ns, spec.databaseRef);
    if db !in dbs then (true, server)
    else
      var p := PlaceOf(db, dbs[db].spec);
      if !Applicable(stores, server, reachable, p) then (false, server)
      else
        var rolled := server.Note(p, RolledBack(spec.version, spec.rollbackSql, k, uid));
        if Rows(rolled.Log(p)).None? then (false, rolled) else (true, rolled.Note(p, Removed(spec.version)))
  }

  function DeletingPass(ms: Bodies, dbs: BaseBodies, stores: StoreBodies, server: Servers, reachable: set<Key>,
                        k: Key, uid: nat): (Bodies, Servers)
    requires k in ms
  {
    var b := ms[k];
    var released := PutBody(ms, k, b.(finalizers := RemoveFinalizer(b.finalizers, FINALIZER)));
    if FINALIZER !in b.finalizers then (ms, server)
    else if b.spec.rollbackSql == "" then (released, server)
    else
      var (undone, server') := Undoing(dbs, stores, server, reachable, k, uid, b.spec);
      (if undone then released else ms, server')
  }

  /** What one pass over `k` does when nobody interferes and no call is lost; `found` is where the
      reference of a live object leads, and `at` when its SQL runs, if it does. */
  function Pass(ms: Bodies, dbs: BaseBodies, stores: StoreBodies, server: Servers, reachable: set<Key>,
                k: Key, uid: nat, found: Option<Key>, at: Moment, now: nat, checksum: string -> string)
    : (Bodies, Servers)
  {
    if k !in ms then (ms, server)
    else if ms[k].deleting then DeletingPass(ms, dbs, stores, server, reachable, k, uid)
    else LivePass(ms, dbs, stores, server, reachable, k, found, at, now, checksum)
  }

  /** Does the reference of the object, if it is a live one that is not applied yet, lead there? */
  ghost predicate Finds(ms: Bodies, dbs: BaseBodies, k: Key, found: Option<Key>) {
    k in ms && !ms[k].deleting && !ms[k].status.applied ==> LeadsTo(dbs.Keys, k.ns, ms[k].spec.databaseRef, found)
  }

  /** How such a pass ends: a live object that was not applied is tried again later, a deleting one that
      could not be let go is an error. */
  function Outcome(ms: Bodies, ms': Bodies, k: Key): Result {
    if k !in ms then Done
    else if ms[k].deleting then if k !in ms' || FINALIZER !in ms'[k].finalizers then Done else Error
    else if k in ms' && ms'[k].status.applied then Done
    else Requeue
  }

  // ---------------------------------------------------------------- deletion ends

  predicate Released(ms: Bodies, k: Key) {
    k !in ms || FINALIZER !in ms[k].finalizers
  }

  /** The Database is found at home, and its place can be reached: the Datastore that it names in its own
      namespace is there, of a known type, lets the controller in, and has the logical database. */
  predicate WithinReach(dbs: BaseBodies, stores: StoreBodies, server: Servers, reachable: set<Key>,
                        db: Key)
  {
    && db in dbs
    && var ds := Key(db.ns, dbs[db].spec.datastoreRef);
       && ds in stores && stores[ds].spec.datastoreType in KNOWN_TYPES && ds in reachable
       && Ext(ds, db.name) in server.databases
  }

  /** Nothing keeps a deleting migration: it has nothing to roll back, or there is no such Database in its
      namespace, or the place of that one can be reached and has the table of records. */
  predicate Clearable(b: Body<MigrationSpec, MigrationStatus>, dbs: BaseBodies, stores: StoreBodies, server: Servers,
                      reachable: set<Key>, k: Key)
  {
    var db := Key(k.ns, b.spec.databaseRef);
    || b.spec.rollbackSql == ""
    || db !in dbs
    || (WithinReach(dbs, stores, server, reachable, db)
        && Rows(server.Log(Ext(Key(k.ns, dbs[db].spec.datastoreRef), db.name))).Some?)
  }

  /** What a pass over a deleting migration adds to the log of `p`: a rollback, if there is something to roll
      back and the place can be reached, and the removal of the record, if there is a table. */
  function Rewound(b: Body<MigrationSpec, MigrationStatus>, dbs: BaseBodies, stores: StoreBodies, server: Servers,
                   reachable: set<Key>, k: Key, uid: nat, p: Place): seq<Event>
  {
    var db := Key(k.ns, b.spec.databaseRef);
    if b.spec.rollbackSql != "" && WithinReach(dbs, stores, server, reachable, db)
       && p == Ext(Key(k.ns, dbs[db].spec.datastoreRef), db.name)
    then [RolledBack(b.spec.version, b.spec.rollbackSql, k, uid)]
         + if Rows(server.Log(p)).Some? then [Removed(b.spec.version)] else []
    else []
  }

  lemma UndoingEnds(b: Body<MigrationSpec, MigrationStatus>, dbs: BaseBodies, stores: StoreBodies, server: Servers,
                    reachable: set<Key>, k: Key, uid: nat)
    requires b.spec.rollbackSql != ""
    ensures var (undone, server') := Undoing(dbs, stores, server, reachable, k, uid, b.spec);
            && (undone <==> Clearable(b, dbs, stores, server, reachable, k))
            && server' == server.(logs := server'.logs)
            && forall p :: server'.Log(p) == server.Log(p) + Rewound(b, dbs, stores, server, reachable, k, uid, p)
  {
    hide Rows;
    var db := Key(k.ns, b.spec.databaseRef);
    if db in dbs {
      var p := PlaceOf(db, dbs[db].spec);
      var log, back := server.Log(p), RolledBack(b.spec.version, b.spec.rollbackSql, k, uid);
      RollbackKeepsRows(log, back);
      assert log + [back] + [Removed(b.spec.version)] == log + ([back] + [Removed(b.spec.version)]);
    }
  }

  lemma RollbackKeepsRows(log: seq<Event>, back: Event)
    requires back.RolledBack?
    ensures Rows(log + [back]) == Rows(log)
  {
    assert (log + [back])[..|log|] == log;
  }

  /** Whatever state earlier passes were cut in, one undisturbed pass over a deleting migration lets it go
      exactly if nothing keeps it; otherwise the objects stay as they are, and the pass is an error. */
  lemma DeletingEnds(ms: Bodies, dbs: BaseBodies, stores: StoreBodies, server: Servers, reachable: set<Key>,
                     k: Key, uid: nat, found: Option<Key>, at: Moment, now: nat, checksum: string -> string)
    requires k in ms && ms[k].deleting && FINALIZER in ms[k].finalizers
    ensures var (ms', server') := Pass(ms, dbs, stores, server, reachable, k, uid, found, at, now, checksum);
            && (forall g :: g != k ==> (g in ms' <==> g in ms) && (g in ms ==> ms'[g] == ms[g]))
            && (if Clearable(ms[k], dbs, stores, server, reachable, k) then
                  && Released(ms', k) && (k in ms' <==> exists f :: f in ms[k].finalizers && f != FINALIZER)
                  && Outcome(ms, ms', k) == Done
                else
                  ms' == ms && Outcome(ms, ms', k) == Error)
            && server' == server.(logs := server'.logs)
            && forall p :: server'.Log(p) == server.Log(p) + Rewound(ms[k], dbs, stores, server, reachable, k, uid, p)
  {
    hide Undoing, Rows, WithinReach;
    KeptByOthers(ms[k].finalizers, FINALIZER);
    if ms[k].spec.rollbackSql != "" {
      UndoingEnds(ms[k], dbs, stores, server, reachable, k, uid);
    }
  }

  /** What a pass leaves to be told: where the reference led, when the SQL ran, and what ran without
      being recorded, if anything. */
  datatype Trace = Trace(found: Option<Key>, ran: Moment, lapse: Option<(Place, string)>)

  const NOTHING := Trace(None, Moment(0, 0), None)

  lemma PreparedIsTheSame(b: Body<MigrationSpec, MigrationStatus>)
    ensures var p := Prepared(b);
            p.deleting == b.deleting && p.spec == b.spec && p.status.applied == b.status.applied
  {
  }

  /** The two cases of a pass over a live object, in the order of its writes. */
  lemma LiveCases(m: Objs<MigrationSpec, MigrationStatus>, dbs: BaseBodies, stores: StoreBodies, server: Servers,
                  reachable: set<Key>, k: Key, o: Own, found: Option<Key>, at: Moment, now: nat,
                  checksum: string -> string)
    ensures k in m && m[k] == o && !o.body.deleting ==>
              var ms, p := View(m), Prepared(o.body);
              var (status, server') := Serving(p, dbs, stores, server, reachable, k, found, at, now, checksum);
              var done := if p.status.applied then (ms[k := p], server)
                          else (ms[k := p][k := p.(status := status)], server');
              && Pass(ms, dbs, stores, server, reachable, k, o.uid, found, at, now, checksum) == done
              && Outcome(ms, done.0, k) == (if done.0[k].status.applied then Done else Requeue)
              && (p.status.applied || LeadsTo(dbs.Keys, k.ns, p.spec.databaseRef, found) ==> Finds(ms, dbs, k, found))
  {
    hide Serving, LivePass, LeadsTo;
    var ms := View(m);
    if k in m && m[k] == o && !o.body.deleting {
      PreparingSettles(ms, dbs, stores, server, reachable, k, found, at, now, checksum);
    }
  }

  lemma NothingThere(m: Objs<MigrationSpec, MigrationStatus>, dbs: BaseBodies, stores: StoreBodies, server: Servers,
                     reachable: set<Key>, k: Key, now: nat, checksum: string -> string)
    ensures k !in m ==>
              && Pass(View(m), dbs, stores, server, reachable, k, 0, None, NOTHING.ran, now, checksum)
                   == (View(m), server)
              && Finds(View(m), dbs, k, None) && Outcome(View(m), View(m), k) == Done
  {
  }

  class MigrationReconciler {
    const c: Cluster<MigrationSpec, MigrationStatus>
    const checksum: string -> string
    /** The servers when the run began. */
    ghost const begin: Servers
    /** The cache position the latest pass worked from. */
    ghost var floor: nat
    /** Passes that ended between running a version and recording it, by place and version. */
    ghost var cut: Tally
    /** Passes in which a call was lost, or a logical database dropped by others. */
    ghost var faulted: nat

    /** A run in which others may drop logical databases and make them again. */
    constructor (c: Cluster<MigrationSpec, MigrationStatus>, checksum: string -> string)
      requires c.Valid() && c.rules == RULES && c.objs == Kind([map[]], 0)
      requires forall p :: Shape(c.server.Log(p), checksum)
      ensures Valid() && this.c == c && this.checksum == checksum && begin == c.server
      ensures cut == multiset{} && faulted == 0
    {
      this.c, this.checksum := c, checksum;
      begin, floor, cut, faulted := c.server, 0, multiset{}, 0;
    }

    ghost function Here(): World
      reads c
    {
      World(c.objs, c.databases, c.times, c.server)
    }

    ghost predicate Books(owed: Tally)
      reads this, c
    {
      && c.Valid() && c.rules == RULES && floor <= c.objs.seen
      && Booked(Here(), begin, checksum, floor, owed)
    }

    /** What the logs say, and who asked for it. */
    ghost predicate Logged()
      reads this, c
    {
      && c.objs.Ok() && |c.times.stamps| == |c.objs.hist|
      && Kept(begin, c.server, checksum) && Attributed(Here(), begin)
    }

    /** What holds all through a pass. */
    ghost predicate InPass()
      reads this, c
    {
      Books(cut)
    }

    /** What holds between passes. */
    ghost predicate Valid()
      reads this, c
    {
      InPass() && forall x :: cut[x] <= faulted
    }

    /** A pass in which something ran without being recorded is one in which something went wrong. */
    twostate predicate CutBy(lapse: Option<(Place, string)>)
      reads this, c
    {
      && cut == old(cut) + (if lapse.None? then multiset{} else multiset{lapse.value})
      && (lapse.Some? ==> Mishap(old(c.mishaps), c.mishaps, lapse.value.0))
    }

    ghost predicate On(j: Job)
      requires c.objs.Ok()
      reads this, c
    {
      && j.at < |c.objs.hist| && j.k in c.objs.hist[j.at] && c.objs.hist[j.at][j.k] == j.o
      && FINALIZER in j.o.body.finalizers && j.o.uid <= floor
      && if j.o.body.deleting then j.at == floor
         else Holds(c.objs.Now(), j.k, FINALIZER) && c.objs.Now()[j.k].uid == j.o.uid
    }

    /** In a quiet world nothing but what the call itself does changes. */
    twostate predicate Same()
      reads c
    {
      && c.Elapsed()
      && (old(c.Quiet()) ==>
            && c.objs.hist == old(c.objs.hist)
            && c.datastores.hist == old(c.datastores.hist)
            && c.databases.hist == old(c.databases.hist))
    }

    // -------------------------------------------------------------- one call each

    method Fetch(k: Key) returns (r: Reply<Own>, ghost at: nat)
      requires InPass()
      modifies this`floor, c
      ensures InPass() && at == floor == c.objs.seen
      ensures old(c.schedule) != [] ==> |c.schedule| < |old(c.schedule)|
      ensures r.Found? ==> k in c.objs.Cached() && r.value == c.objs.Cached()[k] && r.value.uid <= floor
      ensures Same()
      ensures old(c.Quiet()) ==> c.server == old(c.server)
      ensures old(c.Quiet()) ==> r == if k in c.objs.Now() then Found(c.objs.Now()[k]) else NotFound
    {
      hide Booked, Silent, Drifted, Noted, Onward, c.Smooth;
      ghost var was := Here();
      r, at := c.Get(k);
      OthersAct(was, Here(), begin, c.others, checksum, floor, cut);
      FloorRises(Here(), begin, checksum, floor, at, cut);
      if r.Found? {
        RvBound(c.objs, RULES, at, k);
      }
      floor := at;
    }

    method Hold(k: Key, o: Own, ghost at: nat) returns (r: Reply<Own>, ghost j: Job)
      requires InPass() && at == floor == c.objs.seen && k in c.objs.Cached() && c.objs.Cached()[k] == o
      requires !o.body.deleting && o.uid <= floor
      modifies c
      ensures InPass() && c.Elapsed()
      ensures r.Found? ==> j.k == k && j.o == r.value && On(j)
      ensures r.Found? ==> r.value.body == o.body.(finalizers := AddFinalizer(o.body.finalizers, FINALIZER))
      ensures old(c.Quiet()) && k in old(c.objs.Now()) && old(c.objs.Now())[k] == o ==>
                && r.Found? && c.server == old(c.server)
                && c.datastores.hist == old(c.datastores.hist) && c.databases.hist == old(c.databases.hist)
                && k in c.objs.Now() && c.objs.Now()[k] == r.value
                && View(c.objs.Now()) == old(View(c.objs.Now()))[k := r.value.body]
    {
      hide Booked, Silent, Drifted, Noted, Onward, c.Smooth, Strayed, StepAt, Passed;
      j := Job(k, o, at);
      if FINALIZER in o.body.finalizers {
        LiveAhead(c.objs, RULES, at, |c.objs.hist| - 1, k);
        return Found(o), j;
      }
      ghost var was := Here();
      var full := o.body.(finalizers := AddFinalizer(o.body.finalizers, FINALIZER));
      ghost var mid, taken;
      r, mid, taken := c.Update(k, o.(body := full), at);
      OthersAct(was, Here(), begin, c.others, checksum, floor, cut);
      if taken {
        PutShows(mid, k, full, RULES);
        assert k in c.objs.Now() && c.objs.Now()[k].uid == o.uid && c.objs.Now()[k].body == full;
        j := Job(k, c.objs.Now()[k], |c.objs.hist| - 1);
      }
    }

    /** By now, a record backs this checksum for the object. */
    ghost predicate Backed(k: Key, uid: nat, sum: Option<string>)
      requires c.objs.Ok()
      reads this, c
    {
      Rests(Here(), begin, checksum, k, uid, |c.objs.hist| - 1, c.Present(), sum)
    }

    method SetStatus(ghost j: Job, k: Key, o: Own, status: MigrationStatus)
      returns (r: Reply<Own>, ghost j': Job)
      requires InPass() && On(j) && j.k == k && j.o == o && !o.body.deleting
      requires Follows(o.body.status, status)
      requires status.applied ==> Backed(k, o.uid, status.checksum)
      modifies c
      ensures InPass() && c.Elapsed()
      ensures r.Found? ==> j'.k == k && j'.o == r.value && On(j')
      ensures r.Found? ==> r.value.uid == o.uid && r.value.body == o.body.(status := status)
      ensures old(c.Quiet()) && k in old(c.objs.Now()) && old(c.objs.Now())[k] == o ==>
                && r.Found? && c.server == old(c.server)
                && c.datastores.hist == old(c.datastores.hist) && c.databases.hist == old(c.databases.hist)
                && k in c.objs.Now() && c.objs.Now()[k] == r.value
                && View(c.objs.Now()) == old(View(c.objs.Now()))[k := r.value.body]
    {
      hide Booked, Silent, NoneLost, Drifted, Noted, Onward, Rests, c.Smooth, Follows, Strayed, View, Holds;
      ghost var was, stamp := Here(), c.Present();
      ghost var mid, taken;
      r, mid, taken := c.UpdateStatus(k, o.(body := o.body.(status := status)), j.at);
      ghost var amid := World(mid, c.databases, UpTo(c.times, |mid.hist|), c.server);
      OnwardIsLonger(was.times, c.times);
      AroundStatus(was, amid, Here(), begin, c.others, checksum, floor, cut, k, status, taken, stamp, c.Present());
      if taken {
        PutShows(mid, k, o.body.(status := status), RULES);
        assert k in c.objs.Now() && c.objs.Now()[k].uid == o.uid && c.objs.Now()[k].body == o.body.(status := status);
      }
      j' := if r.Found? then Job(k, r.value, |c.objs.hist| - 1) else j;
    }

    /** By now, nothing keeps the deleting object from being let go. */
    ghost predicate MayGo(k: Key, o: Own)
      reads this, c
    {
      Cleared(Here(), k, o.uid, o.body.spec, c.Present())
    }

    method Release(ghost j: Job, k: Key, o: Own) returns (ok: bool)
      requires InPass() && On(j) && j.k == k && j.o == o && o.body.deleting && MayGo(k, o)
      modifies c
      ensures InPass() && c.Elapsed()
      ensures old(c.Quiet()) && k in old(c.objs.Now()) && old(c.objs.Now())[k] == o ==>
                && ok && c.server == old(c.server)
                && c.datastores.hist == old(c.datastores.hist) && c.databases.hist == old(c.databases.hist)
                && View(c.objs.Now()) == PutBody(old(View(c.objs.Now())), k,
                     o.body.(finalizers := RemoveFinalizer(o.body.finalizers, FINALIZER)))
    {
      hide Booked, Silent, NoneLost, Drifted, Noted, Onward, c.Smooth, Cleared;
      ghost var was, stamp := Here(), c.Present();
      var bare := o.body.(finalizers := RemoveFinalizer(o.body.finalizers, FINALIZER));
      ghost var mid, taken;
      var r;
      r, mid, taken := c.Update(k, o.(body := bare), j.at);
      ok := r.Found?;
      ghost var amid := World(mid, c.databases, UpTo(c.times, |mid.hist|), c.server);
      OnwardIsLonger(was.times, c.times);
      AroundRelease(was, amid, Here(), begin, c.others, checksum, floor, cut, k, o.uid, o.body.spec, stamp,
          c.Present());
      if taken {
        PutShows(mid, k, bare, RULES);
      }
    }

    method Resolve(ghost j: Job, ns: string, name: string)
      returns (r: Resolution<DatabaseSpec, DatabaseStatus>, ghost q: nat)
      requires InPass() && On(j)
      modifies c
      ensures InPass() && On(j) && Same()
      ensures r.Resolved? ==> r.k.name == name
      ensures r.Resolved? ==>
                q < |c.databases.hist| && r.k in c.databases.hist[q] && c.databases.hist[q][r.k] == r.value
      ensures old(c.Quiet()) ==> c.server == old(c.server) && Resolves(c.databases.Now(), ns, name, r)
    {
      hide Booked, Silent, Drifted, Noted, Onward, c.Smooth;
      ghost var was := Here();
      r, q := c.ResolveDatabase(ns, name);
      OthersAct(was, Here(), begin, c.others, checksum, floor, cut);
    }

    method ReadDatabase(ghost j: Job, db: Key) returns (r: Reply<Obj<DatabaseSpec, DatabaseStatus>>, ghost q: nat)
      requires InPass() && On(j)
      modifies c
      ensures InPass() && On(j) && Same()
      ensures q < |c.databases.hist|
      ensures r.Found? ==> db in c.databases.hist[q] && c.databases.hist[q][db] == r.value
      ensures r.NotFound? ==> db !in c.databases.hist[q]
      ensures old(c.Quiet()) ==> c.server == old(c.server)
      ensures old(c.Quiet()) ==> r == if db in c.databases.Now() then Found(c.databases.Now()[db]) else NotFound
    {
      hide Booked, Silent, Drifted, Noted, Onward, c.Smooth;
      ghost var was := Here();
      r := c.GetDatabase(db);
      q := c.databases.seen;
      OthersAct(was, Here(), begin, c.others, checksum, floor, cut);
    }

    method ReadDatastore(ghost j: Job, ds: Key) returns (r: Reply<Obj<DatastoreSpec, ReadyStatus>>)
      requires InPass() && On(j)
      modifies c
      ensures InPass() && On(j) && Same() && Grew(old(c.databases), c.databases)
      ensures old(c.Quiet()) ==> c.server == old(c.server)
      ensures old(c.Quiet()) ==> r == if ds in c.datastores.Now() then Found(c.datastores.Now()[ds]) else NotFound
    {
      hide Booked, Silent, Drifted, Noted, Onward, c.Smooth;
      ghost var was := Here();
      r := c.GetDatastore(ds);
      OthersAct(was, Here(), begin, c.others, checksum, floor, cut);
    }

    method Secret(ghost j: Job, ds: Key) returns (ok: bool)
      requires InPass() && On(j)
      modifies c
      ensures InPass() && On(j) && Same() && Grew(old(c.databases), c.databases)
      ensures old(c.Quiet()) ==> c.server == old(c.server) && ok == (ds in c.secrets)
    {
      hide Booked, Silent, Drifted, Noted, Onward, c.Smooth;
      ghost var was := Here();
      ok := c.Secret(ds);
      OthersAct(was, Here(), begin, c.others, checksum, floor, cut);
    }

    method Ping(ghost j: Job, ds: Key, engine: Engine) returns (ok: bool)
      requires InPass() && On(j)
      modifies c
      ensures InPass() && On(j) && Same() && Grew(old(c.databases), c.databases)
      ensures ok ==> engine != Unsupported
      ensures old(c.Quiet()) ==> c.server == old(c.server) && ok == (engine != Unsupported && ds in c.reachable)
    {
      hide Booked, Silent, Drifted, Noted, Onward, c.Smooth;
      ghost var was := Here();
      ok := c.Ping(ds, engine);
      OthersAct(was, Here(), begin, c.others, checksum, floor, cut);
    }

    method Ask(ghost j: Job, question: Servers -> Option<bool>) returns (answer: Option<bool>)
      requires InPass() && On(j)
      modifies c
      ensures InPass() && On(j) && Same() && Grew(old(c.databases), c.databases)
      ensures Drifted(old(c.server), c.server, c.others)
      ensures answer.Some? ==> answer == question(c.server)
      ensures old(c.Quiet()) ==> c.server == old(c.server) && answer == question(c.server)
    {
      hide Booked, Silent, Drifted, Noted, Onward, c.Smooth;
      ghost var was := Here();
      answer := c.Ask(question);
      OthersAct(was, Here(), begin, c.others, checksum, floor, cut);
    }

    /** The log of this run has come to something, and not to a rollback. */
    ghost predicate Fresh(p: Place)
      reads this, c
    {
      var log := c.server.Log(p);
      |begin.Log(p)| < |log| && !log[|log| - 1].RolledBack?
    }

    /** Is the version on record? Refused if there is no table to look in. */
    method IsApplied(ghost j: Job, p: Place, version: string) returns (answer: Option<bool>)
      requires InPass() && On(j)
      modifies c
      ensures InPass() && On(j) && Same() && Grew(old(c.databases), c.databases)
      ensures old(Fresh(p)) ==> Fresh(p)
      ensures answer.Some? ==> Rows(c.server.Log(p)).Some? && answer.value == HasRow(c.server.Log(p), version)
      ensures old(c.Quiet()) ==> c.server == old(c.server)
      ensures old(c.Quiet()) && Rows(c.server.Log(p)).Some? ==> answer == Some(HasRow(c.server.Log(p), version))
    {
      hide Booked, Silent, On, Noted, Onward, c.Smooth;
      answer := Ask(j, (s: Servers) => if Rows(s.Log(p)).None? then None else Some(HasRow(s.Log(p), version)));
      assert LogDrifted(old(c.server).Log(p), c.server.Log(p));
    }

    // -------------------------------------------------------------- statements

    method CreateTable(ghost j: Job, p: Place) returns (ok: bool)
      requires InPass() && On(j)
      modifies c
      ensures InPass() && On(j) && Same() && Grew(old(c.databases), c.databases)
      ensures ok ==> Fresh(p)
      ensures old(c.Quiet()) && p in old(c.server.databases) ==> ok && c.server == old(c.server).Note(p, TableCreated)
    {
      hide Booked, Silent, Drifted, Noted, Onward, c.Smooth, Rows;
      ghost var was, mid, took := Here(), c.server, false;
      var refused;
      ok, refused, mid, took := c.Exec(Statement.CreateTable(p));
      OthersAct(was, Here().(server := mid), begin, c.others, checksum, floor, cut);
      if took {
        BeginsBefore(Here().(server := mid), begin, checksum, floor, cut, p);
        NotingKeeps(Here().(server := mid), begin, checksum, floor, cut, p, TableCreated);
      }
    }

    /** The log ends with an execution of the version for `k`, before which it was not on record. */
    ghost predicate Ran(p: Place, k: Key, spec: MigrationSpec)
      reads c
    {
      var log := c.server.Log(p);
      var n := |log| - 1;
      && n >= |begin.Log(p)|
      && log[n].Executed? && log[n].version == spec.version && log[n].sql == spec.sql && log[n].owner == k
      && !HasRow(log[..n], spec.version)
    }

    /** Run the SQL of a version that is not on record. If it took effect, there is still a table to
        record it in, unless the database was dropped meanwhile. */
    method Execute(ghost j: Job, k: Key, spec: MigrationSpec, p: Place, ghost q: nat, ghost db: Key)
      returns (ok: bool, ghost took: bool, ghost at: Moment)
      requires InPass() && On(j) && j.k == k && j.o.body.spec == spec && !j.o.body.deleting
      requires !j.o.body.status.applied
      requires ReadyDatabase(c.databases, q, db, spec.databaseRef, p)
      requires Rows(c.server.Log(p)).Some? && !HasRow(c.server.Log(p), spec.version)
      modifies c
      ensures Books(if took then cut + multiset{(p, spec.version)} else cut)
      ensures On(j) && Same() && Grew(old(c.databases), c.databases)
      ensures took ==> Ran(p, k, spec) && p in c.server.databases
      ensures took ==> Rows(c.server.Log(p)).Some? || Mishap(old(c.mishaps), c.mishaps, p)
      ensures ok ==> took
      ensures took && !ok ==> Mishap(old(c.mishaps), c.mishaps, p)
      ensures old(c.Quiet()) && p in old(c.server.databases) ==>
                ok && c.server == old(c.server).Note(p, Executed(spec.version, spec.sql, k, at))
    {
      hide Booked, Silent, Onward, Ordered, c.Smooth, RolesDrifted, Worse, Rows, Holds;
      ghost var was, mid := Here(), c.server;
      var refused;
      ok, refused, mid, took := c.Exec(RunMigration(p, spec.version, spec.sql, k));
      at := Moment(|c.objs.hist| - 1, |c.databases.hist|);
      ghost var amid := Here().(server := mid);
      OthersAct(was, amid, begin, c.others, checksum, floor, cut);
      if took {
        ghost var e := Executed(spec.version, spec.sql, k, at);
        ghost var log := mid.Log(p);
        assert LogDrifted(old(c.server).Log(p), log);
        DropsLeaveNoRecord(old(c.server).Log(p), log, spec.version);
        LastRow(log, e);
        Orders(amid, p, spec, k, at, j.at, q, db);
        BeginsBefore(amid, begin, checksum, floor, cut, p);
        NotingKeeps(amid, begin, checksum, floor, cut, p, e);
      }
    }

    /** Record a version that has just run. That fails only if something went wrong meanwhile. */
    method Record(ghost j: Job, k: Key, spec: MigrationSpec, p: Place) returns (ok: bool, ghost took: bool)
      requires Books(cut + multiset{(p, spec.version)}) && On(j) && Ran(p, k, spec)
      modifies c
      ensures Books(if took then cut else cut + multiset{(p, spec.version)})
      ensures On(j) && Same() && Grew(old(c.databases), c.databases)
      ensures took ==> HasRow(c.server.Log(p), spec.version) && Fresh(p)
      ensures ok ==> took
      ensures !took && Rows(old(c.server).Log(p)).Some? && p in old(c.server.databases) ==>
                Mishap(old(c.mishaps), c.mishaps, p)
      ensures old(c.Quiet()) && p in old(c.server.databases) && Rows(old(c.server).Log(p)).Some? ==>
                ok && c.server == old(c.server).Note(p, Recorded(spec.version, checksum(spec.sql)))
    {
      hide Booked, Silent, Onward, c.Smooth, Rows, HasRow, Fits;
      ghost var was, mid := Here(), c.server;
      ghost var owed := cut + multiset{(p, spec.version)};
      ghost var log := c.server.Log(p);
      RecordingFits(log, spec.version, spec.sql, checksum);
      var refused;
      ok, refused, mid, took := c.Exec(InsertRecord(p, spec.version, checksum(spec.sql)));
      ghost var amid := Here().(server := mid);
      OthersAct(was, amid, begin, c.others, checksum, floor, owed);
      assert LogDrifted(log, mid.Log(p));
      if took {
        TableWitnessesNoDrop(log, mid.Log(p));
        ghost var e := Recorded(spec.version, checksum(spec.sql));
        NotingKeeps(amid, begin, checksum, floor, owed, p, e);
        assert Tallied(owed, p, e) == cut;
      }
    }

    /** Run the SQL and record that it ran; `cut` counts the passes that only got half way. */
    method ExecuteAndRecord(ghost j: Job, k: Key, spec: MigrationSpec, p: Place, ghost q: nat, ghost db: Key)
      returns (ok: bool, ghost at: Moment)
      requires InPass() && On(j) && j.k == k && j.o.body.spec == spec && !j.o.body.deleting
      requires !j.o.body.status.applied
      requires ReadyDatabase(c.databases, q, db, spec.databaseRef, p)
      requires Rows(c.server.Log(p)).Some? && !HasRow(c.server.Log(p), spec.version)
      modifies this`cut, c
      ensures InPass() && On(j) && Same() && Grew(old(c.databases), c.databases)
      ensures cut == old(cut) || (cut == old(cut) + multiset{(p, spec.version)} && !ok
                                  && Mishap(old(c.mishaps), c.mishaps, p))
      ensures ok ==> HasRow(c.server.Log(p), spec.version) && Fresh(p)
      ensures old(c.Quiet()) && p in old(c.server.databases) ==>
                ok && c.server == old(c.server).Note(p, Executed(spec.version, spec.sql, k, at))
                                               .Note(p, Recorded(spec.version, checksum(spec.sql)))
    {
      hide Booked, Silent, Drifted, Noted, Onward, c.Smooth, HasRow, Ran, Follows, c.Valid, Rows, Holds,
        ReadyDatabase;
      ghost var ran, recorded;
      ok, ran, at := Execute(j, k, spec, p, q, db);
      recorded := false;
      if ok {
        if old(c.Quiet()) && p in old(c.server.databases) {
          LastRow(old(c.server).Log(p), Executed(spec.version, spec.sql, k, at));
        }
        ok, recorded := Record(j, k, spec, p);
      }
      if ran && !recorded {
        cut := cut + multiset{(p, spec.version)};
      }
    }

    /** Connect to the logical database itself. */
    method Open(ghost j: Job, ds: Key, engine: Engine, p: Place) returns (ok: bool)
      requires InPass() && On(j)
      modifies c
      ensures InPass() && On(j) && Same() && Grew(old(c.databases), c.databases)
      ensures old(c.Quiet()) ==> c.server == old(c.server)
      ensures old(c.Quiet()) ==> ok == (engine != Unsupported && ds in c.reachable && p in c.server.databases)
    {
      hide Booked, Silent, Drifted, Noted, Onward, c.Smooth, On;
      ok := Secret(j, ds);
      if ok {
        ok := Ping(j, ds, engine);
      }
      if ok {
        var answer := Ask(j, (s: Servers) => Some(p in s.databases));
        ok := answer == Some(true);
      }
    }

    /** Get to the logical database `p`, through its Datastore. */
    method Reach(ghost j: Job, p: Place) returns (ok: bool)
      requires InPass() && On(j)
      modifies c
      ensures InPass() && On(j) && Same() && Grew(old(c.databases), c.databases)
      ensures old(c.Quiet()) ==>
                c.server == old(c.server)
                && ok == Applicable(old(View(c.datastores.Now())), old(c.server), c.reachable, p)
                && (ok ==> p in c.server.databases)
    {
      hide Booked, Silent, Drifted, Noted, Onward, c.Smooth, On, View;
      Stored(c.datastores.Now(), p.ds);
      var store := ReadDatastore(j, p.ds);
      if !store.Found? {
        return false;
      }
      ok := Open(j, p.ds, EngineOf(store.value.body.spec.datastoreType), p);
    }

    /** Run the version unless it is on record. */
    method RunOnce(ghost j: Job, k: Key, spec: MigrationSpec, p: Place, ghost q: nat, ghost db: Key)
      returns (ok: bool, ghost at: Moment)
      requires InPass() && On(j) && j.k == k && j.o.body.spec == spec && !j.o.body.deleting
      requires !j.o.body.status.applied
      requires ReadyDatabase(c.databases, q, db, spec.databaseRef, p)
      modifies this`cut, c
      ensures InPass() && On(j) && Same() && Grew(old(c.databases), c.databases)
      ensures cut == old(cut) || (cut == old(cut) + multiset{(p, spec.version)} && !ok
                                  && Mishap(old(c.mishaps), c.mishaps, p))
      ensures ok ==> HasRow(c.server.Log(p), spec.version) && Fresh(p)
      ensures old(c.Quiet()) && p in old(c.server.databases) ==>
                ok && c.server == Migrated(old(c.server), p, k, spec, at, checksum(spec.sql))
    {
      hide Booked, Silent, Drifted, Noted, Onward, c.Smooth, On, Follows, c.Valid;
      at := NOTHING.ran;
      ok := CreateTable(j, p);
      if !ok {
        return;
      }
      var applied := IsApplied(j, p, spec.version);
      if applied.None? {
        return false, at;
      }
      if !applied.value {
        StillReady(old(c.databases), c.databases, q, db, spec.databaseRef, p);
        ok, at := ExecuteAndRecord(j, k, spec, p, q, db);
      }
    }

    /** Apply a migration to the Database `db`, which was found ready at `q`. */
    method Apply(ghost j: Job, k: Key, spec: MigrationSpec, db: Key, dbSpec: DatabaseSpec, ghost q: nat)
      returns (ok: bool, ghost at: Moment)
      requires InPass() && On(j) && j.k == k && j.o.body.spec == spec && !j.o.body.deleting
      requires !j.o.body.status.applied
      requires ReadyDatabase(c.databases, q, db, spec.databaseRef, PlaceOf(db, dbSpec))
      modifies this`cut, c
      ensures InPass() && On(j) && Same()
      ensures cut == old(cut) || (cut == old(cut) + multiset{(PlaceOf(db, dbSpec), spec.version)} && !ok
                                  && Mishap(old(c.mishaps), c.mishaps, PlaceOf(db, dbSpec)))
      ensures ok ==> Backed(k, j.o.uid, Some(checksum(spec.sql)))
      ensures old(c.Quiet()) ==>
                var p := PlaceOf(db, dbSpec);
                && ok == Applicable(old(View(c.datastores.Now())), old(c.server), c.reachable, p)
                && c.server == if ok then Migrated(old(c.server), p, k, spec, at, checksum(spec.sql)) else old(c.server)
    {
      hide History, Booked, Drifted, Noted, Onward, c.Smooth, Migrated, Follows, Rests, Rows, ReadyDatabase, HasRow,
        View, Applicable, Backed;
      at := NOTHING.ran;
      var p := PlaceOf(db, dbSpec);
      ok := Reach(j, p);
      if !ok {
        return;
      }
      StillReady(old(c.databases), c.databases, q, db, spec.databaseRef, p);
      ok, at := RunOnce(j, k, spec, p, q, db);
      if ok {
        StillReady(old(c.databases), c.databases, q, db, spec.databaseRef, p);
        IsBacked(j, k, spec, p, q, db);
      }
    }

    lemma IsBacked(j: Job, k: Key, spec: MigrationSpec, p: Place, q: nat, db: Key)
      requires InPass() && On(j) && j.k == k && j.o.body.spec == spec
      requires ReadyDatabase(c.databases, q, db, spec.databaseRef, p)
      requires HasRow(c.server.Log(p), spec.version) && Fresh(p)
      ensures Backed(k, j.o.uid, Some(checksum(spec.sql)))
    {
      hide Booked, Rests, Rows, ReadyDatabase, HasRow;
      Certify(Here(), begin, checksum, k, p, j.at, q, db, c.Present());
    }

    /** Run the rollback SQL of a deleting object, whose Database stood for `p` at `q`. */
    method ExecuteRollback(ghost j: Job, k: Key, o: Own, p: Place, ghost q: nat) returns (ok: bool)
      requires InPass() && On(j) && j.k == k && j.o == o && o.body.deleting
      requires HomeIs(c.databases, q, k, o.body.spec.databaseRef, p)
      modifies c
      ensures InPass() && On(j) && Same() && Grew(old(c.databases), c.databases)
      ensures ok ==> LastRolledBack(p, k, o)
      ensures old(c.Quiet()) && p in old(c.server.databases) ==>
                ok && c.server == old(c.server).Note(p,
                    RolledBack(o.body.spec.version, o.body.spec.rollbackSql, k, o.uid))
    {
      hide Booked, Silent, Drifted, Noted, Onward, c.Smooth, Rows;
      ghost var was, mid, took := Here(), c.server, false;
      var refused;
      ok, refused, mid, took := c.Exec(RunRollback(p, o.body.spec.version, o.body.spec.rollbackSql, k, o.uid));
      ghost var amid := Here().(server := mid);
      OthersAct(was, amid, begin, c.others, checksum, floor, cut);
      if took {
        ghost var e := RolledBack(o.body.spec.version, o.body.spec.rollbackSql, k, o.uid);
        assert c.databases.hist[q] == old(c.databases).hist[q];
        assert Condemned(c.objs, c.databases, p, o.body.spec.version, o.body.spec.rollbackSql, k, o.uid, j.at, q);
        assert CondemnedSince(c.objs, c.databases, p, e, floor);
        NotingKeeps(amid, begin, checksum, floor, cut, p, e);
      }
    }

    ghost predicate LastRolledBack(p: Place, k: Key, o: Own)
      reads c
    {
      var log := c.server.Log(p);
      log != [] && log[|log| - 1] == RolledBack(o.body.spec.version, o.body.spec.rollbackSql, k, o.uid)
    }

    /** Remove the record directly after the rollback. */
    method RemoveRecord(ghost j: Job, k: Key, o: Own, p: Place) returns (ok: bool)
      requires InPass() && On(j) && j.k == k && j.o == o
      requires LastRolledBack(p, k, o) && o.body.spec.rollbackSql != ""
      modifies c
      ensures InPass() && On(j) && Same() && Grew(old(c.databases), c.databases)
      ensures ok ==> c.server.Log(p) == old(c.server.Log(p)) + [Removed(o.body.spec.version)]
                     && !HasRow(c.server.Log(p), o.body.spec.version)
      ensures old(c.Quiet()) && p in old(c.server.databases) ==>
                && ok == Rows(old(c.server).Log(p)).Some?
                && c.server == if ok then old(c.server).Note(p, Removed(o.body.spec.version)) else old(c.server)
    {
      hide Booked, Silent, Noted, Onward, c.Smooth;
      ghost var was, mid, took := Here(), c.server, false;
      ghost var log := c.server.Log(p);
      var refused;
      ok, refused, mid, took := c.Exec(DeleteRecord(p, o.body.spec.version));
      ghost var amid := Here().(server := mid);
      OthersAct(was, amid, begin, c.others, checksum, floor, cut);
      assert LogDrifted(log, mid.Log(p));
      if took {
        ghost var e := Removed(o.body.spec.version);
        TableWitnessesNoDrop(log, mid.Log(p));
        LastRow(log, e);
        NotingKeeps(amid, begin, checksum, floor, cut, p, e);
      }
    }

    /** Undo the migration of a deleting object; nothing to do if its Database cannot be found. */
    method Rollback(ghost j: Job, k: Key, o: Own) returns (ok: bool)
      requires InPass() && On(j) && j.k == k && j.o == o && o.body.deleting && o.body.spec.rollbackSql != ""
      modifies c
      ensures InPass() && On(j) && Same()
      ensures ok ==> MayGo(k, o)
      ensures old(c.Quiet()) ==>
                (ok, c.server) == Undoing(old(View(c.databases.Now())), old(View(c.datastores.Now())), old(c.server),
                                          c.reachable, k, o.uid, o.body.spec)
    {
      hide Booked, Silent, Drifted, Noted, Onward, c.Smooth, On, Rows, c.Valid;
      var db := Key(k.ns, o.body.spec.databaseRef);
      var base, q := ReadDatabase(j, db);
      if !base.Found? {
        if base.NotFound? {
          assert Settled(Here(), k, o.uid, o.body.spec, c.Present(), NoDatabase(q));
        }
        return base.NotFound?;
      }
      var p := PlaceOf(db, base.value.body.spec);
      ok := Undo(j, k, o, p, q);
    }

    /** Roll back at `p`, and remove the record. */
    method Undo(ghost j: Job, k: Key, o: Own, p: Place, ghost q: nat) returns (ok: bool)
      requires InPass() && On(j) && j.k == k && j.o == o && o.body.deleting && o.body.spec.rollbackSql != ""
      requires HomeIs(c.databases, q, k, o.body.spec.databaseRef, p)
      modifies c
      ensures InPass() && On(j) && Same()
      ensures ok ==> MayGo(k, o)
      ensures old(c.Quiet()) ==>
                if !Applicable(old(View(c.datastores.Now())), old(c.server), c.reachable, p)
                then !ok && c.server == old(c.server)
                else
                  var rolled := old(c.server).Note(p,
                      RolledBack(o.body.spec.version, o.body.spec.rollbackSql, k, o.uid));
                  && ok == Rows(rolled.Log(p)).Some?
                  && c.server == if ok then rolled.Note(p, Removed(o.body.spec.version)) else rolled
    {
      hide History, Booked, Silent, Drifted, Noted, Onward, c.Smooth, On, Rows, Follows, MayGo, View, Applicable;
      ok := Reach(j, p);
      if ok {
        ok := ExecuteRollback(j, k, o, p, q);
      }
      if ok {
        ok := RemoveRecord(j, k, o, p);
      }
      if ok {
        IsUndone(k, o, p, q);
      }
    }

    lemma IsUndone(k: Key, o: Own, p: Place, q: nat)
      requires c.Valid() && HomeIs(c.databases, q, k, o.body.spec.databaseRef, p)
      requires var log, spec := c.server.Log(p), o.body.spec;
               |log| >= 2 && log[|log| - 1] == Removed(spec.version)
               && log[|log| - 2] == RolledBack(spec.version, spec.rollbackSql, k, o.uid)
      ensures MayGo(k, o)
    {
      assert c.times.past[|c.times.past| - 1] == c.server;
      assert Settled(Here(), k, o.uid, o.body.spec, c.Present(), Undone(p, q, |c.times.past| - 1));
    }

    // -------------------------------------------------------------- a pass

    /** Store the finalizer, and a first status. */
    method Prepare(k: Key, fetched: Own, ghost at: nat) returns (held: Reply<Own>, ghost j: Job)
      requires InPass() && at == floor == c.objs.seen && k in c.objs.Cached() && c.objs.Cached()[k] == fetched
      requires !fetched.body.deleting && fetched.uid <= floor
      modifies c
      ensures InPass() && c.Elapsed()
      ensures held.Found? ==> j.k == k && j.o == held.value && On(j) && held.value.body == Prepared(fetched.body)
      ensures old(c.Quiet()) && k in old(c.objs.Now()) && old(c.objs.Now())[k] == fetched ==>
                && held.Found? && c.server == old(c.server)
                && c.datastores.hist == old(c.datastores.hist) && c.databases.hist == old(c.databases.hist)
                && k in c.objs.Now() && c.objs.Now()[k] == held.value
                && View(c.objs.Now()) == old(View(c.objs.Now()))[k := held.value.body]
    {
      hide History, Booked, Grew, View, Rests, c.Smooth, On;
      held, j := Hold(k, fetched, at);
      if held.Found? && !held.value.body.status.applied && held.value.body.status.phase == "" {
        held, j := SetStatus(j, k, held.value, Failing(held.value.body.status, "Pending"));
      }
    }

    /** Resolve the Database, wait for it, and apply the migration: `status` says how it went. */
    method Serve(ghost j: Job, k: Key, o: Own) returns (status: MigrationStatus, r: Result, ghost t: Trace)
      requires InPass() && On(j) && j.k == k && j.o == o && !o.body.deleting && !o.body.status.applied
      modifies this`cut, c
      ensures InPass() && On(j) && CutBy(t.lapse)
      ensures Follows(o.body.status, status)
      ensures r == Done <==> status.applied
      ensures t.lapse.Some? ==> r != Done
      ensures status.applied ==> Backed(k, o.uid, status.checksum)
      ensures Same()
      ensures old(c.Quiet()) ==>
                var dbs := old(View(c.databases.Now()));
                && LeadsTo(dbs.Keys, k.ns, o.body.spec.databaseRef, t.found)
                && (status, c.server) ==
                   Serving(o.body, dbs, old(View(c.datastores.Now())), old(c.server), c.reachable, k, t.found, t.ran,
                           c.clock, checksum)
                && r != Error
    {
      hide History, Booked, Grew, On, Rests, Migrated, Applicable, View, LeadsTo, Resolves, c.Smooth;
      t := NOTHING;
      var resolved;
      ghost var q;
      resolved, q := Resolve(j, k.ns, o.body.spec.databaseRef);
      t := t.(found := FoundKey(resolved));
      if old(c.Quiet()) {
        ResolvedLeads(c.databases.Now(), k.ns, o.body.spec.databaseRef, resolved);
      }
      if !resolved.Resolved? {
        return Failing(o.body.status, "Failed"), if resolved.ListFailed? then Error else Requeue, t;
      }
      if !resolved.value.body.status.ready {
        return Failing(o.body.status, "Waiting"), Requeue, t;
      }
      var ok;
      ghost var at;
      ok, at := Apply(j, k, o.body.spec, resolved.k, resolved.value.body.spec, q);
      t := t.(ran := at, lapse := if cut == old(cut) then None
                                  else Some((PlaceOf(resolved.k, resolved.value.body.spec), o.body.spec.version)));
      if !ok {
        return Failing(o.body.status, "Failed"), Requeue, t;
      }
      var now := c.Clock();
      return MigrationStatus("Applied", true, Some(now), Some(checksum(o.body.spec.sql))), Done, t;
    }

    /** Serve the object and write down how it went. */
    method Finish(ghost j: Job, k: Key, o: Own) returns (r: Result, ghost t: Trace)
      requires InPass() && On(j) && j.k == k && j.o == o && !o.body.deleting && !o.body.status.applied
      modifies this`cut, c
      ensures InPass() && c.Elapsed() && CutBy(t.lapse)
      ensures t.lapse.Some? ==> r != Done
      ensures old(c.Quiet()) && k in old(c.objs.Now()) && old(c.objs.Now())[k] == o ==>
                var dbs := old(View(c.databases.Now()));
                var (status, server) :=
                  Serving(o.body, dbs, old(View(c.datastores.Now())), old(c.server), c.reachable, k, t.found, t.ran,
                          c.clock, checksum);
                && c.datastores.hist == old(c.datastores.hist) && c.databases.hist == old(c.databases.hist)
                && LeadsTo(dbs.Keys, k.ns, o.body.spec.databaseRef, t.found)
                && c.server == server && r == (if status.applied then Done else Requeue)
                && View(c.objs.Now()) == old(View(c.objs.Now()))[k := o.body.(status := status)]
    {
      hide History, Booked, Grew, Rests, Serving, Follows, LeadsTo, View, On, c.Smooth;
      var status, held;
      status, r, t := Serve(j, k, o);
      ghost var j';
      held, j' := SetStatus(j, k, o, status);
      if !held.Found? {
        r := Error;
      }
    }

    /** The part of a pass that works towards an applied migration. */
    method ReconcileLive(k: Key, fetched: Own, ghost at: nat) returns (r: Result, ghost t: Trace)
      requires InPass() && at == floor == c.objs.seen && k in c.objs.Cached() && c.objs.Cached()[k] == fetched
      requires !fetched.body.deleting && fetched.uid <= floor
      modifies this`cut, c
      ensures InPass() && c.Elapsed() && CutBy(t.lapse)
      ensures t.lapse.Some? ==> r != Done
      ensures old(c.Quiet()) && k in old(c.objs.Now()) && old(c.objs.Now())[k] == fetched ==>
                && c.datastores.hist == old(c.datastores.hist) && c.databases.hist == old(c.databases.hist)
                && Finds(old(View(c.objs.Now())), old(View(c.databases.Now())), k, t.found)
                && (View(c.objs.Now()), c.server) ==
                   Pass(old(View(c.objs.Now())), old(View(c.databases.Now())), old(View(c.datastores.Now())),
                        old(c.server), c.reachable, k, fetched.uid, t.found, t.ran, c.clock, checksum)
                && r == Outcome(old(View(c.objs.Now())), View(c.objs.Now()), k)
    {
      hide History, Booked, Grew, Rests, Serving, Follows, LeadsTo, LivePass, On, c.Smooth, Pass, View, Outcome,
        Finds, Prepared;
      t := NOTHING;
      ghost var m, dbs, stores, server := c.objs.Now(), View(c.databases.Now()), View(c.datastores.Now()), c.server;
      var held, j := Prepare(k, fetched, at);
      if !held.Found? {
        return Error, t;
      }
      PreparedIsTheSame(fetched.body);
      LiveCases(m, dbs, stores, server, c.reachable, k, fetched, t.found, t.ran, c.clock, checksum);
      if held.value.body.status.applied {
        return Done, t;
      }
      r, t := Finish(j, k, held.value);
      LiveCases(m, dbs, stores, server, c.reachable, k, fetched, t.found, t.ran, c.clock, checksum);
    }

    /** The part of a pass that lets a deleting migration go, once it is undone. */
    method ReconcileDeleting(k: Key, o: Own, ghost at: nat) returns (r: Result)
      requires InPass() && at == floor == c.objs.seen && k in c.objs.Cached() && c.objs.Cached()[k] == o
      requires o.body.deleting && o.uid <= floor
      modifies c
      ensures InPass() && c.Elapsed()
      ensures old(c.Quiet()) && k in old(c.objs.Now()) && old(c.objs.Now())[k] == o ==>
                && c.datastores.hist == old(c.datastores.hist) && c.databases.hist == old(c.databases.hist)
                && Finds(old(View(c.objs.Now())), old(View(c.databases.Now())), k, None)
                && (View(c.objs.Now()), c.server) ==
                   Pass(old(View(c.objs.Now())), old(View(c.databases.Now())), old(View(c.datastores.Now())),
                        old(c.server), c.reachable, k, o.uid, None, NOTHING.ran, c.clock, checksum)
                && r == Outcome(old(View(c.objs.Now())), View(c.objs.Now()), k)
    {
      hide History, Booked, Grew, Undoing, Settled, Drifted, Noted, Onward, c.Smooth;
      if FINALIZER !in o.body.finalizers {
        return Done;
      }
      ghost var j := Job(k, o, at);
      if o.body.spec.rollbackSql != "" {
        var undone := Rollback(j, k, o);
        if !undone {
          return Error;
        }
      }
      var released := Release(j, k, o);
      return if released then Done else Error;
    }

    /** One pass over `k`, but for the counting of passes. */
    method OnePass(k: Key) returns (r: Result, ghost t: Trace)
      requires InPass()
      modifies this`floor, this`cut, c
      ensures InPass() && c.Elapsed()
      ensures old(c.schedule) != [] ==> |c.schedule| < |old(c.schedule)|
      ensures CutBy(t.lapse) && (t.lapse.Some? ==> r != Done)
      ensures old(c.Quiet()) ==>
                && c.datastores.hist == old(c.datastores.hist) && c.databases.hist == old(c.databases.hist)
                && Finds(old(View(c.objs.Now())), old(View(c.databases.Now())), k, t.found)
                && (View(c.objs.Now()), c.server) ==
                   Pass(old(View(c.objs.Now())), old(View(c.databases.Now())), old(View(c.datastores.Now())),
                        old(c.server), c.reachable, k, if k in old(c.objs.Now()) then old(c.objs.Now())[k].uid else 0,
                        t.found, t.ran, c.clock, checksum)
                && r == Outcome(old(View(c.objs.Now())), View(c.objs.Now()), k)
    {
      hide History, Booked, Grew, Pass, Finds, Outcome, View, Rests, c.Smooth, Follows;
      t := NOTHING;
      var got, at := Fetch(k);
      if !got.Found? {
        NothingThere(c.objs.Now(), View(c.databases.Now()), View(c.datastores.Now()), c.server, c.reachable, k, c.clock,
                     checksum);
        return if got.NotFound? then Done else Error, t;
      }
      if got.value.body.deleting {
        r := ReconcileDeleting(k, got.value, at);
      } else {
        r, t := ReconcileLive(k, got.value, at);
      }
    }

    /** One pass over `k`. If a version ran and was not recorded, the pass is not done, and something went
        wrong in it. */
    method Reconcile(k: Key) returns (r: Result, ghost t: Trace)
      requires Valid()
      modifies this`floor, this`cut, this`faulted, c
      ensures Valid() && c.Elapsed()
      ensures old(c.schedule) != [] ==> |c.schedule| < |old(c.schedule)|
      ensures CutBy(t.lapse) && (t.lapse.Some? ==> r != Done)
      ensures faulted == old(faulted) + if c.mishaps == old(c.mishaps) then 0 else 1
      ensures old(c.Quiet()) ==>
                && c.datastores.hist == old(c.datastores.hist) && c.databases.hist == old(c.databases.hist)
                && Finds(old(View(c.objs.Now())), old(View(c.databases.Now())), k, t.found)
                && (View(c.objs.Now()), c.server) ==
                   Pass(old(View(c.objs.Now())), old(View(c.databases.Now())), old(View(c.datastores.Now())),
                        old(c.server), c.reachable, k, if k in old(c.objs.Now()) then old(c.objs.Now())[k].uid else 0,
                        t.found, t.ran, c.clock, checksum)
                && r == Outcome(old(View(c.objs.Now())), View(c.objs.Now()), k)
    {
      hide History, Booked, Grew, Pass, Finds, Outcome, View, c.Smooth;
      r, t := OnePass(k);
      faulted := faulted + if c.mishaps == old(c.mishaps) then 0 else 1;
    }

    /** Deletion is retried. Whatever cuts the passes before the world has become quiet, at `b` and `sv`,
        the one after that lets a deleting migration go exactly if nothing keeps it. */
    method RetryDeletion(k: Key)
      returns (r: Result, ghost b: Option<Body<MigrationSpec, MigrationStatus>>, ghost uid: nat, ghost sv: Servers)
      requires Valid() && c.recovers
      modifies this`floor, this`cut, this`faulted, c
      ensures Valid() && c.Quiet()
      ensures b.Some? && b.value.deleting && FINALIZER in b.value.finalizers ==>
                var dbs, stores := View(c.databases.Now()), View(c.datastores.Now());
                && (Released(View(c.objs.Now()), k) <==> Clearable(b.value, dbs, stores, sv, c.reachable, k))
                && r == (if Released(View(c.objs.Now()), k) then Done else Error)
                && c.server == sv.(logs := c.server.logs)
                && forall p :: c.server.Log(p) == sv.Log(p) + Rewound(b.value, dbs, stores, sv, c.reachable, k, uid, p)
    {
      hide History, Booked, Pass, Clearable, Rewound, c.Smooth, Finds, Outcome;
      while c.schedule != []
        invariant Valid()
        decreases |c.schedule|
      {
        var _, _ := Reconcile(k);
      }
      ghost var ms, dbs, stores := View(c.objs.Now()), View(c.databases.Now()), View(c.datastores.Now());
      b, sv := if k in ms then Some(ms[k]) else None, c.server;
      uid := if k in c.objs.Now() then c.objs.Now()[k].uid else 0;
      ghost var t;
      r, t := Reconcile(k);
      if k in ms && ms[k].deleting && FINALIZER in ms[k].finalizers {
        DeletingEnds(ms, dbs, stores, sv, c.reachable, k, uid, t.found, t.ran, c.clock, checksum);
      }
    }

    /** A worker: pass after pass, whatever each of them runs into. Where nothing goes wrong, nothing runs
        without being recorded. */
    method RunWorker(requests: seq<Key>)
      requires Valid()
      modifies this`floor, this`cut, this`faulted, c
      ensures Valid() && c.Elapsed()
      ensures old(c.Smooth()) ==> cut == old(cut) && faulted == old(faulted)
    {
      hide Books, c.Smooth;
      for i := 0 to |requests|
        invariant Valid() && c.Elapsed()
        invariant old(c.Smooth()) ==> cut == old(cut) && faulted == old(faulted)
      {
        var _, _ := Reconcile(requests[i]);
      }
    }
  }

  lemma Stored(stores: Datastores, ds: Key)
    ensures ds in View(stores) <==> ds in stores
    ensures ds in stores ==> View(stores)[ds] == stores[ds].body
  {
  }

  /** The rows are as before, but for what the last event does. */
  lemma LastRow(log: seq<Event>, e: Event)
    ensures (log + [e])[..|log|] == log
    ensures e.Executed? ==> Rows(log + [e]) == Rows(log)
    ensures e.Recorded? && Rows(log).Some? ==> HasRow(log + [e], e.version)
    ensures e.Removed? ==> !HasRow(log + [e], e.version)
  {
  }

  /** A version that has just run, and was not on record, can be recorded. */
  lemma RecordingFits(log: seq<Event>, v: string, sql: string, checksum: string -> string)
    requires log != [] && Runs(log[|log| - 1], v) && log[|log| - 1].sql == sql && !HasRow(log[..|log| - 1], v)
    ensures !HasRow(log, v)
    ensures var e := Recorded(v, checksum(sql));
            Rows(log).Some? ==> Fits(log + [e], |log|, checksum) && HasRow(log + [e], v)
  {
    var e := Recorded(v, checksum(sql));
    LastRow(log, e);
    LastRow(log[..|log| - 1], log[|log| - 1]);
    assert log[..|log| - 1] + [log[|log| - 1]] == log;
    assert (log + [e])[..|log| - 1] == log[..|log| - 1];
  }

  lemma FloorRises(w: World, begin: Servers, checksum: string -> string, floor: nat, floor': nat, owed: Tally)
    requires Booked(w, begin, checksum, floor, owed) && floor <= floor'
    ensures Booked(w, begin, checksum, floor', owed)
  {
    hide Rests;
  }

  lemma BeginsBefore(w: World, begin: Servers, checksum: string -> string, floor: nat, owed: Tally, p: Place)
    requires Booked(w, begin, checksum, floor, owed)
    ensures |begin.Log(p)| <= |w.server.Log(p)|
  {
    assert begin.Log(p) <= w.server.Log(p);
  }

  /** The execution was asked for by the object at hand. */
  lemma Orders(w: World, p: Place, spec: MigrationSpec, k: Key, at: Moment, j: nat, q: nat, db: Key)
    requires w.objs.Ok() && at == Moment(|w.objs.hist| - 1, |w.bases.hist|)
    requires Holds(w.objs.Now(), k, FINALIZER)
    requires j < |w.objs.hist| && k in w.objs.hist[j] && w.objs.hist[j][k].uid == w.objs.Now()[k].uid
    requires w.objs.hist[j][k].body.spec == spec && !w.objs.hist[j][k].body.status.applied
    requires ReadyDatabase(w.bases, q, db, spec.databaseRef, p)
    ensures Warranted(w.objs, w.bases, p, Executed(spec.version, spec.sql, k, at))
  {
    assert Ordered(w.objs, w.bases, p, spec.version, spec.sql, k, at, j, q, db);
  }

  /** A status write, with whatever happened around it: at `mid` the write arrived. */
  lemma AroundStatus(a: World, mid: World, b: World, begin: Servers, others: Others, checksum: string -> string,
                     floor: nat, owed: Tally, k: Key, status: MigrationStatus, taken: bool, stamp: Stamp, stamp': Stamp)
    requires Later(a, mid) && Later(mid, b) && mid.server == b.server
    requires Passed(a.objs, mid.objs, RULES) && NoneLost(mid.objs, b.objs, FINALIZER)
    requires Drifted(a.server, mid.server, others) && Booked(a, begin, checksum, floor, owed)
    requires taken ==> k in mid.objs.Now()
    requires b.objs == if taken then Put(mid.objs, k, mid.objs.Now()[k].body.(status := status)) else mid.objs
    requires taken && status.applied ==>
               mid.objs.Now()[k].uid <= floor
               && Rests(a, begin, checksum, k, mid.objs.Now()[k].uid, |a.objs.hist| - 1, stamp, status.checksum)
    requires NotAfter(stamp, stamp')
    requires |b.objs.hist| > |mid.objs.hist| ==> b.times.stamps[|b.objs.hist| - 1] == stamp'
    ensures Booked(b, begin, checksum, floor, owed)
  {
    hide Booked, Silent, NoneLost, Drifted, Rests;
    OthersAct(a, mid, begin, others, checksum, floor, owed);
    if taken {
      if status.applied && |b.objs.hist| > |mid.objs.hist| {
        var uid := mid.objs.Now()[k].uid;
        forall p ensures Further(a, b, p, uid) {
          DriftGoesFurther(a, b, others, p, uid);
        }
        OnwardTransitively(a.times, mid.times, b.times);
        StillRests(a, b, begin, checksum, k, uid, |a.objs.hist| - 1, |b.objs.hist| - 1, stamp, stamp', status.checksum);
      }
      StatusKeeps(mid, b, begin, checksum, floor, owed, k, status);
    } else {
      NothingHappens(mid, b, begin, checksum, floor, owed);
    }
  }

  lemma NothingHappens(a: World, b: World, begin: Servers, checksum: string -> string, floor: nat, owed: Tally)
    requires Later(a, b) && b.server == a.server && b.objs == a.objs && Booked(a, begin, checksum, floor, owed)
    ensures Booked(b, begin, checksum, floor, owed)
  {
    hide Booked;
    LogDriftedToItself(a.server);
    OthersAct(a, b, begin, Others(true, Nobody), checksum, floor, owed);
  }

  lemma LogDriftedToItself(s: Servers)
    ensures Drifted(s, s, Others(true, Nobody))
  {
  }

  /** The finalizer is taken off, with whatever happened around it. */
  lemma AroundRelease(a: World, mid: World, b: World, begin: Servers, others: Others, checksum: string -> string,
                      floor: nat, owed: Tally, k: Key, uid: nat, spec: MigrationSpec, stamp: Stamp, stamp': Stamp)
    requires Later(a, mid) && Later(mid, b) && mid.server == b.server
    requires Passed(a.objs, mid.objs, RULES) && Silent(mid.objs, b.objs, BLANK)
    requires Drifted(a.server, mid.server, others) && Booked(a, begin, checksum, floor, owed)
    requires |b.objs.hist| <= |mid.objs.hist| + 1
    requires forall g :: g != k && g in mid.objs.Now() ==> g in b.objs.Now() && b.objs.Now()[g] == mid.objs.Now()[g]
    requires |b.objs.hist| > |mid.objs.hist| ==>
               && k in mid.objs.Now() && mid.objs.Now()[k].uid == uid && mid.objs.Now()[k].body.spec == spec
               && b.times.stamps[|b.objs.hist| - 1] == stamp'
    requires NotAfter(stamp, stamp') && Cleared(a, k, uid, spec, stamp)
    ensures Booked(b, begin, checksum, floor, owed)
  {
    hide Booked, Silent, Drifted, Cleared;
    OthersAct(a, mid, begin, others, checksum, floor, owed);
    OnwardTransitively(a.times, mid.times, b.times);
    if |b.objs.hist| > |mid.objs.hist| {
      StillCleared(a, b, k, uid, spec, stamp, stamp');
    }
    ReleaseKeeps(mid, b, begin, checksum, floor, owed, k);
  }

  /** A record found in the log is evidence for the object at hand. */
  lemma Certify(w: World, begin: Servers, checksum: string -> string, k: Key, p: Place, j: nat, q: nat, db: Key,
                stamp: Stamp)
    requires Sane(w) && j < |w.objs.hist| && k in w.objs.hist[j]
    requires ReadyDatabase(w.bases, q, db, w.objs.hist[j][k].body.spec.databaseRef, p)
    requires stamp.bases == |w.bases.hist| && stamp.servers == |w.times.past| > 0
    requires w.times.past[|w.times.past| - 1] == w.server
    requires |begin.Log(p)| < |w.server.Log(p)| && !w.server.Log(p)[|w.server.Log(p)| - 1].RolledBack?
    requires HasRow(w.server.Log(p), w.objs.hist[j][k].body.spec.version)
    ensures Rests(w, begin, checksum, k, w.objs.hist[j][k].uid, |w.objs.hist| - 1, stamp,
                  Some(checksum(w.objs.hist[j][k].body.spec.sql)))
  {
    hide Rows;
    var log := w.server.Log(p);
    assert log[..|log|] == log;
    assert Shown(w, begin, k, w.objs.hist[j][k].uid, |w.objs.hist| - 1, stamp,
                 Proof(p, |log|, |w.times.past| - 1, j, q, db));
  }
}
