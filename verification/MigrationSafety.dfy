/** What the books of the Migration controller say about whole runs: how often SQL takes effect, what
    an applied status is worth, and what can take its record away. */
module MigrationSafety {
  import opened Api
  import opened Server
  import opened Cluster
  import opened MigrationLog
  import opened MigrationBooks
  import opened MigrationController

  // ---------------------------------------------------------------- at most once, but for faults

  lemma {:induction false} FewerLapses(log: seq<Event>, lo: nat, lo': nat, hi: nat, hi': nat, v: string)
    requires lo <= lo' && hi' <= hi <= |log|
    ensures Lapses(log, lo', hi', v) <= Lapses(log, lo, hi, v)
    decreases hi
  {
    if lo' < hi' {
      if hi' < hi {
        FewerLapses(log, lo, lo', hi - 1, hi', v);
      } else {
        FewerLapses(log, lo, lo', hi - 1, hi' - 1, v);
      }
    }
  }

  /** In every run, between two removals of its record, the SQL of a version takes effect at most once
      more than there are passes that were cut between running and recording it, and so at most once
      more than there are passes in which something went wrong; and if the version was on record at the
      start, not at all. */
  lemma AtMostOncePerFault(r: MigrationReconciler, p: Place, v: string, lo: nat, hi: nat)
    requires r.Valid()
    requires |r.begin.Log(p)| <= lo <= hi <= |r.c.server.Log(p)|
    requires forall i :: lo <= i < hi ==> !Wipes(r.c.server.Log(p)[i], v)
    ensures Executions(r.c.server.Log(p), lo, hi, v) <= 1 + r.cut[(p, v)] <= 1 + r.faulted
    ensures HasRow(r.c.server.Log(p)[..lo], v) ==> Executions(r.c.server.Log(p), lo, hi, v) == 0
  {
    hide Attributed, Evident, AllCleared, History;
    var log := r.c.server.Log(p);
    AtMostOncePerLapse(log, r.checksum, v, lo, hi);
    FewerLapses(log, |r.begin.Log(p)|, lo, |log|, hi, v);
    assert Lapses(log, |r.begin.Log(p)|, |log|, v) == r.cut[(p, v)];
  }

  ghost predicate AtMostOnce(r: MigrationReconciler, p: Place, v: string, lo: nat, hi: nat)
    reads r, r.c
  {
    |r.begin.Log(p)| <= lo <= hi <= |r.c.server.Log(p)|
    && (forall i :: lo <= i < hi ==> !Wipes(r.c.server.Log(p)[i], v)) ==>
      Executions(r.c.server.Log(p), lo, hi, v) <= 1
  }

  /** Where no call is lost and no logical database is dropped, whatever else happens, the SQL of a
      version takes effect at most once between two removals of its record. */
  method RunSmoothly(c: Cluster<MigrationSpec, MigrationStatus>, checksum: string -> string, requests: seq<Key>)
    returns (r: MigrationReconciler)
    requires c.Valid() && c.rules == RULES && c.objs == Kind([map[]], 0) && c.Smooth()
    requires forall p :: Shape(c.server.Log(p), checksum)
    modifies c
    ensures r.Valid() && r.c == c && r.begin == old(c.server) && r.cut == multiset{}
    ensures forall p, v, lo, hi :: AtMostOnce(r, p, v, lo, hi)
  {
    hide MigrationReconciler.Books, c.Smooth;
    r := new MigrationReconciler(c, checksum);
    r.RunWorker(requests);
    forall p, v, lo: nat, hi: nat ensures AtMostOnce(r, p, v, lo, hi) {
      if |r.begin.Log(p)| <= lo <= hi <= |c.server.Log(p)|
         && forall i :: lo <= i < hi ==> !Wipes(c.server.Log(p)[i], v) {
        AtMostOncePerFault(r, p, v, lo, hi);
      }
    }
  }

  /** In every run a record comes directly after an execution of its version that found no record, for
      an object that held its finalizer and had asked for it by then, before it was applied, on a database
      that had been ready by then; and a record is removed directly after a rollback of its version, with
      something to roll back, for a deleting object whose Database stood for that place. */
  lemma RecordsAndRemovals(r: MigrationReconciler, p: Place, i: nat)
    requires r.Logged() && |r.begin.Log(p)| < i < |r.c.server.Log(p)|
    ensures var log := r.c.server.Log(p);
            && (log[i].Recorded? ==>
                  && Runs(log[i - 1], log[i].version) && log[i].checksum == r.checksum(log[i - 1].sql)
                  && !HasRow(log[..i - 1], log[i].version))
            && (log[i].Removed? ==>
                  log[i - 1].RolledBack? && log[i - 1].version == log[i].version && log[i - 1].sql != "")
            && Warranted(r.c.objs, r.c.databases, p, log[i - 1])
  {
    hide Evident, AllCleared, History, Rows;
    var log := r.c.server.Log(p);
    assert Fits(log, i, r.checksum);
    assert Warranted(r.c.objs, r.c.databases, p, log[i - 1]);
  }

  /** In every run, an object with something to roll back loses the finalizer only after its own rollback
      and the removal of its record, the one directly after the other, at the place its Database stood
      for; or if there was no such Database in its namespace. */
  lemma LetGoIsUndone(r: MigrationReconciler, i: nat, k: Key) returns (g: Farewell)
    requires r.Valid() && Api.Lost(r.c.objs.hist, i, k, FINALIZER)
    requires r.c.objs.hist[i - 1][k].body.spec.rollbackSql != ""
    ensures var o, at := r.c.objs.hist[i - 1][k], r.c.times.stamps[i];
            var v, db := o.body.spec.version, Key(k.ns, o.body.spec.databaseRef);
            match g
            case Undone(p, q, n) =>
              && q < at.bases && HomeIs(r.c.databases, q, k, o.body.spec.databaseRef, p)
              && n < at.servers && n < |r.c.times.past|
              && var log := r.c.times.past[n].Log(p);
                 && |log| >= 2 && log[|log| - 1] == Removed(v)
                 && log[|log| - 2] == RolledBack(v, o.body.spec.rollbackSql, k, o.uid)
            case NoDatabase(q) => q < at.bases && q < |r.c.databases.hist| && db !in r.c.databases.hist[q]
  {
    hide Evident, Attributed, Kept, History, Settled;
    var w := r.Here();
    assert LetGo(w, i, k);
    var o := w.objs.hist[i - 1][k];
    g :| Settled(w, k, o.uid, o.body.spec, w.times.stamps[i], g);
    SettledMeans(w, k, o.uid, o.body.spec, w.times.stamps[i], g);
  }

  lemma SettledMeans(w: World, k: Key, uid: nat, spec: MigrationSpec, at: Stamp, g: Farewell)
    requires Settled(w, k, uid, spec, at, g)
    ensures match g
            case Undone(p, q, n) =>
              && q < at.bases && HomeIs(w.bases, q, k, spec.databaseRef, p) && n < at.servers && n < |w.times.past|
              && var log := w.times.past[n].Log(p);
                 && |log| >= 2 && log[|log| - 1] == Removed(spec.version)
                 && log[|log| - 2] == RolledBack(spec.version, spec.rollbackSql, k, uid)
            case NoDatabase(q) => q < at.bases && q < |w.bases.hist| && Key(k.ns, spec.databaseRef) !in w.bases.hist[q]
  {
  }

  // ---------------------------------------------------------------- applied is for good

  /** Whatever is stored is coherent, and an applied status is never touched again while its object
      exists: not its phase, not the time, not the checksum. */
  lemma AppliedIsForGood(r: MigrationReconciler, i: nat, j: nat, k: Key)
    requires r.Valid() && i <= j < |r.c.objs.hist|
    requires k in r.c.objs.hist[i] && k in r.c.objs.hist[j] && r.c.objs.hist[i][k].uid == r.c.objs.hist[j][k].uid
    ensures Coherent(r.c.objs.hist[i][k].body.status)
    ensures r.c.objs.hist[i][k].body.status.applied ==>
              r.c.objs.hist[j][k].body.status == r.c.objs.hist[i][k].body.status
  {
    RvBound(r.c.objs, RULES, i, k);
    FromBlank(r.c.objs, RULES, i, k);
    Incarnation(r.c.objs, RULES, i, j, k);
  }

  // ---------------------------------------------------------------- status and server

  /** A version of `g` names `v` on a Database that, ready as of `q`, stands for the place `p`. */
  predicate Names(objs: Migrations, bases: Bases, p: Place, v: string, i: nat, g: Key, q: nat, db: Key) {
    && i < |objs.hist| && g in objs.hist[i] && objs.hist[i][g].body.spec.version == v
    && ReadyDatabase(bases, q, db, objs.hist[i][g].body.spec.databaseRef, p)
  }

  /** Whoever names the version at this place means this text. */
  ghost predicate TextAt(r: MigrationReconciler, p: Place, v: string, text: string)
    reads r, r.c
  {
    && (forall i: nat, g, q: nat, db :: Names(r.c.objs, r.c.databases, p, v, i, g, q, db) ==>
          r.c.objs.hist[i][g].body.spec.sql == text)
    && LogTells(r.begin.Log(p), v, text)
  }

  ghost predicate LogTells(log: seq<Event>, v: string, text: string) {
    forall i :: 0 <= i < |log| && Runs(log[i], v) ==> log[i].sql == text
  }

  lemma ExecutionsHaveText(r: MigrationReconciler, p: Place, v: string, text: string, i: nat)
    requires r.Logged() && TextAt(r, p, v, text) && i < |r.c.server.Log(p)| && Runs(r.c.server.Log(p)[i], v)
    ensures r.c.server.Log(p)[i].sql == text
  {
    hide Evident, AllCleared, History, Balanced, Shape;
    var e := r.c.server.Log(p)[i];
    if i < |r.begin.Log(p)| {
      assert r.begin.Log(p) <= r.c.server.Log(p) && LogTells(r.begin.Log(p), v, text);
      assert r.begin.Log(p)[i] == e;
    } else {
      assert Warranted(r.c.objs, r.c.databases, p, e);
      var j: nat, q: nat, db :| Ordered(r.c.objs, r.c.databases, p, e.version, e.sql, e.owner, e.at, j, q, db);
      assert Names(r.c.objs, r.c.databases, p, v, j, e.owner, q, db);
    }
  }

  /** Somebody else's clean-up: the record of the version went with the rollback of another object that
      named it too, asked for no earlier than `k` came to be. */
  ghost predicate RemovedByAnother(r: MigrationReconciler, p: Place, v: string, i: nat, k: Key, uid: nat)
    requires i < |r.c.server.Log(p)|
    reads r, r.c
  {
    var log := r.c.server.Log(p);
    && log[i] == Removed(v)
    && i > 0 && log[i - 1].RolledBack? && log[i - 1].version == v && log[i - 1].sql != "" && log[i - 1].owner != k
    && CondemnedSince(r.c.objs, r.c.databases, p, log[i - 1], uid)
  }

  ghost predicate Gone(r: MigrationReconciler, p: Place, v: string, i: nat, k: Key, uid: nat)
    requires i < |r.c.server.Log(p)|
    reads r, r.c
  {
    r.c.server.Log(p)[i] == Dropped || RemovedByAnother(r, p, v, i, k, uid)
  }

  /** The live object `k` was applied by version `i` of its store. */
  ghost predicate AppliedBy(r: MigrationReconciler, k: Key, i: nat)
    requires r.c.objs.Ok()
    reads r.c
  {
    && i < |r.c.objs.hist| && k in r.c.objs.hist[i] && r.c.objs.hist[i][k].body.status.applied
    && k in r.c.objs.Now() && !r.c.objs.Now()[k].body.deleting && r.c.objs.Now()[k].uid == r.c.objs.hist[i][k].uid
  }

  /** What `e` says about the object `k`, which was applied by version `i`: by the time that was stored, a
      record had been made for the version it named, once its Database had been ready; and from there on only
      two things can have taken it away. */
  ghost predicate RecordedFor(r: MigrationReconciler, k: Key, i: nat, e: Proof)
    requires r.c.objs.Ok() && |r.c.times.stamps| == |r.c.objs.hist| && AppliedBy(r, k, i)
    reads r, r.c
  {
    var uid := r.c.objs.hist[i][k].uid;
    Shown(r.Here(), r.begin, k, uid, i, r.c.times.stamps[i], e) &&
    var spec, log := r.c.objs.hist[e.j][k].body.spec, r.c.server.Log(e.p);
    && r.c.objs.Now()[k].body.status.checksum == Some(r.checksum(spec.sql))
    && (forall x :: e.m <= x < |log| ==> Gone(r, e.p, spec.version, x, k, uid) || !Wipes(log[x], spec.version))
    && ((forall x :: e.m <= x < |log| ==> !Wipes(log[x], spec.version)) ==> HasRow(log, spec.version))
  }

  /** The applied status of a live object rests on a record that was there before it, for the version it
      named, once its Database had been ready. From there on, only two things can have taken that record
      away: dropping the logical database, or the rollback of another object with the same version. */
  lemma AppliedIsOnRecord(r: MigrationReconciler, k: Key, i: nat)
    requires r.Valid() && AppliedBy(r, k, i)
    ensures exists e :: RecordedFor(r, k, i, e)
  {
    hide Attributed, Balanced, AllCleared, History, Rows, HasRow, Shape, ReadyDatabase;
    var w, uid := r.Here(), r.c.objs.hist[i][k].uid;
    var sum := r.c.objs.hist[i][k].body.status.checksum;
    assert Rests(w, r.begin, r.checksum, k, uid, i, w.times.stamps[i], sum);
    var e :| Shown(w, r.begin, k, uid, i, w.times.stamps[i], e)
             && sum == Some(r.checksum(w.objs.hist[e.j][k].body.spec.sql));
    RecordHolds(r, k, i, e);
  }

  lemma RecordHolds(r: MigrationReconciler, k: Key, i: nat, e: Proof)
    requires r.Valid() && AppliedBy(r, k, i)
    requires Shown(r.Here(), r.begin, k, r.c.objs.hist[i][k].uid, i, r.c.times.stamps[i], e)
    requires r.c.objs.hist[i][k].body.status.checksum == Some(r.checksum(r.c.objs.hist[e.j][k].body.spec.sql))
    ensures RecordedFor(r, k, i, e)
  {
    hide Attributed, Balanced, AllCleared, Evident, Rows, HasRow, Shape, ReadyDatabase, CondemnedSince, StepAt;
    var v, log := r.c.objs.hist[e.j][k].body.spec.version, r.c.server.Log(e.p);
    AppliedIsForGood(r, i, |r.c.objs.hist| - 1, k);
    assert log[..|log|] == log;
    if forall x :: e.m <= x < |log| ==> !Wipes(log[x], v) {
      RecordStays(log, r.checksum, v, e.m, |log|);
    }
    forall x | e.m <= x < |log| && log[x] == Removed(v)
      ensures RemovedByAnother(r, e.p, v, x, k, r.c.objs.hist[i][k].uid)
    {
      RemovalHasAnotherOwner(r, k, i, e, v, x);
    }
  }

  lemma RemovalHasAnotherOwner(r: MigrationReconciler, k: Key, i: nat, e: Proof, v: string, x: nat)
    requires r.Valid() && AppliedBy(r, k, i)
    requires Shown(r.Here(), r.begin, k, r.c.objs.hist[i][k].uid, i, r.c.times.stamps[i], e)
    requires e.m <= x < |r.c.server.Log(e.p)| && r.c.server.Log(e.p)[x] == Removed(v)
    ensures RemovedByAnother(r, e.p, v, x, k, r.c.objs.hist[i][k].uid)
  {
    hide Attributed, Balanced, AllCleared, Evident, Rows, HasRow, ReadyDatabase, StepAt;
    var objs, uid := r.c.objs, r.c.objs.hist[i][k].uid;
    var log := r.c.server.Log(e.p);
    assert Fits(log, x, r.checksum);
    var back := log[x - 1];
    assert CondemnedSince(objs, r.c.databases, e.p, back, uid);
    var j: nat, q: nat :|
      uid <= j && Condemned(objs, r.c.databases, e.p, back.version, back.sql, back.owner, back.uid, j, q);
    if back.owner == k {
      Incarnation(objs, RULES, j, |objs.hist| - 1, k);
      assert false;
    }
  }

  /** A record holds the checksum of the one text of its version at that place, and the text ran just
      before it was made. */
  lemma RecordsTellTheText(r: MigrationReconciler, p: Place, v: string, text: string)
    requires r.Logged() && TextAt(r, p, v, text) && HasRow(r.c.server.Log(p), v)
    ensures Rows(r.c.server.Log(p)).value[v] == r.checksum(text)
    ensures exists i: nat :: RecordedAt(r.c.server.Log(p), v, i) && RanText(r.c.server.Log(p), i, v, text)
  {
    hide Evident, AllCleared, History, Balanced, Attributed, Rows;
    var log := r.c.server.Log(p);
    RecordMeans(log, r.checksum, v);
    var i: nat :| RecordedAt(log, v, i);
    ExecutionsHaveText(r, p, v, text, i - 1);
    assert RanText(log, i, v, text);
  }

  predicate RanText(log: seq<Event>, i: nat, v: string, text: string) {
    0 < i <= |log| && Runs(log[i - 1], v) && log[i - 1].sql == text
  }

  /** Version `j` of another object, no earlier than `k` came to be, is deleting with something to roll back
      for the version `v`, and its Database stands for the same place. */
  predicate Rival(objs: Migrations, bases: Bases, p: Place, v: string, k: Key, from: nat, g: Key, j: nat, q: nat) {
    && g != k && from <= j < |objs.hist| && Holds(objs.hist[j], g, FINALIZER) && objs.hist[j][g].body.deleting
    && var spec := objs.hist[j][g].body.spec;
       spec.version == v && spec.rollbackSql != "" && HomeIs(bases, q, g, spec.databaseRef, p)
  }

  ghost predicate NoRival(r: MigrationReconciler, p: Place, v: string, k: Key, from: nat)
    reads r.c
  {
    forall g, j: nat, q: nat :: !Rival(r.c.objs, r.c.databases, p, v, k, from, g, j, q)
  }

  predicate NoDrop(log: seq<Event>, lo: nat) {
    forall i :: lo <= i < |log| ==> log[i] != Dropped
  }

  /** The version is on record at `p`, with the checksum in the status, and its text ran just before. */
  ghost predicate AgreesAt(r: MigrationReconciler, text: string, k: Key, v: string, p: Place)
    requires r.c.objs.Ok() && k in r.c.objs.Now()
    reads r, r.c
  {
    && HasRow(r.c.server.Log(p), v)
    && r.c.objs.Now()[k].body.status.checksum == Some(Rows(r.c.server.Log(p)).value[v])
    && exists i: nat :: RecordedAt(r.c.server.Log(p), v, i) && RanText(r.c.server.Log(p), i, v, text)
  }

  lemma NobodyElse(r: MigrationReconciler, k: Key, v: string, p: Place, uid: nat, x: nat)
    requires NoRival(r, p, v, k, uid) && x < |r.c.server.Log(p)|
    ensures !RemovedByAnother(r, p, v, x, k, uid)
  {
    if RemovedByAnother(r, p, v, x, k, uid) {
      var back := r.c.server.Log(p)[x - 1];
      var j: nat, q: nat :|
        uid <= j && Condemned(r.c.objs, r.c.databases, p, back.version, back.sql, back.owner, back.uid, j, q);
      assert Rival(r.c.objs, r.c.databases, p, v, k, uid, back.owner, j, q);
    }
  }

  /** If, at the place where the evidence for `k` lies, the version means one text, the logical database
      has not been dropped since, and no other object has asked for a rollback of that version there since
      `k` came to be, then the applied status of a live `k` agrees with the server: the version it named when
      it was applied is on record with the very checksum in the status, and its text ran before it was
      recorded. As long as it names the same version and Database, that is the text it asks for to this day. */
  lemma StatusAndServerAgree(r: MigrationReconciler, k: Key, i: nat, e: Proof, text: string)
    requires r.Logged() && AppliedBy(r, k, i) && RecordedFor(r, k, i, e)
    requires var v := r.c.objs.hist[e.j][k].body.spec.version;
             && TextAt(r, e.p, v, text) && NoDrop(r.c.server.Log(e.p), e.m)
             && NoRival(r, e.p, v, k, r.c.objs.hist[i][k].uid)
    ensures AgreesAt(r, text, k, r.c.objs.hist[e.j][k].body.spec.version, e.p)
    ensures var asked, now := r.c.objs.hist[e.j][k].body.spec, r.c.objs.Now()[k].body.spec;
            now.version == asked.version && now.databaseRef == asked.databaseRef ==>
              now.sql == text && AgreesAt(r, now.sql, k, now.version, e.p)
  {
    hide Kept, Attributed, Evident, AllCleared, Balanced, History, Rows, HasRow, Shape, RolledBackSince, NoRival,
      RemovedByAnother;
    var v, uid := r.c.objs.hist[e.j][k].body.spec.version, r.c.objs.hist[i][k].uid;
    var log := r.c.server.Log(e.p);
    forall x | e.m <= x < |log| ensures !Wipes(log[x], v) {
      assert Gone(r, e.p, v, x, k, uid) || !Wipes(log[x], v);
      NobodyElse(r, k, v, e.p, uid, x);
    }
    RecordsTellTheText(r, e.p, v, text);
    assert Names(r.c.objs, r.c.databases, e.p, v, e.j, k, e.q, e.db);
    var asked, now := r.c.objs.hist[e.j][k].body.spec, r.c.objs.Now()[k].body.spec;
    if now.version == asked.version && now.databaseRef == asked.databaseRef {
      assert Names(r.c.objs, r.c.databases, e.p, v, |r.c.objs.hist| - 1, k, e.q, e.db);
    }
  }

  // ---------------------------------------------------------------- edited after it was applied

  /** Whatever ran on behalf of an applied object, it had asked for before it was applied: an edit after
      that never runs. */
  lemma EditsDoNotRun(r: MigrationReconciler, k: Key, i: nat, p: Place, x: nat) returns (j: nat)
    requires r.Valid() && AppliedBy(r, k, i)
    requires |r.begin.Log(p)| <= x < |r.c.server.Log(p)|
    requires var e := r.c.server.Log(p)[x];
             && e.Executed? && e.owner == k && e.at.version < |r.c.objs.hist| && k in r.c.objs.hist[e.at.version]
             && r.c.objs.hist[e.at.version][k].uid == r.c.objs.hist[i][k].uid
    ensures j < i && k in r.c.objs.hist[j] && r.c.objs.hist[j][k].uid == r.c.objs.hist[i][k].uid
    ensures var spec, e := r.c.objs.hist[j][k].body.spec, r.c.server.Log(p)[x];
            spec.version == e.version && spec.sql == e.sql
  {
    hide Kept, Evident, AllCleared, Balanced, History, ReadyDatabase;
    var e := r.c.server.Log(p)[x];
    assert Warranted(r.c.objs, r.c.databases, p, e);
    var q: nat, db;
    j, q, db :| Ordered(r.c.objs, r.c.databases, p, e.version, e.sql, k, e.at, j, q, db);
    if i <= j {
      AppliedIsForGood(r, i, j, k);
      assert false;
    }
  }

  /** An undisturbed pass over a live applied object leaves the servers alone, whatever the object names by
      now: a version is on record afterwards exactly if it was so before, with the same checksum. So after
      an edit the status agrees with the server exactly if another object has seen to it. */
  lemma AppliedIsLeftAlone(ms: Bodies, dbs: BaseBodies, stores: StoreBodies, server: Servers, reachable: set<Key>,
                           k: Key, uid: nat, found: Option<Key>, at: Moment, now: nat, checksum: string -> string,
                           p: Place)
    requires k in ms && ms[k].status.applied && !ms[k].deleting
    ensures var (ms', server') := Pass(ms, dbs, stores, server, reachable, k, uid, found, at, now, checksum);
            && server' == server
            && k in ms' && ms'[k].status == ms[k].status && ms'[k].spec == ms[k].spec
            && (OnRecordAs(server', p, ms'[k]) <==> OnRecordAs(server, p, ms[k]))
  {
  }

  /** The version that the object names is on record, with the checksum in its status. */
  predicate OnRecordAs(server: Servers, p: Place, b: Body<MigrationSpec, MigrationStatus>) {
    HasRow(server.Log(p), b.spec.version) && b.status.checksum == Some(Rows(server.Log(p)).value[b.spec.version])
  }

  // ---------------------------------------------------------------- whose text is on record

  /** After an undisturbed pass that applies `k`, its version is on record, and with the checksum of its own
      text, exactly if it was not on record before, or was so with that checksum. */
  lemma AppliedForItsText(ms: Bodies, dbs: BaseBodies, stores: StoreBodies, server: Servers, reachable: set<Key>,
                          k: Key, uid: nat, found: Option<Key>, at: Moment, now: nat, checksum: string -> string)
      returns (p: Place)
    requires k in ms && !ms[k].deleting && !ms[k].status.applied
    requires var (ms', _) := Pass(ms, dbs, stores, server, reachable, k, uid, found, at, now, checksum);
             k in ms' && ms'[k].status.applied
    ensures found.Some? && found.value in dbs && p == PlaceOf(found.value, dbs[found.value].spec)
    ensures var (ms', server') := Pass(ms, dbs, stores, server, reachable, k, uid, found, at, now, checksum);
            var v, sum := ms[k].spec.version, checksum(ms[k].spec.sql);
            && ms'[k].status.checksum == Some(sum) && HasRow(server'.Log(p), v)
            && (OnRecordAs(server', p, ms'[k]) <==>
                  (HasRow(server.Log(p), v) ==> Rows(server.Log(p)).value[v] == sum))
            && (HasRow(server.Log(p), v) ==> server'.Log(p) == server.Log(p) + [TableCreated])
  {
    hide Rows;
    p := PlaceOf(found.value, dbs[found.value].spec);
    MigratedIsOnRecord(server, p, k, ms[k].spec, at, checksum(ms[k].spec.sql));
  }

  lemma MigratedIsOnRecord(server: Servers, p: Place, k: Key, spec: MigrationSpec, at: Moment, sum: string)
    ensures var log, log' := server.Log(p), Migrated(server, p, k, spec, at, sum).Log(p);
            && HasRow(log', spec.version)
            && Rows(log').value[spec.version] ==
                 (if HasRow(log, spec.version) then Rows(log).value[spec.version] else sum)
            && (HasRow(log, spec.version) ==> log' == log + [TableCreated])
  {
    hide Rows;
    var log := server.Log(p);
    var table, ran := log + [TableCreated], Executed(spec.version, spec.sql, k, at);
    TableRows(log);
    RecordedRows(table, ran, spec.version, sum);
  }

  lemma TableRows(log: seq<Event>)
    ensures Rows(log + [TableCreated]) == if Rows(log).None? then Some(map[]) else Rows(log)
  {
    assert (log + [TableCreated])[..|log|] == log;
  }

  lemma RecordedRows(table: seq<Event>, ran: Event, v: string, sum: string)
    requires ran.Executed? && Rows(table).Some?
    ensures Rows(table + [ran] + [Recorded(v, sum)]) == Some(Rows(table).value[v := sum])
  {
    assert (table + [ran])[..|table|] == table;
    assert (table + [ran] + [Recorded(v, sum)])[..|table + [ran]|] == table + [ran];
  }

  // ---------------------------------------------------------------- what keeps a record

  /** An undisturbed pass over `b` that takes the record of `v` at `p` away. */
  predicate TakesAway(ms: Bodies, dbs: BaseBodies, stores: StoreBodies, server: Servers, reachable: set<Key>, b: Key,
                      p: Place, v: string)
  {
    && b in ms && ms[b].deleting && FINALIZER in ms[b].finalizers && ms[b].spec.rollbackSql != ""
    && var db := Key(b.ns, ms[b].spec.databaseRef);
       && db in dbs && PlaceOf(db, dbs[db].spec) == p && Applicable(stores, server, reachable, p)
       && ms[b].spec.version == v
  }

  /** A record survives an undisturbed pass over any object, exactly if that is not a deleting one with its
      finalizer and something to roll back, whose Database is found in its namespace, stands for that very
      place, can be reached, and which names that very version. */
  lemma RecordSurvives(ms: Bodies, dbs: BaseBodies, stores: StoreBodies, server: Servers, reachable: set<Key>, b: Key,
                       uid: nat, found: Option<Key>, at: Moment, now: nat, checksum: string -> string,
                       p: Place, v: string)
    requires HasRow(server.Log(p), v)
    ensures var (_, server') := Pass(ms, dbs, stores, server, reachable, b, uid, found, at, now, checksum);
            HasRow(server'.Log(p), v) <==> !TakesAway(ms, dbs, stores, server, reachable, b, p, v)
  {
    hide Rows;
    if b in ms {
      var spec := ms[b].spec;
      if ms[b].deleting {
        var db := Key(b.ns, spec.databaseRef);
        if db in dbs {
          UndoingRows(server, PlaceOf(db, dbs[db].spec), b, uid, spec, p, v);
        }
      } else if found.Some? && found.value in dbs {
        MigratedRows(server, PlaceOf(found.value, dbs[found.value].spec), b, spec, at, checksum(spec.sql), p, v);
      }
    }
  }

  lemma UndoingRows(server: Servers, q: Place, b: Key, uid: nat, spec: MigrationSpec, p: Place, v: string)
    requires HasRow(server.Log(p), v)
    ensures var rolled := server.Note(q, RolledBack(spec.version, spec.rollbackSql, b, uid));
            && HasRow(rolled.Log(p), v) && (q == p ==> Rows(rolled.Log(p)).Some?)
            && (HasRow(rolled.Note(q, Removed(spec.version)).Log(p), v) <==> !(q == p && spec.version == v))
  {
    var back := RolledBack(spec.version, spec.rollbackSql, b, uid);
    Appended(server.Log(p), back);
    Appended(server.Log(p) + [back], Removed(spec.version));
  }

  lemma MigratedRows(server: Servers, q: Place, k: Key, spec: MigrationSpec, at: Moment, sum: string, p: Place,
      v: string)
    requires HasRow(server.Log(p), v)
    ensures HasRow(Migrated(server, q, k, spec, at, sum).Log(p), v)
  {
    var ran := Executed(spec.version, spec.sql, k, at);
    Appended(server.Log(p), TableCreated);
    Appended(server.Log(p) + [TableCreated], ran);
    Appended(server.Log(p) + [TableCreated] + [ran], Recorded(spec.version, sum));
  }

  lemma Appended(log: seq<Event>, e: Event)
    ensures Rows(log).Some? && !e.Dropped? ==> Rows(log + [e]).Some?
    ensures forall v :: HasRow(log, v) && e != Removed(v) && !e.Dropped? ==> HasRow(log + [e], v)
    ensures e.Removed? ==> !HasRow(log + [e], e.version)
  {
    assert (log + [e])[..|log|] == log;
  }

  // ---------------------------------------------------------------- a shared version

  const A := Key("ns", "a")
  const B := Key("ns", "b")
  const STORES: StoreBodies :=
    map[Key("ns", "ds") := Body([], false, DatastoreSpec("mysql", "host", 3306, "user", "secret", "", "", ""),
                                ReadyStatus("Ready", true))]
  const DB := Key("ns", "db")
  const DBS: BaseBodies :=
    map[DB := Body([], false, DatabaseSpec("ds"), DatabaseStatus("Ready", true, Some(0)))]
  const P: Place := Ext(Key("ns", "ds"), "db")
  const ASKED := Body([], false, MigrationSpec("db", "do", "1", "undo"), BLANK)

  function Shows(log: seq<Event>): Servers {
    Servers({P}, map[], map[], map[P := log])
  }

  function Done(checksum: string -> string): Body<MigrationSpec, MigrationStatus> {
    Body([FINALIZER], false, ASKED.spec, MigrationStatus("Applied", true, Some(0), Some(checksum("do"))))
  }

  function OnceRun(checksum: string -> string): seq<Event> {
    [TableCreated, Executed("1", "do", A, Moment(1, 1)), Recorded("1", checksum("do"))]
  }

  function Undone(checksum: string -> string): seq<Event> {
    OnceRun(checksum) + [TableCreated, RolledBack("1", "undo", A, 1), Removed("1")]
  }

  lemma LogsOfTheScenario(checksum: string -> string)
    ensures HasRow(OnceRun(checksum) + [TableCreated], "1")
    ensures Rows(OnceRun(checksum) + [TableCreated]).value["1"] == checksum("do")
    ensures !HasRow(OnceRun(checksum), "2")
    ensures !HasRow(Undone(checksum), "1")
    ensures Rows(OnceRun(checksum) + [TableCreated, RolledBack("1", "undo", A, 1)]).Some?
  {
    var log := Undone(checksum);
    RowsOfPrefix(log, 0);
    RowsOfPrefix(log, 1);
    RowsOfPrefix(log, 2);
    RowsOfPrefix(log, 3);
    assert log[..3] == OnceRun(checksum);
    assert log[..4] == OnceRun(checksum) + [TableCreated];
    RowsOfPrefix(log, 4);
    assert log[..5] == OnceRun(checksum) + [TableCreated, RolledBack("1", "undo", A, 1)];
    RowsOfPrefix(log, 5);
    assert log[..6] == log;
  }

  lemma OneNote(log: seq<Event>, e: Event)
    ensures Shows(log).Note(P, e) == Shows(log + [e])
  {
    assert map[P := log][P := log + [e]] == map[P := log + [e]];
  }

  lemma FirstPass(checksum: string -> string)
    ensures Pass(map[A := ASKED, B := ASKED], DBS, STORES, Shows([]), {P.ds}, A, 1, Some(DB), Moment(1, 1), 0, checksum)
            == (map[A := Done(checksum), B := ASKED], Shows(OnceRun(checksum)))
  {
    var log := OnceRun(checksum);
    OneNote([], TableCreated);
    OneNote([TableCreated], log[1]);
    OneNote([TableCreated, log[1]], log[2]);
    assert [] + [TableCreated] == [TableCreated];
    assert [TableCreated] + [log[1]] == [TableCreated, log[1]] && [TableCreated, log[1]] + [log[2]] == log;
    RowsOfPrefix([TableCreated], 0);
    assert [TableCreated][..1] == [TableCreated];
    assert Migrated(Shows([]), P, A, ASKED.spec, Moment(1, 1), checksum("do")) == Shows(log);
    assert Applicable(STORES, Shows([]), {P.ds}, P);
    var b := ASKED.(finalizers := AddFinalizer([], FINALIZER));
    assert AddFinalizer([], FINALIZER) == [FINALIZER];
    assert Serving(b, DBS, STORES, Shows([]), {P.ds}, A, Some(DB), Moment(1, 1), 0, checksum)
        == (Done(checksum).status, Shows(log));
    assert b.(status := Done(checksum).status) == Done(checksum);
    assert map[A := ASKED, B := ASKED][A := Done(checksum)] == map[A := Done(checksum), B := ASKED];
  }

  lemma SecondPass(checksum: string -> string)
    ensures Pass(map[A := Done(checksum), B := ASKED], DBS, STORES, Shows(OnceRun(checksum)), {P.ds}, B, 2, Some(DB),
              Moment(2, 1), 0, checksum)
            == (map[A := Done(checksum), B := Done(checksum)], Shows(OnceRun(checksum) + [TableCreated]))
  {
    hide Rows;
    LogsOfTheScenario(checksum);
    OneNote(OnceRun(checksum), TableCreated);
    assert Migrated(Shows(OnceRun(checksum)), P, B, ASKED.spec, Moment(2, 1), checksum("do"))
        == Shows(OnceRun(checksum) + [TableCreated]);
    assert Applicable(STORES, Shows(OnceRun(checksum)), {P.ds}, P);
    var b := ASKED.(finalizers := AddFinalizer([], FINALIZER));
    assert AddFinalizer([], FINALIZER) == [FINALIZER];
    assert Serving(b, DBS, STORES, Shows(OnceRun(checksum)), {P.ds}, B, Some(DB), Moment(2, 1), 0, checksum)
           == (Done(checksum).status, Shows(OnceRun(checksum) + [TableCreated]));
    assert b.(status := Done(checksum).status) == Done(checksum);
    assert map[A := Done(checksum), B := ASKED][B := Done(checksum)] == map[A := Done(checksum), B := Done(checksum)];
  }

  lemma ThirdPass(checksum: string -> string)
    ensures Pass(map[A := Done(checksum).(deleting := true), B := Done(checksum)], DBS, STORES,
                 Shows(OnceRun(checksum) + [TableCreated]), {P.ds}, A, 1, None, Moment(3, 1), 0, checksum)
            == (map[B := Done(checksum)], Shows(Undone(checksum)))
  {
    hide Rows;
    LogsOfTheScenario(checksum);
    var log := OnceRun(checksum) + [TableCreated];
    var back := RolledBack("1", "undo", A, 1);
    OneNote(log, back);
    OneNote(log + [back], Removed("1"));
    assert log + [back] == OnceRun(checksum) + [TableCreated, back];
    assert log + [back] + [Removed("1")] == Undone(checksum);
    var going := Done(checksum).(deleting := true);
    assert Undoing(DBS, STORES, Shows(log), {P.ds}, A, 1, ASKED.spec) == (true, Shows(Undone(checksum)));
    assert RemoveFinalizer([FINALIZER], FINALIZER) == [];
    assert going.(finalizers := []) == Body([], true, going.spec, going.status);
    assert map[A := Done(checksum).(deleting := true), B := Done(checksum)] - {A} == map[B := Done(checksum)];
  }

  /** The second object of the scenario, asking for another text under the same version. */
  const OTHER := ASKED.(spec := ASKED.spec.(sql := "other"))

  function DoneToo(checksum: string -> string): Body<MigrationSpec, MigrationStatus> {
    Done(checksum).(spec := OTHER.spec, status := Done(checksum).status.(checksum := Some(checksum("other"))))
  }

  /** A record need not be for the text that an applied object asks for: two objects name one version for
      different texts. The second one becomes applied although its text never ran, and the record keeps the
      checksum of the first. */
  lemma RecordOfAnotherText(checksum: string -> string)
    requires checksum("do") != checksum("other")
    ensures var (ms, s) := Pass(map[A := Done(checksum), B := OTHER], DBS, STORES, Shows(OnceRun(checksum)), {P.ds}, B,
              2, Some(DB), Moment(2, 1), 0, checksum);
            && B in ms && ms[B].status.applied && ms[B].status.checksum == Some(checksum("other"))
            && HasRow(s.Log(P), "1") && Rows(s.Log(P)).value["1"] == checksum("do")
            && forall i :: 0 <= i < |s.Log(P)| && s.Log(P)[i].Executed? ==> s.Log(P)[i].sql != "other"
  {
    hide Rows;
    LogsOfTheScenario(checksum);
    OneNote(OnceRun(checksum), TableCreated);
    assert Migrated(Shows(OnceRun(checksum)), P, B, OTHER.spec, Moment(2, 1), checksum("other"))
        == Shows(OnceRun(checksum) + [TableCreated]);
    assert Applicable(STORES, Shows(OnceRun(checksum)), {P.ds}, P);
    var b := OTHER.(finalizers := AddFinalizer([], FINALIZER));
    assert AddFinalizer([], FINALIZER) == [FINALIZER];
    assert Serving(b, DBS, STORES, Shows(OnceRun(checksum)), {P.ds}, B, Some(DB), Moment(2, 1), 0, checksum)
           == (DoneToo(checksum).status, Shows(OnceRun(checksum) + [TableCreated]));
  }

  /** Nor need the version that an applied object names be on record at all: once it is edited to name
      another one, it stays applied, and nothing ever runs for it. */
  lemma EditedVersionIsNotOnRecord(checksum: string -> string)
    ensures var edited := Done(checksum).(spec := ASKED.spec.(version := "2"));
            var (ms, s) := Pass(map[A := edited], DBS, STORES, Shows(OnceRun(checksum)), {P.ds}, A, 1, None,
              Moment(2, 1), 0, checksum);
            A in ms && ms[A] == edited && ms[A].status.applied && s == Shows(OnceRun(checksum))
                && !HasRow(s.Log(P), "2")
  {
    LogsOfTheScenario(checksum);
    var edited := Done(checksum).(spec := ASKED.spec.(version := "2"));
    AppliedIsLeftAlone(map[A := edited], DBS, STORES, Shows(OnceRun(checksum)), {P.ds}, A, 1, None, Moment(2, 1), 0,
                       checksum, P);
  }

  /** Sharing a version is what breaks that agreement. Two objects name the same version on one
      database; both become applied, the SQL having run once; then one of them is deleted, and its
      rollback takes away the record that the other one, still applied, rests on. */
  lemma SharedVersionLosesRecord(checksum: string -> string)
    ensures var (ms1, s1) := Pass(map[A := ASKED, B := ASKED], DBS, STORES, Shows([]), {P.ds}, A, 1, Some(DB),
              Moment(1, 1), 0, checksum);
            var (ms2, s2) := Pass(ms1, DBS, STORES, s1, {P.ds}, B, 2, Some(DB), Moment(2, 1), 0, checksum);
            A in ms2 && ms2[A].status.applied && B in ms2 && ms2[B].status.applied && HasRow(s2.Log(P), "1") &&
            var (ms3, s3) := Pass(ms2[A := ms2[A].(deleting := true)], DBS, STORES, s2, {P.ds}, A, 1, None,
                Moment(3, 1), 0, checksum);
            A !in ms3 && B in ms3 && ms3[B] == ms2[B] && !HasRow(s3.Log(P), "1")
  {
    hide Pass, Rows;
    FirstPass(checksum);
    SecondPass(checksum);
    ThirdPass(checksum);
    LogsOfTheScenario(checksum);
    var done := Done(checksum);
    assert map[A := done, B := done][A := done.(deleting := true)] == map[A := done.(deleting := true), B := done];
  }
}
