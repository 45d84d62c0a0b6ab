/** What the stored statuses of databases, users and roles are worth in every run. */
module StatusSafety {
  import opened Api
  import opened Cluster
  import opened Ownership
  import opened Server
  import opened Keeper
  import DatabaseController
  import RoleController
  import UserController

  /** A Database is "Ready" exactly when it is ready, which it is only once it was created; and the
      creation time is written once. */
  lemma DatabaseStatuses(r: DatabaseController.DatabaseReconciler, i: nat, j: nat, k: Key)
    requires r.Valid() && i <= j < |r.c.objs.hist| && k in r.c.objs.hist[i] && k in r.c.objs.hist[j]
    requires r.c.objs.hist[i][k].uid == r.c.objs.hist[j][k].uid
    ensures var s, t := r.c.objs.hist[i][k].body.status, r.c.objs.hist[j][k].body.status;
            && (s.phase == "Ready" <==> s.ready) && (s.ready ==> s.createdAt.Some?)
            && (s.createdAt.Some? ==> t.createdAt == s.createdAt)
  {
    RvBound(r.c.objs, DatabaseController.RULES, i, k);
    FromBlank(r.c.objs, DatabaseController.RULES, i, k);
    Incarnation(r.c.objs, DatabaseController.RULES, i, j, k);
  }

  /** A User is "Ready" exactly when it is ready, ready only if created, created only with a time; it
      never becomes uncreated, and the time is written once. */
  lemma UserStatuses(r: UserController.UserReconciler, i: nat, j: nat, k: Key)
    requires r.Valid() && i <= j < |r.c.objs.hist| && k in r.c.objs.hist[i] && k in r.c.objs.hist[j]
    requires r.c.objs.hist[i][k].uid == r.c.objs.hist[j][k].uid
    ensures var s, t := r.c.objs.hist[i][k].body.status, r.c.objs.hist[j][k].body.status;
            && (s.phase == "Ready" <==> s.ready) && (s.ready ==> s.created) && (s.created ==> s.createdAt.Some?)
            && (s.created ==> t.created) && (s.createdAt.Some? ==> t.createdAt == s.createdAt)
  {
    RvBound(r.c.objs, UserController.RULES, i, k);
    FromBlank(r.c.objs, UserController.RULES, i, k);
    Incarnation(r.c.objs, UserController.RULES, i, j, k);
  }

  /** A role is "Ready" exactly when it is ready, and exactly when it is created. */
  lemma RoleStatuses(r: RoleController.RoleReconciler, i: nat, k: Key)
    requires r.Valid() && i < |r.c.objs.hist| && k in r.c.objs.hist[i]
    ensures var s := r.c.objs.hist[i][k].body.status;
            (s.phase == "Ready" <==> s.ready) && (s.ready <==> s.created)
  {
    FromBlank(r.c.objs, RoleController.RULES, i, k);
  }

  /** Whatever is ready at version `i` of a run had named a Datastore by then, at version `j` of the same
      incarnation, that had been ready by then, at version `q` of its store; and what it asked for there
      had stood on the server by then, in the `n`-th state the servers were in. */
  lemma ReadyFollowsDatastore<S(!new), T(!new), A(!new)>(kp: Keeper<S, T, A>, i: nat, k: Key)
    returns (j: nat, q: nat, ds: Key, n: nat)
    requires kp.Valid() && i < |kp.c.objs.hist| && k in kp.c.objs.hist[i] && kp.claims(kp.c.objs.hist[i][k].body.status)
    ensures j <= i && k in kp.c.objs.hist[j] && kp.c.objs.hist[j][k].uid == kp.c.objs.hist[i][k].uid
    ensures q < kp.c.times.stamps[i].stores && q < |kp.c.datastores.hist|
    ensures ds in kp.c.datastores.hist[q] && kp.c.datastores.hist[q][ds].body.status.ready
    ensures ds.name == kp.plan.ref(kp.c.objs.hist[j][k].body.spec)
    ensures n < kp.c.times.stamps[i].servers && n < |kp.c.times.past|
    ensures var engine := EngineAt(kp.c.datastores, q, ds);
            Ext(ds, kp.plan.what(k, kp.c.objs.hist[j][k].body.spec, engine)) in kp.plan.things(kp.c.times.past[n])
  {
    hide Accounted, Reasoned, AllVouched, History;
    var objs, times, stores := kp.c.objs, kp.c.times, kp.c.datastores;
    assert Grounded(objs, times, stores, kp.plan, i, k);
    j, q, ds, n :| ReadyThrough(objs, times, stores, kp.plan, i, k, j, q, ds, n);
  }
}
