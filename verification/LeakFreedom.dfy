/** Nothing is left behind. What the books of the controllers say once the things they cannot help are
    taken away: Datastores that vanish under their resources, references that lead abroad, and objects
    that are made to name something else after the fact. */
module LeakFreedom {
  import opened Api
  import opened Server
  import opened Cluster
  import opened Ownership
  import opened Keeper
  import DatabaseController
  import RoleController
  import UserController

  /** The Datastore, once there, stays, and keeps leading to the same kind of server. */
  ghost predicate Steady(stores: Stores, ds: Key) {
    forall q :: 0 < q < |stores.hist| ==> Lasts(stores.hist[q - 1], stores.hist[q], ds)
  }

  predicate Lasts(before: Datastores, after: Datastores, ds: Key) {
    ds in before ==>
      ds in after && EngineOf(after[ds].body.spec.datastoreType) == EngineOf(before[ds].body.spec.datastoreType)
  }

  lemma {:induction false} SteadyNeverDiffers(stores: Stores, q: nat, r: nat, ds: Key)
    requires Steady(stores, ds) && q <= r < |stores.hist| && ds in stores.hist[q]
    ensures !Differs(stores, ds, q, r)
  {
    if q < r {
      SteadyNeverDiffers(stores, q, r - 1, ds);
      assert Lasts(stores.hist[r - 1], stores.hist[r], ds);
    }
  }

  /** No object is edited into naming something else. */
  ghost predicate IdentityKept<S(!new), T(!new), A(!new)>(objs: Kind<S, T>, plan: Plan<S, A>) {
    forall i :: 0 < i < |objs.hist| ==> Unedited(objs, plan, i)
  }

  ghost predicate Unedited<S(!new), T(!new), A(!new)>(objs: Kind<S, T>, plan: Plan<S, A>, i: nat)
    requires 0 < i < |objs.hist|
  {
    forall k :: k in objs.hist[i - 1] && k in objs.hist[i] && objs.hist[i - 1][k].uid == objs.hist[i][k].uid ==>
      SameIdentity(plan, k, objs.hist[i - 1][k].body.spec, objs.hist[i][k].body.spec)
  }

  ghost predicate SameIdentity<S(!new), A(!new)>(plan: Plan<S, A>, k: Key, s: S, t: S) {
    plan.ref(s) == plan.ref(t) && forall e :: plan.what(k, s, e) == plan.what(k, t, e)
  }

  lemma {:induction false} StaysIdentical<S(!new), T(!new), A(!new)>(
    objs: Kind<S, T>, rules: Rules<S, T>, plan: Plan<S, A>, i: nat, j: nat, k: Key)
    requires History(objs, rules) && IdentityKept(objs, plan) && i <= j < |objs.hist|
    requires k in objs.hist[i] && k in objs.hist[j] && objs.hist[i][k].uid == objs.hist[j][k].uid
    ensures SameIdentity(plan, k, objs.hist[i][k].body.spec, objs.hist[j][k].body.spec)
  {
    if i < j {
      RvBound(objs, rules, i, k);
      Incarnation(objs, rules, j - 1, j, k);
      StaysIdentical(objs, rules, plan, i, j - 1, k);
      assert Unedited(objs, plan, j);
    }
  }

  /** Nobody in another namespace refers to a Datastore of that name. */
  ghost predicate OnlyHome<S(!new), T(!new), A(!new)>(objs: Kind<S, T>, plan: Plan<S, A>, ds: Key) {
    forall i :: 0 <= i < |objs.hist| ==> AtHome(objs.hist[i], plan, ds)
  }

  ghost predicate AtHome<S(!new), T(!new), A(!new)>(m: Objs<S, T>, plan: Plan<S, A>, ds: Key) {
    forall k :: k in m && plan.ref(m[k].body.spec) == ds.name ==> k.ns == ds.ns
  }

  /** `k` still holds its finalizer and names the thing `id`, through a Datastore that is still there. */
  ghost predicate AnswersFor<S(!new), T(!new), A(!new)>(
    objs: Kind<S, T>, stores: Stores, plan: Plan<S, A>, id: Ext<A>, k: Key)
    requires objs.Ok() && stores.Ok()
  {
    && Holds(objs.Now(), k, plan.finalizer)
    && id.ds in stores.Now()
    && var spec := objs.Now()[k].body.spec;
       plan.ref(spec) == id.ds.name && plan.what(k, spec, EngineAt(stores, |stores.hist| - 1, id.ds)) == id.what
  }

  /** Whatever stands on a server in the end is answered for by an object that holds its finalizer and
      still names it: what was let go has been cleaned up. */
  lemma LeakFree<S(!new), T(!new), A(!new)>(kp: Keeper<S, T, A>, id: Ext<A>)
    requires kp.Valid() && id in kp.Things()
    requires kp.book.origins[id].forsaken.None? && kp.book.origins[id].k.ns == id.ds.ns
    requires Steady(kp.c.datastores, id.ds) && IdentityKept(kp.c.objs, kp.plan)
    ensures AnswersFor(kp.c.objs, kp.c.datastores, kp.plan, id, kp.book.origins[id].k)
  {
    hide Caused, Reasoned, AllVouched;
    var objs, stores, o := kp.c.objs, kp.c.datastores, kp.book.origins[id];
    forall q | o.q <= q < |stores.hist| ensures !Differs(stores, id.ds, o.q, q) {
      SteadyNeverDiffers(stores, o.q, q, id.ds);
    }
    forall j | o.p <= j < |objs.hist| ensures !Moved(objs, stores, kp.plan, id, o, j) {
      if o.k in objs.hist[j] && objs.hist[j][o.k].uid == objs.hist[o.p][o.k].uid {
        StaysIdentical(objs, kp.c.rules, kp.plan, o.p, j, o.k);
      }
    }
    assert Owned(objs, kp.plan, o);
    StaysIdentical(objs, kp.c.rules, kp.plan, o.p, |objs.hist| - 1, o.k);
    SteadyNeverDiffers(stores, o.q, |stores.hist| - 1, id.ds);
  }

  /** Some version of the Datastore was ready. */
  ghost predicate WasReady(stores: Stores, ds: Key) {
    exists q :: 0 <= q < |stores.hist| && ds in stores.hist[q] && stores.hist[q][ds].body.status.ready
  }

  lemma CreatedAtHome<S(!new), T(!new), A(!new)>(kp: Keeper<S, T, A>, id: Ext<A>)
    requires kp.Valid() && id in kp.Things() && OnlyHome(kp.c.objs, kp.plan, id.ds)
    ensures kp.book.origins[id].k.ns == id.ds.ns && WasReady(kp.c.datastores, id.ds)
  {
    hide Caused, Reasoned, AllVouched, History;
    var o := kp.book.origins[id];
    assert CreatedBy(kp.c.objs, kp.c.datastores, kp.plan, id, o);
    assert AtHome(kp.c.objs.hist[o.p], kp.plan, id.ds);
  }

  /** A logical database that the controller made, or found and took over, exists only while the Database
      object of that name, in the namespace of the Datastore, holds its finalizer and refers to that
      Datastore; and it was not made before the Datastore had been ready. Those that stood at the start
      count too, once they have been dropped and made again. */
  lemma DatabasesHaveOwners(r: DatabaseController.DatabaseReconciler, p: Place)
    requires r.Valid() && p in r.c.server.databases && p !in r.kp.book.before
    requires Steady(r.c.datastores, p.ds) && IdentityKept(r.c.objs, r.kp.plan) && OnlyHome(r.c.objs, r.kp.plan, p.ds)
    ensures var k := Key(p.ds.ns, p.what);
            && Holds(r.c.objs.Now(), k, DatabaseController.FINALIZER)
            && r.c.objs.Now()[k].body.spec.datastoreRef == p.ds.name
    ensures WasReady(r.c.datastores, p.ds)
  {
    hide Caused, Reasoned, AllVouched, History, Steady, IdentityKept, OnlyHome;
    CreatedAtHome(r.kp, p);
    LeakFree(r.kp, p);
    assert r.kp.book.origins[p].k == Key(p.ds.ns, p.what);
  }

  /** An account that the controller made, or found and took over, exists only while some User object
      holds its finalizer and names it: its user name and, on MySQL and MariaDB, its host. */
  lemma AccountsHaveOwners(r: UserController.UserReconciler, a: Account) returns (k: Key)
    requires r.Valid() && a in r.c.server.accounts && a !in r.kp.book.before
    requires Steady(r.c.datastores, a.ds) && IdentityKept(r.c.objs, r.kp.plan) && OnlyHome(r.c.objs, r.kp.plan, a.ds)
    ensures Holds(r.c.objs.Now(), k, UserController.FINALIZER) && k.ns == a.ds.ns && a.ds in r.c.datastores.Now()
    ensures WasReady(r.c.datastores, a.ds)
    ensures var spec, t := r.c.objs.Now()[k].body.spec, r.c.datastores.Now()[a.ds].body.spec.datastoreType;
            && spec.datastoreRef == a.ds.name
            && a.what.user == spec.username && a.what.host == if t in MYSQL_TYPES then spec.host else ""
  {
    hide Caused, Reasoned, AllVouched, History, Steady, IdentityKept, OnlyHome;
    CreatedAtHome(r.kp, a);
    LeakFree(r.kp, a);
    k := r.kp.book.origins[a].k;
  }

  /** What the run began with, and what the controller made or took over since, stands to this day, unless
      others took it away, or a deleting object named it, at some version, through a Datastore in its
      namespace. Nothing is taken down that was not to be deleted. */
  lemma NothingTakenDownAlive<S(!new), T(!new), A(!new)>(kp: Keeper<S, T, A>, id: Ext<A>)
      returns (k: Key, p: nat, q: nat)
    requires kp.Valid() && (id in kp.first || id in kp.book.origins)
    requires id !in kp.plan.things(kp.c.server) && !kp.plan.fallen(id, kp.c.mishaps)
    ensures p < |kp.c.objs.hist| && k in kp.c.objs.hist[p] && kp.c.objs.hist[p][k].body.deleting
    ensures q < |kp.c.datastores.hist| && id.ds in kp.c.datastores.hist[q]
    ensures var spec := kp.c.objs.hist[p][k].body.spec;
            id == Ext(Key(k.ns, kp.plan.ref(spec)), kp.plan.what(k, spec, EngineAt(kp.c.datastores, q, id.ds)))
  {
    hide Balanced, History;
    assert Doomed(kp.c.objs, kp.c.datastores, kp.plan, id);
    k, p, q :| Dooms(kp.c.objs, kp.c.datastores, kp.plan, id, k, p, q);
  }

  /** A logical database is gone only if others dropped it, or the Database object named after it, in the
      namespace of its Datastore, was deleting. */
  lemma DatabasesStay(r: DatabaseController.DatabaseReconciler, p: Place) returns (i: nat)
    requires r.Valid() && (p in r.kp.first || p in r.kp.book.origins)
    requires p !in r.c.server.databases && r.c.mishaps.falls[p] == 0
    ensures var k := Key(p.ds.ns, p.what);
            && i < |r.c.objs.hist| && k in r.c.objs.hist[i] && r.c.objs.hist[i][k].body.deleting
            && r.c.objs.hist[i][k].body.spec.datastoreRef == p.ds.name
  {
    hide Keeper.Kept, History;
    var k, q;
    k, i, q := NothingTakenDownAlive(r.kp, p);
  }

  /** Under admission a role refers to the same Datastore for as long as it exists. */
  lemma RoleDatastoreIsFixed(r: RoleController.RoleReconciler, i: nat, j: nat, k: Key)
    requires r.Valid() && i <= j < |r.c.objs.hist| && k in r.c.objs.hist[i] && k in r.c.objs.hist[j]
    requires r.c.objs.hist[i][k].uid == r.c.objs.hist[j][k].uid
    ensures r.c.objs.hist[i][k].body.spec.datastoreRef == r.c.objs.hist[j][k].body.spec.datastoreRef
  {
    hide Balanced;
    RvBound(r.c.objs, RoleController.RULES, i, k);
    Incarnation(r.c.objs, RoleController.RULES, i, j, k);
  }

  lemma RolesKeepIdentity(r: RoleController.RoleReconciler)
    requires r.Valid()
    ensures IdentityKept(r.c.objs, r.kp.plan)
  {
    hide Balanced, History;
    var objs := r.c.objs;
    forall i | 0 < i < |objs.hist| ensures Unedited(objs, r.kp.plan, i) {
      forall k | k in objs.hist[i - 1] && k in objs.hist[i] && objs.hist[i - 1][k].uid == objs.hist[i][k].uid
        ensures SameIdentity(r.kp.plan, k, objs.hist[i - 1][k].body.spec, objs.hist[i][k].body.spec)
      {
        RoleDatastoreIsFixed(r, i - 1, i, k);
      }
    }
  }

  /** The object that the role `p` is named after was let go without its role having been dropped, for a
      reason: a version of it was deleting whose Datastore was missing from a version of its store, or has
      no Secret; or a call was lost in that pass. */
  ghost predicate LetGoUnread(r: RoleController.RoleReconciler, p: Place, reason: Reason)
    reads r.c
  {
    var k, objs := Key(p.ds.ns, p.what), r.c.objs;
    match reason
    case NoDatastore(i, q) =>
      && i < |objs.hist| && k in objs.hist[i] && objs.hist[i][k].body.deleting
      && q < |r.c.datastores.hist| && Key(k.ns, objs.hist[i][k].body.spec.datastoreRef) !in r.c.datastores.hist[q]
    case NoSecret(i) =>
      && i < |objs.hist| && k in objs.hist[i] && objs.hist[i][k].body.deleting
      && Key(k.ns, objs.hist[i][k].body.spec.datastoreRef) !in r.c.secrets
    case CallLost(n) => n < r.c.mishaps.lost
  }

  /** A role that the controller made, or found and took over, exists only while the object it is named
      after holds its finalizer and refers to that Datastore, or if that object was let go because its
      Datastore or Secret could not be read, and then there is the reason for it. Roles that the User
      controller makes, at any time, count once this controller creates them too. No assumption on edits
      or on namespaces is needed: admission and the controller see to that. */
  lemma RolesHaveOwners(r: RoleController.RoleReconciler, p: Place)
    requires r.Valid() && p in r.c.server.roles && p !in r.kp.book.before + r.c.strays && Steady(r.c.datastores, p.ds)
    ensures var forsaken := r.kp.book.origins[p].forsaken;
            || (forsaken.Some? && LetGoUnread(r, p, forsaken.value))
            || (var k := Key(p.ds.ns, p.what);
                && Holds(r.c.objs.Now(), k, RoleController.FINALIZER)
                && r.c.objs.Now()[k].body.spec.datastoreRef == p.ds.name)
  {
    hide Caused, AllVouched, History, Steady;
    RolesKeepIdentity(r);
    assert r.kp.book.origins[p].k == Key(p.ds.ns, p.what);
    if r.kp.book.origins[p].forsaken.None? {
      LeakFree(r.kp, p);
    } else {
      assert Unread(r.c.objs, r.c.datastores, r.c.secrets, r.c.mishaps.lost, r.kp.plan, r.kp.book.origins[p].k,
                    r.kp.book.origins[p].forsaken.value);
    }
  }

  /** Where no call is lost, every Datastore that is named is there, and its Secret too, no role is
      forsaken. */
  lemma NothingForsaken(r: RoleController.RoleReconciler, p: Place)
    requires r.Valid() && p in r.c.server.roles && p !in r.kp.book.before + r.c.strays && Steady(r.c.datastores, p.ds)
    requires r.c.mishaps.lost == 0
    requires forall i, k, q :: 0 <= i < |r.c.objs.hist| && k in r.c.objs.hist[i] && 0 <= q < |r.c.datastores.hist| ==>
               Key(k.ns, r.c.objs.hist[i][k].body.spec.datastoreRef) in r.c.datastores.hist[q].Keys * r.c.secrets
    ensures var k := Key(p.ds.ns, p.what);
            && Holds(r.c.objs.Now(), k, RoleController.FINALIZER)
            && r.c.objs.Now()[k].body.spec.datastoreRef == p.ds.name
  {
    hide Caused, Reasoned, AllVouched, History, Steady;
    RolesHaveOwners(r, p);
    var forsaken, k, objs := r.kp.book.origins[p].forsaken, Key(p.ds.ns, p.what), r.c.objs;
    if forsaken.Some? && !forsaken.value.CallLost? {
      var i, q := forsaken.value.p, if forsaken.value.NoDatastore? then forsaken.value.q else 0;
      if i < |objs.hist| && k in objs.hist[i] && q < |r.c.datastores.hist| {
        assert Key(k.ns, objs.hist[i][k].body.spec.datastoreRef) in r.c.datastores.hist[q].Keys * r.c.secrets;
      }
    }
  }

  /** Whatever a role has that it did not have when the run began, the object it is named after listed, as of
      some version that held its finalizer and referred to that Datastore. */
  lemma PrivilegesHaveAuthors(r: RoleController.RoleReconciler, p: Place, g: Grant) returns (i: nat)
    requires r.Valid() && p in r.c.server.roles && g in r.c.server.roles[p]
    requires (p, g) !in r.beginning
    ensures var k := Key(p.ds.ns, p.what);
            && i < |r.c.objs.hist| && Holds(r.c.objs.hist[i], k, RoleController.FINALIZER)
            && !r.c.objs.hist[i][k].body.deleting
            && var spec := r.c.objs.hist[i][k].body.spec;
               g.privilege in spec.privileges && g.scope == spec.databaseRef && spec.datastoreRef == p.ds.name
  {
    hide Keeper.Kept, History;
    assert RoleController.Authored(r.kp.book.vouched, p, g);
    var n :| 0 <= n < |r.kp.book.vouched| && RoleController.Asks(r.kp.book.vouched[n], p, g);
    r.kp.VouchedFor(n);
    i := r.kp.book.vouched[n].at;
  }
}
