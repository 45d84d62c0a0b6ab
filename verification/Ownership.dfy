/** Who answers for what stands on a database server. Two controllers (databases and users) follow
    the same protocol: store a finalizer, create, and on deletion clean up before the finalizer
    goes. This module states what that protocol achieves and which steps it is made of. */
module Ownership {
  import opened Api
  import opened Server
  import opened Cluster

  /** How a kind of object maps to the things it creates: the Datastore it names, what the thing is
      called on a server of the given engine, which things of that sort the servers hold, which of them
      belong to others who make roles, and whether others have taken such a thing away. */
  datatype Plan<!S, !A(==)> = Plan(
    finalizer: string,
    ref: S -> string,
    what: (Key, S, Engine) -> A,
    things: Servers -> set<Ext<A>>,
    foreign: set<Place> -> set<Ext<A>>,
    fallen: (Ext<A>, Mishaps) -> bool)

  /** The things of this sort that others have not made. */
  ghost function Made<S(!new), A(!new)>(plan: Plan<S, A>, s: Servers, strays: set<Place>): set<Ext<A>> {
    plan.things(s) - plan.foreign(strays)
  }

  /** Nobody but the controller adds to them. */
  ghost predicate Exclusive<S(!new), A(!new)>(plan: Plan<S, A>, others: Others) {
    forall a, b, x, y :: Drifted(a, b, others) && Strayed(a, b, x, y) ==> Made(plan, b, y) <= Made(plan, a, x)
  }

  /** The statement adds nothing of this sort but `ids`. */
  ghost predicate AddsOnly<S(!new), A(!new)>(plan: Plan<S, A>, st: Statement, ids: set<Ext<A>>) {
    forall s, at, x ::
      Accepts(s, st) ==> Made(plan, Effect(s, st, at), x - Claimed(st)) <= Made(plan, s, x) + ids
  }

  /** Others take things of this sort away only as a mishap that is noted. */
  ghost predicate Lasting<S(!new), A(!new)>(plan: Plan<S, A>, others: Others) {
    && (forall a, b, m, n, id :: Drifted(a, b, others) && Noted(a, b, m, n) && id in plan.things(a) ==>
          id in plan.things(b) || plan.fallen(id, n))
    && (forall m, n, id :: Worse(m, n) && plan.fallen(id, m) ==> plan.fallen(id, n))
  }

  /** The statement takes nothing of this sort away but `ids`. */
  ghost predicate RemovesOnly<S(!new), A(!new)>(plan: Plan<S, A>, st: Statement, ids: set<Ext<A>>) {
    forall s, at :: Accepts(s, st) ==> plan.things(s) - ids <= plan.things(Effect(s, st, at))
  }

  /** The statement leaves the thing in place. */
  ghost predicate Puts<S(!new), A(!new)>(plan: Plan<S, A>, st: Statement, id: Ext<A>) {
    forall s, at :: Accepts(s, st) ==> id in plan.things(Effect(s, st, at))
  }

  /** Why the controller could not read what it needed to clean up after an object: at version `p` of
      the object, the Datastore was missing from version `q` of its store; its Secret is not there; or
      a call was lost, the `n`-th one of the run. */
  datatype Reason = NoDatastore(p: nat, q: nat) | NoSecret(p: nat) | CallLost(n: nat)

  /** Why a thing stands on a server: object `k` as of version `p`, with the Datastore as of `q`. It is
      forsaken once the controller let the object go without cleaning up, for a reason. */
  datatype Origin = Origin(k: Key, p: nat, q: nat, forsaken: Option<Reason>)

  type Stores = Kind<DatastoreSpec, ReadyStatus>

  function EngineAt(stores: Stores, q: nat, ds: Key): Engine
    requires q < |stores.hist| && ds in stores.hist[q]
  {
    EngineOf(stores.hist[q][ds].body.spec.datastoreType)
  }

  /** The thing was created for a live object that had its finalizer stored by then, on a Datastore that
      had been ready. */
  ghost predicate CreatedBy<S(!new), T(!new), A(!new)>(
    objs: Kind<S, T>, stores: Stores, plan: Plan<S, A>, id: Ext<A>, o: Origin)
  {
    && o.p < |objs.hist| && o.q < |stores.hist| && o.q <= stores.seen
    && Holds(objs.hist[o.p], o.k, plan.finalizer)
    && !objs.hist[o.p][o.k].body.deleting
    && id.ds in stores.hist[o.q] && stores.hist[o.q][id.ds].body.status.ready
    && var spec := objs.hist[o.p][o.k].body.spec;
       plan.ref(spec) == id.ds.name && plan.what(o.k, spec, EngineAt(stores, o.q, id.ds)) == id.what
  }

  /** The very object that created it is still stored with its finalizer. */
  ghost predicate Owned<S(!new), T(!new), A(!new)>(objs: Kind<S, T>, plan: Plan<S, A>, o: Origin)
    requires objs.Ok() && o.p < |objs.hist| && o.k in objs.hist[o.p]
  {
    Holds(objs.Now(), o.k, plan.finalizer) && objs.Now()[o.k].uid == objs.hist[o.p][o.k].uid
  }

  /** The Datastore did not outlive the thing: some later version lacks it, or leads elsewhere. */
  ghost predicate DatastoreGone<A(!new)>(stores: Stores, id: Ext<A>, o: Origin)
    requires o.q < |stores.hist| && id.ds in stores.hist[o.q]
  {
    exists q :: o.q <= q < |stores.hist| && Differs(stores, id.ds, o.q, q)
  }

  predicate Differs(stores: Stores, ds: Key, q: nat, r: nat)
    requires q <= r < |stores.hist| && ds in stores.hist[q]
  {
    ds !in stores.hist[r] || EngineAt(stores, r, ds) != EngineAt(stores, q, ds)
  }

  /** The object was edited after creating the thing so that it now names something else. */
  ghost predicate Retargeted<S(!new), T(!new), A(!new)>(
    objs: Kind<S, T>, stores: Stores, plan: Plan<S, A>, id: Ext<A>, o: Origin)
    requires CreatedBy(objs, stores, plan, id, o)
  {
    exists j :: o.p <= j < |objs.hist| && Moved(objs, stores, plan, id, o, j)
  }

  ghost predicate Moved<S(!new), T(!new), A(!new)>(
    objs: Kind<S, T>, stores: Stores, plan: Plan<S, A>, id: Ext<A>, o: Origin, j: nat)
    requires CreatedBy(objs, stores, plan, id, o) && j < |objs.hist|
  {
    && o.k in objs.hist[j]
    && objs.hist[j][o.k].uid == objs.hist[o.p][o.k].uid
    && var spec := objs.hist[j][o.k].body.spec;
       plan.ref(spec) != id.ds.name || plan.what(o.k, spec, EngineAt(stores, o.q, id.ds)) != id.what
  }

  /** The only ways something can be left behind. The third one is a reference that was resolved in a
      foreign namespace, where clean-up never looks. */
  ghost predicate Excused<S(!new), T(!new), A(!new)>(
    objs: Kind<S, T>, stores: Stores, plan: Plan<S, A>, id: Ext<A>, o: Origin)
    requires CreatedBy(objs, stores, plan, id, o)
  {
    || o.forsaken.Some?
    || DatastoreGone(stores, id, o)
    || id.ds.ns != o.k.ns
    || Retargeted(objs, stores, plan, id, o)
  }

  /** Everything on the servers that was not there at the start has an owner or an excuse. */
  ghost predicate Accounted<S(!new), T(!new), A(!new)>(
    objs: Kind<S, T>, stores: Stores, plan: Plan<S, A>,
    things: set<Ext<A>>, origins: map<Ext<A>, Origin>)
    requires objs.Ok()
  {
    forall id :: id in things ==>
      && id in origins
      && CreatedBy(objs, stores, plan, id, origins[id])
      && (Owned(objs, plan, origins[id]) || Excused(objs, stores, plan, id, origins[id]))
  }

  /** Of what one incarnation of an object created, at most `target` is left without an excuse. */
  ghost predicate OnlyLeft<S(!new), T(!new), A(!new)>(
    objs: Kind<S, T>, stores: Stores, plan: Plan<S, A>,
    things: set<Ext<A>>, origins: map<Ext<A>, Origin>, k: Key, uid: nat, target: Option<Ext<A>>)
    requires objs.Ok() && Accounted(objs, stores, plan, things, origins)
  {
    forall id :: id in things && origins[id].k == k && objs.hist[origins[id].p][k].uid == uid ==>
      Excused(objs, stores, plan, id, origins[id]) || Some(id) == target
  }

  // ---------------------------------------------------------------- nothing is taken down without cause

  /** A deleting object named the thing, as of version `p`, through a Datastore in its namespace, as of `q`. */
  ghost predicate Dooms<S(!new), T(!new), A(!new)>(
    objs: Kind<S, T>, stores: Stores, plan: Plan<S, A>, id: Ext<A>, k: Key, p: nat, q: nat)
  {
    && p < |objs.hist| && k in objs.hist[p] && objs.hist[p][k].body.deleting
    && q < |stores.hist| && id.ds in stores.hist[q]
    && var spec := objs.hist[p][k].body.spec;
       id.ds == Key(k.ns, plan.ref(spec)) && id.what == plan.what(k, spec, EngineAt(stores, q, id.ds))
  }

  ghost predicate Doomed<S(!new), T(!new), A(!new)>(objs: Kind<S, T>, stores: Stores, plan: Plan<S, A>, id: Ext<A>) {
    exists k, p: nat, q: nat :: Dooms(objs, stores, plan, id, k, p, q)
  }

  /** Of these things each one is in place, unless others took it away, or a deleting object named it. */
  ghost predicate Conserved<S(!new), T(!new), A(!new)>(
    objs: Kind<S, T>, stores: Stores, plan: Plan<S, A>, ids: set<Ext<A>>, things: set<Ext<A>>, m: Mishaps)
  {
    forall id :: id in ids ==> id in things || plan.fallen(id, m) || Doomed(objs, stores, plan, id)
  }

  lemma StillDoomed<S(!new), T(!new), A(!new)>(
    objs: Kind<S, T>, objs': Kind<S, T>, stores: Stores, stores': Stores, plan: Plan<S, A>, id: Ext<A>)
    requires Grew(objs, objs') && Grew(stores, stores') && Doomed(objs, stores, plan, id)
    ensures Doomed(objs', stores', plan, id)
  {
    var k, p: nat, q: nat :| Dooms(objs, stores, plan, id, k, p, q);
    assert objs'.hist[p] == objs.hist[p] && stores'.hist[q] == stores.hist[q];
    assert Dooms(objs', stores', plan, id, k, p, q);
  }

  /** Whatever goes on, as long as the controller takes nothing away but what is doomed. */
  lemma StillConserved<S(!new), T(!new), A(!new)>(
    objs: Kind<S, T>, objs': Kind<S, T>, stores: Stores, stores': Stores, plan: Plan<S, A>, others: Others,
    ids: set<Ext<A>>, s: Servers, mid: Servers, things': set<Ext<A>>, m: Mishaps, m': Mishaps, gone: set<Ext<A>>)
    requires Grew(objs, objs') && Grew(stores, stores') && Lasting(plan, others) && Worse(m, m')
    requires Drifted(s, mid, others) && Noted(s, mid, m, m') && plan.things(mid) - gone <= things'
    requires Conserved(objs, stores, plan, ids, plan.things(s), m)
    requires forall id :: id in gone ==> Doomed(objs', stores', plan, id)
    ensures Conserved(objs', stores', plan, ids, things', m')
  {
    hide Doomed, Drifted, Noted, Worse, Grew;
    forall id | id in ids ensures id in things' || plan.fallen(id, m') || Doomed(objs', stores', plan, id) {
      if Doomed(objs, stores, plan, id) {
        StillDoomed(objs, objs', stores, stores', plan, id);
      } else if id in plan.things(s) {
        assert id in plan.things(mid) || plan.fallen(id, m');
      }
    }
  }

  // ---------------------------------------------------------------- the steps of the protocol

  lemma StillExcused<S(!new), T(!new), A(!new)>(
    objs: Kind<S, T>, objs': Kind<S, T>, stores: Stores, stores': Stores, plan: Plan<S, A>, id: Ext<A>, o: Origin)
    requires CreatedBy(objs, stores, plan, id, o) && Grew(objs, objs') && Grew(stores, stores')
    ensures CreatedBy(objs', stores', plan, id, o)
    ensures Excused(objs, stores, plan, id, o) ==> Excused(objs', stores', plan, id, o)
  {
    assert objs'.hist[o.p] == objs.hist[o.p] && stores'.hist[o.q] == stores.hist[o.q];
    if DatastoreGone(stores, id, o) {
      var q :| o.q <= q < |stores.hist| && Differs(stores, id.ds, o.q, q);
      assert stores'.hist[q] == stores.hist[q];
      assert Differs(stores', id.ds, o.q, q);
    }
    if Retargeted(objs, stores, plan, id, o) {
      var j :| o.p <= j < |objs.hist| && Moved(objs, stores, plan, id, o, j);
      assert objs'.hist[j] == objs.hist[j];
      assert Moved(objs', stores', plan, id, o, j);
    }
  }

  /** Others act: the histories grow, nobody takes the finalizer, things can only disappear. */
  lemma OthersKeep<S(!new), T(!new), A(!new)>(
    objs: Kind<S, T>, objs': Kind<S, T>, stores: Stores, stores': Stores, plan: Plan<S, A>,
    things: set<Ext<A>>, things': set<Ext<A>>, origins: map<Ext<A>, Origin>)
    requires objs.Ok() && objs'.Ok() && Accounted(objs, stores, plan, things, origins)
    requires Grew(objs, objs') && Grew(stores, stores') && things' <= things
    requires Keeps(objs.Now(), objs'.Now(), plan.finalizer)
    ensures Accounted(objs', stores', plan, things', origins)
    ensures forall k, uid, target :: OnlyLeft(objs, stores, plan, things, origins, k, uid, target) ==>
              OnlyLeft(objs', stores', plan, things', origins, k, uid, target)
  {
    forall id | id in things'
      ensures CreatedBy(objs', stores', plan, id, origins[id])
      ensures Owned(objs, plan, origins[id]) ==> Owned(objs', plan, origins[id])
      ensures Excused(objs, stores, plan, id, origins[id]) ==> Excused(objs', stores', plan, id, origins[id])
    {
      StillExcused(objs, objs', stores, stores', plan, id, origins[id]);
      assert objs'.hist[origins[id].p] == objs.hist[origins[id].p];
    }
    forall k, uid, target | OnlyLeft(objs, stores, plan, things, origins, k, uid, target)
      ensures OnlyLeft(objs', stores', plan, things', origins, k, uid, target)
    {
      forall id | id in things' && origins[id].k == k && objs'.hist[origins[id].p][k].uid == uid
        ensures Excused(objs', stores', plan, id, origins[id]) || Some(id) == target
      {
        assert objs'.hist[origins[id].p] == objs.hist[origins[id].p];
      }
    }
  }

  /** Creating a thing for an object that still holds its finalizer keeps the books. */
  lemma CreatingKeeps<S(!new), T(!new), A(!new)>(
    objs: Kind<S, T>, stores: Stores, plan: Plan<S, A>,
    things: set<Ext<A>>, origins: map<Ext<A>, Origin>, id: Ext<A>, o: Origin)
    requires objs.Ok() && Accounted(objs, stores, plan, things, origins)
    requires CreatedBy(objs, stores, plan, id, o) && Owned(objs, plan, o)
    ensures Accounted(objs, stores, plan, things + {id}, origins[id := o])
  {
  }

  /** What a deleting object can still answer for, once its Datastore has been looked up. */
  lemma LookingUpSettles<S(!new), T(!new), A(!new)>(
    objs: Kind<S, T>, stores: Stores, plan: Plan<S, A>, rules: Rules<S, T>,
    things: set<Ext<A>>, origins: map<Ext<A>, Origin>, k: Key, p: nat)
    requires History(objs, rules) && stores.Ok() && Accounted(objs, stores, plan, things, origins)
    requires p < |objs.hist| && k in objs.hist[p] && objs.hist[p][k].body.deleting
    ensures var spec := objs.hist[p][k].body.spec;
            var ds := Key(k.ns, plan.ref(spec));
            var target := if ds in stores.Cached()
                          then Some(Ext(ds, plan.what(k, spec, EngineAt(stores, stores.seen, ds))))
                          else None;
            OnlyLeft(objs, stores, plan, things, origins, k, objs.hist[p][k].uid, target)
  {
    var spec := objs.hist[p][k].body.spec;
    var ds := Key(k.ns, plan.ref(spec));
    var uid := objs.hist[p][k].uid;
    forall id | id in things && origins[id].k == k && objs.hist[origins[id].p][k].uid == uid
      ensures || Excused(objs, stores, plan, id, origins[id])
              || (ds in stores.Cached() && id == Ext(ds, plan.what(k, spec, EngineAt(stores, stores.seen, ds))))
    {
      var o := origins[id];
      RvBound(objs, rules, p, k);
      if p <= o.p {
        Incarnation(objs, rules, p, o.p, k);
        assert false;
      }
      if Moved(objs, stores, plan, id, o, p) {
        assert Retargeted(objs, stores, plan, id, o);
      } else if Differs(stores, id.ds, o.q, stores.seen) {
        assert DatastoreGone(stores, id, o);
      }
    }
  }

  /** The finalizer may go once nothing is left to answer for. */
  lemma ReleasingKeeps<S(!new), T(!new), A(!new)>(
    objs: Kind<S, T>, objs': Kind<S, T>, stores: Stores, plan: Plan<S, A>,
    things: set<Ext<A>>, origins: map<Ext<A>, Origin>, k: Key)
    requires objs.Ok() && objs'.Ok() && Accounted(objs, stores, plan, things, origins)
    requires Grew(objs, objs') && k in objs.Now()
    requires OnlyLeft(objs, stores, plan, things, origins, k, objs.Now()[k].uid, None)
    requires forall g :: g != k && g in objs.Now() ==> g in objs'.Now() && objs'.Now()[g] == objs.Now()[g]
    ensures Accounted(objs', stores, plan, things, origins)
  {
    forall id | id in things
      ensures CreatedBy(objs', stores, plan, id, origins[id])
      ensures Owned(objs', plan, origins[id]) || Excused(objs', stores, plan, id, origins[id])
    {
      StillExcused(objs, objs', stores, stores, plan, id, origins[id]);
      assert objs'.hist[origins[id].p] == objs.hist[origins[id].p];
    }
  }

  // ---------------------------------------------------------------- letting go regardless

  /** The reason holds of the object `k`. */
  ghost predicate Unread<S(!new), T(!new), A(!new)>(
    objs: Kind<S, T>, stores: Stores, secrets: set<Key>, lost: nat, plan: Plan<S, A>, k: Key, reason: Reason)
  {
    match reason
    case NoDatastore(p, q) =>
      && p < |objs.hist| && k in objs.hist[p] && objs.hist[p][k].body.deleting
      && q < |stores.hist| && Key(k.ns, plan.ref(objs.hist[p][k].body.spec)) !in stores.hist[q]
    case NoSecret(p) =>
      && p < |objs.hist| && k in objs.hist[p] && objs.hist[p][k].body.deleting
      && Key(k.ns, plan.ref(objs.hist[p][k].body.spec)) !in secrets
    case CallLost(n) => n < lost
  }

  /** Nothing is forsaken without a reason. */
  ghost predicate Reasoned<S(!new), T(!new), A(!new)>(
    objs: Kind<S, T>, stores: Stores, secrets: set<Key>, lost: nat, plan: Plan<S, A>, origins: map<Ext<A>, Origin>)
  {
    forall id :: id in origins && origins[id].forsaken.Some? ==>
      Unread(objs, stores, secrets, lost, plan, origins[id].k, origins[id].forsaken.value)
  }

  lemma StillReasoned<S(!new), T(!new), A(!new)>(
    objs: Kind<S, T>, objs': Kind<S, T>, stores: Stores, stores': Stores, secrets: set<Key>, lost: nat, lost': nat,
    plan: Plan<S, A>, origins: map<Ext<A>, Origin>)
    requires Grew(objs, objs') && Grew(stores, stores') && lost <= lost'
    requires Reasoned(objs, stores, secrets, lost, plan, origins)
    ensures Reasoned(objs', stores', secrets, lost', plan, origins)
  {
    forall id | id in origins && origins[id].forsaken.Some?
      ensures Unread(objs', stores', secrets, lost', plan, origins[id].k, origins[id].forsaken.value)
    {
      assert Unread(objs, stores, secrets, lost, plan, origins[id].k, origins[id].forsaken.value);
    }
  }

  /** An object that is let go with things left to answer for forsakes them. */
  ghost function Forsaking<S(!new), T(!new), A(!new)>(
    objs: Kind<S, T>, origins: map<Ext<A>, Origin>, k: Key, uid: nat, reason: Reason): (r: map<Ext<A>, Origin>)
    ensures r.Keys == origins.Keys && forall id :: id in r ==> r[id].k == origins[id].k
    ensures forall id :: id in r ==> r[id] == origins[id] || r[id] == origins[id].(forsaken := Some(reason))
    ensures forall id :: id in r && r[id] != origins[id] ==> origins[id].k == k
  {
    map id | id in origins ::
      var o := origins[id];
      if o.k == k && o.p < |objs.hist| && k in objs.hist[o.p] && objs.hist[o.p][k].uid == uid
      then o.(forsaken := Some(reason)) else o
  }

  lemma ForsakingKeeps<S(!new), T(!new), A(!new)>(
    objs: Kind<S, T>, stores: Stores, plan: Plan<S, A>,
    things: set<Ext<A>>, origins: map<Ext<A>, Origin>, k: Key, uid: nat, reason: Reason)
    requires objs.Ok() && Accounted(objs, stores, plan, things, origins)
    ensures Accounted(objs, stores, plan, things, Forsaking(objs, origins, k, uid, reason))
    ensures OnlyLeft(objs, stores, plan, things, Forsaking(objs, origins, k, uid, reason), k, uid, None)
  {
    var origins' := Forsaking(objs, origins, k, uid, reason);
    forall id | id in things
      ensures CreatedBy(objs, stores, plan, id, origins'[id])
      ensures Owned(objs, plan, origins'[id]) || Excused(objs, stores, plan, id, origins'[id])
    {
      if Retargeted(objs, stores, plan, id, origins[id]) {
        var j :| origins[id].p <= j < |objs.hist| && Moved(objs, stores, plan, id, origins[id], j);
        assert Moved(objs, stores, plan, id, origins'[id], j);
      } else if DatastoreGone(stores, id, origins[id]) {
        assert DatastoreGone(stores, id, origins'[id]);
      }
    }
  }
}
