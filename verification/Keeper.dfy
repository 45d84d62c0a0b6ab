/** The skeleton that the reconcilers of finalizer-bearing kinds share: fetch, hold, write statuses,
    talk to the server, look up what to clean up, release. Whatever the schedule of the cluster
    brings, every one of these keeps the books balanced. */
module Keeper {
  import opened Api
  import opened Server
  import opened Cluster
  import opened Ownership

  datatype Known = Known(ds: Key, value: Obj<DatastoreSpec, ReadyStatus>, q: nat)

  /** A pass under way over version `at` of the object `k`: either it works for a live object, with
      the Datastore it has found and the moment at which it saw the thing of the object in place, or
      it cleans up after a deleting one, with what is left to do. */
  datatype Phase<A> = Working(store: Option<Known>, stood: Option<nat>) | Cleaning(target: Option<Ext<A>>)

  datatype Work<S, T, A> = Work(k: Key, o: Obj<S, T>, at: nat, phase: Phase<A>)

  /** The thing that a live object asks for on the Datastore that was found. */
  function Wanted<S(!new), T(!new), A(!new)>(plan: Plan<S, A>, w: Work<S, T, A>): Ext<A>
    requires w.phase.Working? && w.phase.store.Some?
  {
    var s := w.phase.store.value;
    Ext(s.ds, plan.what(w.k, w.o.body.spec, EngineOf(s.value.body.spec.datastoreType)))
  }

  // ---------------------------------------------------------------- what a claim is worth

  /** By the time version `i` of the object was stored, an earlier version of it had named the
      Datastore `ds`, a version of which, known by then, was ready; and the thing asked for there stood
      on the server in one of the states it had been in by then. */
  ghost predicate ReadyThrough<S(!new), T(!new), A(!new)>(
    objs: Kind<S, T>, times: Times, stores: Stores, plan: Plan<S, A>, i: nat, k: Key, j: nat, q: nat, ds: Key, n: nat)
    requires i < |objs.hist| && k in objs.hist[i]
  {
    && i < |times.stamps|
    && j <= i && k in objs.hist[j] && objs.hist[j][k].uid == objs.hist[i][k].uid
    && q < times.stamps[i].stores && q < |stores.hist|
    && ds in stores.hist[q] && stores.hist[q][ds].body.status.ready
    && ds.name == plan.ref(objs.hist[j][k].body.spec)
    && n < times.stamps[i].servers && n < |times.past|
    && Ext(ds, plan.what(k, objs.hist[j][k].body.spec, EngineAt(stores, q, ds))) in plan.things(times.past[n])
  }

  ghost predicate Grounded<S(!new), T(!new), A(!new)>(
    objs: Kind<S, T>, times: Times, stores: Stores, plan: Plan<S, A>, i: nat, k: Key)
    requires i < |objs.hist| && k in objs.hist[i]
  {
    exists j: nat, q: nat, ds, n: nat :: ReadyThrough(objs, times, stores, plan, i, k, j, q, ds, n)
  }

  /** Whatever status claims success has such a cause. */
  ghost predicate Caused<S(!new), T(!new), A(!new)>(
    objs: Kind<S, T>, times: Times, stores: Stores, plan: Plan<S, A>, claims: T -> bool)
  {
    forall i, k :: 0 <= i < |objs.hist| && k in objs.hist[i] && claims(objs.hist[i][k].body.status) ==>
      Grounded(objs, times, stores, plan, i, k)
  }

  /** A later version of the same incarnation inherits the cause. */
  lemma StillGrounded<S(!new), T(!new), A(!new)>(
    objs: Kind<S, T>, objs': Kind<S, T>, times: Times, times': Times, stores: Stores, stores': Stores,
    plan: Plan<S, A>, i: nat, i': nat, k: Key)
    requires i < |objs.hist| && k in objs.hist[i] && Grounded(objs, times, stores, plan, i, k)
    requires Grew(objs, objs') && Grew(stores, stores') && Onward(times, times')
    requires i <= i' < |objs'.hist| && i' < |times'.stamps| && (i' == i || |times.stamps| <= i')
    requires k in objs'.hist[i'] && objs'.hist[i'][k].uid == objs.hist[i][k].uid
    ensures Grounded(objs', times', stores', plan, i', k)
  {
    var j: nat, q: nat, ds, n: nat :| ReadyThrough(objs, times, stores, plan, i, k, j, q, ds, n);
    assert objs'.hist[j] == objs.hist[j] && stores'.hist[q] == stores.hist[q] && times'.past[n] == times.past[n];
    assert NotAfter(times.stamps[i], times'.stamps[i']);
    assert ReadyThrough(objs', times', stores', plan, i', k, j, q, ds, n);
  }

  lemma SilenceKeepsCauses<S(!new), T(!new), A(!new)>(
    objs: Kind<S, T>, objs': Kind<S, T>, times: Times, times': Times, stores: Stores, stores': Stores,
    plan: Plan<S, A>, claims: T -> bool, blank: T)
    requires objs.Ok() && Caused(objs, times, stores, plan, claims) && !claims(blank)
    requires Grew(objs, objs') && Silent(objs, objs', blank) && Grew(stores, stores') && Onward(times, times')
    requires |times.stamps| == |objs.hist| && |times'.stamps| == |objs'.hist|
    ensures Caused(objs', times', stores', plan, claims)
  {
    hide Grounded;
    forall i, k | 0 <= i < |objs'.hist| && k in objs'.hist[i] && claims(objs'.hist[i][k].body.status)
      ensures Grounded(objs', times', stores', plan, i, k)
    {
      var n := |objs.hist| - 1;
      if i <= n {
        assert objs'.hist[i] == objs.hist[i];
        StillGrounded(objs, objs', times, times', stores, stores', plan, i, i, k);
      } else {
        assert k in objs.Now() && objs.Now()[k].uid == objs'.hist[i][k].uid;
        StillGrounded(objs, objs', times, times', stores, stores', plan, n, i, k);
      }
    }
  }

  lemma StatusKeepsCauses<S(!new), T(!new), A(!new)>(
    objs: Kind<S, T>, objs': Kind<S, T>, times: Times, times': Times, stores: Stores,
    plan: Plan<S, A>, claims: T -> bool, k: Key, status: T)
    requires objs.Ok() && Caused(objs, times, stores, plan, claims) && k in objs.Now()
    requires objs' == Put(objs, k, objs.Now()[k].body.(status := status))
    requires Onward(times, times') && |times.stamps| == |objs.hist| && |times'.stamps| == |objs'.hist|
    requires claims(status) && |objs'.hist| > |objs.hist| && k in objs'.Now() ==>
               Grounded(objs', times', stores, plan, |objs'.hist| - 1, k)
    ensures Caused(objs', times', stores, plan, claims)
  {
    hide Grounded;
    forall i, g | 0 <= i < |objs'.hist| && g in objs'.hist[i] && claims(objs'.hist[i][g].body.status)
      ensures Grounded(objs', times', stores, plan, i, g)
    {
      var n := |objs.hist| - 1;
      if i <= n {
        assert objs'.hist[i] == objs.hist[i];
        StillGrounded(objs, objs', times, times', stores, stores, plan, i, i, g);
      } else if g != k {
        assert objs'.hist[i][g] == objs.Now()[g];
        StillGrounded(objs, objs', times, times', stores, stores, plan, n, i, g);
      }
    }
  }

  // ---------------------------------------------------------------- vouching

  /** The work was done for a version of an object that held the finalizer, with a Datastore that was
      there. */
  ghost predicate Vouched<S(!new), T(!new), A(!new)>(objs: Kind<S, T>, stores: Stores, plan: Plan<S, A>,
      w: Work<S, T, A>) {
    && w.at < |objs.hist| && w.k in objs.hist[w.at] && objs.hist[w.at][w.k] == w.o
    && plan.finalizer in w.o.body.finalizers
    && match w.phase
       case Working(store, _) =>
         && !w.o.body.deleting
         && (store.Some? ==>
               && store.value.q < |stores.hist| && store.value.ds in stores.hist[store.value.q]
               && stores.hist[store.value.q][store.value.ds] == store.value.value)
       case Cleaning(_) => w.o.body.deleting
  }

  ghost predicate AllVouched<S(!new), T(!new), A(!new)>(
    objs: Kind<S, T>, stores: Stores, plan: Plan<S, A>, vouched: seq<Work<S, T, A>>)
  {
    forall i :: 0 <= i < |vouched| ==> Vouched(objs, stores, plan, vouched[i])
  }

  lemma StillVouched<S(!new), T(!new), A(!new)>(
    objs: Kind<S, T>, objs': Kind<S, T>, stores: Stores, stores': Stores, plan: Plan<S, A>, vouched: seq<Work<S, T, A>>)
    requires Grew(objs, objs') && Grew(stores, stores') && AllVouched(objs, stores, plan, vouched)
    ensures AllVouched(objs', stores', plan, vouched)
  {
    forall i | 0 <= i < |vouched| ensures Vouched(objs', stores', plan, vouched[i]) {
      assert Vouched(objs, stores, plan, vouched[i]);
    }
  }

  // ---------------------------------------------------------------- the books

  /** What stood on the servers at the start and was never made by the controller, why the rest stands
      there, and the work that was done for scripts. */
  datatype Book<S, T, A(==)> = Book(before: set<Ext<A>>, origins: map<Ext<A>, Origin>, vouched: seq<Work<S, T, A>>)

  /** What the books are kept about. */
  datatype Scene<S, T> = Scene(objs: Kind<S, T>, stores: Stores, times: Times, lost: nat)

  ghost predicate Sane<S(!new), T(!new)>(s: Scene<S, T>) {
    s.objs.Ok() && |s.times.stamps| == |s.objs.hist|
  }

  ghost predicate Balanced<S(!new), T(!new), A(!new)>(
    s: Scene<S, T>, plan: Plan<S, A>, claims: T -> bool, secrets: set<Key>, things: set<Ext<A>>, book: Book<S, T, A>)
    requires Sane(s)
  {
    && Accounted(s.objs, s.stores, plan, things - book.before, book.origins)
    && Caused(s.objs, s.times, s.stores, plan, claims)
    && Reasoned(s.objs, s.stores, secrets, s.lost, plan, book.origins)
    && AllVouched(s.objs, s.stores, plan, book.vouched)
  }

  ghost predicate Later<S(!new), T(!new)>(a: Scene<S, T>, b: Scene<S, T>) {
    && Sane(a) && Sane(b)
    && Grew(a.objs, b.objs) && Grew(a.stores, b.stores) && Onward(a.times, b.times) && a.lost <= b.lost
  }

  /** What is left of one incarnation, the same or less. */
  ghost predicate NoMoreLeft<S(!new), T(!new), A(!new)>(
    a: Scene<S, T>, b: Scene<S, T>, plan: Plan<S, A>, things: set<Ext<A>>, things': set<Ext<A>>,
        origins: map<Ext<A>, Origin>)
    requires Sane(a) && Sane(b)
    requires Accounted(a.objs, a.stores, plan, things, origins) && Accounted(b.objs, b.stores, plan, things', origins)
  {
    forall k, uid, target :: OnlyLeft(a.objs, a.stores, plan, things, origins, k, uid, target) ==>
      OnlyLeft(b.objs, b.stores, plan, things', origins, k, uid, target)
  }

  /** A call during which the controller writes nothing, or only takes things off the servers. */
  lemma Around<S(!new), T(!new), A(!new)>(
    a: Scene<S, T>, b: Scene<S, T>, rules: Rules<S, T>, plan: Plan<S, A>, claims: T -> bool, secrets: set<Key>,
    things: set<Ext<A>>, things': set<Ext<A>>, book: Book<S, T, A>)
    requires Later(a, b) && rules.finalizer == plan.finalizer && !claims(rules.blank)
    requires Balanced(a, plan, claims, secrets, things, book)
    requires Passed(a.objs, b.objs, rules) && things' <= things
    ensures Balanced(b, plan, claims, secrets, things', book)
    ensures NoMoreLeft(a, b, plan, things - book.before, things' - book.before, book.origins)
  {
    hide Caused, Reasoned, AllVouched, Onward, Grew;
    OthersKeep(a.objs, b.objs, a.stores, b.stores, plan, things - book.before, things' - book.before, book.origins);
    SilenceKeepsCauses(a.objs, b.objs, a.times, b.times, a.stores, b.stores, plan, claims, rules.blank);
    StillReasoned(a.objs, b.objs, a.stores, b.stores, secrets, a.lost, b.lost, plan, book.origins);
    StillVouched(a.objs, b.objs, a.stores, b.stores, plan, book.vouched);
  }

  /** A status write, with whatever happened around it: at `mid` the write arrived. */
  lemma AroundStatus<S(!new), T(!new), A(!new)>(
    a: Scene<S, T>, mid: Scene<S, T>, b: Scene<S, T>, rules: Rules<S, T>, plan: Plan<S, A>, claims: T -> bool,
    secrets: set<Key>, things: set<Ext<A>>, things': set<Ext<A>>, book: Book<S, T, A>, k: Key, status: T, taken: bool)
    requires Later(a, mid) && Later(mid, b) && mid.stores == b.stores && mid.lost == b.lost
    requires rules.finalizer == plan.finalizer && !claims(rules.blank)
    requires Balanced(a, plan, claims, secrets, things, book)
    requires Passed(a.objs, mid.objs, rules) && things' <= things
    requires Keeps(mid.objs.Now(), b.objs.Now(), plan.finalizer)
    requires taken ==> k in mid.objs.Now()
    requires b.objs == if taken then Put(mid.objs, k, mid.objs.Now()[k].body.(status := status)) else mid.objs
    requires taken && claims(status) && |b.objs.hist| > |mid.objs.hist| && k in b.objs.Now() ==>
               Grounded(b.objs, b.times, b.stores, plan, |b.objs.hist| - 1, k)
    ensures Balanced(b, plan, claims, secrets, things', book)
    ensures NoMoreLeft(a, b, plan, things - book.before, things' - book.before, book.origins)
  {
    hide Caused, Reasoned, AllVouched, Onward, Accounted, OnlyLeft, Grounded;
    Around(a, mid, rules, plan, claims, secrets, things, things', book);
    OthersKeep(mid.objs, b.objs, mid.stores, b.stores, plan, things' - book.before, things' - book.before,
        book.origins);
    if taken {
      StatusKeepsCauses(mid.objs, b.objs, mid.times, b.times, b.stores, plan, claims, k, status);
    } else {
      assert Silent(mid.objs, b.objs, rules.blank);
      SilenceKeepsCauses(mid.objs, b.objs, mid.times, b.times, mid.stores, b.stores, plan, claims, rules.blank);
    }
    StillReasoned(mid.objs, b.objs, mid.stores, b.stores, secrets, mid.lost, b.lost, plan, book.origins);
    StillVouched(mid.objs, b.objs, mid.stores, b.stores, plan, book.vouched);
  }

  /** The finalizer is taken off, with whatever happened around it. */
  lemma AroundRelease<S(!new), T(!new), A(!new)>(
    a: Scene<S, T>, mid: Scene<S, T>, b: Scene<S, T>, rules: Rules<S, T>, plan: Plan<S, A>, claims: T -> bool,
    secrets: set<Key>, things: set<Ext<A>>, things': set<Ext<A>>, book: Book<S, T, A>, k: Key, uid: nat, taken: bool)
    requires Later(a, mid) && Later(mid, b) && mid.stores == b.stores && mid.lost == b.lost
    requires rules.finalizer == plan.finalizer && !claims(rules.blank)
    requires Balanced(a, plan, claims, secrets, things, book)
    requires OnlyLeft(a.objs, a.stores, plan, things - book.before, book.origins, k, uid, None)
    requires Passed(a.objs, mid.objs, rules) && things' <= things && Silent(mid.objs, b.objs, rules.blank)
    requires taken ==> k in mid.objs.Now() && mid.objs.Now()[k].uid == uid
    requires !taken ==> b.objs == mid.objs
    requires forall g :: g != k && g in mid.objs.Now() ==> g in b.objs.Now() && b.objs.Now()[g] == mid.objs.Now()[g]
    ensures Balanced(b, plan, claims, secrets, things', book)
  {
    hide Caused, Reasoned, AllVouched, Onward, Accounted, OnlyLeft;
    Around(a, mid, rules, plan, claims, secrets, things, things', book);
    if taken {
      ReleasingKeeps(mid.objs, b.objs, mid.stores, plan, things' - book.before, book.origins, k);
    }
    SilenceKeepsCauses(mid.objs, b.objs, mid.times, b.times, mid.stores, b.stores, plan, claims, rules.blank);
    StillReasoned(mid.objs, b.objs, mid.stores, b.stores, secrets, mid.lost, b.lost, plan, book.origins);
    StillVouched(mid.objs, b.objs, mid.stores, b.stores, plan, book.vouched);
  }

  /** Creating a thing, or adopting it, enters it in the books. */
  lemma Creating<S(!new), T(!new), A(!new)>(
    s: Scene<S, T>, plan: Plan<S, A>, claims: T -> bool, secrets: set<Key>, things: set<Ext<A>>, things': set<Ext<A>>,
    book: Book<S, T, A>, id: Ext<A>, o: Origin)
    requires Sane(s) && Balanced(s, plan, claims, secrets, things, book) && things' <= things + {id}
    requires CreatedBy(s.objs, s.stores, plan, id, o) && Owned(s.objs, plan, o) && o.forsaken.None?
    ensures Balanced(s, plan, claims, secrets, things',
                     book.(before := book.before - {id}, origins := book.origins[id := o]))
  {
    hide Caused, AllVouched;
  }

  // ---------------------------------------------------------------- the keeper

  class Keeper<S(!new, ==), T(!new, ==), A(!new, ==)> {
    const c: Cluster<S, T>
    const plan: Plan<S, A>
    /** Which statuses claim that the object is served. */
    const claims: T -> bool
    /** Does the controller never let an object go without having cleaned up? */
    const careful: bool
    ghost var book: Book<S, T, A>
    /** What stood on the servers when the run began. */
    ghost const first: set<Ext<A>>

    constructor (c: Cluster<S, T>, plan: Plan<S, A>, claims: T -> bool, careful: bool)
      requires c.Valid() && c.objs == Kind([map[]], 0)
      requires c.rules.finalizer == plan.finalizer && !claims(c.rules.blank)
      requires Exclusive(plan, c.others) && Lasting(plan, c.others)
      ensures Valid() && this.c == c && this.plan == plan && this.claims == claims && this.careful == careful
      ensures book == Book(plan.things(c.server), map[], []) && first == plan.things(c.server)
    {
      this.c, this.plan, this.claims, this.careful := c, plan, claims, careful;
      this.first := plan.things(c.server);
      this.book := Book(plan.things(c.server), map[], []);
    }

    ghost function Here(): Scene<S, T>
      reads c
    {
      Scene(c.objs, c.datastores, c.times, c.mishaps.lost)
    }

    /** Things that no others made. */
    ghost function OfOurs(): set<Ext<A>>
      reads c
    {
      Made(plan, c.server, c.strays)
    }

    /** Things that the controller made. */
    ghost function Things(): set<Ext<A>>
      reads this, c
    {
      OfOurs() - book.before
    }

    ghost predicate Valid()
      reads this, c
    {
      && c.Valid() && Sane(Here())
      && c.rules.finalizer == plan.finalizer
      && !claims(c.rules.blank)
      && Kept()
    }

    /** The books are in order, and nothing was taken down without cause. */
    ghost predicate Kept()
      requires Sane(Here())
      reads this, c
    {
      && Exclusive(plan, c.others) && Lasting(plan, c.others)
      && Balanced(Here(), plan, claims, c.secrets, OfOurs(), book)
      && Conserved(c.objs, c.datastores, plan, first + book.origins.Keys, plan.things(c.server), c.mishaps)
      && (careful ==> forall id :: id in book.origins ==> book.origins[id].forsaken.None?)
    }

    ghost predicate Copy(w: Work<S, T, A>)
      reads c
    {
      w.at < |c.objs.hist| && w.k in c.objs.hist[w.at] && c.objs.hist[w.at][w.k] == w.o
    }

    /** What a pass relies on from one call to the next. */
    ghost predicate On(w: Work<S, T, A>)
      requires Valid()
      reads this, c
    {
      && Copy(w)
      && match w.phase
         case Working(store, stood) =>
           && !w.o.body.deleting && plan.finalizer in w.o.body.finalizers
           && Holds(c.objs.Now(), w.k, plan.finalizer) && c.objs.Now()[w.k].uid == w.o.uid
           && (store.Some? ==> Knows(store.value))
           && (stood.Some? ==>
                 && store.Some? && stood.value < |c.times.past|
                 && Wanted(plan, w) in plan.things(c.times.past[stood.value]))
         case Cleaning(target) =>
           && w.o.body.deleting && w.at <= c.objs.seen
           && (target.Some? ==> Doomed(c.objs, c.datastores, plan, target.value))
           && OnlyLeft(c.objs, c.datastores, plan, Things(), book.origins, w.k, w.o.uid, target)
    }

    ghost predicate Knows(s: Known)
      reads c
    {
      && s.q < |c.datastores.hist| && s.q <= c.datastores.seen
      && s.ds in c.datastores.hist[s.q] && c.datastores.hist[s.q][s.ds] == s.value
    }

    /** In a quiet world nothing but what the call itself does changes. */
    twostate predicate Same()
      reads c
    {
      && c.Elapsed()
      && (old(c.Quiet()) ==>
            && c.objs.hist == old(c.objs.hist)
            && c.datastores.hist == old(c.datastores.hist)
            && c.databases.hist == old(c.databases.hist))
    }

    /** What a call keeps during which the controller takes nothing away but what is doomed, if anything;
        `mid` is where the servers stood before it did. */
    lemma Conserves(here: Scene<S, T>, sv: Servers, m: Mishaps, mid: Servers, gone: set<Ext<A>>)
      requires Grew(here.objs, c.objs) && Grew(here.stores, c.datastores) && Lasting(plan, c.others)
      requires Worse(m, c.mishaps) && Drifted(sv, mid, c.others) && Noted(sv, mid, m, c.mishaps)
      requires plan.things(mid) - gone <= plan.things(c.server)
      requires Conserved(here.objs, here.stores, plan, first + book.origins.Keys, plan.things(sv), m)
      requires forall id :: id in gone ==> Doomed(here.objs, here.stores, plan, id)
      ensures Conserved(c.objs, c.datastores, plan, first + book.origins.Keys, plan.things(c.server), c.mishaps)
      ensures forall id :: Doomed(here.objs, here.stores, plan, id) ==> Doomed(c.objs, c.datastores, plan, id)
    {
      hide Doomed, Conserved, Lasting, Drifted, Noted, Worse;
      forall id | Doomed(here.objs, here.stores, plan, id) ensures Doomed(c.objs, c.datastores, plan, id) {
        StillDoomed(here.objs, c.objs, here.stores, c.datastores, plan, id);
      }
      StillConserved(here.objs, c.objs, here.stores, c.datastores, plan, c.others, first + book.origins.Keys, sv, mid,
                     plan.things(c.server), m, c.mishaps, gone);
    }

    /** Read the object. */
    method Fetch(k: Key) returns (r: Reply<Obj<S, T>>, ghost at: nat)
      requires Valid()
      modifies c
      ensures Valid()
      ensures Drifted(old(c.server), c.server, c.others)
      ensures old(c.schedule) != [] ==> |c.schedule| < |old(c.schedule)|
      ensures at == c.objs.seen
      ensures r.Found? ==> k in c.objs.Cached() && r.value == c.objs.Cached()[k]
      ensures Same()
      ensures old(c.Quiet()) ==> c.server == old(c.server)
      ensures old(c.Quiet()) ==> r == if k in c.objs.Now() then Found(c.objs.Now()[k]) else NotFound
    {
      hide Balanced, Conserved, Doomed, Lasting, OnlyLeft, Silent, Drifted, Strayed, Made, Noted, Onward;
      ghost var here, things, sv, m := Here(), OfOurs(), c.server, c.mishaps;
      r, at := c.Get(k);
      Around(here, Here(), c.rules, plan, claims, c.secrets, things, OfOurs(), book);
      Conserves(here, sv, m, c.server, {});
    }

    /** Put the finalizer on a live object just fetched, unless it is there. */
    method Hold(k: Key, o: Obj<S, T>, ghost at: nat) returns (r: Reply<Obj<S, T>>, ghost w: Work<S, T, A>)
      requires Valid() && at == c.objs.seen && k in c.objs.Cached() && c.objs.Cached()[k] == o
      requires !o.body.deleting
      modifies c
      ensures Valid() && c.Elapsed()
      ensures Drifted(old(c.server), c.server, c.others)
      ensures r.Found? ==> w == Work(k, r.value, w.at, Working(None, None)) && On(w)
      ensures r.Found? ==> r.value.body == o.body.(finalizers := AddFinalizer(o.body.finalizers, plan.finalizer))
      ensures old(c.Quiet()) && k in old(c.objs.Now()) && old(c.objs.Now())[k] == o ==>
                && r.Found? && c.server == old(c.server)
                && c.datastores.hist == old(c.datastores.hist) && c.databases.hist == old(c.databases.hist)
                && k in c.objs.Now() && c.objs.Now()[k] == r.value
                && View(c.objs.Now()) == old(View(c.objs.Now()))[k := r.value.body]
    {
      hide Balanced, Conserved, Doomed, Lasting, OnlyLeft, Silent, Noted, Onward;
      w := Work(k, o, at, Working(None, None));
      if plan.finalizer in o.body.finalizers {
        LiveAhead(c.objs, c.rules, at, |c.objs.hist| - 1, k);
        return Found(o), w;
      }
      r, w := Store(k, o, at);
    }

    /** Store the finalizer. */
    method Store(k: Key, o: Obj<S, T>, ghost at: nat) returns (r: Reply<Obj<S, T>>, ghost w: Work<S, T, A>)
      requires Valid() && at < |c.objs.hist| && k in c.objs.hist[at] && c.objs.hist[at][k] == o
      requires !o.body.deleting && plan.finalizer !in o.body.finalizers
      modifies c
      ensures Valid() && c.Elapsed()
      ensures Drifted(old(c.server), c.server, c.others)
      ensures r.Found? ==> w == Work(k, r.value, w.at, Working(None, None)) && On(w)
      ensures r.Found? ==> r.value.body == o.body.(finalizers := AddFinalizer(o.body.finalizers, plan.finalizer))
      ensures old(c.Quiet()) && k in old(c.objs.Now()) && old(c.objs.Now())[k] == o ==>
                && r.Found? && c.server == old(c.server)
                && c.datastores.hist == old(c.datastores.hist) && c.databases.hist == old(c.databases.hist)
                && k in c.objs.Now() && c.objs.Now()[k] == r.value
                && View(c.objs.Now()) == old(View(c.objs.Now()))[k := r.value.body]
    {
      hide Balanced, Conserved, Doomed, Lasting, OnlyLeft, Silent, Drifted, Strayed, Made, Noted, Onward, Timely,
        Passed;
      ghost var here, things, sv, m := Here(), OfOurs(), c.server, c.mishaps;
      w := Work(k, o, at, Working(None, None));
      var full := o.body.(finalizers := AddFinalizer(o.body.finalizers, plan.finalizer));
      ghost var mid, taken;
      r, mid, taken := c.Update(k, o.(body := full), at);
      Around(here, Here(), c.rules, plan, claims, c.secrets, things, OfOurs(), book);
      Conserves(here, sv, m, c.server, {});
      if taken {
        PutShows(mid, k, full, c.rules);
        assert k in c.objs.Now() && c.objs.Now()[k].uid == o.uid && c.objs.Now()[k].body == full;
        w := Work(k, c.objs.Now()[k], |c.objs.hist| - 1, Working(None, None));
      }
    }

    /** Write the status of a live object. Claiming success takes a ready Datastore, and having seen the
        thing in place. */
    method SetStatus(ghost w: Work<S, T, A>, k: Key, o: Obj<S, T>, status: T)
      returns (r: Reply<Obj<S, T>>, ghost w': Work<S, T, A>)
      requires Valid() && On(w) && w.phase.Working? && w.k == k && w.o == o
      requires c.rules.lawful(o.body.status, status)
      requires claims(status) ==>
                 && w.phase.store.Some? && w.phase.store.value.value.body.status.ready && w.phase.stood.Some?
                 && w.phase.store.value.ds.name == plan.ref(o.body.spec)
      modifies c
      ensures Valid() && c.Elapsed()
      ensures Drifted(old(c.server), c.server, c.others)
      ensures r.Found? ==> w' == Work(k, r.value, w'.at, w.phase) && On(w')
      ensures r.Found? ==> r.value.uid == o.uid && r.value.body == o.body.(status := status)
      ensures old(c.Quiet()) && k in old(c.objs.Now()) && old(c.objs.Now())[k] == o ==>
                && r.Found? && c.server == old(c.server)
                && c.datastores.hist == old(c.datastores.hist) && c.databases.hist == old(c.databases.hist)
                && k in c.objs.Now() && c.objs.Now()[k] == r.value
                && View(c.objs.Now()) == old(View(c.objs.Now()))[k := r.value.body]
    {
      hide Balanced, Conserved, Doomed, Lasting, OnlyLeft, Drifted, Accounted, Exclusive, Onward, Timely, Grew;
      ghost var mid, taken;
      r, mid, taken := WriteStatus(w, k, o, status);
      if taken {
        PutShows(mid, k, o.body.(status := status), c.rules);
        assert k in c.objs.Now() && c.objs.Now()[k].uid == o.uid && c.objs.Now()[k].body == o.body.(status := status);
      }
      w' := if r.Found? then Work(k, r.value, |c.objs.hist| - 1, w.phase) else w;
    }

    /** The write itself; `mid` is the kind as it arrived. */
    method WriteStatus(ghost w: Work<S, T, A>, k: Key, o: Obj<S, T>, status: T)
      returns (r: Reply<Obj<S, T>>, ghost mid: Kind<S, T>, ghost taken: bool)
      requires Valid() && On(w) && w.phase.Working? && w.k == k && w.o == o
      requires c.rules.lawful(o.body.status, status)
      requires claims(status) ==>
                 && w.phase.store.Some? && w.phase.store.value.value.body.status.ready && w.phase.stood.Some?
                 && w.phase.store.value.ds.name == plan.ref(o.body.spec)
      modifies c
      ensures Valid() && On(w) && c.Elapsed()
      ensures Drifted(old(c.server), c.server, c.others)
      ensures History(mid, c.rules)
      ensures taken ==> k in mid.Now() && mid.Now()[k] == o
      ensures c.objs == if taken then Put(mid, k, o.body.(status := status)) else mid
      ensures r.Found? ==> taken && (k in c.objs.Now() ==> r.value == c.objs.Now()[k])
      ensures old(c.Quiet()) ==> mid.hist == old(c.objs).hist && c.Elsewhere()
      ensures old(c.Quiet()) ==> taken == Current(old(c.objs), k, o) && r.Found? == taken
    {
      hide Balanced, Conserved, Doomed, Lasting, OnlyLeft, Silent, Drifted, Strayed, Made, Noted, Onward, Grounded,
        NoneLost, Timely, Wanted, Holds;
      ghost var here, things, sv, m := Here(), OfOurs(), c.server, c.mishaps;
      r, mid, taken := c.UpdateStatus(k, o.(body := o.body.(status := status)), w.at);
      ghost var amid := here.(objs := mid, stores := c.datastores, times := UpTo(c.times, |mid.hist|),
          lost := c.mishaps.lost);
      Recall(w, here.times);
      if taken && claims(status) && |c.objs.hist| > |mid.hist| {
        Claiming(w, here.times);
      }
      Conserves(here, sv, m, c.server, {});
      AroundStatus(here, amid, Here(), c.rules, plan, claims, c.secrets, things, OfOurs(), book, k,
          status, taken);
    }

    /** What a pass has seen, it has seen for good. */
    lemma Recall(w: Work<S, T, A>, was: Times)
      requires Onward(was, c.times)
      ensures w.phase.Working? && w.phase.stood.Some? && w.phase.stood.value < |was.past| ==>
                && w.phase.stood.value < |c.times.past|
                && c.times.past[w.phase.stood.value] == was.past[w.phase.stood.value]
    {
    }

    /** What a pass has seen is the cause of what it claims in the version just stored. */
    lemma Claiming(w: Work<S, T, A>, was: Times)
      requires c.objs.Ok() && w.k in c.objs.Now() && c.objs.Now()[w.k].uid == w.o.uid && Copy(w)
      requires |c.times.stamps| == |c.objs.hist| && c.times.stamps[|c.objs.hist| - 1] == c.Present()
      requires w.phase.Working? && w.phase.store.Some? && w.phase.stood.Some? && Knows(w.phase.store.value)
      requires w.phase.store.value.value.body.status.ready && w.phase.store.value.ds.name == plan.ref(w.o.body.spec)
      requires Onward(was, c.times) && w.phase.stood.value < |was.past|
      requires Wanted(plan, w) in plan.things(was.past[w.phase.stood.value])
      ensures Grounded(c.objs, c.times, c.datastores, plan, |c.objs.hist| - 1, w.k)
    {
      var n, s := w.phase.stood.value, w.phase.store.value;
      assert c.times.past[n] == was.past[n];
      assert ReadyThrough(c.objs, c.times, c.datastores, plan, |c.objs.hist| - 1, w.k, w.at, s.q, s.ds, n);
    }

    /** Find the Datastore a live object refers to. */
    method Resolve(ghost w: Work<S, T, A>, ns: string, name: string)
        returns (r: Resolution<DatastoreSpec, ReadyStatus>, ghost w': Work<S, T, A>)
      requires Valid() && On(w) && w.phase == Working(None, None)
      modifies c
      ensures Valid() && Same()
      ensures Drifted(old(c.server), c.server, c.others)
      ensures On(w')
      ensures w' == w.(phase := w'.phase) && w'.phase.Working?
      ensures r.Resolved? ==> r.k.name == name
      ensures r.Resolved? ==>
                w'.phase.store.Some? && w'.phase.store.value == Known(r.k, r.value, w'.phase.store.value.q)
      ensures w'.phase.stood.None? && (w'.phase.store.None? ==> !r.Resolved?)
      ensures old(c.Quiet()) ==> c.server == old(c.server) && Resolves(c.datastores.Now(), ns, name, r)
    {
      hide Balanced, Conserved, Doomed, Lasting, OnlyLeft, Silent, Drifted, Strayed, Made, Noted, Onward;
      ghost var here, things, sv, m := Here(), OfOurs(), c.server, c.mishaps;
      ghost var q;
      r, q := c.ResolveDatastore(ns, name);
      Around(here, Here(), c.rules, plan, claims, c.secrets, things, OfOurs(), book);
      Conserves(here, sv, m, c.server, {});
      Recall(w, here.times);
      w' := if r.Resolved? then w.(phase := Working(Some(Known(r.k, r.value, q)), None)) else w;
    }

    /** Find the Datastore a live object refers to, in its own namespace only. */
    method Find(ghost w: Work<S, T, A>, ds: Key)
        returns (r: Reply<Obj<DatastoreSpec, ReadyStatus>>, ghost w': Work<S, T, A>)
      requires Valid() && On(w) && w.phase == Working(None, None)
      modifies c
      ensures Valid() && Same()
      ensures Drifted(old(c.server), c.server, c.others)
      ensures On(w')
      ensures w' == w.(phase := w'.phase) && w'.phase.Working?
      ensures r.Found? ==> w'.phase.store.Some? && w'.phase.store.value == Known(ds, r.value, w'.phase.store.value.q)
      ensures w'.phase.stood.None?
      ensures old(c.Quiet()) ==> c.server == old(c.server)
      ensures old(c.Quiet()) ==> r == if ds in c.datastores.Now() then Found(c.datastores.Now()[ds]) else NotFound
    {
      hide Balanced, Conserved, Doomed, Lasting, OnlyLeft, Silent, Drifted, Strayed, Made, Noted, Onward;
      ghost var here, things, sv, m := Here(), OfOurs(), c.server, c.mishaps;
      r := c.GetDatastore(ds);
      Around(here, Here(), c.rules, plan, claims, c.secrets, things, OfOurs(), book);
      Conserves(here, sv, m, c.server, {});
      Recall(w, here.times);
      w' := if r.Found? then w.(phase := Working(Some(Known(ds, r.value, c.datastores.seen)), None)) else w;
    }

    /** Find the Database a live object refers to. */
    method ResolveDatabase(ghost w: Work<S, T, A>, ns: string, name: string)
        returns (r: Resolution<DatabaseSpec, DatabaseStatus>)
      requires Valid() && On(w)
      modifies c
      ensures Valid() && Same()
      ensures Drifted(old(c.server), c.server, c.others)
      ensures On(w)
      ensures r.Resolved? ==> r.k.name == name
      ensures old(c.Quiet()) ==> c.server == old(c.server) && Resolves(c.databases.Now(), ns, name, r)
    {
      hide Balanced, Conserved, Doomed, Lasting, OnlyLeft, Silent, Drifted, Strayed, Made, Noted, Onward;
      ghost var here, things, sv, m := Here(), OfOurs(), c.server, c.mishaps;
      ghost var q;
      r, q := c.ResolveDatabase(ns, name);
      Around(here, Here(), c.rules, plan, claims, c.secrets, things, OfOurs(), book);
      Conserves(here, sv, m, c.server, {});
      Recall(w, here.times);
    }

    /** Find a Database in the object's own namespace only. */
    method FindDatabase(ghost w: Work<S, T, A>, db: Key) returns (r: Reply<Obj<DatabaseSpec, DatabaseStatus>>)
      requires Valid() && On(w)
      modifies c
      ensures Valid() && Same()
      ensures Drifted(old(c.server), c.server, c.others)
      ensures On(w)
      ensures old(c.Quiet()) ==> c.server == old(c.server)
      ensures old(c.Quiet()) ==> r == if db in c.databases.Now() then Found(c.databases.Now()[db]) else NotFound
    {
      hide Balanced, Conserved, Doomed, Lasting, OnlyLeft, Silent, Drifted, Strayed, Made, Noted, Onward;
      ghost var here, things, sv, m := Here(), OfOurs(), c.server, c.mishaps;
      r := c.GetDatabase(db);
      Around(here, Here(), c.rules, plan, claims, c.secrets, things, OfOurs(), book);
      Conserves(here, sv, m, c.server, {});
      Recall(w, here.times);
    }

    /** Read the Secret of a Datastore. */
    method Secret(ghost w: Work<S, T, A>, ds: Key) returns (ok: bool)
      requires Valid() && On(w)
      modifies c
      ensures Valid() && Same()
      ensures Drifted(old(c.server), c.server, c.others)
      ensures On(w)
      ensures ds in c.secrets ==> c.Heard(ok)
      ensures ok ==> ds in c.secrets
      ensures old(c.Quiet()) ==> c.server == old(c.server) && ok == (ds in c.secrets)
    {
      hide Balanced, Conserved, Doomed, Lasting, OnlyLeft, Silent, Drifted, Strayed, Made, Noted, Onward;
      ghost var here, things, sv, m := Here(), OfOurs(), c.server, c.mishaps;
      ok := c.Secret(ds);
      Around(here, Here(), c.rules, plan, claims, c.secrets, things, OfOurs(), book);
      Conserves(here, sv, m, c.server, {});
      Recall(w, here.times);
    }

    /** Open a connection and ping it. */
    method Ping(ghost w: Work<S, T, A>, ds: Key, engine: Engine) returns (ok: bool)
      requires Valid() && On(w)
      modifies c
      ensures Valid() && Same()
      ensures Drifted(old(c.server), c.server, c.others)
      ensures On(w)
      ensures ok ==> engine != Unsupported
      ensures old(c.Quiet()) ==> c.server == old(c.server) && ok == (engine != Unsupported && ds in c.reachable)
    {
      hide Balanced, Conserved, Doomed, Lasting, OnlyLeft, Silent, Drifted, Strayed, Made, Noted, Onward;
      ghost var here, things, sv, m := Here(), OfOurs(), c.server, c.mishaps;
      ok := c.Ping(ds, engine);
      Around(here, Here(), c.rules, plan, claims, c.secrets, things, OfOurs(), book);
      Conserves(here, sv, m, c.server, {});
      Recall(w, here.times);
    }

    /** Read the Secret, open a connection and ping it. */
    method Connect(ghost w: Work<S, T, A>, ds: Key, engine: Engine) returns (ok: bool)
      requires Valid() && On(w)
      modifies c
      ensures Valid() && Same() && On(w)
      ensures Drifted(old(c.server), c.server, c.others)
      ensures ok ==> engine != Unsupported
      ensures old(c.Quiet()) ==> c.server == old(c.server) && ok == (engine != Unsupported && ds in c.reachable)
    {
      hide History, Balanced, OnlyLeft, Silent, On, Drifted, Timely;
      ok := Secret(w, ds);
      if ok {
        ghost var mid := c.server;
        ok := Ping(w, ds, engine);
        DriftedTransitively(old(c.server), mid, c.server, c.others);
      }
    }

    /** Ask the server a question. */
    method Ask(ghost w: Work<S, T, A>, question: Servers -> Option<bool>) returns (answer: Option<bool>)
      requires Valid() && On(w)
      modifies c
      ensures Valid() && Same()
      ensures Drifted(old(c.server), c.server, c.others)
      ensures On(w)
      ensures answer.Some? ==> answer == question(c.server)
      ensures old(c.Quiet()) ==> c.server == old(c.server) && answer == question(c.server)
    {
      hide Balanced, Conserved, Doomed, Lasting, OnlyLeft, Silent, Drifted, Strayed, Made, Noted, Onward;
      ghost var here, things, sv, m := Here(), OfOurs(), c.server, c.mishaps;
      answer := c.Ask(question);
      Around(here, Here(), c.rules, plan, claims, c.secrets, things, OfOurs(), book);
      Conserves(here, sv, m, c.server, {});
      Recall(w, here.times);
    }

    /** What is left to clean up, if anything. */
    function Target(w: Work<S, T, A>): set<Ext<A>> {
      if w.phase.Cleaning? && w.phase.target.Some? then {w.phase.target.value} else {}
    }

    /** Execute a statement that adds nothing of the controller's sort, and takes nothing away but what is
        to be cleaned up. */
    method Sql(ghost w: Work<S, T, A>, st: Statement) returns (ok: bool, ghost mid: Servers, ghost took: bool)
      requires Valid() && On(w) && AddsOnly(plan, st, {}) && RemovesOnly(plan, st, Target(w))
      modifies c
      ensures Valid() && Same() && On(w)
      ensures Drifted(old(c.server), mid, c.others)
      ensures if took
              then Accepts(mid, st) && c.server == Effect(mid, st, Moment(|c.objs.hist| - 1, |c.databases.hist|))
              else c.server == mid
      ensures Strayed(old(c.server), mid, old(c.strays), Unclaimed(c.strays, st, took))
      ensures ok ==> took
      ensures old(c.Quiet()) ==> mid == old(c.server) && took == ok == Accepts(mid, st)
    {
      hide Balanced, Conserved, Doomed, Lasting, OnlyLeft, Silent, Drifted, Strayed, Made, Accepts, Effect, Noted,
          Onward;
      ghost var here, things, sv, m := Here(), OfOurs(), c.server, c.mishaps;
      var refused;
      ok, refused, mid, took := c.Exec(st);
      Lessens(st, mid, took, {});
      Around(here, Here(), c.rules, plan, claims, c.secrets, things, OfOurs(), book);
      Conserves(here, sv, m, mid, Target(w));
      Recall(w, here.times);
    }

    /** Execute a statement that adds the thing that a live object asks for. */
    method SqlCreate(ghost w: Work<S, T, A>, st: Statement, ghost id: Ext<A>)
      returns (ok: bool, refused: bool, ghost mid: Servers, ghost took: bool)
      requires Valid() && On(w) && AddsOnly(plan, st, {id}) && RemovesOnly(plan, st, {}) && Puts(plan, st, id)
      requires w.phase.Working? && w.phase.store.Some? && id == Wanted(plan, w)
      requires w.phase.store.value.value.body.status.ready && id.ds.name == plan.ref(w.o.body.spec)
      modifies this, c
      ensures Valid() && Same() && On(w)
      ensures book == old(book)
              || book == old(book).(before := old(book).before - {id},
                                    origins := old(book).origins[id := Origin(w.k, w.at, w.phase.store.value.q, None)])
      ensures Drifted(old(c.server), mid, c.others)
      ensures if took
              then Accepts(mid, st) && c.server == Effect(mid, st, Moment(|c.objs.hist| - 1, |c.databases.hist|))
              else c.server == mid
      ensures Strayed(old(c.server), mid, old(c.strays), Unclaimed(c.strays, st, took))
      ensures ok ==> took
      ensures refused ==> !Accepts(mid, st) && !took
      ensures old(c.Quiet()) ==> mid == old(c.server) && took == ok == Accepts(mid, st) && refused == !ok
    {
      hide Balanced, Conserved, Doomed, Lasting, OnlyLeft, Silent, Drifted, Strayed, Made, Accepts, Effect, Noted,
        Onward, StepAt, NotAfter;
      ghost var here, things, sv, m := Here(), OfOurs(), c.server, c.mishaps;
      ok, refused, mid, took := c.Exec(st);
      ghost var x := Unclaimed(c.strays, st, took);
      Around(here, Here(), c.rules, plan, claims, c.secrets, things, Made(plan, mid, x), book);
      Conserves(here, sv, m, mid, {});
      Recall(w, here.times);
      if took {
        ghost var o := Origin(w.k, w.at, w.phase.store.value.q, None);
        Lessens(st, mid, took, {id});
        Creating(Here(), plan, claims, c.secrets, Made(plan, mid, x), OfOurs(), book, id, o);
        PutsBack(id, o);
        book := book.(before := book.before - {id}, origins := book.origins[id := o]);
      }
    }

    /** A statement adds nothing to what no others made but `ids`. */
    lemma Lessens(st: Statement, mid: Servers, took: bool, ids: set<Ext<A>>)
      requires c.objs.Ok() && AddsOnly(plan, st, ids)
      requires took ==> Accepts(mid, st) && c.strays !! Claimed(st)
      requires c.server == if took then Effect(mid, st, Moment(|c.objs.hist| - 1, |c.databases.hist|)) else mid
      ensures OfOurs() <= Made(plan, mid, Unclaimed(c.strays, st, took)) + ids
    {
      hide Accepts, Effect;
      var x := Unclaimed(c.strays, st, took);
      assert took ==> c.strays == x - Claimed(st);
      assert !took ==> x == c.strays;
    }

    /** One thing more to keep, which is in place. */
    lemma PutsBack(id: Ext<A>, o: Origin)
      requires Conserved(c.objs, c.datastores, plan, first + book.origins.Keys, plan.things(c.server), c.mishaps)
      requires id in plan.things(c.server)
      ensures Conserved(c.objs, c.datastores, plan, first + book.origins[id := o].Keys, plan.things(c.server),
                c.mishaps)
    {
    }

    /** Note that the thing the object asks for stands on the server. */
    lemma Stands(w: Work<S, T, A>) returns (w': Work<S, T, A>)
      requires Valid() && On(w) && w.phase.Working? && w.phase.store.Some?
      requires Wanted(plan, w) in plan.things(c.server)
      ensures w'.phase.Working? && w'.phase.stood.Some? && w' == w.(phase := w.phase.(stood := w'.phase.stood))
                && On(w')
    {
      hide Balanced, Conserved, Doomed, Lasting, OnlyLeft;
      w' := w.(phase := w.phase.(stood := Some(|c.times.past| - 1)));
    }

    /** Put the work on the books. */
    ghost method Vouch(w: Work<S, T, A>)
      requires Valid() && On(w) && plan.finalizer in w.o.body.finalizers
      modifies this
      ensures Valid() && On(w)
      ensures book == old(book).(vouched := old(book).vouched + [w])
    {
      book := book.(vouched := book.vouched + [w]);
    }

    /** Look up the Datastore of a deleting object that was just fetched. */
    method LookUp(k: Key, o: Obj<S, T>, ghost at: nat, ds: Key)
      returns (r: Reply<Obj<DatastoreSpec, ReadyStatus>>, ghost w: Work<S, T, A>)
      requires Valid() && at == c.objs.seen && k in c.objs.Cached() && c.objs.Cached()[k] == o
      requires o.body.deleting
      requires ds == Key(k.ns, plan.ref(o.body.spec))
      modifies c
      ensures Valid() && Same()
      ensures Drifted(old(c.server), c.server, c.others)
      ensures w == Work(k, o, at, w.phase) && at <= c.objs.seen && Copy(w)
      ensures !r.Failed? ==> On(w)
      ensures r.NotFound? ==> w.phase == Cleaning(None) && ds !in c.datastores.Cached()
      ensures r.Found? ==>
                w.phase == Cleaning(Some(Ext(ds, plan.what(k, o.body.spec, EngineOf(r.value.body.spec.datastoreType)))))
      ensures c.Heard(!r.Failed?)
      ensures old(c.Quiet()) ==> c.server == old(c.server)
      ensures old(c.Quiet()) ==> r == if ds in c.datastores.Now() then Found(c.datastores.Now()[ds]) else NotFound
    {
      hide Caused, Reasoned, AllVouched, Conserved, Lasting, OnlyLeft, Silent, Drifted, Strayed, Made, Noted, Onward;
      ghost var here, things, sv, m := Here(), OfOurs(), c.server, c.mishaps;
      r := c.GetDatastore(ds);
      Around(here, Here(), c.rules, plan, claims, c.secrets, things, OfOurs(), book);
      Conserves(here, sv, m, c.server, {});
      LookingUpSettles(c.objs, c.datastores, plan, c.rules, Things(), book.origins, k, at);
      if r.Found? {
        ghost var id := Ext(ds, plan.what(k, o.body.spec, EngineOf(r.value.body.spec.datastoreType)));
        assert Dooms(c.objs, c.datastores, plan, id, k, at, c.datastores.seen);
      }
      w := Work(k, o, at, Cleaning(
        if r.Found? then Some(Ext(ds, plan.what(k, o.body.spec, EngineOf(r.value.body.spec.datastoreType))))
        else None));
    }

    /** Take the finalizer off a deleting object for which nothing is left to clean up. */
    method Release(ghost w: Work<S, T, A>, k: Key, o: Obj<S, T>, rest: seq<string>) returns (ok: bool)
      requires Valid() && On(w) && w.k == k && w.o == o && w.phase == Cleaning(None)
      requires rest == RemoveFinalizer(o.body.finalizers, plan.finalizer)
      modifies c
      ensures Valid() && c.Elapsed()
      ensures Drifted(old(c.server), c.server, c.others)
      ensures old(c.Quiet()) && k in old(c.objs.Now()) && old(c.objs.Now())[k] == o ==>
                && ok && c.server == old(c.server)
                && c.datastores.hist == old(c.datastores.hist) && c.databases.hist == old(c.databases.hist)
                && View(c.objs.Now()) == PutBody(old(View(c.objs.Now())), k, o.body.(finalizers := rest))
    {
      hide Balanced, Conserved, Doomed, Lasting, OnlyLeft, Silent, Drifted, Strayed, Made, Noted, Onward, NoneLost;
      ghost var here, things, sv, m := Here(), OfOurs(), c.server, c.mishaps;
      var bare := o.body.(finalizers := rest);
      ghost var mid, taken;
      var r;
      r, mid, taken := c.Update(k, o.(body := bare), w.at);
      ok := r.Found?;
      ghost var amid := here.(objs := mid, stores := c.datastores, times := UpTo(c.times, |mid.hist|),
          lost := c.mishaps.lost);
      Conserves(here, sv, m, c.server, {});
      AroundRelease(here, amid, Here(), c.rules, plan, claims, c.secrets, things, OfOurs(), book, k,
          o.uid, taken);
      if taken {
        PutShows(mid, k, bare, c.rules);
      }
    }

    /** Give up on cleaning up after a deleting object that was just fetched, for a reason. */
    ghost method Forsake(k: Key, o: Obj<S, T>, at: nat, reason: Reason) returns (w: Work<S, T, A>)
      requires Valid() && !careful && at <= c.objs.seen && k in c.objs.hist[at] && c.objs.hist[at][k] == o
      requires o.body.deleting
      requires Unread(c.objs, c.datastores, c.secrets, c.mishaps.lost, plan, k, reason)
      modifies this
      ensures Valid()
      ensures book == old(book).(origins := Forsaking(c.objs, old(book).origins, k, o.uid, reason))
      ensures w == Work(k, o, at, Cleaning(None)) && On(w)
    {
      hide Accounted, OnlyLeft, Caused, AllVouched, Unread;
      ForsakingKeeps(c.objs, c.datastores, plan, Things(), book.origins, k, o.uid, reason);
      book := book.(origins := Forsaking(c.objs, book.origins, k, o.uid, reason));
      w := Work(k, o, at, Cleaning(None));
    }

    /** There is something to be read in every store. */
    lemma Readable()
      requires Valid()
      ensures c.objs.Ok() && c.datastores.Ok() && c.databases.Ok()
    {
      hide Kept;
    }

    lemma VouchedFor(i: nat)
      requires Valid() && i < |book.vouched|
      ensures Vouched(c.objs, c.datastores, plan, book.vouched[i])
    {
      hide Accounted, Caused, Reasoned, Conserved, Exclusive, Lasting;
    }

    lemma Remembers(w: Work<S, T, A>)
      requires Valid() && On(w)
      ensures Copy(w) && (w.phase.Cleaning? ==> w.at <= c.objs.seen)
      ensures w.phase.Working? ==> plan.finalizer in w.o.body.finalizers
    {
    }

    lemma Cleared(w: Work<S, T, A>)
      requires Valid() && On(w) && w.phase.Cleaning? && w.phase.target.Some?
      requires w.phase.target.value !in plan.things(c.server)
      ensures On(w.(phase := Cleaning(None)))
    {
    }
  }
}
