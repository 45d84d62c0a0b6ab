/** The API server as the controllers meet it: one versioned store per resource kind, with
    optimistic concurrency on writes, finalizers that hold back deletion, and reads served by a
    watch cache that lags behind the store but never moves backwards. */
module Api {

  datatype Option<+T> = None | Some(value: T)

  datatype Key = Key(ns: string, name: string)

  datatype Body<+S, +T> = Body(finalizers: seq<string>, deleting: bool, spec: S, status: T)

  /** `uid` and `rv` are positions in the history of the kind: the version that created the object
      and the version that last wrote it. */
  datatype Obj<+S, +T> = Obj(uid: nat, rv: nat, body: Body<S, T>)

  type Objs<+S, +T> = map<Key, Obj<S, T>>

  /** Every version the store of one kind ever had, newest last, and the version the cache shows. */
  datatype Kind<+S, +T> = Kind(hist: seq<Objs<S, T>>, seen: nat) {
    predicate Ok() {
      seen < |hist|
    }

    function Now(): Objs<S, T>
      requires Ok()
    {
      hist[|hist| - 1]
    }

    function Cached(): Objs<S, T>
      requires Ok()
    {
      hist[seen]
    }
  }

  /** What the controller of a kind stands by, its finalizer, the status an object starts with and
      which status may follow which; and which edits of a specification admission lets pass. */
  datatype Rules<!S, !T> = Rules(finalizer: string, blank: T, lawful: (T, T) -> bool, admits: (S, S) -> bool)

  ghost predicate Sound<S(!new), T(!new)>(rules: Rules<S, T>) {
    && (forall t :: rules.lawful(t, t))
    && (forall s, t, u :: rules.lawful(s, t) && rules.lawful(t, u) ==> rules.lawful(s, u))
    && (forall s :: rules.admits(s, s))
    && (forall s, t, u :: rules.admits(s, t) && rules.admits(t, u) ==> rules.admits(s, u))
  }

  /** The contents of a store version without its bookkeeping. */
  function View<S, T>(m: Objs<S, T>): map<Key, Body<S, T>> {
    map k | k in m :: m[k].body
  }

  function PutBody<S, T>(m: map<Key, Body<S, T>>, k: Key, body: Body<S, T>): map<Key, Body<S, T>> {
    if body.deleting && body.finalizers == [] then m - {k} else m[k := body]
  }

  // ---------------------------------------------------------------- finalizer lists

  function AddFinalizer(fins: seq<string>, f: string): (r: seq<string>)
    ensures f in r
    ensures forall g :: g != f ==> (g in r <==> g in fins)
  {
    if f in fins then fins else fins + [f]
  }

  function RemoveFinalizer(fins: seq<string>, f: string): (r: seq<string>)
    ensures f !in r
    ensures forall g :: g != f ==> (g in r <==> g in fins)
  {
    if fins == [] then []
    else if fins[0] == f then RemoveFinalizer(fins[1..], f)
    else [fins[0]] + RemoveFinalizer(fins[1..], f)
  }

  /** What keeps an object once its finalizer is off: other finalizers. */
  lemma KeptByOthers(fins: seq<string>, f: string)
    ensures RemoveFinalizer(fins, f) != [] <==> exists g :: g in fins && g != f
  {
    var r := RemoveFinalizer(fins, f);
    if r != [] {
      assert r[0] in r;
    }
  }

  // ---------------------------------------------------------------- store writes

  function Append<S, T>(kd: Kind<S, T>, next: Objs<S, T>): Kind<S, T> {
    kd.(hist := kd.hist + [next])
  }

  /** Store a new body for a present object. Writing what is already there is no write at all, and
      a deleting object goes away with its last finalizer. */
  function Put<S(==), T(==)>(kd: Kind<S, T>, k: Key, body: Body<S, T>): Kind<S, T>
    requires kd.Ok() && k in kd.Now()
  {
    var cur := kd.Now()[k];
    if body == cur.body then kd
    else if body.deleting && body.finalizers == [] then Append(kd, kd.Now() - {k})
    else Append(kd, kd.Now()[k := Obj(cur.uid, |kd.hist|, body)])
  }

  /** A write carrying a copy of the object is accepted only if the copy is current. */
  predicate Current<S, T>(kd: Kind<S, T>, k: Key, o: Obj<S, T>)
    requires kd.Ok()
  {
    k in kd.Now() && kd.Now()[k].rv == o.rv
  }

  /** `Update` writes metadata and spec; `UpdateStatus` writes the status subresource. */
  function Update<S(==), T(==)>(kd: Kind<S, T>, k: Key, o: Obj<S, T>): Kind<S, T>
    requires kd.Ok()
  {
    if Current(kd, k, o)
    then Put(kd, k, kd.Now()[k].body.(finalizers := o.body.finalizers, spec := o.body.spec))
    else kd
  }

  function UpdateStatus<S(==), T(==)>(kd: Kind<S, T>, k: Key, o: Obj<S, T>): Kind<S, T>
    requires kd.Ok()
  {
    if Current(kd, k, o)
    then Put(kd, k, kd.Now()[k].body.(status := o.body.status))
    else kd
  }

  // ---------------------------------------------------------------- everybody else

  /** What other clients do to objects of a kind. They may set and clear finalizers of their own;
      the controller's finalizer is only ever cleared by the controller. */
  datatype Move<+S> =
    | Create(k: Key, spec: S, finalizers: seq<string>)
    | Edit(k: Key, spec: S, finalizers: seq<string>)
    | Delete(k: Key)

  function ApplyMove<S(==), T(==)>(kd: Kind<S, T>, m: Move<S>, rules: Rules<S, T>): Kind<S, T>
    requires kd.Ok()
  {
    match m
    case Create(k, spec, fins) =>
      if k in kd.Now() then kd
      else Append(kd, kd.Now()[k := Obj(|kd.hist|, |kd.hist|, Body(fins, false, spec, rules.blank))])
    case Edit(k, spec, fins) =>
      if k in kd.Now() && (rules.finalizer in kd.Now()[k].body.finalizers ==> rules.finalizer in fins)
         && rules.admits(kd.Now()[k].body.spec, spec)
      then Put(kd, k, kd.Now()[k].body.(spec := spec, finalizers := fins))
      else kd
    case Delete(k) =>
      if k !in kd.Now() then kd
      else Put(kd, k, kd.Now()[k].body.(deleting := true))
  }

  function ApplyMoves<S(==), T(==)>(kd: Kind<S, T>, ms: seq<Move<S>>, rules: Rules<S, T>): (r: Kind<S, T>)
    requires kd.Ok()
    ensures r.Ok() && Grew(kd, r)
    decreases |ms|
  {
    if ms == [] then kd else ApplyMoves(ApplyMove(kd, ms[0], rules), ms[1..], rules)
  }

  /** The cache catches up to position `p`, or as far as there is anything to see. */
  function See<S, T>(kd: Kind<S, T>, p: nat): (r: Kind<S, T>)
    requires kd.Ok()
    ensures r.Ok() && Grew(kd, r) && r.hist == kd.hist
  {
    kd.(seen := if p <= kd.seen then kd.seen else if p < |kd.hist| then p else |kd.hist| - 1)
  }

  // ---------------------------------------------------------------- laws of a history

  ghost predicate Grew<S, T>(a: Kind<S, T>, b: Kind<S, T>) {
    && |a.hist| <= |b.hist|
    && (forall i :: 0 <= i < |a.hist| ==> b.hist[i] == a.hist[i])
    && a.seen <= b.seen
  }

  predicate Holds<S, T>(m: Objs<S, T>, k: Key, f: string) {
    k in m && f in m[k].body.finalizers
  }

  /** One version to the next, whoever wrote it. Objects start with the blank status and move on
      lawfully, deletion is never undone, a finalizer leaves only a deleting object, and a deleting
      object is gone with its last finalizer. */
  ghost predicate LegalStep<S(!new), T(!new)>(a: Objs<S, T>, b: Objs<S, T>, n: nat, rules: Rules<S, T>) {
    && (forall k :: k in b && k !in a ==>
          b[k].uid == n && b[k].rv == n && !b[k].body.deleting && b[k].body.status == rules.blank)
    && (forall k :: k in a && k in b ==>
          || b[k] == a[k]
          || (b[k].uid == a[k].uid && b[k].rv == n && (a[k].body.deleting ==> b[k].body.deleting)))
    && (forall k :: k in b && b[k].body.deleting ==> b[k].body.finalizers != [])
    && (forall k :: k in a && k in b ==>
          && rules.lawful(a[k].body.status, b[k].body.status)
          && rules.admits(a[k].body.spec, b[k].body.spec))
    && (forall k :: Holds(a, k, rules.finalizer) && !Holds(b, k, rules.finalizer) ==> a[k].body.deleting)
  }

  ghost predicate StepAt<S(!new), T(!new)>(h: seq<Objs<S, T>>, i: int, rules: Rules<S, T>)
    requires 0 < i < |h|
  {
    LegalStep(h[i - 1], h[i], i, rules)
  }

  ghost predicate Lost<S(!new), T(!new)>(h: seq<Objs<S, T>>, i: int, k: Key, f: string) {
    0 < i < |h| && Holds(h[i - 1], k, f) && !Holds(h[i], k, f)
  }

  /** Whenever the finalizer left an object, the copy that was written is one the cache has shown. */
  ghost predicate ReleasedBehind<S(!new), T(!new)>(kd: Kind<S, T>, f: string) {
    forall i, k :: Lost(kd.hist, i, k, f) ==> kd.hist[i - 1][k].rv <= kd.seen
  }

  /** A history as the API server and one controller make it, starting from an empty store. */
  ghost predicate History<S(!new), T(!new)>(kd: Kind<S, T>, rules: Rules<S, T>) {
    && Sound(rules)
    && kd.Ok()
    && kd.hist[0] == map[]
    && (forall i :: 0 < i < |kd.hist| ==> StepAt(kd.hist, i, rules))
    && ReleasedBehind(kd, rules.finalizer)
  }

  /** Every object that holds the finalizer keeps it, and is not replaced. */
  ghost predicate Keeps<S(!new), T(!new)>(a: Objs<S, T>, b: Objs<S, T>, f: string) {
    forall k :: Holds(a, k, f) ==> Holds(b, k, f) && b[k].uid == a[k].uid
  }

  /** From `a` to `b` nobody wrote a status: objects keep the one they had, or are new. */
  ghost predicate Silent<S(!new), T(!new)>(a: Kind<S, T>, b: Kind<S, T>, blank: T)
    requires a.Ok()
  {
    forall i, k :: |a.hist| <= i < |b.hist| && k in b.hist[i] ==>
      || b.hist[i][k].body.status == blank
      || (k in a.Now() && b.hist[i][k].uid == a.Now()[k].uid
          && b.hist[i][k].body.status == a.Now()[k].body.status)
  }

  /** From `a` to `b` nobody lost the finalizer. */
  ghost predicate NoneLost<S(!new), T(!new)>(a: Kind<S, T>, b: Kind<S, T>, f: string) {
    forall i, k :: |a.hist| <= i < |b.hist| ==> !Lost(b.hist, i, k, f)
  }

  /** What a store goes through while the controller itself writes nothing but finalizers, and takes
      none off. */
  ghost predicate Passed<S(!new), T(!new)>(a: Kind<S, T>, b: Kind<S, T>, rules: Rules<S, T>) {
    && a.Ok() && b.Ok() && Grew(a, b)
    && Keeps(a.Now(), b.Now(), rules.finalizer) && NoneLost(a, b, rules.finalizer)
    && Silent(a, b, rules.blank)
  }

  lemma PassedTransitively<S(!new), T(!new)>(a: Kind<S, T>, b: Kind<S, T>, c: Kind<S, T>, rules: Rules<S, T>)
    requires Passed(a, b, rules) && Passed(b, c, rules)
    ensures Passed(a, c, rules)
  {
    assert b.Now() == b.hist[|b.hist| - 1] == c.hist[|b.hist| - 1];
    forall i, k | |a.hist| <= i < |c.hist| ensures !Lost(c.hist, i, k, rules.finalizer) {
      if i < |b.hist| {
        assert !Lost(b.hist, i, k, rules.finalizer);
      }
    }
    forall i, k | |a.hist| <= i < |c.hist| && k in c.hist[i]
      ensures || c.hist[i][k].body.status == rules.blank
              || (k in a.Now() && c.hist[i][k].uid == a.Now()[k].uid
                  && c.hist[i][k].body.status == a.Now()[k].body.status)
    {
      if i < |b.hist| {
        assert c.hist[i] == b.hist[i];
      } else if |a.hist| == |b.hist| {
        assert b.hist[|a.hist| - 1] == a.hist[|a.hist| - 1];
      }
    }
  }

  // ---------------------------------------------------------------- consequences

  lemma {:induction false} RvBound<S(!new), T(!new)>(kd: Kind<S, T>, rules: Rules<S, T>, i: nat, k: Key)
    requires History(kd, rules) && i < |kd.hist| && k in kd.hist[i]
    ensures 0 < kd.hist[i][k].uid <= kd.hist[i][k].rv <= i
  {
    assert StepAt(kd.hist, i, rules);
    if k in kd.hist[i - 1] {
      RvBound(kd, rules, i - 1, k);
    }
  }

  /** An object is the same at every version from the one that wrote it on. */
  lemma {:induction false} Stable<S(!new), T(!new)>(kd: Kind<S, T>, rules: Rules<S, T>, j: nat, i: nat, k: Key)
    requires History(kd, rules) && j <= i < |kd.hist| && k in kd.hist[i] && kd.hist[i][k].rv <= j
    ensures k in kd.hist[j] && kd.hist[j][k] == kd.hist[i][k]
  {
    if j < i {
      assert StepAt(kd.hist, i, rules);
      Stable(kd, rules, j, i - 1, k);
    }
  }

  /** Two versions that agree on an object's resource version agree on the object. */
  lemma SameRv<S(!new), T(!new)>(kd: Kind<S, T>, rules: Rules<S, T>, i: nat, j: nat, k: Key)
    requires History(kd, rules) && i <= j < |kd.hist|
    requires k in kd.hist[i] && k in kd.hist[j] && kd.hist[i][k].rv == kd.hist[j][k].rv
    ensures kd.hist[i][k] == kd.hist[j][k]
  {
    RvBound(kd, rules, i, k);
    Stable(kd, rules, i, j, k);
  }

  /** An incarnation exists from its creation on without a gap, deletion is never undone, and its
      status and specification move only as the rules allow. */
  lemma {:induction false} Incarnation<S(!new), T(!new)>(kd: Kind<S, T>, rules: Rules<S, T>, i: nat, j: nat, k: Key)
    requires History(kd, rules) && i <= j < |kd.hist| && k in kd.hist[j] && kd.hist[j][k].uid <= i
    ensures k in kd.hist[i] && kd.hist[i][k].uid == kd.hist[j][k].uid
    ensures kd.hist[i][k].body.deleting ==> kd.hist[j][k].body.deleting
    ensures rules.lawful(kd.hist[i][k].body.status, kd.hist[j][k].body.status)
    ensures rules.admits(kd.hist[i][k].body.spec, kd.hist[j][k].body.spec)
  {
    if i < j {
      assert StepAt(kd.hist, j, rules);
      Incarnation(kd, rules, i, j - 1, k);
    }
  }

  /** Every status in the store is one the rules lead to from the blank one. */
  lemma FromBlank<S(!new), T(!new)>(kd: Kind<S, T>, rules: Rules<S, T>, i: nat, k: Key)
    requires History(kd, rules) && i < |kd.hist| && k in kd.hist[i]
    ensures rules.lawful(rules.blank, kd.hist[i][k].body.status)
  {
    RvBound(kd, rules, i, k);
    var u := kd.hist[i][k].uid;
    Incarnation(kd, rules, u, i, k);
    assert StepAt(kd.hist, u, rules);
    if k in kd.hist[u - 1] {
      RvBound(kd, rules, u - 1, k);
      assert false;
    }
  }

  /** A live object that shows its finalizer at or ahead of the cache holds it to this day: no pass
      working from the cache can have released it. */
  lemma {:induction false} LiveAhead<S(!new), T(!new)>(kd: Kind<S, T>, rules: Rules<S, T>, i: nat, j: nat, k: Key)
    requires History(kd, rules)
    requires kd.seen <= i <= j < |kd.hist|
    requires Holds(kd.hist[i], k, rules.finalizer) && !kd.hist[i][k].body.deleting
    ensures Holds(kd.hist[j], k, rules.finalizer) && kd.hist[j][k].uid == kd.hist[i][k].uid
  {
    if i < j {
      LiveAhead(kd, rules, i, j - 1, k);
      assert StepAt(kd.hist, j, rules);
      if !Holds(kd.hist[j], k, rules.finalizer) {
        assert Lost(kd.hist, j, k, rules.finalizer);
        Stable(kd, rules, i, j - 1, k);
        assert false;
      }
    }
  }

  lemma NoneLinger<S(!new), T(!new)>(kd: Kind<S, T>, rules: Rules<S, T>)
    requires History(kd, rules)
    ensures forall k :: k in kd.Now() && kd.Now()[k].body.deleting ==> kd.Now()[k].body.finalizers != []
  {
    if |kd.hist| > 1 {
      assert StepAt(kd.hist, |kd.hist| - 1, rules);
    }
  }

  // ---------------------------------------------------------------- what writes preserve

  lemma AppendKeeps<S(!new), T(!new)>(kd: Kind<S, T>, next: Objs<S, T>, rules: Rules<S, T>)
    requires History(kd, rules)
    requires LegalStep(kd.Now(), next, |kd.hist|, rules)
    requires forall k :: Holds(kd.Now(), k, rules.finalizer) && !Holds(next, k, rules.finalizer) ==>
               kd.Now()[k].rv <= kd.seen
    ensures History(Append(kd, next), rules)
    ensures Grew(kd, Append(kd, next))
  {
    var r := Append(kd, next);
    forall i | 0 < i < |r.hist| ensures StepAt(r.hist, i, rules) {
      if i < |kd.hist| {
        assert StepAt(kd.hist, i, rules);
      }
    }
    forall i, k | Lost(r.hist, i, k, rules.finalizer) ensures r.hist[i - 1][k].rv <= r.seen {
      if i < |kd.hist| {
        assert Lost(kd.hist, i, k, rules.finalizer);
      }
    }
  }

  lemma PutIsLegal<S(!new), T(!new)>(kd: Kind<S, T>, k: Key, body: Body<S, T>, rules: Rules<S, T>)
    requires History(kd, rules) && k in kd.Now() && body != kd.Now()[k].body
    requires kd.Now()[k].body.deleting ==> body.deleting
    requires rules.lawful(kd.Now()[k].body.status, body.status) && rules.admits(kd.Now()[k].body.spec, body.spec)
    requires rules.finalizer in kd.Now()[k].body.finalizers && rules.finalizer !in body.finalizers ==>
               kd.Now()[k].body.deleting
    ensures LegalStep(kd.Now(), Put(kd, k, body).Now(), |kd.hist|, rules)
  {
    hide History, Put, LegalStep;
    NoneLinger(kd, rules);
    AlwaysSound(kd, rules);
    PutNow(kd, k, body);
    if body.deleting && body.finalizers == [] {
      RemovingIsLegal(kd.Now(), k, |kd.hist|, rules);
    } else {
      ReplacingIsLegal(kd.Now(), k, body, |kd.hist|, rules);
    }
  }

  lemma RemovingIsLegal<S(!new), T(!new)>(a: Objs<S, T>, k: Key, n: nat, rules: Rules<S, T>)
    requires Sound(rules) && k in a
    requires forall g :: g in a && a[g].body.deleting ==> a[g].body.finalizers != []
    requires rules.finalizer in a[k].body.finalizers ==> a[k].body.deleting
    ensures LegalStep(a, a - {k}, n, rules)
  {
  }

  lemma ReplacingIsLegal<S(!new), T(!new)>(a: Objs<S, T>, k: Key, body: Body<S, T>, n: nat, rules: Rules<S, T>)
    requires Sound(rules) && k in a
    requires forall g :: g in a && a[g].body.deleting ==> a[g].body.finalizers != []
    requires a[k].body.deleting ==> body.deleting
    requires body.deleting ==> body.finalizers != []
    requires rules.lawful(a[k].body.status, body.status) && rules.admits(a[k].body.spec, body.spec)
    requires rules.finalizer in a[k].body.finalizers && rules.finalizer !in body.finalizers ==> a[k].body.deleting
    ensures LegalStep(a, a[k := Obj(a[k].uid, n, body)], n, rules)
  {
  }

  lemma AlwaysSound<S(!new), T(!new)>(kd: Kind<S, T>, rules: Rules<S, T>)
    requires History(kd, rules)
    ensures Sound(rules) && kd.Ok()
  {
  }

  /** What a write leaves in the store. */
  lemma PutNow<S(!new), T(!new)>(kd: Kind<S, T>, k: Key, body: Body<S, T>)
    requires kd.Ok() && k in kd.Now() && body != kd.Now()[k].body
    ensures Put(kd, k, body).Ok()
    ensures Put(kd, k, body).Now() == if body.deleting && body.finalizers == [] then kd.Now() - {k}
                                      else kd.Now()[k := Obj(kd.Now()[k].uid, |kd.hist|, body)]
  {
  }

  /** Any write of a present object is lawful when it keeps deletion marks, moves the status as the
      rules allow, and either keeps the finalizer or releases a deleting copy the cache has shown. */
  lemma PutKeeps<S(!new), T(!new)>(kd: Kind<S, T>, k: Key, body: Body<S, T>, rules: Rules<S, T>)
    requires History(kd, rules) && k in kd.Now()
    requires kd.Now()[k].body.deleting ==> body.deleting
    requires rules.lawful(kd.Now()[k].body.status, body.status) && rules.admits(kd.Now()[k].body.spec, body.spec)
    requires rules.finalizer in kd.Now()[k].body.finalizers && rules.finalizer !in body.finalizers ==>
               kd.Now()[k].body.deleting && kd.Now()[k].rv <= kd.seen
    ensures var r := Put(kd, k, body);
            && History(r, rules) && Grew(kd, r)
            && (rules.finalizer in body.finalizers || rules.finalizer !in kd.Now()[k].body.finalizers ==>
                  Keeps(kd.Now(), r.Now(), rules.finalizer) && NoneLost(kd, r, rules.finalizer))
            && (forall g :: g != k && g in kd.Now() ==> g in r.Now() && r.Now()[g] == kd.Now()[g])
            && (body.status == kd.Now()[k].body.status ==> Silent(kd, r, rules.blank))
  {
    hide StepAt, LegalStep, ReleasedBehind;
    if body != kd.Now()[k].body {
      RvBound(kd, rules, |kd.hist| - 1, k);
      PutIsLegal(kd, k, body, rules);
      var next := Put(kd, k, body).Now();
      assert Put(kd, k, body) == Append(kd, next);
      AppendKeeps(kd, next, rules);
    }
  }

  lemma PutShows<S(!new), T(!new)>(kd: Kind<S, T>, k: Key, body: Body<S, T>, rules: Rules<S, T>)
    requires History(kd, rules) && k in kd.Now()
    ensures View(Put(kd, k, body).Now()) == PutBody(View(kd.Now()), k, body)
  {
    NoneLinger(kd, rules);
  }

  lemma CreationKeeps<S(!new), T(!new)>(kd: Kind<S, T>, k: Key, spec: S, fins: seq<string>, rules: Rules<S, T>)
    requires History(kd, rules) && k !in kd.Now()
    ensures var r := Append(kd, kd.Now()[k := Obj(|kd.hist|, |kd.hist|, Body(fins, false, spec, rules.blank))]);
            History(r, rules) && Passed(kd, r, rules)
  {
    NoneLinger(kd, rules);
    AppendKeeps(kd, kd.Now()[k := Obj(|kd.hist|, |kd.hist|, Body(fins, false, spec, rules.blank))], rules);
  }

  lemma MoveKeeps<S(!new), T(!new)>(kd: Kind<S, T>, m: Move<S>, rules: Rules<S, T>)
    requires History(kd, rules)
    ensures var r := ApplyMove(kd, m, rules);
            History(r, rules) && Passed(kd, r, rules)
  {
    hide StepAt, ReleasedBehind;
    match m
    case Create(k, spec, fins) =>
      if k !in kd.Now() {
        CreationKeeps(kd, k, spec, fins, rules);
      }
    case Edit(k, spec, fins) =>
      if k in kd.Now() && (rules.finalizer in kd.Now()[k].body.finalizers ==> rules.finalizer in fins)
         && rules.admits(kd.Now()[k].body.spec, spec) {
        PutKeeps(kd, k, kd.Now()[k].body.(spec := spec, finalizers := fins), rules);
      }
    case Delete(k) =>
      if k in kd.Now() {
        PutKeeps(kd, k, kd.Now()[k].body.(deleting := true), rules);
      }
  }

  lemma {:induction false} MovesKeep<S(!new), T(!new)>(kd: Kind<S, T>, ms: seq<Move<S>>, rules: Rules<S, T>)
    requires History(kd, rules)
    ensures var r := ApplyMoves(kd, ms, rules);
            History(r, rules) && Passed(kd, r, rules)
    decreases |ms|
  {
    if ms != [] {
      MoveKeeps(kd, ms[0], rules);
      var mid := ApplyMove(kd, ms[0], rules);
      MovesKeep(mid, ms[1..], rules);
      PassedTransitively(kd, mid, ApplyMoves(mid, ms[1..], rules), rules);
    }
  }
}
