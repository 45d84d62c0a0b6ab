/** The Datastore controller: it finds the Secret with the password, tries to connect, and says so. */
module DatastoreController {
  import opened Api
  import opened Server
  import opened Cluster
  import opened ConnectionStrings

  const BLANK := ReadyStatus("", false)

  predicate Coherent(s: ReadyStatus) {
    s.phase == "Ready" <==> s.ready
  }

  predicate Follows(s: ReadyStatus, t: ReadyStatus) {
    Coherent(s) ==> Coherent(t)
  }

  /** Datastores carry no finalizer of their own. */
  const RULES: Rules<DatastoreSpec, ReadyStatus> := Rules("", BLANK, (s, t) => Follows(s, t), (s, t) => true)

  /** Secrets and their data. */
  type Vault = map<Key, map<string, string>>

  type Own = Obj<DatastoreSpec, ReadyStatus>
  type Datastores = Kind<DatastoreSpec, ReadyStatus>
  type Bodies = map<Key, Body<DatastoreSpec, ReadyStatus>>

  /** The data of the Secret has the password, and a server accepts the connection string. */
  predicate Opens(spec: DatastoreSpec, name: string, data: map<string, string>, accepts: string -> bool) {
    var key := if spec.passwordKey == "" then "password" else spec.passwordKey;
    && key in data && EngineOf(spec.datastoreType) != Unsupported
    && accepts(Build(spec.datastoreType, name, spec.host, spec.username, data[key], spec.port, spec.sslMode,
         spec.instance))
  }

  /** The same, said by the key that the specification names, or "password" if it names none: the data have a
      password there, the type is known, and a server accepts the connection string with it. */
  predicate Unlocks(spec: DatastoreSpec, name: string, data: map<string, string>, accepts: string -> bool) {
    && spec.datastoreType in KNOWN_TYPES
    && (spec.passwordKey != "" ==> spec.passwordKey in data && Lets(spec, name, data[spec.passwordKey], accepts))
    && (spec.passwordKey == "" ==> "password" in data && Lets(spec, name, data["password"], accepts))
  }

  predicate Lets(spec: DatastoreSpec, name: string, password: string, accepts: string -> bool) {
    accepts(Build(spec.datastoreType, name, spec.host, spec.username, password, spec.port, spec.sslMode, spec.instance))
  }

  /** What one pass over `k` does when nobody interferes and no call is lost; `found` is where the
      reference to the Secret leads. */
  function Pass(stores: Bodies, vault: Vault, accepts: string -> bool, k: Key, found: Option<Key>): Bodies {
    if k !in stores then stores
    else stores[k := stores[k].(status := Verdict(stores[k].spec, vault, accepts, k, found))]
  }

  function Verdict(spec: DatastoreSpec, vault: Vault, accepts: string -> bool, k: Key,
      found: Option<Key>): ReadyStatus {
    if found.Some? && found.value in vault && Opens(spec, k.name, vault[found.value], accepts)
    then ReadyStatus("Ready", true)
    else ReadyStatus("Failed", false)
  }

  lemma Unlocked(spec: DatastoreSpec, name: string, data: map<string, string>, accepts: string -> bool, key: string)
    requires key == if spec.passwordKey == "" then "password" else spec.passwordKey
    requires key in data && EngineOf(spec.datastoreType) != Unsupported && Lets(spec, name, data[key], accepts)
    ensures Unlocks(spec, name, data, accepts)
  {
  }

  /** After an undisturbed pass a Datastore is ready exactly if the Secret that its reference leads to has a
      password under the key that is named, the type is known, and a server accepts it; otherwise the pass
      has failed. Nothing else changes. */
  lemma ReadyExactly(stores: Bodies, vault: Vault, accepts: string -> bool, k: Key, found: Option<Key>)
    requires k in stores
    ensures var stores', spec := Pass(stores, vault, accepts, k, found), stores[k].spec;
            && stores'.Keys == stores.Keys && (forall g :: g in stores && g != k ==> stores'[g] == stores[g])
            && stores'[k] == stores[k].(status := stores'[k].status)
            && if found.Some? && found.value in vault && Unlocks(spec, k.name, vault[found.value], accepts)
               then stores'[k].status == ReadyStatus("Ready", true)
               else stores'[k].status == ReadyStatus("Failed", false)
  {
    hide Build;
  }

  /** The string that the role controller tries: it takes the key as it is written, and the empty password if
      there is nothing there. */
  function RoleString(spec: DatastoreSpec, name: string, data: map<string, string>): string {
    var password := ConnectionStrings.Look(data, spec.passwordKey, "");
    Build(spec.datastoreType, name, spec.host, spec.username, password, spec.port, spec.sslMode, spec.instance)
  }

  /** The role controller tries the string that an admitted Datastore was opened with exactly if the
      specification names a key, or the password is empty. */
  lemma RolesTryTheSame(spec: DatastoreSpec, name: string, data: map<string, string>, accepts: string -> bool)
      returns (password: string)
    requires Admitted(spec.datastoreType, spec.host, spec.username, spec.port, spec.sslMode, spec.instance)
    requires AdmittedName(name) && Unlocks(spec, name, data, accepts) && "" !in data
    ensures Lets(spec, name, password, accepts)
    ensures password == data[if spec.passwordKey == "" then "password" else spec.passwordKey]
    ensures var whole := Build(spec.datastoreType, name, spec.host, spec.username, password, spec.port, spec.sslMode,
              spec.instance);
            RoleString(spec, name, data) == whole <==> spec.passwordKey != "" || password == ""
  {
    hide Build, Admitted, AdmittedName;
    password := data[if spec.passwordKey == "" then "password" else spec.passwordKey];
    var tried := ConnectionStrings.Look(data, spec.passwordKey, "");
    var u := spec.username;
    ReadsBack(spec.datastoreType, name, spec.host, u, tried, spec.port, spec.sslMode, spec.instance,
              spec.datastoreType, name, spec.host, u, password, spec.port, spec.sslMode, spec.instance);
    if u + ":" + tried == u + ":" + password {
      Begins(u + ":", tried, password);
    }
  }

  /** A first status on the way makes no difference to where a pass ends. */
  lemma PreparingSettles(m: Objs<DatastoreSpec, ReadyStatus>, vault: Vault, accepts: string -> bool, k: Key, o: Own,
                         first: ReadyStatus, found: Option<Key>)
    ensures k in m && m[k] == o ==>
              && var last := o.body.(status := Verdict(o.body.spec, vault, accepts, k, found));
                 Pass(View(m), vault, accepts, k, found) == View(m)[k := o.body.(status := first)][k := last]
    ensures k in m && m[k] == o ==> View(m)[k := o.body] == View(m)
  {
  }

  lemma NothingThere(m: Objs<DatastoreSpec, ReadyStatus>, vault: Vault, accepts: string -> bool, k: Key)
    ensures k !in m ==> Pass(View(m), vault, accepts, k, None) == View(m)
  {
  }

  // ---------------------------------------------------------------- what readiness is worth

  /** Version `j` of the object asked for the Secret `s`, and with what is in it the server was open. */
  predicate Opened(objs: Datastores, vault: Vault, accepts: string -> bool, k: Key, uid: nat, j: nat, s: Key) {
    && j < |objs.hist| && k in objs.hist[j] && objs.hist[j][k].uid == uid
    && s in vault && s.name == objs.hist[j][k].body.spec.secretRef
    && Unlocks(objs.hist[j][k].body.spec, k.name, vault[s], accepts)
  }

  /** By version `i` of the store, the object had been opened. */
  ghost predicate Tried(objs: Datastores, vault: Vault, accepts: string -> bool, k: Key, uid: nat, i: nat) {
    exists j: nat, s :: j <= i && Opened(objs, vault, accepts, k, uid, j, s)
  }

  /** Whatever is ready had been opened, as some version of it asked for. */
  ghost predicate Backed(objs: Datastores, vault: Vault, accepts: string -> bool) {
    forall i, k :: 0 <= i < |objs.hist| && k in objs.hist[i] && objs.hist[i][k].body.status.ready ==>
      Tried(objs, vault, accepts, k, objs.hist[i][k].uid, i)
  }

  lemma StillTried(objs: Datastores, objs': Datastores, vault: Vault, accepts: string -> bool, k: Key, uid: nat, i: nat,
                   i': nat)
    requires Grew(objs, objs') && i <= i' && Tried(objs, vault, accepts, k, uid, i)
    ensures Tried(objs', vault, accepts, k, uid, i')
  {
    var j: nat, s :| j <= i && Opened(objs, vault, accepts, k, uid, j, s);
    assert objs'.hist[j] == objs.hist[j];
    assert Opened(objs', vault, accepts, k, uid, j, s);
  }

  lemma SilenceKeepsBacking(objs: Datastores, objs': Datastores, vault: Vault, accepts: string -> bool)
    requires objs.Ok() && Grew(objs, objs') && Silent(objs, objs', BLANK) && Backed(objs, vault, accepts)
    ensures Backed(objs', vault, accepts)
  {
    hide Tried;
    forall i, k | 0 <= i < |objs'.hist| && k in objs'.hist[i] && objs'.hist[i][k].body.status.ready
      ensures Tried(objs', vault, accepts, k, objs'.hist[i][k].uid, i)
    {
      var n := if i < |objs.hist| then i else |objs.hist| - 1;
      if i < |objs.hist| {
        assert objs'.hist[i] == objs.hist[i];
      } else {
        assert objs.Now()[k].body.status == objs'.hist[i][k].body.status;
      }
      StillTried(objs, objs', vault, accepts, k, objs'.hist[i][k].uid, n, i);
    }
  }

  lemma StatusKeepsBacking(objs: Datastores, vault: Vault, accepts: string -> bool, k: Key, status: ReadyStatus)
    requires objs.Ok() && Backed(objs, vault, accepts) && k in objs.Now()
    requires status.ready ==> Tried(objs, vault, accepts, k, objs.Now()[k].uid, |objs.hist| - 1)
    ensures Backed(Put(objs, k, objs.Now()[k].body.(status := status)), vault, accepts)
  {
    hide Tried;
    var objs' := Put(objs, k, objs.Now()[k].body.(status := status));
    forall i, g | 0 <= i < |objs'.hist| && g in objs'.hist[i] && objs'.hist[i][g].body.status.ready
      ensures Tried(objs', vault, accepts, g, objs'.hist[i][g].uid, i)
    {
      var n := if i < |objs.hist| then i else |objs.hist| - 1;
      if i < |objs.hist| {
        assert objs'.hist[i] == objs.hist[i];
      } else if g != k {
        assert objs'.hist[i][g] == objs.Now()[g];
      }
      StillTried(objs, objs', vault, accepts, g, objs'.hist[i][g].uid, n, i);
    }
  }

  // ---------------------------------------------------------------- the reconciler

  /** The resolver's scan over all Secrets: the first one of the wanted name. */
  method SecretNamed(vault: Vault, name: string) returns (found: Option<Key>)
    ensures found.Some? ==> found.value in vault && found.value.name == name
    ensures found.None? ==> forall s :: s in vault ==> s.name != name
  {
    var left := vault.Keys;
    while left != {}
      invariant left <= vault.Keys
      invariant forall s :: s in vault && s !in left ==> s.name != name
    {
      var s :| s in left;
      if s.name == name {
        return Some(s);
      }
      left := left - {s};
    }
    return None;
  }

  class DatastoreReconciler {
    const c: Cluster<DatastoreSpec, ReadyStatus>
    const vault: Vault
    const accepts: string -> bool

    constructor (c: Cluster<DatastoreSpec, ReadyStatus>, vault: Vault, accepts: string -> bool)
      requires c.Valid() && c.rules == RULES && c.objs == Kind([map[]], 0)
      ensures Valid() && this.c == c && this.vault == vault && this.accepts == accepts
    {
      this.c, this.vault, this.accepts := c, vault, accepts;
    }

    ghost predicate Valid()
      reads this, c
    {
      c.Valid() && c.rules == RULES && Backed(c.objs, vault, accepts)
    }

    ghost predicate Copy(k: Key, o: Own, at: nat)
      reads c
    {
      at < |c.objs.hist| && k in c.objs.hist[at] && c.objs.hist[at][k] == o
    }

    twostate predicate Same()
      reads c
    {
      c.Elapsed() && (old(c.Quiet()) ==> c.objs.hist == old(c.objs.hist))
    }

    method Fetch(k: Key) returns (r: Reply<Own>, ghost at: nat)
      requires Valid()
      modifies c
      ensures Valid() && Same()
      ensures old(c.schedule) != [] ==> |c.schedule| < |old(c.schedule)|
      ensures r.Found? ==> Copy(k, r.value, at)
      ensures old(c.Quiet()) ==> r == if k in c.objs.Now() then Found(c.objs.Now()[k]) else NotFound
    {
      hide Backed;
      r, at := c.Get(k);
      SilenceKeepsBacking(old(c.objs), c.objs, vault, accepts);
    }

    /** Some call that may be lost. */
    method Call(ghost k: Key, ghost o: Own, ghost at: nat) returns (lost: bool)
      requires Valid() && Copy(k, o, at)
      modifies c
      ensures Valid() && Copy(k, o, at) && Same()
      ensures old(c.Quiet()) ==> !lost
    {
      hide Backed;
      var fault, _ := c.Turn();
      lost := fault != NoFault;
      SilenceKeepsBacking(old(c.objs), c.objs, vault, accepts);
    }

    method SetStatus(k: Key, o: Own, ghost at: nat, status: ReadyStatus) returns (r: Reply<Own>, ghost at': nat)
      requires Valid() && Copy(k, o, at) && Follows(o.body.status, status)
      requires status.ready ==> Tried(c.objs, vault, accepts, k, o.uid, |c.objs.hist| - 1)
      modifies c
      ensures Valid() && c.Elapsed()
      ensures r.Found? ==> Copy(k, r.value, at') && r.value.uid == o.uid && r.value.body == o.body.(status := status)
      ensures old(c.Quiet()) && k in old(c.objs.Now()) && old(c.objs.Now())[k] == o ==>
                && r.Found? && k in c.objs.Now() && c.objs.Now()[k] == r.value
                && View(c.objs.Now()) == old(View(c.objs.Now()))[k := r.value.body]
    {
      hide Backed, Tried, Onward, Timely, Drifted, Noted, NoneLost, c.Smooth, UpTo, Silent, Strayed, StepAt, Worse,
        ReleasedBehind;
      ghost var mid, taken;
      r, mid, taken := c.UpdateStatus(k, o.(body := o.body.(status := status)), at);
      SilenceKeepsBacking(old(c.objs), mid, vault, accepts);
      if taken {
        if status.ready {
          StillTried(old(c.objs), mid, vault, accepts, k, o.uid, |old(c.objs).hist| - 1, |mid.hist| - 1);
        }
        StatusKeepsBacking(mid, vault, accepts, k, status);
        PutShows(mid, k, o.body.(status := status), RULES);
        NoneLinger(mid, RULES);
        assert k in c.objs.Now() && c.objs.Now()[k].uid == o.uid && c.objs.Now()[k].body == o.body.(status := status);
      }
      at' := |c.objs.hist| - 1;
    }

    /** Find the Secret: at home, or else the first one of that name in any namespace. */
    method FindSecret(k: Key, o: Own, ghost at: nat) returns (found: Option<Key>, r: Result)
      requires Valid() && Copy(k, o, at)
      modifies c
      ensures Valid() && Copy(k, o, at) && Same()
      ensures r != Done && (old(c.Quiet()) ==> r == Requeue)
      ensures found.Some? ==> found.value in vault && found.value.name == o.body.spec.secretRef
      ensures old(c.Quiet()) ==> LeadsTo(vault.Keys, k.ns, o.body.spec.secretRef, found)
    {
      hide Backed, History, Grew;
      var home := Key(k.ns, o.body.spec.secretRef);
      r := Requeue;
      var lost := Call(k, o, at);
      if lost {
        return None, r;
      }
      if home in vault {
        return Some(home), r;
      }
      lost := Call(k, o, at);
      if lost {
        return None, Error;
      }
      found := SecretNamed(vault, o.body.spec.secretRef);
    }

    /** Find the Secret, build the connection string, and try it. */
    method Try(k: Key, o: Own, ghost at: nat) returns (status: ReadyStatus, r: Result, ghost secret: Option<Key>)
      requires Valid() && Copy(k, o, at)
      modifies c
      ensures Valid() && Copy(k, o, at) && Same() && Coherent(status)
      ensures (r == Done <==> status.ready) && (old(c.Quiet()) ==> r != Error)
      ensures status.ready ==> Tried(c.objs, vault, accepts, k, o.uid, |c.objs.hist| - 1)
      ensures old(c.Quiet()) ==>
                && LeadsTo(vault.Keys, k.ns, o.body.spec.secretRef, secret)
                && status == Verdict(o.body.spec, vault, accepts, k, secret)
    {
      hide Backed, History, Grew, LeadsTo, Unlocks, Build;
      var found;
      found, r := FindSecret(k, o, at);
      secret := found;
      status := ReadyStatus("Failed", false);
      if found.None? {
        return;
      }
      var spec, data := o.body.spec, vault[found.value];
      var key := if spec.passwordKey == "" then "password" else spec.passwordKey;
      if key !in data || EngineOf(spec.datastoreType) == Unsupported {
        return;
      }
      var lost := Call(k, o, at);
      var connection := Build(spec.datastoreType, k.name, spec.host, spec.username, data[key], spec.port, spec.sslMode,
                              spec.instance);
      if !lost && accepts(connection) {
        Unlocked(spec, k.name, data, accepts, key);
        assert Opened(c.objs, vault, accepts, k, o.uid, at, found.value);
        return ReadyStatus("Ready", true), Done, secret;
      }
    }

    /** Store a first status, unless there is one. */
    method Prepare(k: Key, fetched: Own, ghost at: nat) returns (got: Reply<Own>, ghost at': nat)
      requires Valid() && Copy(k, fetched, at)
      modifies c
      ensures Valid() && c.Elapsed()
      ensures got.Found? ==> Copy(k, got.value, at') && got.value.body == fetched.body.(status := got.value.body.status)
      ensures old(c.Quiet()) && k in old(c.objs.Now()) && old(c.objs.Now())[k] == fetched ==>
                && got.Found? && k in c.objs.Now() && c.objs.Now()[k] == got.value
                && View(c.objs.Now()) == old(View(c.objs.Now()))[k := got.value.body]
    {
      hide Backed, History, Grew, Passed, Silent, c.Smooth, View;
      PreparingSettles(c.objs.Now(), vault, accepts, k, fetched, BLANK, None);
      got, at' := Found(fetched), at;
      if fetched.body.status.phase == "" {
        got, at' := SetStatus(k, fetched, at, ReadyStatus("Connecting", false));
      }
    }

    /** Try the Datastore, and write down how it went. */
    method Finish(k: Key, o: Own, ghost at: nat) returns (r: Result, ghost secret: Option<Key>)
      requires Valid() && Copy(k, o, at)
      modifies c
      ensures Valid() && c.Elapsed()
      ensures old(c.Quiet()) && k in old(c.objs.Now()) && old(c.objs.Now())[k] == o ==>
                var status := Verdict(o.body.spec, vault, accepts, k, secret);
                && LeadsTo(vault.Keys, k.ns, o.body.spec.secretRef, secret)
                && k in c.objs.Now() && c.objs.Now()[k].body == o.body.(status := status)
                && View(c.objs.Now()) == old(View(c.objs.Now()))[k := o.body.(status := status)]
                && r == if status.ready then Done else Requeue
    {
      hide Backed, History, Grew, Tried, Opens, LeadsTo, Passed, Silent, c.Smooth, View, Verdict;
      var status;
      status, r, secret := Try(k, o, at);
      var got, _ := SetStatus(k, o, at, status);
      if !got.Found? {
        r := Error;
      }
    }

    /** One pass over `k`; `secret` is where the reference to the Secret led. */
    method Reconcile(k: Key) returns (r: Result, ghost secret: Option<Key>)
      requires Valid()
      modifies c
      ensures Valid() && c.Elapsed()
      ensures old(c.schedule) != [] ==> |c.schedule| < |old(c.schedule)|
      ensures old(c.Quiet()) ==>
                && (k in old(c.objs.Now()) ==>
                      LeadsTo(vault.Keys, k.ns, old(c.objs.Now())[k].body.spec.secretRef, secret))
                && View(c.objs.Now()) == Pass(old(View(c.objs.Now())), vault, accepts, k, secret)
                && r == (if k in c.objs.Now() && !c.objs.Now()[k].body.status.ready then Requeue else Done)
    {
      hide Backed, History, Grew, LeadsTo, Passed, Silent, c.Smooth, View, Verdict, Pass;
      ghost var was := c.objs.Now();
      var got, at := Fetch(k);
      if !got.Found? {
        NothingThere(was, vault, accepts, k);
        return if got.NotFound? then Done else Error, None;
      }
      ghost var o := got.value;
      got, at := Prepare(k, got.value, at);
      if !got.Found? {
        return Error, None;
      }
      r, secret := Finish(k, got.value, at);
      PreparingSettles(was, vault, accepts, k, o, got.value.body.status, secret);
    }

    /** A worker: pass after pass, whatever each of them runs into. */
    method RunWorker(requests: seq<Key>)
      requires Valid()
      modifies c
      ensures Valid() && c.Elapsed()
    {
      for i := 0 to |requests|
        invariant Valid() && c.Elapsed()
      {
        var _, _ := Reconcile(requests[i]);
      }
    }
  }

  /** A Datastore that is ready at any version of a run had been opened by then, with the password of a
      Secret of the name it asked for; and it is "Ready" exactly when it is ready. */
  lemma ReadyWasOpened(r: DatastoreReconciler, i: nat, k: Key)
    requires r.Valid() && i < |r.c.objs.hist| && k in r.c.objs.hist[i]
    ensures r.c.objs.hist[i][k].body.status.phase == "Ready" <==> r.c.objs.hist[i][k].body.status.ready
    ensures r.c.objs.hist[i][k].body.status.ready ==>
              exists j: nat, s :: j <= i && Opened(r.c.objs, r.vault, r.accepts, k, r.c.objs.hist[i][k].uid, j, s)
  {
    FromBlank(r.c.objs, RULES, i, k);
    if r.c.objs.hist[i][k].body.status.ready {
      assert Tried(r.c.objs, r.vault, r.accepts, k, r.c.objs.hist[i][k].uid, i);
    }
  }
}
