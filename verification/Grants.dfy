/** What a user ends up with on a server. A pass issues a fixed list of statements and may be cut
    short anywhere; over many passes, with changing specifications, things add up and nothing is
    ever taken away. */
module Grants {
  import opened Api
  import opened Base64
  import opened Server
  import opened Cluster

  /** When a statement about accounts is executed makes no difference. */
  const ANY_TIME := Moment(0, 0)

  /** Statements about accounts and roles. */
  predicate AboutAccounts(st: Statement) {
    || st.Nop? || st.CreateUser? || st.AlterUser? || st.GrantUser?
    || st.GrantRole? || st.SetDefaultRole? || st.DropUser?
    || (st.CreateRole? && st.ifNotExists)
  }

  /** The statements of a script that took effect, as far as it got, applied in order. */
  function Run(s: Servers, script: seq<Statement>, took: seq<bool>): Servers
    requires |took| <= |script|
  {
    if took == [] then s
    else
      var n := |took| - 1;
      var s' := Run(s, script, took[..n]);
      if took[n] && Accepts(s', script[n]) then Effect(s', script[n], ANY_TIME) else s'
  }

  /** Only what the server accepts can take effect. */
  predicate Plausible(s: Servers, script: seq<Statement>, took: seq<bool>)
    requires |took| <= |script|
  {
    took == [] ||
      var n := |took| - 1;
      Plausible(s, script, took[..n]) && (took[n] ==> Accepts(Run(s, script, took[..n]), script[n]))
  }

  /** Nothing was left out that could have changed anything. */
  predicate Thorough(s: Servers, script: seq<Statement>, took: seq<bool>)
    requires |took| <= |script|
  {
    took == [] ||
      var n := |took| - 1;
      var s' := Run(s, script, took[..n]);
      && Thorough(s, script, took[..n])
      && (took[n] || !Accepts(s', script[n]) || Effect(s', script[n], ANY_TIME) == s')
  }

  function Trues(n: nat): seq<bool> {
    seq(n, i => true)
  }

  /** The whole script, undisturbed. */
  function RunAll(s: Servers, script: seq<Statement>): Servers {
    Run(s, script, Trues(|script|))
  }

  lemma {:induction false} ThoroughIsAll(s: Servers, script: seq<Statement>, took: seq<bool>)
    requires |took| <= |script| && Thorough(s, script, took)
    ensures Run(s, script, took) == Run(s, script, Trues(|took|))
  {
    if took != [] {
      var n := |took| - 1;
      assert Trues(|took|)[..n] == Trues(n);
      ThoroughIsAll(s, script, took[..n]);
    }
  }

  /** One statement further. */
  lemma Step(s: Servers, script: seq<Statement>, took: seq<bool>, t: bool)
    requires |took| < |script|
    ensures var n, now := |took|, Run(s, script, took);
            && Run(s, script, took + [t]) ==
                 (if t && Accepts(now, script[n]) then Effect(now, script[n], ANY_TIME) else now)
            && (Plausible(s, script, took) && (t ==> Accepts(now, script[n])) ==> Plausible(s, script, took + [t]))
            && (Thorough(s, script, took)
                && (t || !Accepts(now, script[n]) || Effect(now, script[n], ANY_TIME) == now) ==>
                  Thorough(s, script, took + [t]))
  {
    assert (took + [t])[..|took|] == took;
  }

  /** The same accounts. */
  predicate Agree(s: Servers, t: Servers) {
    s.accounts == t.accounts
  }

  lemma Congruent(s: Servers, t: Servers, st: Statement, at: Moment)
    requires Agree(s, t) && AboutAccounts(st)
    ensures Accepts(s, st) <==> Accepts(t, st)
    ensures Accepts(s, st) ==>
              Agree(Effect(s, st, at), Effect(t, st, ANY_TIME)) && Effect(s, st, at) == Effect(s, st, ANY_TIME)
  {
  }

  lemma {:induction false} RunCongruent(s: Servers, t: Servers, script: seq<Statement>, took: seq<bool>)
    requires |took| <= |script| && Agree(s, t) && AllAboutAccounts(script)
    ensures Agree(Run(s, script, took), Run(t, script, took))
    ensures Plausible(s, script, took) <==> Plausible(t, script, took)
  {
    if took != [] {
      var n := |took| - 1;
      RunCongruent(s, t, script, took[..n]);
      Congruent(Run(s, script, took[..n]), Run(t, script, took[..n]), script[n], ANY_TIME);
    }
  }

  // ---------------------------------------------------------------- the scripts

  function Privileges(a: Account, privileges: seq<string>, scope: Option<string>): seq<Statement> {
    seq(|privileges|, i requires 0 <= i < |privileges| => GrantUser(a, Grant(privileges[i], scope)))
  }

  /** MySQL: every role is created, granted, and made the default, one after the other. */
  function Roles(a: Account, roles: seq<string>): seq<Statement> {
    seq(3 * |roles|, i requires 0 <= i < 3 * |roles| =>
      var role := roles[i / 3];
      if i % 3 == 0 then CreateRole(Ext(a.ds, role), true)
      else if i % 3 == 1 then Statement.GrantRole(a, role)
      else SetDefaultRole(a, role))
  }

  function Members(a: Account, roles: seq<string>): seq<Statement> {
    seq(|roles|, i requires 0 <= i < |roles| => Statement.GrantRole(a, roles[i]))
  }

  function Script(engine: Engine, a: Account, password: seq<Byte>, privileges: seq<string>, roles: seq<string>,
                  database: Option<string>): (r: seq<Statement>)
    ensures forall i :: 0 <= i < |r| ==> AboutAccounts(r[i])
  {
    match engine
    case MySQL =>
      [CreateUser(a, password, true)] + Privileges(a, privileges, database) + Roles(a, roles) + [Nop]
    case PostgreSQL =>
      [CreateUser(a, password, false), AlterUser(a, password)]
      + Privileges(a, privileges, database) + Members(a, roles)
    case SQLServer =>
      [CreateUser(a, password, false), AlterUser(a, password)]
      + (if database.None? then [] else [Nop] + Privileges(a, privileges, None))
    case Unsupported => []
  }

  // ---------------------------------------------------------------- what an account is given

  function Given(script: seq<Statement>, took: seq<bool>, a: Account): set<Grant>
    requires |took| <= |script|
  {
    set i | 0 <= i < |took| && took[i] && script[i].GrantUser? && script[i].a == a :: script[i].grant
  }

  function Joined(script: seq<Statement>, took: seq<bool>, a: Account): set<string>
    requires |took| <= |script|
  {
    set i | 0 <= i < |took| && took[i] && script[i].GrantRole? && script[i].a == a :: script[i].role
  }

  /** The last default role that was set. */
  function Default(script: seq<Statement>, took: seq<bool>, a: Account, before: Option<string>): Option<string>
    requires |took| <= |script|
  {
    if took == [] then before
    else
      var n := |took| - 1;
      if took[n] && script[n].SetDefaultRole? && script[n].a == a then Some(script[n].role)
      else Default(script, took[..n], a, before)
  }

  ghost predicate AllAboutAccounts(script: seq<Statement>) {
    forall i :: 0 <= i < |script| ==> AboutAccounts(script[i])
  }

  /** Nothing in the script drops the account. */
  ghost predicate Spares(script: seq<Statement>, a: Account) {
    forall i :: 0 <= i < |script| && script[i].DropUser? ==> script[i].a != a
  }

  // What an account holds; one that is not there holds nothing.

  function GrantsOf(s: Servers, a: Account): set<Grant> {
    if a in s.accounts then s.accounts[a].grants else {}
  }

  function RolesOf(s: Servers, a: Account): set<string> {
    if a in s.accounts then s.accounts[a].roles else {}
  }

  function DefaultOf(s: Servers, a: Account): Option<string> {
    if a in s.accounts then s.accounts[a].default else None
  }

  /** What one statement gives to the account. */
  lemma StatementAdds(s: Servers, st: Statement, a: Account)
    requires AboutAccounts(st) && Accepts(s, st) && (st.DropUser? ==> st.a != a)
    ensures var t := Effect(s, st, ANY_TIME);
            && (a in s.accounts ==> a in t.accounts)
            && GrantsOf(t, a) == GrantsOf(s, a) + (if st.GrantUser? && st.a == a then {st.grant} else {})
            && RolesOf(t, a) == RolesOf(s, a) + (if st.GrantRole? && st.a == a then {st.role} else {})
            && DefaultOf(t, a) == if st.SetDefaultRole? && st.a == a then Some(st.role) else DefaultOf(s, a)
  {
  }

  /** One pass, cut anywhere, whether or not the account was there before: what was granted is added,
      and that is all. */
  lemma {:induction false} PassAdds(s: Servers, script: seq<Statement>, took: seq<bool>, a: Account)
    requires |took| <= |script| && AllAboutAccounts(script) && Plausible(s, script, took)
    requires Spares(script, a)
    ensures var t := Run(s, script, took);
            && (a in s.accounts ==> a in t.accounts)
            && GrantsOf(t, a) == GrantsOf(s, a) + Given(script, took, a)
            && RolesOf(t, a) == RolesOf(s, a) + Joined(script, took, a)
            && DefaultOf(t, a) == Default(script, took, a, DefaultOf(s, a))
  {
    hide Effect, Accepts, GrantsOf, RolesOf, DefaultOf;
    if took != [] {
      var n := |took| - 1;
      PassAdds(s, script, took[..n], a);
      if took[n] {
        StatementAdds(Run(s, script, took[..n]), script[n], a);
      }
      assert Given(script, took, a) == Given(script, took[..n], a)
        + if took[n] && script[n].GrantUser? && script[n].a == a then {script[n].grant} else {};
      assert Joined(script, took, a) == Joined(script, took[..n], a)
        + if took[n] && script[n].GrantRole? && script[n].a == a then {script[n].role} else {};
    } else {
      assert Given(script, took, a) == {} && Joined(script, took, a) == {};
    }
  }

  // ---------------------------------------------------------------- many passes

  datatype Issued = Issued(script: seq<Statement>, took: seq<bool>)

  ghost predicate GoodPass(s: Servers, p: Issued) {
    |p.took| <= |p.script| && AllAboutAccounts(p.script) && Plausible(s, p.script, p.took)
  }

  ghost predicate GoodRun(s: Servers, ps: seq<Issued>)
    decreases |ps|
  {
    ps == [] || (GoodPass(s, ps[0]) && GoodRun(Run(s, ps[0].script, ps[0].took), ps[1..]))
  }

  ghost function After(s: Servers, ps: seq<Issued>): Servers
    requires GoodRun(s, ps)
    decreases |ps|
  {
    if ps == [] then s else After(Run(s, ps[0].script, ps[0].took), ps[1..])
  }

  lemma {:induction false} OneMore(s: Servers, ps: seq<Issued>, p: Issued)
    requires GoodRun(s, ps) && GoodPass(After(s, ps), p)
    ensures GoodRun(s, ps + [p]) && After(s, ps + [p]) == Run(After(s, ps), p.script, p.took)
    decreases |ps|
  {
    if ps != [] {
      OneMore(Run(s, ps[0].script, ps[0].took), ps[1..], p);
      assert (ps + [p])[1..] == ps[1..] + [p];
    } else {
      assert (ps + [p])[1..] == [];
    }
  }

  lemma {:induction false} InTwoParts(s: Servers, ps: seq<Issued>, i: nat)
    requires i <= |ps| && GoodRun(s, ps)
    ensures GoodRun(s, ps[..i]) && GoodRun(After(s, ps[..i]), ps[i..])
    ensures After(s, ps) == After(After(s, ps[..i]), ps[i..])
    decreases i
  {
    hide Run, Plausible, AllAboutAccounts;
    if i == 0 {
      assert ps[i..] == ps;
    } else {
      var t, first, rest := Run(s, ps[0].script, ps[0].took), ps[..i], ps[1..];
      InTwoParts(t, rest, i - 1);
      assert first[0] == ps[0] && first[1..] == rest[..i - 1];
      assert rest[i - 1..] == ps[i..];
      assert GoodRun(s, first);
      assert After(s, first) == After(t, rest[..i - 1]);
    }
  }

  ghost predicate Granted(ps: seq<Issued>, a: Account, g: Grant) {
    exists i :: 0 <= i < |ps| && |ps[i].took| <= |ps[i].script| && g in Given(ps[i].script, ps[i].took, a)
  }

  ghost predicate Enrolled(ps: seq<Issued>, a: Account, role: string) {
    exists i :: 0 <= i < |ps| && |ps[i].took| <= |ps[i].script| && role in Joined(ps[i].script, ps[i].took, a)
  }

  lemma GrantedBy(ps: seq<Issued>, a: Account, g: Grant) returns (j: nat, n: nat)
    requires Granted(ps, a, g)
    ensures j < |ps| && n < |ps[j].script| && ps[j].script[n] == GrantUser(a, g)
  {
    j :| 0 <= j < |ps| && |ps[j].took| <= |ps[j].script| && g in Given(ps[j].script, ps[j].took, a);
    n :| 0 <= n < |ps[j].took| && ps[j].took[n] && ps[j].script[n] == GrantUser(a, g);
  }

  lemma EnrolledBy(ps: seq<Issued>, a: Account, role: string) returns (j: nat, n: nat)
    requires Enrolled(ps, a, role)
    ensures j < |ps| && n < |ps[j].script| && ps[j].script[n] == Statement.GrantRole(a, role)
  {
    j :| 0 <= j < |ps| && |ps[j].took| <= |ps[j].script| && role in Joined(ps[j].script, ps[j].took, a);
    n :| 0 <= n < |ps[j].took| && ps[j].took[n] && ps[j].script[n] == Statement.GrantRole(a, role);
  }

  /** The last default role that any of the passes set. */
  function LastDefault(ps: seq<Issued>, a: Account, before: Option<string>): Option<string>
    decreases |ps|
  {
    if ps == [] then before
    else
      var p := ps[|ps| - 1];
      var before' := LastDefault(ps[..|ps| - 1], a, before);
      if |p.took| <= |p.script| then Default(p.script, p.took, a, before') else before'
  }

  ghost predicate SparedBy(ps: seq<Issued>, a: Account) {
    forall i :: 0 <= i < |ps| ==> Spares(ps[i].script, a)
  }

  /** Over any sequence of passes that do not drop it, each cut anywhere, an account holds exactly what
      it held at the start, if it was there, and what the passes granted it. */
  lemma {:induction false} Accumulation(s: Servers, ps: seq<Issued>, a: Account)
    requires GoodRun(s, ps) && SparedBy(ps, a)
    ensures var t := After(s, ps);
            && (a in s.accounts ==> a in t.accounts)
            && (forall g :: g in GrantsOf(t, a) <==> g in GrantsOf(s, a) || Granted(ps, a, g))
            && (forall r :: r in RolesOf(t, a) <==> r in RolesOf(s, a) || Enrolled(ps, a, r))
            && DefaultOf(t, a) == LastDefault(ps, a, DefaultOf(s, a))
    decreases |ps|
  {
    hide Run, Plausible, GrantsOf, RolesOf, DefaultOf, Given, Joined, Default;
    if ps != [] {
      var n := |ps| - 1;
      var p, rest := ps[n], ps[..n];
      InTwoParts(s, ps, n);
      assert ps[n..] == [p] && [p][1..] == [];
      assert GoodPass(After(s, rest), p);
      Accumulation(s, rest, a);
      PassAdds(After(s, rest), p.script, p.took, a);
      forall g ensures Granted(ps, a, g) <==> Granted(rest, a, g) || g in Given(p.script, p.took, a) {
        if i :| 0 <= i < n && |rest[i].took| <= |rest[i].script| && g in Given(rest[i].script, rest[i].took, a) {
          assert ps[i] == rest[i];
        }
        if i :| 0 <= i < n && |ps[i].took| <= |ps[i].script| && g in Given(ps[i].script, ps[i].took, a) {
          assert ps[i] == rest[i];
        }
      }
      forall r ensures Enrolled(ps, a, r) <==> Enrolled(rest, a, r) || r in Joined(p.script, p.took, a) {
        if i :| 0 <= i < n && |rest[i].took| <= |rest[i].script| && r in Joined(rest[i].script, rest[i].took, a) {
          assert ps[i] == rest[i];
        }
        if i :| 0 <= i < n && |ps[i].took| <= |ps[i].script| && r in Joined(ps[i].script, ps[i].took, a) {
          assert ps[i] == rest[i];
        }
      }
    }
  }

  /** Every grant and membership of the script is in place. */
  ghost predicate Complete(script: seq<Statement>, took: seq<bool>) {
    |took| == |script| && forall i :: 0 <= i < |script| && (script[i].GrantUser? || script[i].GrantRole?) ==> took[i]
  }
}
