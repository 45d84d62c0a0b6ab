/** Running the script of a user again changes nothing: what a complete pass leaves behind is a fixed
    point, and the passes of other users do not disturb it. */
module Idempotence {
  import opened Api
  import opened Base64
  import opened Server
  import opened Cluster
  import opened Grants

  /** Scripts about one account and password: it is created first, only ever given the one password,
      and a default role is one that was granted before. */
  ghost predicate Proper(script: seq<Statement>, a: Account, password: seq<Byte>) {
    && script != []
    && script[0].CreateUser? && script[0].a == a && script[0].password == password
    && (forall i :: 0 < i < |script| ==> Follows(script, i, a, password))
  }

  ghost predicate Follows(script: seq<Statement>, i: nat, a: Account, password: seq<Byte>)
    requires i < |script|
  {
    match script[i]
    case Nop => true
    case AlterUser(b, pw) => b == a && pw == password
    case GrantUser(b, _) => b == a
    case GrantRole(b, _) => b == a
    case SetDefaultRole(b, r) => b == a && exists j :: 0 < j < i && script[j] == Statement.GrantRole(a, r)
    case CreateRole(_, ifNotExists) => ifNotExists
    case _ => false
  }

  /** The statement has nothing left to do, except that it may move the default role. */
  predicate Idle(s: Servers, a: Account, st: Statement) {
    a in s.accounts &&
    match st
    case AlterUser(_, pw) => s.accounts[a].password == pw
    case GrantUser(_, g) => g in s.accounts[a].grants
    case GrantRole(_, r) => r in s.accounts[a].roles
    case SetDefaultRole(_, r) => r in s.accounts[a].roles
    case CreateRole(p, _) => p in s.roles
    case _ => true
  }

  /** Everything the script asks for is there. */
  ghost predicate HasAll(s: Servers, script: seq<Statement>, a: Account) {
    && a in s.accounts
    && (forall i :: 0 <= i < |script| ==> Idle(s, a, script[i]))
    && Default(script, Trues(|script|), a, s.accounts[a].default) == s.accounts[a].default
  }

  // ---------------------------------------------------------------- the default role

  lemma {:induction false} DefaultTwice(script: seq<Statement>, took: seq<bool>, a: Account, x: Option<string>,
      y: Option<string>)
    requires |took| <= |script|
    ensures Default(script, took, a, x) == Default(script, took, a, y)
            || (Default(script, took, a, x) == x && Default(script, took, a, y) == y)
  {
    if took != [] {
      DefaultTwice(script, took[..|took| - 1], a, x, y);
    }
  }

  lemma TruesStep(n: nat)
    requires n > 0
    ensures |Trues(n)| == n && Trues(n)[n - 1] && Trues(n)[..n - 1] == Trues(n - 1)
  {
  }

  // ---------------------------------------------------------------- a complete pass

  /** Where the servers are after `n` statements of a script: none of those has anything left to do. */
  lemma {:induction false} Reaches(s: Servers, script: seq<Statement>, a: Account, password: seq<Byte>, n: nat)
    requires Proper(script, a, password) && 0 < n <= |script|
    ensures var t := Run(s, script, Trues(n));
            && a in t.accounts
            && (forall i :: 0 <= i < n ==> Idle(t, a, script[i]))
            && t.accounts[a].default ==
                 Default(script, Trues(n), a, if a in s.accounts then s.accounts[a].default else None)
            && ((exists i :: 0 < i < n && script[i].AlterUser?) || a !in s.accounts ==>
                  t.accounts[a].password == password)
  {
    TruesStep(n);
    var t := Run(s, script, Trues(n));
    if n == 1 {
      assert Run(s, script, Trues(0)) == s;
      assert Default(script, Trues(0), a, None) == None;
    } else {
      Reaches(s, script, a, password, n - 1);
      var u := Run(s, script, Trues(n - 1));
      var st := script[n - 1];
      assert Follows(script, n - 1, a, password);
      if st.SetDefaultRole? {
        var j :| 0 < j < n - 1 && script[j] == Statement.GrantRole(a, st.role);
        assert Idle(u, a, script[j]);
      }
      assert Accepts(u, st) && t == Effect(u, st, ANY_TIME);
      forall i | 0 <= i < n ensures Idle(t, a, script[i]) {
        if i < n - 1 {
          assert Idle(u, a, script[i]);
          if script[i].AlterUser? {
            assert Follows(script, i, a, password);
          }
        }
      }
    }
  }

  /** A complete pass leaves everything in place. */
  lemma CompletePassHasAll(s: Servers, script: seq<Statement>, a: Account, password: seq<Byte>)
    requires Proper(script, a, password)
    ensures HasAll(RunAll(s, script), script, a)
  {
    var n := |script|;
    Reaches(s, script, a, password, n);
    var before := if a in s.accounts then s.accounts[a].default else None;
    DefaultTwice(script, Trues(n), a, before, RunAll(s, script).accounts[a].default);
  }

  /** A server without the account accepts the whole script. */
  lemma {:induction false} CleanIsPlausible(s: Servers, script: seq<Statement>, a: Account, password: seq<Byte>, n: nat)
    requires Proper(script, a, password) && a !in s.accounts && n <= |script|
    ensures Plausible(s, script, Trues(n))
  {
    if n > 0 {
      TruesStep(n);
      CleanIsPlausible(s, script, a, password, n - 1);
      if n == 1 {
        assert Run(s, script, Trues(0)) == s;
      } else {
        Reaches(s, script, a, password, n - 1);
        var u, st := Run(s, script, Trues(n - 1)), script[n - 1];
        assert Follows(script, n - 1, a, password);
        if st.SetDefaultRole? {
          var j :| 0 < j < n - 1 && script[j] == Statement.GrantRole(a, st.role);
          assert Idle(u, a, script[j]);
        }
        assert Accepts(u, st);
      }
    }
  }

  /** A pass that gets everything across, whatever earlier passes were cut in, gives the account what a
      clean pass would have given it on a server where it was not there, on top of what it held. */
  lemma CompletePass(s: Servers, clean: Servers, script: seq<Statement>, took: seq<bool>, a: Account,
      password: seq<Byte>)
    requires Proper(script, a, password) && AllAboutAccounts(script)
    requires Complete(script, took) && Plausible(s, script, took)
    requires a !in clean.accounts
    ensures var t, fresh_ := Run(s, script, took), RunAll(clean, script);
            && a in fresh_.accounts
            && GrantsOf(t, a) == GrantsOf(s, a) + fresh_.accounts[a].grants
            && RolesOf(t, a) == RolesOf(s, a) + fresh_.accounts[a].roles
  {
    var all := Trues(|script|);
    forall i | 0 <= i < |script| ensures !script[i].DropUser? {
      if i > 0 {
        assert Follows(script, i, a, password);
      }
    }
    PassAdds(s, script, took, a);
    CleanIsPlausible(clean, script, a, password, |script|);
    Reaches(clean, script, a, password, |script|);
    PassAdds(clean, script, all, a);
    assert Given(script, took, a) == Given(script, all, a);
    assert Joined(script, took, a) == Joined(script, all, a);
  }

  // ---------------------------------------------------------------- the next pass

  lemma {:induction false} OnlyDefaultMoves(s: Servers, script: seq<Statement>, a: Account, password: seq<Byte>, n: nat)
    requires Proper(script, a, password) && HasAll(s, script, a) && n <= |script|
    ensures Run(s, script, Trues(n)) ==
              var default := Default(script, Trues(n), a, s.accounts[a].default);
              s.(accounts := s.accounts[a := s.accounts[a].(default := default)])
  {
    var h := s.accounts[a];
    if n == 0 {
      assert s.accounts[a := h] == s.accounts;
    } else {
      TruesStep(n);
      OnlyDefaultMoves(s, script, a, password, n - 1);
      var u := Run(s, script, Trues(n - 1));
      var st := script[n - 1];
      assert Idle(s, a, st);
      if n > 1 {
        assert Follows(script, n - 1, a, password);
      }
      assert u.accounts[a := u.accounts[a]] == u.accounts;
      if st.GrantUser? {
        assert u.accounts[a].grants + {st.grant} == u.accounts[a].grants;
      } else if st.GrantRole? {
        assert u.accounts[a].roles + {st.role} == u.accounts[a].roles;
      }
    }
  }

  /** A pass over a user that has everything changes nothing at all. */
  lemma NextPassIsIdle(s: Servers, script: seq<Statement>, a: Account, password: seq<Byte>)
    requires Proper(script, a, password) && HasAll(s, script, a)
    ensures RunAll(s, script) == s
  {
    OnlyDefaultMoves(s, script, a, password, |script|);
    assert s.accounts[a := s.accounts[a]] == s.accounts;
  }

  // ---------------------------------------------------------------- other users

  /** Other accounts stay as they are, and roles as they were. */
  lemma {:induction false} OthersSpared(s: Servers, script: seq<Statement>, a: Account, password: seq<Byte>, n: nat)
    requires Proper(script, a, password) && n <= |script|
    ensures var t := Run(s, script, Trues(n));
            && (forall b :: b in s.accounts && b != a ==> b in t.accounts && t.accounts[b] == s.accounts[b])
            && t.accounts.Keys <= s.accounts.Keys + {a}
            && (forall p :: p in s.roles ==> p in t.roles && t.roles[p] == s.roles[p])
            && t.databases == s.databases && t.logs == s.logs
  {
    if n > 0 {
      TruesStep(n);
      OthersSpared(s, script, a, password, n - 1);
      if n > 1 {
        assert Follows(script, n - 1, a, password);
      }
    }
  }

  // ---------------------------------------------------------------- the scripts are proper

  lemma ScriptsAreProper(engine: Engine, a: Account, password: seq<Byte>, privileges: seq<string>, roles: seq<string>,
                         database: Option<string>)
    requires engine != Unsupported
    ensures Proper(Script(engine, a, password, privileges, roles, database), a, password)
  {
    match engine
    case MySQL => MySQLIsProper(a, password, privileges, roles, database);
    case _ =>
  }

  lemma RolePart(a: Account, password: seq<Byte>, privileges: seq<string>, roles: seq<string>, database: Option<string>,
                 j: nat)
    requires j < 3 * |roles|
    ensures var script, i := Script(MySQL, a, password, privileges, roles, database), 1 + |privileges| + j;
            i < |script| && script[i] == Roles(a, roles)[j]
  {
  }

  lemma MySQLIsProper(a: Account, password: seq<Byte>, privileges: seq<string>, roles: seq<string>,
                      database: Option<string>)
    ensures Proper(Script(MySQL, a, password, privileges, roles, database), a, password)
  {
    var script, n := Script(MySQL, a, password, privileges, roles, database), |privileges|;
    forall i | 0 < i < |script| ensures Follows(script, i, a, password) {
      if 1 + n <= i < 1 + n + 3 * |roles| {
        hide Script;
        var j := i - (1 + n);
        RolePart(a, password, privileges, roles, database, j);
        if j % 3 == 2 {
          RolePart(a, password, privileges, roles, database, j - 1);
        }
      } else {
        hide Roles;
      }
    }
  }

  // ---------------------------------------------------------------- users that share an account

  /** Everything the script gives is there, whatever the password and the default role. */
  ghost predicate HasListed(s: Servers, script: seq<Statement>, a: Account) {
    a in s.accounts && forall i :: 0 <= i < |script| && !script[i].AlterUser? ==> Idle(s, a, script[i])
  }

  /** The two things that a script moves rather than adds are as this user wants them: the password, but
      on MySQL, and the default role, on MySQL, if the user lists any. */
  predicate Suits(h: Holdings, engine: Engine, password: seq<Byte>, roles: seq<string>) {
    && (engine != MySQL ==> h.password == password)
    && (engine == MySQL && roles != [] ==> h.default == Some(roles[|roles| - 1]))
  }

  /** Accounts and roles only gain. */
  ghost predicate Gains(s: Servers, t: Servers) {
    && (forall b :: b in s.accounts ==>
          b in t.accounts && s.accounts[b].grants <= t.accounts[b].grants && s.accounts[b].roles <= t.accounts[b].roles)
    && s.roles.Keys <= t.roles.Keys
  }

  lemma {:induction false} ScriptsGain(s: Servers, script: seq<Statement>, a: Account, password: seq<Byte>, n: nat)
    requires Proper(script, a, password) && n <= |script|
    ensures Gains(s, Run(s, script, Trues(n)))
  {
    if n > 0 {
      TruesStep(n);
      ScriptsGain(s, script, a, password, n - 1);
      if n > 1 {
        assert Follows(script, n - 1, a, password);
      }
    }
  }

  lemma ListedStays(s: Servers, t: Servers, script: seq<Statement>, a: Account)
    requires HasListed(s, script, a) && Gains(s, t)
    ensures HasListed(t, script, a)
  {
    forall i | 0 <= i < |script| && !script[i].AlterUser? ensures Idle(t, a, script[i]) {
      assert Idle(s, a, script[i]);
    }
  }

  lemma {:induction false} LastDefaultCounts(script: seq<Statement>, a: Account, x: Option<string>, j: nat, n: nat,
                                             role: string)
    requires j < n <= |script| && script[j] == SetDefaultRole(a, role)
    requires forall i :: j < i < n ==> !script[i].SetDefaultRole?
    ensures Default(script, Trues(n), a, x) == Some(role)
  {
    TruesStep(n);
    if j < n - 1 {
      LastDefaultCounts(script, a, x, j, n - 1, role);
    }
  }

  lemma {:induction false} NoDefaultCounts(script: seq<Statement>, a: Account, x: Option<string>, n: nat)
    requires n <= |script| && forall i :: 0 <= i < n ==> !script[i].SetDefaultRole?
    ensures Default(script, Trues(n), a, x) == x
  {
    if n > 0 {
      TruesStep(n);
      NoDefaultCounts(script, a, x, n - 1);
    }
  }

  /** Where a script leaves the default role: at the last one listed, on MySQL, or where it was. */
  lemma DefaultOfScript(engine: Engine, a: Account, password: seq<Byte>, privileges: seq<string>, roles: seq<string>,
                        database: Option<string>, x: Option<string>)
    ensures var script := Script(engine, a, password, privileges, roles, database);
            Default(script, Trues(|script|), a, x)
            == if engine == MySQL && roles != [] then Some(roles[|roles| - 1]) else x
  {
    var script := Script(engine, a, password, privileges, roles, database);
    if engine == MySQL && roles != [] {
      var last, n := |roles| - 1, 1 + |privileges|;
      assert (3 * last + 2) / 3 == last && (3 * last + 2) % 3 == 2;
      assert script[n + 3 * last + 2] == Roles(a, roles)[3 * last + 2] == SetDefaultRole(a, roles[last]);
      LastDefaultCounts(script, a, x, n + 3 * last + 2, |script|, roles[last]);
    } else {
      NoDefaultCounts(script, a, x, |script|);
    }
  }

  lemma AltersUnlessMySQL(engine: Engine, a: Account, password: seq<Byte>, privileges: seq<string>, roles: seq<string>,
                          database: Option<string>)
    ensures var script := Script(engine, a, password, privileges, roles, database);
            && (engine in {PostgreSQL, SQLServer} ==> |script| >= 2 && script[1] == AlterUser(a, password))
            && (forall i :: 0 <= i < |script| && script[i].AlterUser? ==>
                  engine in {PostgreSQL, SQLServer} && script[i] == AlterUser(a, password))
  {
  }

  /** A user has all it asks for exactly if all it lists is there, and password and default role suit it. */
  lemma HasAllMeans(s: Servers, engine: Engine, a: Account, password: seq<Byte>, privileges: seq<string>,
                    roles: seq<string>, database: Option<string>)
    requires engine != Unsupported && a in s.accounts
    ensures var script := Script(engine, a, password, privileges, roles, database);
            HasAll(s, script, a) <==> HasListed(s, script, a) && Suits(s.accounts[a], engine, password, roles)
  {
    hide Script;
    var script := Script(engine, a, password, privileges, roles, database);
    DefaultOfScript(engine, a, password, privileges, roles, database, s.accounts[a].default);
    AltersUnlessMySQL(engine, a, password, privileges, roles, database);
    if HasAll(s, script, a) && engine != MySQL {
      assert Idle(s, a, script[1]);
    }
  }

  /** What a pass over one user moves on the account: after it, password and default role suit that user;
      and another one that they suited before, they still suit if the two agree. */
  lemma RunMoves(s: Servers, engine: Engine, a: Account, password: seq<Byte>, privileges: seq<string>,
                 roles: seq<string>, database: Option<string>)
    requires engine != Unsupported
    ensures var t := RunAll(s, Script(engine, a, password, privileges, roles, database));
            && a in t.accounts && Suits(t.accounts[a], engine, password, roles)
            && (engine == MySQL && roles == [] && a in s.accounts ==> t.accounts[a].default == s.accounts[a].default)
  {
    hide Script, RunAll, Proper, HasAll;
    var script := Script(engine, a, password, privileges, roles, database);
    var t := RunAll(s, script);
    ScriptsAreProper(engine, a, password, privileges, roles, database);
    CompletePassHasAll(s, script, a, password);
    AccountIsThere(t, script, a);
    HasAllMeans(t, engine, a, password, privileges, roles, database);
    if roles == [] && a in s.accounts {
      ProperReaches(s, script, a, password);
      DefaultOfScript(engine, a, password, privileges, roles, database, s.accounts[a].default);
    }
  }

  lemma AccountIsThere(t: Servers, script: seq<Statement>, a: Account)
    requires HasAll(t, script, a)
    ensures a in t.accounts
  {
  }

  lemma ProperReaches(s: Servers, script: seq<Statement>, a: Account, password: seq<Byte>)
    requires Proper(script, a, password) && a in s.accounts
    ensures a in RunAll(s, script).accounts
    ensures RunAll(s, script).accounts[a].default == Default(script, Trues(|script|), a, s.accounts[a].default)
  {
    Reaches(s, script, a, password, |script|);
  }
}
