/** Admission of roles: the checks an update goes through, and the search for users of a role. */
module RoleWebhook {
  import opened Api
  import RoleController

  type RoleSpec = RoleController.RoleSpec

  /** The field an error points to. */
  datatype Field = DatastoreName | MetadataName | Privileges | DatabaseName

  /** What the checks look up or look at elsewhere: names, privilege tables, and what exists. */
  datatype Findings = Findings(nameValid: bool, privilegesValid: bool, datastoreFound: bool, databaseFound: bool)

  /** An update that admission should let pass. */
  predicate Acceptable(before: RoleSpec, after: RoleSpec, f: Findings) {
    && after.datastoreRef != "" && f.nameValid && f.privilegesValid && f.datastoreFound
    && (after.databaseRef.Some? && after.databaseRef.value != "" ==> f.databaseFound)
    && after.datastoreRef == before.datastoreRef
  }

  /** One error at the field, if it is wrong. */
  function At(wrong: bool, field: Field): seq<Field> {
    if wrong then [field] else []
  }

  /** Append an error if something is wrong. */
  method Check(errors: seq<Field>, wrong: bool, field: Field) returns (more: seq<Field>)
    ensures more == errors + At(wrong, field)
  {
    more := errors;
    if wrong {
      more := more + [field];
    }
  }

  /** What is wrong with an update, in the order of the checks. */
  function Errors(before: RoleSpec, after: RoleSpec, f: Findings): seq<Field> {
    At(after.datastoreRef == "", DatastoreName) + At(!f.nameValid, MetadataName) + At(!f.privilegesValid, Privileges)
    + At(!f.datastoreFound, DatastoreName)
    + At(after.databaseRef.Some? && after.databaseRef.value != "" && !f.databaseFound, DatabaseName)
    + At(after.datastoreRef != before.datastoreRef, DatastoreName)
  }

  /** Collect every error; an update is admitted if there is none. Whatever is admitted keeps its
      Datastore, which is what the role controller relies on. */
  method ValidateUpdate(before: RoleSpec, after: RoleSpec, f: Findings) returns (errors: seq<Field>)
    ensures errors == [] <==> Acceptable(before, after, f)
    ensures errors == [] ==> RoleController.RULES.admits(before, after)
    ensures after.datastoreRef != before.datastoreRef ==> errors != [] && errors[|errors| - 1] == DatastoreName
    ensures errors == Errors(before, after, f)
  {
    NoErrors(before, after, f);
    hide Acceptable, At;
    errors := Check([], after.datastoreRef == "", DatastoreName);
    assert errors == At(after.datastoreRef == "", DatastoreName);
    errors := Check(errors, !f.nameValid, MetadataName);
    errors := Check(errors, !f.privilegesValid, Privileges);
    errors := Check(errors, !f.datastoreFound, DatastoreName);
    errors := Check(errors, after.databaseRef.Some? && after.databaseRef.value != "" && !f.databaseFound, DatabaseName);
    errors := Check(errors, after.datastoreRef != before.datastoreRef, DatastoreName);
  }

  lemma NoErrors(before: RoleSpec, after: RoleSpec, f: Findings)
    ensures Errors(before, after, f) == [] <==> Acceptable(before, after, f)
    ensures Errors(before, after, f) == [] ==> RoleController.RULES.admits(before, after)
    ensures var errors := Errors(before, after, f);
            after.datastoreRef != before.datastoreRef ==> errors != [] && errors[|errors| - 1] == DatastoreName
  {
    Collected(At(after.datastoreRef == "", DatastoreName), At(!f.nameValid, MetadataName),
              At(!f.privilegesValid, Privileges), At(!f.datastoreFound, DatastoreName),
              At(after.databaseRef.Some? && after.databaseRef.value != "" && !f.databaseFound, DatabaseName),
              At(after.datastoreRef != before.datastoreRef, DatastoreName));
  }

  lemma Collected<T>(a: seq<T>, b: seq<T>, c: seq<T>, d: seq<T>, e: seq<T>, g: seq<T>)
    ensures a + b + c + d + e + g == [] <==> a == [] && b == [] && c == [] && d == [] && e == [] && g == []
    ensures g != [] ==> (a + b + c + d + e + g)[|a + b + c + d + e + g| - 1] == g[|g| - 1]
  {
    assert |a + b + c + d + e + g| == |a| + |b| + |c| + |d| + |e| + |g|;
  }

  datatype Listed = Listed(name: string, roles: seq<string>)

  /** The names of the listed users that have the role, in order. */
  function UsersOf(items: seq<Listed>, role: string): (names: seq<string>)
    ensures forall n :: n in names <==> exists i :: 0 <= i < |items| && items[i].name == n && role in items[i].roles
  {
    if items == [] then []
    else
      var rest := items[..|items| - 1];
      var last := items[|items| - 1];
      assert forall i :: 0 <= i < |rest| ==> items[i] == rest[i];
      UsersOf(rest, role) + if role in last.roles then [last.name] else []
  }

  /** What is found in two lists, one after the other, is found in that order; and in a list of one it is that
      user, once, or nobody. */
  lemma {:induction false} UsersInOrder(a: seq<Listed>, b: seq<Listed>, role: string)
    ensures UsersOf(a + b, role) == UsersOf(a, role) + UsersOf(b, role)
    ensures |a| == 1 ==> UsersOf(a, role) == if role in a[0].roles then [a[0].name] else []
    decreases |b|
  {
    if b == [] {
      assert a + b == a;
    } else {
      var rest := b[..|b| - 1];
      UsersInOrder(a, rest, role);
      assert (a + b)[..|a + b| - 1] == a + rest;
    }
  }

  /** Each user counts once, however often it lists the role. */
  method FindUsersUsingRole(items: seq<Listed>, role: string) returns (users: seq<string>)
    ensures users == UsersOf(items, role)
    ensures |users| <= |items|
  {
    users := [];
    for i := 0 to |items|
      invariant users == UsersOf(items[..i], role) && |users| <= i
    {
      var before := users;
      for j := 0 to |items[i].roles|
        invariant users == before && role !in items[i].roles[..j]
      {
        if items[i].roles[j] == role {
          users := users + [items[i].name];
          break;
        }
      }
      assert items[..i + 1][..i] == items[..i];
    }
    assert items[..|items|] == items;
  }
}
