/** Deep copies of lists of users and of roles. A copy has the same value, tells absent slices from empty ones, and
    shares nothing with the original, nor do its parts share anything with each other. */
module DeepCopy {
  import opened Api

  class Ref {
    var name: string

    constructor (name: string)
      ensures this.name == name
    {
      this.name := name;
    }
  }

  class Time {
    var stamp: int

    constructor (stamp: int)
      ensures this.stamp == stamp
    {
      this.stamp := stamp;
    }
  }

  /** The fields of a user that hold plain values. */
  datatype Plain = Plain(username: string, password: string, datastoreRef: string, host: string,
                         phase: string, ready: bool, created: bool)

  const ZERO := Plain("", "", "", "", "", false, false)

  /** What a user amounts to. */
  datatype Value = Value(plain: Plain, databaseRef: Option<string>, roles: Option<seq<string>>,
                         privileges: Option<seq<string>>, createdAt: Option<int>)

  function Elements(a: array?<string>): Option<seq<string>>
    reads a
  {
    if a == null then None else Some(a[..])
  }

  class User {
    var plain: Plain
    var databaseRef: Ref?
    var roles: array?<string>
    var privileges: array?<string>
    var createdAt: Time?

    /** The zero value. */
    constructor ()
    {
      plain, databaseRef, roles, privileges, createdAt := ZERO, null, null, null, null;
    }

    /** Everything a user points to. */
    ghost function Parts(): set<object?>
      reads this
    {
      {databaseRef, roles, privileges, createdAt} - {null}
    }

    /** Privileges and roles are not the same slice. */
    ghost predicate Apart()
      reads this
    {
      roles == null || roles != privileges
    }

    ghost function Contents(): Value
      reads this, databaseRef, roles, privileges, createdAt
    {
      Value(plain,
            if databaseRef == null then None else Some(databaseRef.name),
            Elements(roles), Elements(privileges),
            if createdAt == null then None else Some(createdAt.stamp))
    }

    /** Assign everything, and then replace what is shared by copies of its own. */
    method DeepCopyInto(out: User)
      requires out != this
      modifies out
      ensures out.Contents() == old(Contents())
      ensures fresh(out.Parts()) && out.Apart()
    {
      out.plain, out.databaseRef, out.roles, out.privileges, out.createdAt :=
          plain, databaseRef, roles, privileges, createdAt;
      out.databaseRef := CopyRef(databaseRef);
      out.roles := CopySlice(roles);
      out.privileges := CopySlice(privileges);
      out.createdAt := CopyTime(createdAt);
    }
  }

  method CopyRef(r: Ref?) returns (s: Ref?)
    ensures (s == null) == (r == null)
    ensures s != null ==> fresh(s) && s.name == r.name
  {
    s := null;
    if r != null {
      s := new Ref(r.name);
    }
  }

  method CopyTime(t: Time?) returns (u: Time?)
    ensures (u == null) == (t == null)
    ensures u != null ==> fresh(u) && u.stamp == t.stamp
  {
    u := null;
    if t != null {
      u := new Time(t.stamp);
    }
  }

  method CopySlice(a: array?<string>) returns (b: array?<string>)
    ensures Elements(b) == Elements(a)
    ensures b != null ==> fresh(b)
  {
    b := null;
    if a != null {
      b := new string[a.Length](i => "");
      for i := 0 to a.Length
        invariant b[..i] == a[..i]
      {
        b[i] := a[i];
      }
      assert b[..] == b[..a.Length] && a[..] == a[..a.Length];
    }
  }

  class UserList {
    var items: array?<User>

    constructor ()
      ensures items == null
    {
      items := null;
    }

    /** The users of a list, one after the other; `None` if there is no slice at all. */
    ghost function Users(): Option<seq<User>>
      reads this, items
    {
      if items == null then None else Some(items[..])
    }

    /** The array, the users in it, and everything they point to. */
    ghost function Footprint(): set<object?>
      reads this, items, if items == null then {} else set u: User | u in items[..] :: u
    {
      if items == null then {this}
      else {this, items} + (set u: User | u in items[..] :: u as object?)
           + (set u: User, o: object? | u in items[..] && o in u.Parts() :: o)
    }

    method DeepCopy() returns (out: UserList)
      ensures fresh(out) && fresh(out.Footprint())
      ensures (items == null) == (out.items == null)
      ensures items != null ==>
                && out.items.Length == items.Length
                && (forall i :: 0 <= i < items.Length ==> out.items[i].Contents() == old(items[i].Contents()))
                && (forall i :: 0 <= i < items.Length ==> out.items[i].Apart())
                && (forall i, j :: 0 <= i < j < items.Length ==>
                      out.items[i] != out.items[j] && out.items[i].Parts() !! out.items[j].Parts())
    {
      hide User.Contents, User.Parts, User.Apart;
      out := new UserList();
      if items == null {
        return;
      }
      var users := CopyItems(items);
      out.items := new User[items.Length](i requires 0 <= i < |users| reads {} => users[i]);
      assert out.items[..] == users;
    }
  }

  /** The loop over the items of a list. */
  method CopyItems(items: array<User>) returns (users: seq<User>)
    ensures |users| == items.Length
    ensures forall i :: 0 <= i < |users| ==> fresh(users[i]) && fresh(users[i].Parts()) && users[i].Apart()
    ensures forall i :: 0 <= i < |users| ==> users[i].Contents() == old(items[i].Contents())
    ensures forall i, j :: 0 <= i < j < |users| ==> users[i] != users[j] && users[i].Parts() !! users[j].Parts()
  {
    hide User.Contents, User.Apart;
    users := [];
    for i := 0 to items.Length
      invariant |users| == i
      invariant forall j :: 0 <= j < i ==> fresh(users[j]) && fresh(users[j].Parts()) && users[j].Apart()
      invariant forall j :: 0 <= j < i ==> users[j].Contents() == old(items[j].Contents())
      invariant forall j, l :: 0 <= j < l < i ==> users[j] != users[l] && users[j].Parts() !! users[l].Parts()
    {
      var u := new User();
      items[i].DeepCopyInto(u);
      users := users + [u];
    }
  }

  /** Whatever is written to a copy, the original keeps its value. */
  method WritesToTheCopyStayThere(list: UserList, i: nat)
    requires list.items != null && i < list.items.Length
    ensures list.items == old(list.items) && list.items[i] == old(list.items[i])
    ensures list.items[i].Contents() == old(list.items[i].Contents())
  {
    var copy := list.DeepCopy();
    modify copy.Footprint();
  }

  // ---------------------------------------------------------------- roles

  /** The fields of a role that hold plain values. */
  datatype PlainRole = PlainRole(datastoreRef: string, description: string, isGlobal: bool,
                                 phase: string, ready: bool, created: bool, message: string)

  const ZERO_ROLE := PlainRole("", "", false, "", false, false, "")

  /** What a role amounts to. */
  datatype RoleValue = RoleValue(plain: PlainRole, privileges: Option<seq<string>>, databaseRef: Option<string>,
                                 lastUpdated: Option<int>)

  class Role {
    var plain: PlainRole
    var privileges: array?<string>
    var databaseRef: Ref?
    var lastUpdated: Time?

    /** The zero value. */
    constructor ()
    {
      plain, privileges, databaseRef, lastUpdated := ZERO_ROLE, null, null, null;
    }

    /** Everything a role points to. */
    ghost function Parts(): set<object?>
      reads this
    {
      {privileges, databaseRef, lastUpdated} - {null}
    }

    ghost function Contents(): RoleValue
      reads this, privileges, databaseRef, lastUpdated
    {
      RoleValue(plain, Elements(privileges),
                if databaseRef == null then None else Some(databaseRef.name),
                if lastUpdated == null then None else Some(lastUpdated.stamp))
    }

    /** Assign everything, and then replace what is shared by copies of its own. */
    method DeepCopyInto(out: Role)
      requires out != this
      modifies out
      ensures out.Contents() == old(Contents())
      ensures fresh(out.Parts())
    {
      out.plain, out.privileges, out.databaseRef, out.lastUpdated := plain, privileges, databaseRef, lastUpdated;
      out.privileges := CopySlice(privileges);
      out.databaseRef := CopyRef(databaseRef);
      out.lastUpdated := CopyTime(lastUpdated);
    }
  }

  class RoleList {
    var items: array?<Role>

    constructor ()
      ensures items == null
    {
      items := null;
    }

    /** The array, the roles in it, and everything they point to. */
    ghost function Footprint(): set<object?>
      reads this, items, if items == null then {} else set r: Role | r in items[..] :: r
    {
      if items == null then {this}
      else {this, items} + (set r: Role | r in items[..] :: r as object?)
           + (set r: Role, o: object? | r in items[..] && o in r.Parts() :: o)
    }

    method DeepCopy() returns (out: RoleList)
      ensures fresh(out) && fresh(out.Footprint())
      ensures (items == null) == (out.items == null)
      ensures items != null ==>
                && out.items.Length == items.Length
                && (forall i :: 0 <= i < items.Length ==> out.items[i].Contents() == old(items[i].Contents()))
                && (forall i, j :: 0 <= i < j < items.Length ==>
                      out.items[i] != out.items[j] && out.items[i].Parts() !! out.items[j].Parts())
    {
      hide Role.Contents, Role.Parts;
      out := new RoleList();
      if items == null {
        return;
      }
      var roles := CopyRoles(items);
      out.items := new Role[items.Length](i requires 0 <= i < |roles| reads {} => roles[i]);
      assert out.items[..] == roles;
    }
  }

  /** The loop over the items of a list. */
  method CopyRoles(items: array<Role>) returns (roles: seq<Role>)
    ensures |roles| == items.Length
    ensures forall i :: 0 <= i < |roles| ==> fresh(roles[i]) && fresh(roles[i].Parts())
    ensures forall i :: 0 <= i < |roles| ==> roles[i].Contents() == old(items[i].Contents())
    ensures forall i, j :: 0 <= i < j < |roles| ==> roles[i] != roles[j] && roles[i].Parts() !! roles[j].Parts()
  {
    hide Role.Contents;
    roles := [];
    for i := 0 to items.Length
      invariant |roles| == i
      invariant forall j :: 0 <= j < i ==> fresh(roles[j]) && fresh(roles[j].Parts())
      invariant forall j :: 0 <= j < i ==> roles[j].Contents() == old(items[j].Contents())
      invariant forall j, l :: 0 <= j < l < i ==> roles[j] != roles[l] && roles[j].Parts() !! roles[l].Parts()
    {
      var r := new Role();
      items[i].DeepCopyInto(r);
      roles := roles + [r];
    }
  }

  /** Whatever is written to a copy of a list of roles, the original keeps its value. */
  method WritesToTheRolesStayThere(list: RoleList, i: nat)
    requires list.items != null && i < list.items.Length
    ensures list.items == old(list.items) && list.items[i] == old(list.items[i])
    ensures list.items[i].Contents() == old(list.items[i].Contents())
  {
    var copy := list.DeepCopy();
    modify copy.Footprint();
  }
}
