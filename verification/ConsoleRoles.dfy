/** Who may do what in the console: roles, the four steps that change who holds them, and what any run of
    those steps can and cannot do to anybody's permissions. */
module ConsoleRoles {
  import opened Lists
  import opened Text

  const ALL_PERMISSIONS: seq<string> := [
    "users.manage", "roles.manage", "settings.manage",
    "connections.manage", "connections.view", "bundles.manage", "scopes.manage",
    "documents.manage", "memory.manage", "routines.manage",
    "artifacts.view", "artifacts.manage", "activity.view", "audit.view",
    "approvers.manage", "access_requests.view", "access_requests.close", "api_keys.manage",
    "jobs.view", "jobs.manage", "reviews.view", "reviews.manage", "billing.manage"
  ]

  const EDITOR: seq<string> := [
    "scopes.manage", "bundles.manage", "documents.manage", "memory.manage",
    "routines.manage", "artifacts.manage", "artifacts.view",
    "activity.view", "connections.view", "access_requests.view", "api_keys.manage",
    "jobs.view", "jobs.manage", "reviews.view", "reviews.manage"
  ]

  const VIEWER: seq<string> := [
    "connections.view", "artifacts.view", "activity.view", "access_requests.view", "jobs.view", "reviews.view"
  ]

  /** What must never be left unheld. */
  const CRITICAL: seq<string> := ["users.manage", "connections.manage"]

  predicate Known(p: string) { p in ALL_PERMISSIONS }

  function Builtin(key: string): Option<seq<string>> {
    if key == "admin" then Some(ALL_PERMISSIONS)
    else if key == "editor" then Some(EDITOR)
    else if key == "viewer" then Some(VIEWER)
    else None
  }

  type CustomRoles = map<string, seq<string>>

  function Elements(s: seq<string>): set<string> { set p | p in s }

  /** A built-in role first, then the organisation's own, then nothing. */
  function PermissionsFor(role: string, custom: CustomRoles): set<string> {
    if Builtin(role).Some? then Elements(Builtin(role).value)
    else if role in custom then Elements(custom[role])
    else {}
  }

  /** The known ones of some names, trimmed, each once. */
  function Sanitized(names: seq<string>, known: seq<string>): seq<string> {
    if names == [] then []
    else
      var out := Sanitized(names[..|names| - 1], known);
      var p := Trim(names[|names| - 1]);
      if p in known && p !in out then out + [p] else out
  }

  method SanitizePermissions(names: seq<string>) returns (out: seq<string>)
    ensures out == Sanitized(names, ALL_PERMISSIONS)
  {
    out := [];
    for i := 0 to |names|
      invariant out == Sanitized(names[..i], ALL_PERMISSIONS)
    {
      var p := Trim(names[i]);
      assert names[..i + 1][..i] == names[..i];
      if p in ALL_PERMISSIONS && p !in out {
        out := out + [p];
      }
    }
    assert names[..|names|] == names;
  }

  lemma {:induction false} SanitizedExactly(names: seq<string>, known: seq<string>, p: string)
    ensures p in Sanitized(names, known) <==> p in known && exists i :: 0 <= i < |names| && Trim(names[i]) == p
  {
    if names != [] {
      var n := |names| - 1;
      SanitizedExactly(names[..n], known, p);
      if p in Sanitized(names[..n], known) {
        var i :| 0 <= i < n && Trim(names[..n][i]) == p;
        assert Trim(names[i]) == p;
      }
      if i :| 0 <= i < n && Trim(names[i]) == p {
        assert Trim(names[..n][i]) == p;
      }
    }
  }

  lemma KnownEnds(p: string)
    requires Known(p)
    ensures p != [] && 'a' <= p[0] <= 'z' && 'a' <= p[|p| - 1] <= 'z'
  {
  }

  lemma KnownTrimmed(p: string)
    requires Known(p)
    ensures Trim(p) == p
  {
    KnownEnds(p);
    TrimmedAlready(p);
  }

  // ---- an organisation and the steps that change it ----

  /** Who is a member and with what role, and the roles the organisation defined. */
  datatype Org = Org(members: map<string, string>, custom: CustomRoles)

  function Held(o: Org, user: string): set<string> {
    if user in o.members then PermissionsFor(o.members[user], o.custom) else {}
  }

  /** One may hand out only what one holds, and only a role that grants something. */
  predicate CanAssign(held: set<string>, role: string, custom: CustomRoles) {
    PermissionsFor(role, custom) != {} && PermissionsFor(role, custom) <= held
  }

  ghost predicate HeldBesides(o: Org, p: string, user: string) {
    exists u :: u in o.members && u != user && p in Held(o, u)
  }

  ghost predicate HeldOutside(o: Org, p: string, role: string) {
    exists u :: u in o.members && o.members[u] != role && p in Held(o, u)
  }

  ghost predicate HeldBySome(o: Org, p: string) { exists u :: u in o.members && p in Held(o, u) }

  /** Whether moving a member to a role leaves every critical permission held; the role "" stands for none. */
  ghost predicate MemberGuard(o: Org, user: string, role: string) {
    forall p :: p in CRITICAL && p in Held(o, user) && p !in PermissionsFor(role, o.custom) ==> HeldBesides(o, p, user)
  }

  ghost predicate RoleGuard(o: Org, key: string) {
    key in o.custom ==>
      forall p :: p in CRITICAL && p in PermissionsFor(key, o.custom) ==> HeldOutside(o, p, key)
  }

  datatype Change =
    | ChangeRole(target: string, role: string)
    | RemoveMember(target: string)
    | SaveRole(key: string, label_: string, permissions: seq<string>)
    | DeleteRole(key: string)

  datatype Reply = Done | NotAllowed | NoMember | BeyondYours | LastHolder | Malformed | BuiltinKey

  /** Whether a row of the organisation's own is one the caller covers. */
  predicate Covered(o: Org, caller: string, key: string) {
    key in o.custom ==> Elements(o.custom[key]) <= Held(o, caller)
  }

  ghost function Answer(o: Org, caller: string, c: Change): Reply {
    match c
    case ChangeRole(target, role) =>
      if "users.manage" !in Held(o, caller) then NotAllowed
      else if target !in o.members then NoMember
      else if !CanAssign(Held(o, caller), role, o.custom) || !CanAssign(Held(o, caller), o.members[target], o.custom)
        then BeyondYours
      else if !MemberGuard(o, target, role) then LastHolder
      else Done
    case RemoveMember(target) =>
      if "users.manage" !in Held(o, caller) then NotAllowed
      else if target !in o.members then NoMember
      else if !(Held(o, target) <= Held(o, caller)) then BeyondYours
      else if !MemberGuard(o, target, "") then LastHolder
      else Done
    case SaveRole(key, label_, permissions) =>
      if "roles.manage" !in Held(o, caller) then NotAllowed
      else if Trim(key) == "" || Trim(label_) == "" then Malformed
      else if Builtin(Trim(key)).Some? then BuiltinKey
      else if !(Elements(permissions) <= Held(o, caller)) then BeyondYours
      else if !Covered(o, caller, Trim(key)) then BeyondYours
      else Done
    case DeleteRole(key) =>
      if "roles.manage" !in Held(o, caller) then NotAllowed
      else if !Covered(o, caller, key) then BeyondYours
      else if !RoleGuard(o, key) then LastHolder
      else Done
  }

  ghost function After(o: Org, caller: string, c: Change): Org {
    if Answer(o, caller, c) != Done then o
    else
      match c
      case ChangeRole(target, role) => o.(members := o.members[target := role])
      case RemoveMember(target) => o.(members := o.members - {target})
      case SaveRole(key, _, permissions) => o.(custom := o.custom[Trim(key) := Sanitized(permissions, ALL_PERMISSIONS)])
      case DeleteRole(key) => o.(custom := o.custom - {key})
  }

  /** The console's routes over the stored memberships and role rows. */
  class Console {
    var members: map<string, string>
    var custom: CustomRoles

    ghost function Now(): Org
      reads this
    {
      Org(members, custom)
    }

    constructor (members: map<string, string>, custom: CustomRoles)
      ensures Now() == Org(members, custom)
    {
      this.members, this.custom := members, custom;
    }

    method CountMembersHolding(p: string, except: string) returns (n: nat)
      ensures n == |set u | u in members && u != except && p in Held(Now(), u)|
      ensures n == 0 <==> !HeldBesides(Now(), p, except)
    {
      n := 0;
      ghost var counted: set<string> := {};
      var left := members.Keys;
      while left != {}
        invariant left <= members.Keys
        invariant counted == set u | u in members && u !in left && u != except && p in Held(Now(), u)
        invariant n == |counted|
        decreases left
      {
        var u :| u in left;
        left := left - {u};
        if u != except && p in PermissionsFor(members[u], custom) {
          n := n + 1;
          counted := counted + {u};
        }
      }
      assert counted == set u | u in members && u != except && p in Held(Now(), u);
      if HeldBesides(Now(), p, except) {
        ghost var u :| u in members && u != except && p in Held(Now(), u);
        assert u in counted;
      }
      if n != 0 {
        ghost var u :| u in counted;
      }
    }

    method CountMembersHoldingExcludingRole(p: string, key: string) returns (n: nat)
      ensures n == |set u | u in members && members[u] != key && p in Held(Now(), u)|
      ensures n == 0 <==> !HeldOutside(Now(), p, key)
    {
      n := 0;
      ghost var counted: set<string> := {};
      var left := members.Keys;
      while left != {}
        invariant left <= members.Keys
        invariant counted == set u | u in members && u !in left && members[u] != key && p in Held(Now(), u)
        invariant n == |counted|
        decreases left
      {
        var u :| u in left;
        left := left - {u};
        if members[u] != key && p in PermissionsFor(members[u], custom) {
          n := n + 1;
          counted := counted + {u};
        }
      }
      assert counted == set u | u in members && members[u] != key && p in Held(Now(), u);
      if HeldOutside(Now(), p, key) {
        ghost var u :| u in members && members[u] != key && p in Held(Now(), u);
        assert u in counted;
      }
      if n != 0 {
        ghost var u :| u in counted;
      }
    }

    method LastHolderGuard(user: string, role: string) returns (ok: bool)
      requires user in members
      ensures ok <==> MemberGuard(Now(), user, role)
    {
      var after := PermissionsFor(role, custom);
      for i := 0 to |CRITICAL|
        invariant forall k :: 0 <= k < i ==>
          CRITICAL[k] in Held(Now(), user) && CRITICAL[k] !in after ==> HeldBesides(Now(), CRITICAL[k], user)
      {
        var p := CRITICAL[i];
        if p in PermissionsFor(members[user], custom) && p !in after {
          var n := CountMembersHolding(p, user);
          if n == 0 {
            return false;
          }
        }
      }
      return true;
    }

    method LastHolderGuardForRole(key: string) returns (ok: bool)
      ensures ok <==> RoleGuard(Now(), key)
    {
      if key !in custom {
        return true;
      }
      var granted := PermissionsFor(key, custom);
      for i := 0 to |CRITICAL|
        invariant forall k :: 0 <= k < i ==> CRITICAL[k] in granted ==> HeldOutside(Now(), CRITICAL[k], key)
      {
        var p := CRITICAL[i];
        if p in granted {
          var n := CountMembersHoldingExcludingRole(p, key);
          if n == 0 {
            return false;
          }
        }
      }
      return true;
    }

    method PutRole(caller: string, target: string, role: string) returns (r: Reply)
      modifies this
      ensures r == Answer(old(Now()), caller, ChangeRole(target, role))
      ensures Now() == After(old(Now()), caller, ChangeRole(target, role))
    {
      var held := Held(Org(members, custom), caller);
      if "users.manage" !in held {
        return NotAllowed;
      }
      if target !in members {
        return NoMember;
      }
      if !CanAssign(held, role, custom) || !CanAssign(held, members[target], custom) {
        return BeyondYours;
      }
      var ok := LastHolderGuard(target, role);
      if !ok {
        return LastHolder;
      }
      members := members[target := role];
      return Done;
    }

    method DeleteMember(caller: string, target: string) returns (r: Reply)
      modifies this
      ensures r == Answer(old(Now()), caller, RemoveMember(target))
      ensures Now() == After(old(Now()), caller, RemoveMember(target))
    {
      var held := Held(Org(members, custom), caller);
      if "users.manage" !in held {
        return NotAllowed;
      }
      if target !in members {
        return NoMember;
      }
      if PermissionsFor(members[target], custom) != {} && !CanAssign(held, members[target], custom) {
        return BeyondYours;
      }
      var ok := LastHolderGuard(target, "");
      if !ok {
        return LastHolder;
      }
      members := members - {target};
      return Done;
    }

    method PostRole(caller: string, key: string, label_: string, permissions: seq<string>) returns (r: Reply)
      modifies this
      ensures r == Answer(old(Now()), caller, SaveRole(key, label_, permissions))
      ensures Now() == After(old(Now()), caller, SaveRole(key, label_, permissions))
    {
      var held := Held(Org(members, custom), caller);
      if "roles.manage" !in held {
        return NotAllowed;
      }
      var k := Trim(key);
      if k == "" || Trim(label_) == "" {
        return Malformed;
      }
      if Builtin(k).Some? {
        return BuiltinKey;
      }
      var ok := AllHeld(permissions, held);
      if !ok {
        return BeyondYours;
      }
      if k in custom {
        ok := AllHeld(custom[k], held);
        if !ok {
          return BeyondYours;
        }
      }
      var clean := SanitizePermissions(permissions);
      custom := custom[k := clean];
      return Done;
    }

    method RemoveRole(caller: string, key: string) returns (r: Reply)
      modifies this
      ensures r == Answer(old(Now()), caller, DeleteRole(key))
      ensures Now() == After(old(Now()), caller, DeleteRole(key))
    {
      var held := Held(Org(members, custom), caller);
      if "roles.manage" !in held {
        return NotAllowed;
      }
      if key in custom {
        var ok := AllHeld(custom[key], held);
        if !ok {
          return BeyondYours;
        }
      }
      var ok := LastHolderGuardForRole(key);
      if !ok {
        return LastHolder;
      }
      custom := custom - {key};
      return Done;
    }
  }

  method AllHeld(permissions: seq<string>, held: set<string>) returns (ok: bool)
    ensures ok <==> Elements(permissions) <= held
  {
    for i := 0 to |permissions|
      invariant forall k :: 0 <= k < i ==> permissions[k] in held
    {
      if permissions[i] !in held {
        assert permissions[i] in Elements(permissions);
        return false;
      }
    }
    return true;
  }

  // ---- runs ----

  datatype Step = Step(caller: string, change: Change)

  ghost function Run(o: Org, steps: seq<Step>): Org
    decreases |steps|
  {
    if steps == [] then o else Run(After(o, steps[0].caller, steps[0].change), steps[1..])
  }

  /** Role rows as this build writes them: under a key that is not empty, with names it knows. */
  ghost predicate Clean(o: Org) {
    "" !in o.custom && forall k, p :: k in o.custom && p in o.custom[k] ==> Known(p)
  }

  lemma {:induction false} HeldKnown(o: Org, user: string, p: string)
    requires Clean(o) && p in Held(o, user)
    ensures Known(p)
  {
    EditorKnown(p);
  }

  lemma EditorKnown(p: string)
    ensures p in VIEWER ==> p in EDITOR
    ensures p in EDITOR ==> Known(p)
  {
  }

  lemma {:induction false} StepClean(o: Org, caller: string, c: Change)
    requires Clean(o)
    ensures Clean(After(o, caller, c))
  {
    if c.SaveRole? {
      forall p | p in Sanitized(c.permissions, ALL_PERMISSIONS)
        ensures Known(p)
      {
        SanitizedExactly(c.permissions, ALL_PERMISSIONS, p);
      }
    }
  }

  /** What an accepted save writes is what the caller asked for, all of which the caller holds. */
  lemma {:induction false} SaveWithin(o: Org, caller: string, permissions: seq<string>, p: string)
    requires Clean(o) && Elements(permissions) <= Held(o, caller)
    ensures p in Sanitized(permissions, ALL_PERMISSIONS) <==> p in permissions
  {
    SanitizedExactly(permissions, ALL_PERMISSIONS, p);
    forall i | 0 <= i < |permissions|
      ensures Known(permissions[i]) && Trim(permissions[i]) == permissions[i]
    {
      assert permissions[i] in Elements(permissions);
      HeldKnown(o, caller, permissions[i]);
      KnownTrimmed(permissions[i]);
    }
  }

  /** A save stays within what the caller holds exactly when trimming the names asked for does. */
  lemma {:induction false} SaveWithinExactly(permissions: seq<string>, held: set<string>)
    ensures Elements(Sanitized(permissions, ALL_PERMISSIONS)) <= held <==>
            forall i :: 0 <= i < |permissions| && Known(Trim(permissions[i])) ==> Trim(permissions[i]) in held
  {
    var out := Sanitized(permissions, ALL_PERMISSIONS);
    forall p
      ensures p in out <==> Known(p) && exists i :: 0 <= i < |permissions| && Trim(permissions[i]) == p
    {
      SanitizedExactly(permissions, ALL_PERMISSIONS, p);
    }
    assert forall p :: p in out <==> p in Elements(out);
  }

  lemma {:induction false} PadTrimmed(p: string)
    requires p != [] && Inked(p[0]) && Inked(p[|p| - 1])
    ensures Trim([' '] + p) == p
  {
    assert ([' '] + p)[1..] == p;
    TrimmedAlready(p);
  }

  lemma {:induction false} PaddedSave(o: Org, c: Change, p: string)
    requires o.members == map["ann" := "ops"] && c.SaveRole? && c.key == "ops"
    requires Known(p) && " " + p in c.permissions
    requires Answer(o, "ann", c) == Done
    ensures p in Held(After(o, "ann", c), "ann")
  {
    KnownEnds(p);
    PadTrimmed(p);
    TrimmedAlready("ops");
    var i :| 0 <= i < |c.permissions| && c.permissions[i] == " " + p;
    assert Trim(c.permissions[i]) == p;
    SanitizedExactly(c.permissions, ALL_PERMISSIONS, p);
  }

  /** Rows edited by hand need not be clean: a name padded with a space grants nothing, but is held as
      written, and saving it again trims it into the permission itself. */
  lemma {:induction false} PaddedNameWidens(p: string)
    requires Known(p) && p != "roles.manage"
    ensures exists o: Org, c: Change :: p !in Held(o, "ann") && p in Held(After(o, "ann", c), "ann")
  {
    var names := ["roles.manage", " " + p];
    var o := Org(map["ann" := "ops"], map["ops" := names]);
    var c := SaveRole("ops", "Ops", names);
    assert Held(o, "ann") == {"roles.manage", " " + p};
    TrimmedAlready("ops");
    TrimmedAlready("Ops");
    assert Answer(o, "ann", c) == Done;
    assert c.permissions[1] == " " + p;
    PaddedSave(o, c, p);
    assert p != " " + p;
  }

  lemma {:induction false} StepWithin(o: Org, caller: string, c: Change, user: string)
    requires Clean(o)
    ensures Held(After(o, caller, c), user) <= Held(o, user) + Held(o, caller)
  {
    if Answer(o, caller, c) == Done && c.SaveRole? {
      forall p | p in Held(After(o, caller, c), user)
        ensures p in Held(o, user) + Held(o, caller)
      {
        SaveWithin(o, caller, c.permissions, p);
        assert p in c.permissions ==> p in Elements(c.permissions);
      }
    }
  }

  /** However a group of members takes turns at the four steps, nobody, in the group or outside it, ends up
      with a permission that neither they nor any of the group held at the start. */
  lemma {:induction false} NobodyAmplifies(o: Org, steps: seq<Step>, group: set<string>, theirs: set<string>,
                                           user: string)
    requires Clean(o)
    requires forall i :: 0 <= i < |steps| ==> steps[i].caller in group
    requires forall m :: m in group ==> Held(o, m) <= theirs
    ensures Held(Run(o, steps), user) <= Held(o, user) + theirs
    decreases |steps|
  {
    if steps != [] {
      var caller, c := steps[0].caller, steps[0].change;
      var next := After(o, caller, c);
      StepClean(o, caller, c);
      StepWithin(o, caller, c, user);
      forall m | m in group
        ensures Held(next, m) <= theirs
      {
        StepWithin(o, caller, c, m);
      }
      NobodyAmplifies(next, steps[1..], group, theirs, user);
    }
  }

  /** A step by somebody who lacks a permission a member holds leaves that member's role and permissions
      exactly as they are. */
  lemma {:induction false} StepSpares(o: Org, caller: string, c: Change, user: string, p: string)
    requires p in Held(o, user) && p !in Held(o, caller)
    ensures var next := After(o, caller, c);
            user in next.members && next.members[user] == o.members[user] && Held(next, user) == Held(o, user)
  {
    if Answer(o, caller, c) == Done {
      match c {
        case SaveRole(key, _, _) =>
          assert Covered(o, caller, Trim(key));
        case DeleteRole(key) =>
          assert Covered(o, caller, key);
        case _ =>
      }
    }
  }

  /** A member who holds one permission the whole group lacked at the start is out of the group's reach: no
      run of its steps changes that member's role, removes them, or adds to or takes from what they may do. */
  lemma {:induction false} TheBetterHeldAreSpared(o: Org, steps: seq<Step>, group: set<string>, theirs: set<string>,
                                                  user: string, p: string)
    requires Clean(o)
    requires forall i :: 0 <= i < |steps| ==> steps[i].caller in group
    requires forall m :: m in group ==> Held(o, m) <= theirs
    requires p in Held(o, user) && p !in theirs
    ensures var end := Run(o, steps);
            user in end.members && end.members[user] == o.members[user] && Held(end, user) == Held(o, user)
    decreases |steps|
  {
    if steps != [] {
      var caller, c := steps[0].caller, steps[0].change;
      StepClean(o, caller, c);
      StepSpares(o, caller, c, user, p);
      forall m | m in group
        ensures Held(After(o, caller, c), m) <= theirs
      {
        StepWithin(o, caller, c, m);
      }
      TheBetterHeldAreSpared(After(o, caller, c), steps[1..], group, theirs, user, p);
    }
  }

  // ---- the last holder ----

  /** What a save would have to leave so that a permission somebody holds stays held. */
  ghost predicate SaveLeaves(o: Org, c: Change, p: string) {
    c.SaveRole? ==> p in Elements(c.permissions) || HeldOutside(o, p, Trim(c.key))
  }

  lemma {:induction false} SaveHolds(o: Org, caller: string, c: Change, user: string)
    requires Clean(o) && c.SaveRole? && Answer(o, caller, c) == Done && user in o.members
    ensures Held(After(o, caller, c), user) ==
      if o.members[user] == Trim(c.key) then Elements(c.permissions) else Held(o, user)
  {
    forall p
      ensures p in Sanitized(c.permissions, ALL_PERMISSIONS) <==> p in c.permissions
    {
      SaveWithin(o, caller, c.permissions, p);
    }
    assert Elements(Sanitized(c.permissions, ALL_PERMISSIONS)) == Elements(c.permissions);
  }

  /** An accepted save keeps a permission held exactly when it grants it or some member holds it by another role. */
  lemma {:induction false} SaveKeepsExactly(o: Org, caller: string, c: Change, p: string)
    requires Clean(o) && c.SaveRole? && Answer(o, caller, c) == Done
    requires HeldBySome(o, p)
    ensures HeldBySome(After(o, caller, c), p) <==> SaveLeaves(o, c, p)
  {
    var next := After(o, caller, c);
    forall u | u in o.members
      ensures Held(next, u) == if o.members[u] == Trim(c.key) then Elements(c.permissions) else Held(o, u)
    {
      SaveHolds(o, caller, c, u);
    }
    var u :| u in o.members && p in Held(o, u);
    assert HeldBySome(next, p) || p !in Held(next, u);
  }

  /** A role change, a removal or the deletion of a role never takes a critical permission from its last holder. */
  lemma {:induction false} GuardedStepKeeps(o: Org, caller: string, c: Change, p: string)
    requires Clean(o) && !c.SaveRole?
    requires p in CRITICAL && HeldBySome(o, p)
    ensures HeldBySome(After(o, caller, c), p)
  {
    var next := After(o, caller, c);
    var u :| u in o.members && p in Held(o, u);
    if Answer(o, caller, c) == Done {
      match c {
        case ChangeRole(target, role) =>
          if u == target && p !in PermissionsFor(role, o.custom) {
            assert HeldBesides(o, p, target);
            var v :| v in o.members && v != target && p in Held(o, v);
            assert p in Held(next, v);
          } else {
            assert p in Held(next, u);
          }
        case RemoveMember(target) =>
          if u == target {
            assert HeldBesides(o, p, target);
            var v :| v in o.members && v != target && p in Held(o, v);
            assert p in Held(next, v);
          } else {
            assert p in Held(next, u);
          }
        case DeleteRole(key) =>
          if key in o.custom && o.members[u] == key {
            assert HeldOutside(o, p, key);
            var v :| v in o.members && o.members[v] != key && p in Held(o, v);
            assert p in Held(next, v);
          } else {
            assert p in Held(next, u);
          }
        case SaveRole(_, _, _) =>
          assert false;
      }
    }
  }

  /** Every save of the run grants the permission or leaves it with a member who has it by another role. */
  ghost predicate SavesLeave(o: Org, steps: seq<Step>, p: string)
    decreases |steps|
  {
    steps == [] ||
    (SaveLeaves(o, steps[0].change, p) && SavesLeave(After(o, steps[0].caller, steps[0].change), steps[1..], p))
  }

  /** Whoever acts, a critical permission that somebody holds at the start of a run is still held at its end,
      so long as no save takes it from everybody; no other step can. */
  lemma {:induction false} CriticalStaysHeld(o: Org, steps: seq<Step>, p: string)
    requires Clean(o) && p in CRITICAL && HeldBySome(o, p)
    requires SavesLeave(o, steps, p)
    ensures HeldBySome(Run(o, steps), p)
    decreases |steps|
  {
    if steps != [] {
      var caller, c := steps[0].caller, steps[0].change;
      var next := After(o, caller, c);
      StepClean(o, caller, c);
      assert HeldBySome(next, p) by {
        if c.SaveRole? {
          if Answer(o, caller, c) == Done {
            SaveKeepsExactly(o, caller, c, p);
          }
        } else {
          GuardedStepKeeps(o, caller, c, p);
        }
      }
      CriticalStaysHeld(next, steps[1..], p);
    }
  }

  lemma {:induction false} GuardedRunLeaves(o: Org, steps: seq<Step>, p: string)
    requires forall i :: 0 <= i < |steps| ==> !steps[i].change.SaveRole?
    ensures SavesLeave(o, steps, p)
    decreases |steps|
  {
    if steps != [] {
      GuardedRunLeaves(After(o, steps[0].caller, steps[0].change), steps[1..], p);
    }
  }

  /** Over any run of role changes, removals and deletions, every critical permission held at the start is
      still held at the end. */
  lemma {:induction false} GuardedRunKeepsCritical(o: Org, steps: seq<Step>, p: string)
    requires Clean(o) && p in CRITICAL && HeldBySome(o, p)
    requires forall i :: 0 <= i < |steps| ==> !steps[i].change.SaveRole?
    ensures HeldBySome(Run(o, steps), p)
  {
    GuardedRunLeaves(o, steps, p);
    CriticalStaysHeld(o, steps, p);
  }

  lemma {:induction false} LoneSave(o: Org, c: Change)
    requires o == Org(map["ann" := "ops"], map["ops" := ["users.manage", "roles.manage"]])
    requires c == SaveRole("ops", "Ops", ["roles.manage"])
    ensures Clean(o) && Answer(o, "ann", c) == Done && Trim(c.key) == "ops"
  {
    assert ALL_PERMISSIONS[0] == "users.manage" && ALL_PERMISSIONS[1] == "roles.manage";
    TrimmedAlready("ops");
    TrimmedAlready("Ops");
    assert Held(o, "ann") == {"users.manage", "roles.manage"};
    assert Elements(["roles.manage"]) == {"roles.manage"};
  }

  /** A save asks no guard: the only member who manages users can write that out of their own role. */
  lemma {:induction false} SaveTakesTheLast()
    ensures exists o: Org, c: Change ::
      && Clean(o) && c.SaveRole? && Answer(o, "ann", c) == Done
      && HeldBySome(o, "users.manage") && !HeldBySome(After(o, "ann", c), "users.manage")
  {
    var o := Org(map["ann" := "ops"], map["ops" := ["users.manage", "roles.manage"]]);
    var c := SaveRole("ops", "Ops", ["roles.manage"]);
    LoneSave(o, c);
    assert "ann" in o.members && "users.manage" in Held(o, "ann");
    assert !SaveLeaves(o, c, "users.manage");
    SaveKeepsExactly(o, "ann", c, "users.manage");
  }
}
