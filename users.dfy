/**
 * `UserManager`: user lookup by e-mail, password sign-in and role resolution over
 * the users and roles collections.
 */
module Users {
  import opened Wrappers
  import opened Entities
  import opened Storage
  import opened External
  import opened IdentityResults

  const UnknownEmail := "User with the specified email doesn't exist"
  const IncorrectCredentials := "Incorrect email or password"

  /** `_usersRepository.GetByEmailAsync(email)`: the first user stored under the normalized e-mail. */
  function GetByEmail(env: Collaborators, users: Collection<ApplicationUser>, email: string)
    : (r: Fallible<Option<ApplicationUser>>)
    ensures r.Faulted? <==> !users.reachable
    ensures r.Completed? && r.value.Some? ==>
              r.value.value in users.documents && r.value.value.normalizedEmail == env.normalize(email)
    ensures r.Completed? && r.value.None? ==>
              forall u :: u in users.documents ==> u.normalizedEmail != env.normalize(email)
  {
    FindFirst(users, (u: ApplicationUser) => u.normalizedEmail == env.normalize(email))
  }

  /** `_usersRepository.GetAsync(id)`. */
  function FindUser(users: Collection<ApplicationUser>, id: ObjectId): (r: Fallible<Option<ApplicationUser>>)
    ensures r.Faulted? <==> !users.reachable
    ensures r.Completed? && r.value.Some? ==> r.value.value in users.documents && r.value.value.id == id
    ensures r.Completed? && r.value.None? ==> forall u :: u in users.documents ==> u.id != id
  {
    FindFirst(users, (u: ApplicationUser) => u.id == id)
  }

  /** `_rolesRepository.GetAsync(id)`. */
  function FindRole(roles: Collection<ApplicationRole>, id: ObjectId): (r: Fallible<Option<ApplicationRole>>)
    ensures r.Faulted? <==> !roles.reachable
    ensures r.Completed? && r.value.Some? ==> r.value.value in roles.documents && r.value.value.id == id
    ensures r.Completed? && r.value.None? ==> forall a :: a in roles.documents ==> a.id != id
  {
    FindFirst(roles, (a: ApplicationRole) => a.id == id)
  }

  /**
   * The names the role loop of `GetRolesAsync` collects for `ids`: each id in turn is
   * converted (which may throw) and looked up (which may throw); an id without a role
   * is skipped. Defined on the last id, so a loop prefix is a call on a prefix.
   */
  function ResolvedNames(env: Collaborators, roles: Collection<ApplicationRole>, ids: seq<string>): Fallible<seq<string>>
    decreases |ids|
  {
    if ids == [] then Completed([])
    else
      match ResolvedNames(env, roles, ids[..|ids| - 1])
      case Faulted => Faulted
      case Completed(names) =>
        match NewObjectId(env, ids[|ids| - 1])
        case Faulted => Faulted
        case Completed(id) =>
          match FindRole(roles, id)
          case Faulted => Faulted
          case Completed(None) => Completed(names)
          case Completed(Some(role)) => Completed(names + [role.name])
  }

  /** A role id the loop can resolve: it parses and names a stored role. */
  predicate Resolves(env: Collaborators, roles: Collection<ApplicationRole>, roleId: string) {
    match env.tryParseObjectId(roleId)
    case None => false
    case Some(id) => FirstWhere(roles.documents, (a: ApplicationRole) => a.id == id).Some?
  }

  /** The stored role an id that `Resolves` names. */
  function RoleOf(env: Collaborators, roles: Collection<ApplicationRole>, roleId: string): ApplicationRole
    requires Resolves(env, roles, roleId)
  {
    FirstWhere(roles.documents, (a: ApplicationRole) => a.id == env.tryParseObjectId(roleId).value).value
  }

  /** The loop collects at most one name per role id. */
  lemma {:induction false} ResolvedNamesBounded(env: Collaborators, roles: Collection<ApplicationRole>, ids: seq<string>)
    ensures ResolvedNames(env, roles, ids).Completed? ==> |ResolvedNames(env, roles, ids).value| <= |ids|
    decreases |ids|
  {
    if ids != [] {
      ResolvedNamesBounded(env, roles, ids[..|ids| - 1]);
    }
  }

  /**
   * The loop throws exactly when some role id does not parse, or when there is an id to
   * look up and the roles collection cannot be reached.
   */
  lemma {:induction false} ResolvedNamesFaults(env: Collaborators, roles: Collection<ApplicationRole>, ids: seq<string>)
    ensures ResolvedNames(env, roles, ids).Faulted? <==>
              (ids != [] && !roles.reachable) || exists i :: 0 <= i < |ids| && env.tryParseObjectId(ids[i]).None?
    decreases |ids|
  {
    if ids != [] {
      var init := ids[..|ids| - 1];
      ResolvedNamesFaults(env, roles, init);
      assert forall i :: 0 <= i < |init| ==> init[i] == ids[i];
      if init == [] {
        assert ids == [ids[0]];
      }
    }
  }

  /**
   * When every role id resolves, the names are those of the user's roles, one per id
   * and in the order of the ids.
   */
  lemma {:induction false} ResolvedNamesInOrder(env: Collaborators, roles: Collection<ApplicationRole>, ids: seq<string>)
    requires roles.reachable
    requires forall i :: 0 <= i < |ids| ==> Resolves(env, roles, ids[i])
    ensures ResolvedNames(env, roles, ids).Completed?
    ensures |ResolvedNames(env, roles, ids).value| == |ids|
    ensures forall i :: 0 <= i < |ids| ==> ResolvedNames(env, roles, ids).value[i] == RoleOf(env, roles, ids[i]).name
    decreases |ids|
  {
    if ids != [] {
      var init := ids[..|ids| - 1];
      var last := ids[|ids| - 1];
      assert forall i :: 0 <= i < |init| ==> init[i] == ids[i];
      ResolvedNamesInOrder(env, roles, init);
      var names := ResolvedNames(env, roles, init).value;
      assert Resolves(env, roles, last);
      var id := env.tryParseObjectId(last).value;
      assert NewObjectId(env, last) == Completed(id);
      assert FindRole(roles, id) == Completed(Some(RoleOf(env, roles, last)));
      assert ResolvedNames(env, roles, ids) == Completed(names + [RoleOf(env, roles, last).name]);
    }
  }

  /** The names of the roles the ids name, in the order of the ids, skipping ids that name none. */
  function NamesOfResolving(env: Collaborators, roles: Collection<ApplicationRole>, ids: seq<string>): seq<string> {
    if ids == [] then []
    else
      (if Resolves(env, roles, ids[0]) then [RoleOf(env, roles, ids[0]).name] else []) +
      NamesOfResolving(env, roles, ids[1..])
  }

  /** Appending an id adds its role's name at the end, or nothing when it names no role. */
  lemma {:induction false} NamesOfResolvingSnoc(env: Collaborators, roles: Collection<ApplicationRole>, ids: seq<string>, id: string)
    ensures NamesOfResolving(env, roles, ids + [id]) ==
              NamesOfResolving(env, roles, ids) + (if Resolves(env, roles, id) then [RoleOf(env, roles, id).name] else [])
    decreases |ids|
  {
    if ids != [] {
      assert (ids + [id])[1..] == ids[1..] + [id];
      NamesOfResolvingSnoc(env, roles, ids[1..], id);
    }
  }

  /**
   * When every role id parses and the roles collection answers, the loop collects the
   * names of the roles the ids name, in the order of the ids, skipping ids without a role.
   */
  lemma {:induction false} ResolvedNamesSkipsUnresolved(env: Collaborators, roles: Collection<ApplicationRole>, ids: seq<string>)
    requires roles.reachable
    requires forall i :: 0 <= i < |ids| ==> env.tryParseObjectId(ids[i]).Some?
    ensures ResolvedNames(env, roles, ids) == Completed(NamesOfResolving(env, roles, ids))
    decreases |ids|
  {
    if ids != [] {
      var init := ids[..|ids| - 1];
      var last := ids[|ids| - 1];
      assert forall i :: 0 <= i < |init| ==> init[i] == ids[i];
      ResolvedNamesSkipsUnresolved(env, roles, init);
      assert init + [last] == ids;
      NamesOfResolvingSnoc(env, roles, init, last);
      var id := env.tryParseObjectId(last).value;
      assert NewObjectId(env, last) == Completed(id);
      if Resolves(env, roles, last) {
        assert FindRole(roles, id) == Completed(Some(RoleOf(env, roles, last)));
      } else {
        assert forall i :: 0 <= i < |roles.documents| ==> roles.documents[i].id != id;
        assert FindRole(roles, id) == Completed(None);
        assert ResolvedNames(env, roles, ids) == ResolvedNames(env, roles, init);
        assert NamesOfResolving(env, roles, init) + [] == NamesOfResolving(env, roles, init);
      }
    }
  }

  /** Every collected name is the name of a stored role. */
  lemma {:induction false} ResolvedNamesAreRoleNames(env: Collaborators, roles: Collection<ApplicationRole>, ids: seq<string>)
    ensures ResolvedNames(env, roles, ids).Completed? ==>
              forall n :: n in ResolvedNames(env, roles, ids).value ==> exists a :: a in roles.documents && a.name == n
    decreases |ids|
  {
    if ids != [] {
      ResolvedNamesAreRoleNames(env, roles, ids[..|ids| - 1]);
    }
  }

  /** Once a prefix of the ids makes the loop throw, the whole loop throws. */
  lemma {:induction false} FaultPersists(env: Collaborators, roles: Collection<ApplicationRole>, ids: seq<string>, j: nat)
    requires j <= |ids|
    requires ResolvedNames(env, roles, ids[..j]).Faulted?
    ensures ResolvedNames(env, roles, ids).Faulted?
    decreases |ids| - j
  {
    if j < |ids| {
      assert ids[..j + 1][..j] == ids[..j];
      FaultPersists(env, roles, ids, j + 1);
    } else {
      assert ids[..j] == ids;
    }
  }

  class UserManager {
    const env: Collaborators
    const users: Collection<ApplicationUser>
    const roles: Collection<ApplicationRole>

    constructor (env: Collaborators, users: Collection<ApplicationUser>, roles: Collection<ApplicationRole>)
      ensures this.env == env && this.users == users && this.roles == roles
    {
      this.env := env;
      this.users := users;
      this.roles := roles;
    }

    /** `FindByEmailAsync`: the user, or `null` when there is none or the lookup throws. */
    function FindByEmail(email: string): (r: Option<ApplicationUser>)
      ensures r.Some? <==> users.reachable && exists u :: u in users.documents && u.normalizedEmail == env.normalize(email)
      ensures r.Some? ==> r.value in users.documents && r.value.normalizedEmail == env.normalize(email)
    {
      match GetByEmail(env, users, email)
      case Faulted => None
      case Completed(user) => user
    }

    /** `PasswordSignInAsync`: succeeds exactly when the stored hash and salt verify the password. */
    function PasswordSignIn(email: string, password: string): (r: IdentityOperationResult)
      ensures !users.reachable ==> r == Failed([])
      ensures users.reachable && FindByEmail(email).None? ==> r == FailedWith(UnknownEmail)
      ensures r.Succeeded() <==>
                var user := FindByEmail(email);
                user.Some? && env.verifyPassword(password, user.value.passwordHash, user.value.passwordSalt)
      ensures !r.Succeeded() ==> r.Failed?
    {
      match GetByEmail(env, users, email)
      case Faulted => Failed([])
      case Completed(None) => FailedWith(UnknownEmail)
      case Completed(Some(user)) =>
        if env.verifyPassword(password, user.passwordHash, user.passwordSalt) then Success
        else FailedWith(IncorrectCredentials)
    }

    /** What `GetRolesAsync` returns; exceptions propagate. */
    function Roles(userId: ObjectId): (r: Fallible<seq<string>>)
      ensures FindUser(users, userId).Faulted? ==> r.Faulted?
      ensures FindUser(users, userId) == Completed(None) ==> r == Completed([])
      ensures FindUser(users, userId).Completed? && FindUser(users, userId).value.Some? ==>
                r == ResolvedNames(env, roles, FindUser(users, userId).value.value.roles)
    {
      match FindUser(users, userId)
      case Faulted => Faulted
      case Completed(None) => Completed([])
      case Completed(Some(user)) =>
        if |user.roles| == 0 then Completed([]) else ResolvedNames(env, roles, user.roles)
    }

    /** `GetRolesAsync`: the loop over the user's role ids. */
    method GetRoles(userId: ObjectId) returns (r: Fallible<seq<string>>)
      ensures r == Roles(userId)
    {
      var user := FindUser(users, userId);
      if user.Faulted? {
        return Faulted;
      }
      if user.value.None? {
        return Completed([]);
      }
      var roleIds := user.value.value.roles;
      if |roleIds| == 0 {
        return Completed([]);
      }
      var roleNames: seq<string> := [];
      var i := 0;
      while i < |roleIds|
        invariant 0 <= i <= |roleIds|
        invariant ResolvedNames(env, roles, roleIds[..i]) == Completed(roleNames)
      {
        assert roleIds[..i + 1][..i] == roleIds[..i];
        var roleId := NewObjectId(env, roleIds[i]);
        if roleId.Faulted? {
          FaultPersists(env, roles, roleIds, i + 1);
          return Faulted;
        }
        var role := FindRole(roles, roleId.value);
        if role.Faulted? {
          FaultPersists(env, roles, roleIds, i + 1);
          return Faulted;
        }
        if role.value.Some? {
          roleNames := roleNames + [role.value.value.name];
        }
        i := i + 1;
      }
      assert roleIds[..i] == roleIds;
      r := Completed(roleNames);
    }

    /**
     * `IsInRoleAsync`: the user exists and the first role stored under the normalized
     * name is one of the user's roles. An unknown user is in no role.
     */
    function IsInRole(userId: ObjectId, roleName: string): (r: Fallible<bool>)
      ensures r.Faulted? <==> !users.reachable || (FindUser(users, userId).value.Some? && !roles.reachable)
      ensures FindUser(users, userId) == Completed(None) ==> r == Completed(false)
      ensures r.Completed? && FindUser(users, userId).value.Some? ==>
                (r.value <==>
                   exists i :: 0 <= i < |roles.documents| &&
                               roles.documents[i].normalizedName == env.normalize(roleName) &&
                               (forall j :: 0 <= j < i ==> roles.documents[j].normalizedName != env.normalize(roleName)) &&
                               roles.documents[i].id.hex in FindUser(users, userId).value.value.roles)
    {
      match FindUser(users, userId)
      case Faulted => Faulted
      case Completed(None) => Completed(false)
      case Completed(Some(user)) =>
        match FindFirst(roles, (a: ApplicationRole) => a.normalizedName == env.normalize(roleName))
        case Faulted => Faulted
        case Completed(role) => Completed(role.Some? && role.value.id.hex in user.roles)
    }
  }
}
