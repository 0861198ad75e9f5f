/**
 * The web server's user session: who the user is, and what they may do, answered from
 * the database and remembered for the rest of the request.
 *
 * The database is a read-only oracle (`Db`): each query the session makes is a field of
 * it, and nothing is assumed about the answers. The session keeps two caches (component
 * to entity, entity to permissions) and three values loaded on first use (groups, global
 * permissions, system administrator). Ghost fields record each load, so that "loaded at
 * most once" is an invariant of the class.
 */
module UserSession {
  import opened Wrappers
  import opened Seqs

  // Component qualifiers and scopes of the plugin API.
  const PROJECT: string := "TRK"
  const VIEW: string := "VW"
  const SUBVIEW: string := "SVW"
  const FILE_SCOPE: string := "FIL"

  /** Portfolios and sub-portfolios. */
  const QUALIFIERS: set<string> := {VIEW, SUBVIEW}

  /** What anyone may do on a public project: browse it and see its source. */
  const PUBLIC_PERMISSIONS: set<string> := {"user", "codeviewer"}

  /** The key of the global permission that makes a system administrator. */
  const ADMINISTER: string := "admin"

  datatype UserDto = UserDto(
    uuid: Option<string>,
    login: string,
    name: Option<string>,
    lastSonarlintConnectionDate: Option<int>,
    resetPassword: bool,
    active: bool)

  datatype GroupDto = GroupDto(uuid: string, name: string)

  datatype ComponentDto = ComponentDto(
    uuid: string,
    qualifier: Option<string>,
    scope: Option<string>,
    branchUuid: string,
    copyComponentUuid: Option<string>)

  datatype BranchDto = BranchDto(uuid: string, projectUuid: string)

  datatype EntityDto = EntityDto(uuid: string, isPrivate: bool)

  /** The database queries the session makes, as their answers. */
  datatype Db = Db(
    groupsOfLogin: string -> seq<GroupDto>,
    componentByUuid: string -> Option<ComponentDto>,
    branchByUuid: string -> Option<BranchDto>,
    mainBranchOfProject: string -> Option<BranchDto>,
    // the direct children of a branch with qualifier PROJECT and scope FILE
    projectCopiesUnder: string -> seq<ComponentDto>,
    entityByUuid: string -> Option<EntityDto>,
    globalPermissionsOfUser: string -> set<string>,
    globalPermissionsOfAnonymous: set<string>,
    entityPermissionsOfUser: (string, string) -> set<string>,
    entityPermissionsOfAnonymous: string -> set<string>,
    keepAuthorizedEntityUuids: (set<string>, Option<string>, string) -> set<string>)

  // ---------------------------------------------------------------------
  // What the session loads
  // ---------------------------------------------------------------------

  /** The user's uuid, when there is a user and it has one. */
  function UserUuid(user: Option<UserDto>): (r: Option<string>)
    ensures r.Some? <==> user.Some? && user.value.uuid.Some?
  {
    if user.Some? then user.value.uuid else None
  }

  function LoadGroups(user: Option<UserDto>, db: Db): (r: seq<GroupDto>)
    ensures user.None? ==> r == []
  {
    match user
    case None => []
    case Some(u) => db.groupsOfLogin(u.login)
  }

  /** The keys of the user's global permissions, or the anonymous ones without a user uuid. */
  function LoadGlobalPermissions(user: Option<UserDto>, db: Db): (r: set<string>)
    ensures UserUuid(user).None? ==> r == db.globalPermissionsOfAnonymous
  {
    match UserUuid(user)
    case Some(uuid) => db.globalPermissionsOfUser(uuid)
    case None => db.globalPermissionsOfAnonymous
  }

  function LoadDbPermissions(user: Option<UserDto>, db: Db, entityUuid: string): (r: set<string>)
    ensures UserUuid(user).None? ==> r == db.entityPermissionsOfAnonymous(entityUuid)
  {
    match UserUuid(user)
    case Some(uuid) => db.entityPermissionsOfUser(entityUuid, uuid)
    case None => db.entityPermissionsOfAnonymous(entityUuid)
  }

  function LoadEntityPermissions(user: Option<UserDto>, db: Db, entityUuid: string): set<string>
  {
    match db.entityByUuid(entityUuid)
    case None => {}
    case Some(entity) =>
      if entity.isPrivate then LoadDbPermissions(user, db, entityUuid)
      else PUBLIC_PERMISSIONS + LoadDbPermissions(user, db, entityUuid)
  }

  /**
   * A missing entity grants nothing, a private one what the database grants, and a
   * public one the public permissions on top of that.
   */
  lemma EntityPermissionCases(user: Option<UserDto>, db: Db, entityUuid: string)
    ensures db.entityByUuid(entityUuid).None? ==> LoadEntityPermissions(user, db, entityUuid) == {}
    ensures db.entityByUuid(entityUuid).Some? && db.entityByUuid(entityUuid).value.isPrivate ==>
      LoadEntityPermissions(user, db, entityUuid) == LoadDbPermissions(user, db, entityUuid)
    ensures db.entityByUuid(entityUuid).Some? && !db.entityByUuid(entityUuid).value.isPrivate ==>
      && PUBLIC_PERMISSIONS <= LoadEntityPermissions(user, db, entityUuid)
      && LoadDbPermissions(user, db, entityUuid) <= LoadEntityPermissions(user, db, entityUuid)
      && forall p :: p in LoadEntityPermissions(user, db, entityUuid) ==>
           p in PUBLIC_PERMISSIONS || p in LoadDbPermissions(user, db, entityUuid)
  {
  }

  predicate IsTechnicalProject(c: ComponentDto)
  {
    c.qualifier == Some(PROJECT) && c.scope == Some(FILE_SCOPE)
  }

  predicate IsPortfolioOrSubPortfolio(c: ComponentDto)
  {
    c.qualifier.Some? && c.qualifier.value in QUALIFIERS
  }

  /** No component is both a portfolio and a technical project. */
  lemma PortfolioIsNoTechnicalProject(c: ComponentDto)
    ensures !(IsPortfolioOrSubPortfolio(c) && IsTechnicalProject(c))
  {
  }

  /**
   * The entity a component belongs to: portfolios and technical projects keep it in their
   * branch uuid, anything else goes through its branch, which must exist.
   */
  function GetEntityUuid(db: Db, c: ComponentDto): (r: Result<string>)
    ensures IsPortfolioOrSubPortfolio(c) || IsTechnicalProject(c) ==> r == Ok(c.branchUuid)
    ensures !(IsPortfolioOrSubPortfolio(c) || IsTechnicalProject(c)) ==>
      (r.Err? <==> db.branchByUuid(c.branchUuid).None?) &&
      (r.Ok? ==> r.value == db.branchByUuid(c.branchUuid).value.projectUuid)
  {
    if IsPortfolioOrSubPortfolio(c) || IsTechnicalProject(c) then Ok(c.branchUuid)
    else
      match db.branchByUuid(c.branchUuid)
      case Some(branch) => Ok(branch.projectUuid)
      case None => Err("No branch found for component")
  }

  /** The projects of the branches with the given uuids. */
  function ProjectsOfBranches(db: Db, branchUuids: set<string>): (r: set<string>)
    ensures forall p :: p in r <==> exists b :: b in branchUuids && db.branchByUuid(b).Some? && db.branchByUuid(b).value.projectUuid == p
  {
    set b | b in branchUuids && db.branchByUuid(b).Some? :: db.branchByUuid(b).value.projectUuid
  }

  /** The projects an application is made of, found through the copies under its main branch. */
  function LoadChildProjectUuids(db: Db, applicationUuid: string): (r: Result<set<string>>)
    ensures r.Err? <==> db.mainBranchOfProject(applicationUuid).None?
  {
    match db.mainBranchOfProject(applicationUuid)
    case None => Err("NoSuchElementException")
    case Some(main) =>
      var copies := set c | c in db.projectCopiesUnder(main.uuid) && c.copyComponentUuid.Some? :: c.copyComponentUuid.value;
      Ok(ProjectsOfBranches(db, copies))
  }

  function KeepEntitiesUuidsByPermission(user: Option<UserDto>, db: Db, permission: string, entityUuids: set<string>): set<string>
  {
    db.keepAuthorizedEntityUuids(entityUuids, UserUuid(user), permission)
  }

  // ---------------------------------------------------------------------
  // The session
  // ---------------------------------------------------------------------

  class ServerUserSession {
    const userDto: Option<UserDto>
    const db: Db

    var entityUuidByComponentUuid: map<string, string>
    var permissionsByEntityUuid: map<string, set<string>>
    var groups: Option<seq<GroupDto>>
    var isSystemAdministrator: Option<bool>
    var permissions: Option<set<string>>

    /** The database loads made so far, in order. */
    ghost var groupLoads: nat
    ghost var globalPermissionLoads: nat
    ghost var administratorLoads: nat
    ghost var entityPermissionLoads: seq<string>
    ghost var componentLookups: seq<string>

    /** Groups are loaded at most once, and what is kept is what the database says. */
    ghost predicate GroupsValid()
      reads this`groups, this`groupLoads
    {
      && groupLoads == (if groups.Some? then 1 else 0)
      && (groups.Some? ==> groups.value == LoadGroups(userDto, db))
    }

    ghost predicate GlobalPermissionsValid()
      reads this`permissions, this`globalPermissionLoads
    {
      && globalPermissionLoads == (if permissions.Some? then 1 else 0)
      && (permissions.Some? ==> permissions.value == LoadGlobalPermissions(userDto, db))
    }

    /** The administrator flag is computed at most once, from the global permissions it loads. */
    ghost predicate AdministratorValid()
      reads this`isSystemAdministrator, this`administratorLoads, this`permissions
    {
      && administratorLoads == (if isSystemAdministrator.Some? then 1 else 0)
      && (isSystemAdministrator.Some? ==> permissions.Some?)
      && (isSystemAdministrator.Some? ==> isSystemAdministrator.value == (ADMINISTER in LoadGlobalPermissions(userDto, db)))
    }

    /** Each entity's permissions are loaded at most once, and kept as loaded. */
    ghost predicate EntityPermissionsValid()
      reads this`permissionsByEntityUuid, this`entityPermissionLoads
    {
      && Distinct(entityPermissionLoads)
      && (forall e :: e in entityPermissionLoads <==> e in permissionsByEntityUuid)
      && (forall e :: e in permissionsByEntityUuid ==> permissionsByEntityUuid[e] == LoadEntityPermissions(userDto, db, e))
    }

    /** Only components that exist are cached, each with the entity it resolves to. */
    ghost predicate ComponentsValid()
      reads this`entityUuidByComponentUuid
    {
      forall c :: c in entityUuidByComponentUuid ==>
        db.componentByUuid(c).Some? && GetEntityUuid(db, db.componentByUuid(c).value) == Ok(entityUuidByComponentUuid[c])
    }

    ghost predicate Valid()
      reads this
    {
      GroupsValid() && GlobalPermissionsValid() && AdministratorValid() && EntityPermissionsValid() && ComponentsValid()
    }

    constructor(db: Db, userDto: Option<UserDto>)
      ensures this.db == db && this.userDto == userDto
      ensures entityUuidByComponentUuid == map[] && permissionsByEntityUuid == map[]
      ensures groups.None? && permissions.None? && isSystemAdministrator.None?
      ensures entityPermissionLoads == [] && componentLookups == []
      ensures Valid()
    {
      this.db := db;
      this.userDto := userDto;
      entityUuidByComponentUuid := map[];
      permissionsByEntityUuid := map[];
      groups := None;
      isSystemAdministrator := None;
      permissions := None;
      groupLoads := 0;
      globalPermissionLoads := 0;
      administratorLoads := 0;
      entityPermissionLoads := [];
      componentLookups := [];
    }

    // Identity

    function GetLastSonarlintConnectionDate(): (r: Option<int>)
      ensures userDto.None? ==> r.None?
    {
      if userDto.None? then None else userDto.value.lastSonarlintConnectionDate
    }

    function GetLogin(): (r: Option<string>)
      ensures r.Some? <==> userDto.Some?
    {
      if userDto.None? then None else Some(userDto.value.login)
    }

    function GetUuid(): (r: Option<string>)
      ensures r == UserUuid(userDto)
    {
      if userDto.None? then None else userDto.value.uuid
    }

    function GetName(): (r: Option<string>)
      ensures userDto.None? ==> r.None?
    {
      if userDto.None? then None else userDto.value.name
    }

    function ShouldResetPassword(): (r: bool)
      ensures r ==> userDto.Some?
    {
      userDto.Some? && userDto.value.resetPassword
    }

    function IsLoggedIn(): (r: bool)
      ensures r <==> GetLogin().Some?
    {
      userDto.Some?
    }

    /** Only defined for a logged-in user. */
    function IsActive(): bool
      requires IsLoggedIn()
    {
      userDto.value.active
    }

    /** Without a user, the session has no identity at all. */
    lemma AnonymousHasNoIdentity()
      requires !IsLoggedIn()
      ensures GetLogin().None? && GetUuid().None? && GetName().None? && GetLastSonarlintConnectionDate().None?
      ensures !ShouldResetPassword()
      ensures LoadGroups(userDto, db) == []
    {
    }

    // Values loaded on first use

    method GetGroups() returns (r: seq<GroupDto>)
      requires GroupsValid()
      modifies this`groups, this`groupLoads
      ensures GroupsValid()
      ensures r == LoadGroups(userDto, db) && groups == Some(r)
      ensures groupLoads == (if old(groups).Some? then old(groupLoads) else old(groupLoads) + 1)
    {
      if groups.None? {
        groups := Some(LoadGroups(userDto, db));
        groupLoads := groupLoads + 1;
      }
      r := groups.value;
    }

    method HasPermissionImpl(permission: string) returns (r: bool)
      requires GlobalPermissionsValid()
      modifies this`permissions, this`globalPermissionLoads
      ensures GlobalPermissionsValid()
      ensures r <==> permission in LoadGlobalPermissions(userDto, db)
      ensures permissions.Some?
      ensures old(permissions).Some? ==> permissions == old(permissions) && globalPermissionLoads == old(globalPermissionLoads)
    {
      if permissions.None? {
        permissions := Some(LoadGlobalPermissions(userDto, db));
        globalPermissionLoads := globalPermissionLoads + 1;
      }
      r := permission in permissions.value;
    }

    method IsSystemAdministrator() returns (r: bool)
      requires GlobalPermissionsValid() && AdministratorValid()
      modifies this`isSystemAdministrator, this`administratorLoads, this`permissions, this`globalPermissionLoads
      ensures GlobalPermissionsValid() && AdministratorValid()
      ensures r <==> ADMINISTER in LoadGlobalPermissions(userDto, db)
      ensures isSystemAdministrator == Some(r) && permissions.Some?
      ensures administratorLoads == (if old(isSystemAdministrator).Some? then old(administratorLoads) else old(administratorLoads) + 1)
      ensures old(isSystemAdministrator).Some? ==>
        permissions == old(permissions) && globalPermissionLoads == old(globalPermissionLoads)
    {
      if isSystemAdministrator.None? {
        var admin := HasPermissionImpl(ADMINISTER);
        isSystemAdministrator := Some(admin);
        administratorLoads := administratorLoads + 1;
      }
      r := isSystemAdministrator.value;
    }

    // Entity permissions

    /**
     * The permissions of an entity are loaded on its first check and kept; every check
     * answers what the database grants, so repeated checks agree.
     */
    method HasPermission(permission: string, entityUuid: string) returns (r: bool)
      requires EntityPermissionsValid()
      modifies this`permissionsByEntityUuid, this`entityPermissionLoads
      ensures EntityPermissionsValid()
      ensures r <==> permission in LoadEntityPermissions(userDto, db, entityUuid)
      ensures permissionsByEntityUuid == old(permissionsByEntityUuid)[entityUuid := LoadEntityPermissions(userDto, db, entityUuid)]
      ensures entityPermissionLoads ==
        if entityUuid in old(permissionsByEntityUuid) then old(entityPermissionLoads) else old(entityPermissionLoads) + [entityUuid]
    {
      if entityUuid !in permissionsByEntityUuid {
        var loaded := LoadEntityPermissions(userDto, db, entityUuid);
        AppendDistinct(entityPermissionLoads, entityUuid);
        permissionsByEntityUuid := permissionsByEntityUuid[entityUuid := loaded];
        entityPermissionLoads := entityPermissionLoads + [entityUuid];
      } else {
        assert permissionsByEntityUuid[entityUuid := LoadEntityPermissions(userDto, db, entityUuid)] == permissionsByEntityUuid;
      }
      r := permission in permissionsByEntityUuid[entityUuid];
    }

    // Components

    /**
     * The entity a component belongs to: a cached answer is returned without a lookup,
     * an unknown component gives nothing and is not cached, and a resolved one is cached.
     */
    method ComponentUuidToEntityUuid(componentUuid: string) returns (r: Result<Option<string>>)
      requires ComponentsValid()
      modifies this`entityUuidByComponentUuid, this`componentLookups
      ensures ComponentsValid()
      ensures componentUuid in old(entityUuidByComponentUuid) ==>
        && r == Ok(Some(old(entityUuidByComponentUuid)[componentUuid]))
        && entityUuidByComponentUuid == old(entityUuidByComponentUuid)
        && componentLookups == old(componentLookups)
      ensures componentUuid !in old(entityUuidByComponentUuid) ==>
        && componentLookups == old(componentLookups) + [componentUuid]
        && match db.componentByUuid(componentUuid)
           case None => r == Ok(None) && entityUuidByComponentUuid == old(entityUuidByComponentUuid)
           case Some(c) =>
             match GetEntityUuid(db, c)
             case Err(e) => r == Err(e) && entityUuidByComponentUuid == old(entityUuidByComponentUuid)
             case Ok(entity) =>
               r == Ok(Some(entity)) && entityUuidByComponentUuid == old(entityUuidByComponentUuid)[componentUuid := entity]
    {
      if componentUuid in entityUuidByComponentUuid {
        return Ok(Some(entityUuidByComponentUuid[componentUuid]));
      }
      componentLookups := componentLookups + [componentUuid];
      var component := db.componentByUuid(componentUuid);
      if component.None? {
        return Ok(None);
      }
      var entity := GetEntityUuid(db, component.value);
      if entity.Err? {
        return Err(entity.error);
      }
      entityUuidByComponentUuid := entityUuidByComponentUuid[componentUuid := entity.value];
      r := Ok(Some(entity.value));
    }

    /** A cached component resolves to the entity the database gives it. */
    lemma CachedComponentResolves(componentUuid: string)
      requires ComponentsValid()
      requires componentUuid in entityUuidByComponentUuid
      ensures db.componentByUuid(componentUuid).Some?
      ensures GetEntityUuid(db, db.componentByUuid(componentUuid).value).Ok?
      ensures GetEntityUuid(db, db.componentByUuid(componentUuid).value).value == entityUuidByComponentUuid[componentUuid]
    {
    }

    // Authorization of several entities

    /** An application's projects are all authorized, or the main branch is missing. */
    function HasChildProjectsPermission(permission: string, applicationUuid: string): (r: Result<bool>)
      ensures r.Err? <==> db.mainBranchOfProject(applicationUuid).None?
      ensures r.Ok? ==>
        var children := LoadChildProjectUuids(db, applicationUuid).value;
        (r.value <==> children <= KeepEntitiesUuidsByPermission(userDto, db, permission, children))
    {
      match LoadChildProjectUuids(db, applicationUuid)
      case Err(e) => Err(e)
      case Ok(children) =>
        var authorized := KeepEntitiesUuidsByPermission(userDto, db, permission, children);
        Ok(children <= authorized)
    }

    /** The entities whose uuid the database authorizes, in their original order. */
    function KeepAuthorizedEntities(permission: string, entities: seq<EntityDto>): (r: seq<EntityDto>)
      ensures |r| <= |entities|
      ensures forall e :: e in r <==>
        e in entities && e.uuid in KeepEntitiesUuidsByPermission(userDto, db, permission, EntityUuids(entities))
    {
      var authorized := KeepEntitiesUuidsByPermission(userDto, db, permission, EntityUuids(entities));
      Filter(entities, (e: EntityDto) => e.uuid in authorized)
    }

    /** The filter keeps the input order and drops nothing twice. */
    lemma KeepAuthorizedEntitiesKeepsOrder(permission: string, entities: seq<EntityDto>)
      ensures Subseq(KeepAuthorizedEntities(permission, entities), entities)
      ensures forall e :: e in KeepAuthorizedEntities(permission, entities) ==>
        multiset(KeepAuthorizedEntities(permission, entities))[e] == multiset(entities)[e]
    {
      var authorized := KeepEntitiesUuidsByPermission(userDto, db, permission, EntityUuids(entities));
      var p := (e: EntityDto) => e.uuid in authorized;
      FilterSubseq(entities, p);
      forall e | e in KeepAuthorizedEntities(permission, entities)
        ensures multiset(KeepAuthorizedEntities(permission, entities))[e] == multiset(entities)[e]
      {
        FilterCount(entities, p, e);
      }
    }
  }

  function EntityUuids(entities: seq<EntityDto>): (r: set<string>)
    ensures forall u :: u in r <==> exists e :: e in entities && e.uuid == u
  {
    set e | e in entities :: e.uuid
  }
}
