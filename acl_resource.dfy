/** The ACL resource of a running application: a Server resource, which is
    the abstract resource with `getRole` overridden and `getRights`,
    `setRight` and `index` implemented against a remote rights server. */
module AclResource {
  import opened AclAbstract
  import opened AclServer

  /** Where `getRole` fills the role cache from. `ModelStore` is the
      abstract resource's own lookup (every role of the role model);
      `ServerIndex` is the server's override (the server's role index). */
  datatype RoleSource = ModelStore(records: seq<Role>) | ServerIndex(records: seq<Role>)

  // ---------------------------------------------------------------------
  // Specification of the role cache
  // ---------------------------------------------------------------------

  /** The role cache after one `getRole(id)`: filled from the source while
      it is empty; the model store's lookup skips falsy ids altogether. */
  function RolesAfter(source: RoleSource, roles: map<string, Role>, id: RoleId): map<string, Role> {
    if source.ModelStore? && !Truthy(id) then roles
    else if roles == map[] then RoleMap(source.records)
    else roles
  }

  /** What one `getRole(id)` yields: the cached record, or nothing (which the
      model store's callers turn into RoleNotFound), or for the server's
      override a null returned from a function that must return an object
      or an array, which PHP turns into a thrown TypeError. */
  function RoleLookup(source: RoleSource, roles: map<string, Role>, id: RoleId): Result<Option<Role>> {
    var cache := RolesAfter(source, roles, id);
    var k := ArrayKey(id);
    match source
    case ModelStore(_) => if Truthy(id) && k in cache then Ok(Some(cache[k])) else Ok(None)
    case ServerIndex(_) => if k in cache then Ok(Some(cache[k])) else Err(NullRoleReturned(id))
  }

  /** The access level `hasFullAccess` and `hasNoAccess` see: a falsy id is
      neither full nor none (so rights decide), a truthy one is resolved
      through the role cache and fails when no record answers. */
  function Resolve(source: RoleSource, roles: map<string, Role>, id: RoleId): Result<Level> {
    if !Truthy(id) then Ok(ByRights)
    else match RoleLookup(source, roles, id)
      case Err(e) => Err(e)
      case Ok(None) => Err(RoleNotFound(id))
      case Ok(Some(role)) => Ok(LevelOf(role))
  }

  /** The role cache after an access-level check, which looks up truthy ids only. */
  function RolesChecked(source: RoleSource, roles: map<string, Role>, id: RoleId): map<string, Role> {
    if Truthy(id) then RolesAfter(source, roles, id) else roles
  }

  /** The rights table of a role: the memoised one, or the fold of what the
      server answers for the role's key. */
  function RightsTable(fetch: string -> seq<Grant>, rights: map<string, map<string, seq<string>>>, id: RoleId)
    : map<string, seq<string>>
  {
    var k := ArrayKey(id);
    if k in rights then rights[k] else Fold(fetch(k))
  }

  /** The role cache holds what its source gave: nothing yet, or the map the
      fill loop builds from every record. */
  predicate RolesFrom(source: RoleSource, roles: map<string, Role>) {
    roles == map[] || roles == RoleMap(source.records)
  }

  /** Every memoised rights table is the fold of what the server answered
      for that role's key. */
  predicate RightsFrom(fetch: string -> seq<Grant>, rights: map<string, map<string, seq<string>>>) {
    forall k :: k in rights ==> rights[k] == Fold(fetch(k))
  }

  /** Whether a decision is settled by the link lists or by the caller being
      anonymous, before any role is looked up. */
  predicate Linked(lists: Lists, key: string, id: RoleId) {
    key in lists.public || !Truthy(id) || key in lists.inside || key in lists.outside
  }

  /** The answer of `hasRight(id, controller, action)` in a given state: the
      decision table applied to the link key, the caller's login state, the
      resolved access level and the role's rights table. */
  function Verdict(lists: Lists, source: RoleSource, roles: map<string, Role>,
                   fetch: string -> seq<Grant>, rights: map<string, map<string, seq<string>>>,
                   id: RoleId, controller: string, action: string): Result<int>
  {
    var key := LinkPath(controller, action);
    if Linked(lists, key, id) then Ok(Decide(lists, key, Truthy(id), ByRights, false))
    else match Resolve(source, roles, id)
      case Err(e) => Err(e)
      case Ok(level) =>
        Ok(Decide(lists, key, true, level,
                  level == ByRights && Granted(RightsTable(fetch, rights, id), NormalizeController(controller), action)))
  }

  /** The role cache after `hasRight`. */
  function RolesAfterVerdict(lists: Lists, source: RoleSource, roles: map<string, Role>,
                             id: RoleId, controller: string, action: string): map<string, Role>
  {
    if Linked(lists, LinkPath(controller, action), id) then roles else RolesAfter(source, roles, id)
  }

  /** The rights cache after `hasRight`: a role decided by its rights has
      its table memoised. */
  function RightsAfterVerdict(lists: Lists, source: RoleSource, roles: map<string, Role>,
                              fetch: string -> seq<Grant>, rights: map<string, map<string, seq<string>>>,
                              id: RoleId, controller: string, action: string): map<string, map<string, seq<string>>>
  {
    if !Linked(lists, LinkPath(controller, action), id) && Resolve(source, roles, id) == Ok(ByRights)
    then rights[ArrayKey(id) := RightsTable(fetch, rights, id)]
    else rights
  }

  // ---------------------------------------------------------------------
  // Lemmas about the caches and the verdict
  // ---------------------------------------------------------------------

  /** Looking a role up again after a lookup gives the same answer and
      leaves the cache as the first lookup left it. */
  lemma ResolveStable(source: RoleSource, roles: map<string, Role>, id: RoleId)
    ensures RolesChecked(source, RolesChecked(source, roles, id), id) == RolesChecked(source, roles, id)
    ensures Resolve(source, RolesChecked(source, roles, id), id) == Resolve(source, roles, id)
  {
  }

  /** A filled role cache is never refilled, whatever id is asked for. */
  lemma FilledCacheKept(source: RoleSource, roles: map<string, Role>, id: RoleId)
    requires roles != map[]
    ensures RolesAfter(source, roles, id) == roles
  {
  }

  /** With a cache that holds nothing or what the source gave, a truthy id
      resolves to the level of the last record of the source filed under
      its key, and fails when no record carries that key: RoleNotFound for
      the model store, a null return for the server's index. */
  lemma ResolveFromSource(source: RoleSource, roles: map<string, Role>, id: RoleId)
    requires RolesFrom(source, roles)
    requires Truthy(id)
    ensures var i := LastIndexOf(source.records, ArrayKey(id));
      Resolve(source, roles, id) ==
        if i >= 0 then Ok(LevelOf(source.records[i]))
        else Err(if source.ModelStore? then RoleNotFound(id) else NullRoleReturned(id))
  {
    IndexLastWins(source.records, ArrayKey(id));
  }

  /** A falsy id is never looked up: it cannot fail and does not touch the cache. */
  lemma FalsyNeverLookedUp(source: RoleSource, roles: map<string, Role>, id: RoleId)
    requires !Truthy(id)
    ensures Resolve(source, roles, id) == Ok(ByRights)
    ensures RolesChecked(source, roles, id) == roles
  {
  }

  /** Filling the role cache for one id never changes what any id resolves
      to: the lazy cache is invisible to decisions. */
  lemma CacheFillTransparent(source: RoleSource, roles: map<string, Role>, first: RoleId, later: RoleId)
    ensures Resolve(source, RolesChecked(source, roles, first), later) == Resolve(source, roles, later)
  {
  }

  /** Once a role's table is memoised, later lookups return it whatever the
      server would now answer, and the other roles' tables are untouched. */
  lemma RightsTableMemoised(fetch: string -> seq<Grant>, fetch2: string -> seq<Grant>,
                            rights: map<string, map<string, seq<string>>>, id: RoleId, other: string)
    ensures var rights1 := rights[ArrayKey(id) := RightsTable(fetch, rights, id)];
      RightsTable(fetch2, rights1, id) == RightsTable(fetch, rights, id) &&
      (other != ArrayKey(id) ==> (other in rights1 <==> other in rights) &&
                                 (other in rights ==> rights1[other] == rights[other]))
  {
  }

  /** `setRight` leaves the rights cache alone and only fills the role
      cache, which changes no decision whatever the server now answers; a
      role whose rights are memoised keeps its verdict even though the
      server's answer has changed since (the posted grant is not seen). */
  lemma SetRightKeepsVerdicts(lists: Lists, source: RoleSource, roles: map<string, Role>,
                              fetch: string -> seq<Grant>, fetch2: string -> seq<Grant>,
                              rights: map<string, map<string, seq<string>>>,
                              granted: RoleId, id: RoleId, controller: string, action: string)
    ensures Verdict(lists, source, RolesChecked(source, roles, granted), fetch2, rights, id, controller, action) ==
      Verdict(lists, source, roles, fetch2, rights, id, controller, action)
    ensures ArrayKey(id) in rights ==>
      Verdict(lists, source, RolesChecked(source, roles, granted), fetch2, rights, id, controller, action) ==
      Verdict(lists, source, roles, fetch, rights, id, controller, action)
  {
    CacheFillTransparent(source, roles, granted, id);
  }

  /** A public key answers 3 for every caller, without any role lookup. */
  lemma VerdictPublic(lists: Lists, source: RoleSource, roles: map<string, Role>,
                      fetch: string -> seq<Grant>, rights: map<string, map<string, seq<string>>>,
                      id: RoleId, controller: string, action: string)
    requires LinkPath(controller, action) in lists.public
    ensures Verdict(lists, source, roles, fetch, rights, id, controller, action) == Ok(3)
    ensures RolesAfterVerdict(lists, source, roles, id, controller, action) == roles
    ensures RightsAfterVerdict(lists, source, roles, fetch, rights, id, controller, action) == rights
  {
  }

  /** An anonymous caller gets 4 for an outside key, 3 for a public one and
      0 otherwise; never 5, -2, 2, -1 or 1, and never an error. */
  lemma VerdictAnonymous(lists: Lists, source: RoleSource, roles: map<string, Role>,
                         fetch: string -> seq<Grant>, rights: map<string, map<string, seq<string>>>,
                         id: RoleId, controller: string, action: string)
    requires !Truthy(id)
    ensures var key := LinkPath(controller, action);
      Verdict(lists, source, roles, fetch, rights, id, controller, action) ==
        Ok(if key in lists.public then 3 else if key in lists.outside then 4 else 0)
  {
  }

  /** A logged-in caller on a key of no list whose role is decided by its
      rights is let through (1) exactly when the server listed the
      normalised controller with the action, and is otherwise refused with
      0 — whether the table is fetched now or was memoised from the server. */
  lemma VerdictByServerRights(lists: Lists, source: RoleSource, roles: map<string, Role>,
                              fetch: string -> seq<Grant>, rights: map<string, map<string, seq<string>>>,
                              id: RoleId, controller: string, action: string)
    requires !Linked(lists, LinkPath(controller, action), id)
    requires Resolve(source, roles, id) == Ok(ByRights)
    requires RightsFrom(fetch, rights)
    ensures var v := Verdict(lists, source, roles, fetch, rights, id, controller, action);
      v == Ok(1) || v == Ok(0)
    ensures Verdict(lists, source, roles, fetch, rights, id, controller, action) == Ok(1) <==>
      Grant(NormalizeController(controller), action) in fetch(ArrayKey(id))
  {
    FoldGranted(fetch(ArrayKey(id)), NormalizeController(controller), action);
  }

  /** Asking again after a decision gives the same answer, needs no new
      server answer and changes no cache. */
  lemma VerdictMemoised(lists: Lists, source: RoleSource, roles: map<string, Role>,
                        fetch: string -> seq<Grant>, fetch2: string -> seq<Grant>,
                        rights: map<string, map<string, seq<string>>>,
                        id: RoleId, controller: string, action: string)
    ensures var roles1 := RolesAfterVerdict(lists, source, roles, id, controller, action);
      var rights1 := RightsAfterVerdict(lists, source, roles, fetch, rights, id, controller, action);
      Verdict(lists, source, roles1, fetch2, rights1, id, controller, action) ==
        Verdict(lists, source, roles, fetch, rights, id, controller, action) &&
      RolesAfterVerdict(lists, source, roles1, id, controller, action) == roles1 &&
      RightsAfterVerdict(lists, source, roles1, fetch2, rights1, id, controller, action) == rights1
  {
    var key := LinkPath(controller, action);
    if !Linked(lists, key, id) {
      ResolveStable(source, roles, id);
    }
  }

  /** With caches that hold only what their sources gave, the verdict is the
      one a fresh resource would give: as long as the server still answers
      what the tables were memoised from, the caches change no decision. */
  lemma CachesTransparent(lists: Lists, source: RoleSource, roles: map<string, Role>,
                          fetch: string -> seq<Grant>, rights: map<string, map<string, seq<string>>>,
                          id: RoleId, controller: string, action: string)
    requires RolesFrom(source, roles) && RightsFrom(fetch, rights)
    ensures Verdict(lists, source, roles, fetch, rights, id, controller, action) ==
      Verdict(lists, source, map[], fetch, map[], id, controller, action)
    ensures RolesFrom(source, RolesAfterVerdict(lists, source, roles, id, controller, action))
    ensures RightsFrom(fetch, RightsAfterVerdict(lists, source, roles, fetch, rights, id, controller, action))
  {
    assert RightsTable(fetch, rights, id) == RightsTable(fetch, map[], id);
    assert Resolve(source, roles, id) == Resolve(source, map[], id) by {
      if Truthy(id) {
        ResolveFromSource(source, roles, id);
        ResolveFromSource(source, map[], id);
      }
    }
  }

  /** A restricted role 9 on a server whose role index lists it with the
      ACL access constant, and whose rights are view and export of
      "report", may export a report (1) but not delete one (0). */
  lemma RestrictedRoleExample(fetch: string -> seq<Grant>)
    requires fetch("9") == [Grant("report", "view"), Grant("report", "export")]
    ensures var source := ServerIndex([Role(IntId(9), Some(ROLE_ACCESS_ACL))]);
      Verdict(Lists([], [], []), source, map[], fetch, map[], IntId(9), "report", "export") == Ok(1) &&
      Verdict(Lists([], [], []), source, map[], fetch, map[], IntId(9), "report", "delete") == Ok(0)
  {
    var source := ServerIndex([Role(IntId(9), Some(ROLE_ACCESS_ACL))]);
    var id := IntId(9);
    assert ArrayKey(id) == "9" by { assert Decimal(9) == ['9']; }
    ResolveFromSource(source, map[], id);
    assert NormalizeController("report") == "report";
    assert Grant("report", "export") in fetch("9") by { assert fetch("9")[1] == Grant("report", "export"); }
    assert Grant("report", "delete") !in fetch("9");
    VerdictByServerRights(Lists([], [], []), source, map[], fetch, map[], id, "report", "export");
    VerdictByServerRights(Lists([], [], []), source, map[], fetch, map[], id, "report", "delete");
  }

  // ---------------------------------------------------------------------
  // The resource
  // ---------------------------------------------------------------------

  class Acl {
    var linksPublic: seq<string>
    var linksPublicInside: seq<string>
    var linksPublicOutside: seq<string>
    /** The role cache: role records by id key. */
    var roles: map<string, Role>
    /** The rights cache: by role id key, the controller -> actions table. */
    var rights: map<string, map<string, seq<string>>>

    /** Which getRole this resource runs. */
    const roleSource: RoleSource
    /** The server's answer to `role/getRights` for a role id key. */
    const fetchRights: string -> seq<Grant>
    /** The server's answer to `role/setRight` for a role id key and a pair. */
    const postRight: (string, Grant) -> int
    /** The session's `roleId`, or None when the environment has no session. */
    const session: Option<RoleId>

    ghost function CurrentLists(): Lists
      reads this
    {
      Lists(linksPublic, linksPublicInside, linksPublicOutside)
    }

    /** The caches hold only what their sources gave. */
    ghost predicate Valid()
      reads this
    {
      RolesFrom(roleSource, roles) && RightsFrom(fetchRights, rights)
    }

    constructor (roleSource: RoleSource, fetchRights: string -> seq<Grant>,
                 postRight: (string, Grant) -> int, session: Option<RoleId>)
      ensures this.roleSource == roleSource && this.fetchRights == fetchRights
      ensures this.postRight == postRight && this.session == session
      ensures linksPublic == [] && linksPublicInside == [] && linksPublicOutside == []
      ensures roles == map[] && rights == map[]
      ensures Valid()
    {
      this.roleSource := roleSource;
      this.fetchRights := fetchRights;
      this.postRight := postRight;
      this.session := session;
      linksPublic, linksPublicInside, linksPublicOutside := [], [], [];
      roles, rights := map[], map[];
    }

    /** Returns the role record of `id`, filling the role cache from the
        role source while the cache is empty. */
    method GetRole(id: RoleId) returns (r: Result<Option<Role>>)
      requires roleSource.ServerIndex? ==> !id.NullId?
      requires Valid()
      modifies this`roles
      ensures Valid()
      ensures roles == RolesAfter(roleSource, old(roles), id)
      ensures r == RoleLookup(roleSource, old(roles), id)
    {
      if roleSource.ModelStore? && !Truthy(id) {
        return Ok(None);
      }
      if roles == map[] {
        var records := roleSource.records;
        var i := 0;
        while i < |records|
          invariant 0 <= i <= |records|
          invariant roles == RoleMap(records[..i])
        {
          assert records[..i + 1][..i] == records[..i];
          var role := records[i];
          roles := roles[ArrayKey(role.roleId) := role];
          i := i + 1;
        }
        assert records[..|records|] == records;
      }
      var k := ArrayKey(id);
      if k in roles {
        r := Ok(Some(roles[k]));
      } else if roleSource.ModelStore? {
        r := Ok(None);
      } else {
        r := Err(NullRoleReturned(id));
      }
    }

    /** Whether the role has access to every controller action. */
    method HasFullAccess(id: RoleId) returns (r: Result<bool>)
      requires Valid()
      modifies this`roles
      ensures Valid()
      ensures roles == RolesChecked(roleSource, old(roles), id)
      ensures r == match Resolve(roleSource, old(roles), id)
                   case Err(e) => Err(e)
                   case Ok(level) => Ok(level == FullAccess)
    {
      if !Truthy(id) {
        return Ok(false);
      }
      var role := GetRole(id);
      match role
      case Err(e) => r := Err(e);
      case Ok(None) => r := Err(RoleNotFound(id));
      case Ok(Some(found)) => r := Ok(found.access.Some? && found.access.value == ROLE_ACCESS_FULL);
    }

    /** Whether the role has no access at all. */
    method HasNoAccess(id: RoleId) returns (r: Result<bool>)
      requires Valid()
      modifies this`roles
      ensures Valid()
      ensures roles == RolesChecked(roleSource, old(roles), id)
      ensures r == match Resolve(roleSource, old(roles), id)
                   case Err(e) => Err(e)
                   case Ok(level) => Ok(level == NoAccess)
    {
      if !Truthy(id) {
        return Ok(false);
      }
      var role := GetRole(id);
      match role
      case Err(e) => r := Err(e);
      case Ok(None) => r := Err(RoleNotFound(id));
      case Ok(Some(found)) => r := Ok(!found.access.Some? || found.access.value == ROLE_ACCESS_NONE);
    }

    /** The controller -> actions table of a role: empty for full-access and
        no-access roles, otherwise fetched from the server once and memoised. */
    method GetRights(id: RoleId) returns (r: Result<map<string, seq<string>>>)
      requires !id.NullId?
      requires Valid()
      modifies this`roles, this`rights
      ensures Valid()
      ensures roles == RolesChecked(roleSource, old(roles), id)
      ensures match Resolve(roleSource, old(roles), id)
              case Err(e) => r == Err(e) && rights == old(rights)
              case Ok(ByRights) =>
                r == Ok(RightsTable(fetchRights, old(rights), id)) &&
                rights == old(rights)[ArrayKey(id) := RightsTable(fetchRights, old(rights), id)]
              case Ok(_) => r == Ok(map[]) && rights == old(rights)
    {
      ResolveStable(roleSource, roles, id);
      var full := HasFullAccess(id);
      if full.Err? {
        return Err(full.error);
      }
      if full.value {
        return Ok(map[]);
      }
      // The lookup just succeeded, so this one cannot fail.
      var none := HasNoAccess(id);
      if none == Ok(true) {
        return Ok(map[]);
      }
      var k := ArrayKey(id);
      if k !in rights {
        FetchRights(k);
      }
      r := Ok(rights[k]);
    }

    /** Asks the server for the rights of the role filed under `k` and
        stores them, folded into a controller -> actions table, in the
        rights cache. */
    method FetchRights(k: string)
      requires Valid()
      modifies this`rights
      ensures Valid()
      ensures rights == old(rights)[k := Fold(fetchRights(k))]
    {
      var fetched := fetchRights(k);
      var table: map<string, seq<string>> := map[];
      rights := rights[k := table];
      var i := 0;
      while i < |fetched|
        invariant 0 <= i <= |fetched|
        invariant table == Fold(fetched[..i])
        invariant rights == old(rights)[k := table]
      {
        FoldStep(fetched, i);
        var g := fetched[i];
        if g.controller !in table {
          table := table[g.controller := []];
        }
        table := table[g.controller := table[g.controller] + [g.action]];
        rights := rights[k := table];
        i := i + 1;
      }
      assert fetched[..|fetched|] == fetched;
    }

    /** Grants a controller action to a role on the server: refused with -1
        for a full-access role and -2 for a no-access role, otherwise the
        server's answer. The rights cache is left as it is. */
    method SetRight(id: RoleId, controller: string, action: string) returns (r: Result<int>)
      requires !id.NullId?
      requires Valid()
      modifies this`roles
      ensures Valid()
      ensures roles == RolesChecked(roleSource, old(roles), id)
      ensures r == match Resolve(roleSource, old(roles), id)
                   case Err(e) => Err(e)
                   case Ok(FullAccess) => Ok(-1)
                   case Ok(NoAccess) => Ok(-2)
                   case Ok(ByRights) => Ok(postRight(ArrayKey(id), Grant(controller, action)))
    {
      ResolveStable(roleSource, roles, id);
      var full := HasFullAccess(id);
      if full.Err? {
        return Err(full.error);
      }
      if full.value {
        return Ok(-1);
      }
      // The lookup just succeeded, so this one cannot fail.
      var none := HasNoAccess(id);
      if none == Ok(true) {
        return Ok(-2);
      }
      r := Ok(postRight(ArrayKey(id), Grant(controller, action)));
    }

    /** Listing controller actions is not implemented by the server resource. */
    method Index(controller: Option<string>, id: Option<RoleId>) returns (r: Result<map<string, seq<string>>>)
      ensures r == Err(NotImplemented)
    {
      r := Err(NotImplemented);
    }

    /** The outcome code of a role calling a controller action. */
    method HasRight(id: RoleId, controller: string, action: string) returns (r: Result<int>)
      requires Valid()
      modifies this`roles, this`rights
      ensures Valid()
      ensures r == Verdict(old(CurrentLists()), roleSource, old(roles), fetchRights, old(rights), id, controller, action)
      ensures roles == RolesAfterVerdict(old(CurrentLists()), roleSource, old(roles), id, controller, action)
      ensures rights == RightsAfterVerdict(old(CurrentLists()), roleSource, old(roles), fetchRights, old(rights), id, controller, action)
    {
      var c := NormalizeController(controller);
      var key := LinkPath(controller, action);
      if key in linksPublic {
        return Ok(3);
      }
      if Truthy(id) {
        if key in linksPublicInside {
          return Ok(5);
        }
        if key in linksPublicOutside {
          return Ok(-2);
        }
        ResolveStable(roleSource, roles, id);
        var full := HasFullAccess(id);
        if full.Err? {
          return Err(full.error);
        }
        if full.value {
          return Ok(2);
        }
        // The lookup just succeeded, so this one cannot fail.
        var none := HasNoAccess(id);
        if none == Ok(true) {
          return Ok(-1);
        }
        var table := GetRights(id);
        if table.Ok? && c in table.value && action in table.value[c] {
          return Ok(1);
        }
      } else {
        if key in linksPublicOutside {
          return Ok(4);
        }
      }
      return Ok(0);
    }

    /** Whether the session's role may call the controller action; false
        when there is no session. */
    method Has(controller: string, action: string) returns (r: Result<bool>)
      requires Valid()
      modifies this`roles, this`rights
      ensures Valid()
      ensures session.None? ==> r == Ok(false) && roles == old(roles) && rights == old(rights)
      ensures session.Some? ==>
        r == (match Verdict(old(CurrentLists()), roleSource, old(roles), fetchRights, old(rights), session.value, controller, action)
              case Err(e) => Err(e)
              case Ok(code) => Ok(code > 0)) &&
        roles == RolesAfterVerdict(old(CurrentLists()), roleSource, old(roles), session.value, controller, action) &&
        rights == RightsAfterVerdict(old(CurrentLists()), roleSource, old(roles), fetchRights, old(rights), session.value, controller, action)
    {
      if session.None? {
        return Ok(false);
      }
      var right := HasRight(session.value, controller, action);
      match right
      case Err(e) => r := Err(e);
      case Ok(code) => r := Ok(code > 0);
    }

    /** Sets (or, in mode "append", extends) the list of public links and
        returns it; a non-array or empty argument changes nothing. */
    method SetPublicLinks(arg: LinkArg, mode: string) returns (result: seq<string>)
      requires Valid()
      modifies this`linksPublic
      ensures Valid()
      ensures linksPublic == UpdatedLinks(old(linksPublic), arg, mode)
      ensures result == linksPublic
    {
      if arg.Items? && |arg.links| > 0 {
        if mode == "append" {
          var i := 0;
          while i < |arg.links|
            invariant 0 <= i <= |arg.links|
            invariant linksPublic == old(linksPublic) + arg.links[..i]
          {
            linksPublic := linksPublic + [arg.links[i]];
            i := i + 1;
          }
        } else {
          linksPublic := arg.links;
        }
      }
      result := linksPublic;
    }

    /** Sets (or, in mode "append", extends) the list of links public to
        logged-in callers and returns it. */
    method SetPublicInsideLinks(arg: LinkArg, mode: string) returns (result: seq<string>)
      requires Valid()
      modifies this`linksPublicInside
      ensures Valid()
      ensures linksPublicInside == UpdatedLinks(old(linksPublicInside), arg, mode)
      ensures result == linksPublicInside
    {
      if arg.Items? && |arg.links| > 0 {
        if mode == "append" {
          var i := 0;
          while i < |arg.links|
            invariant 0 <= i <= |arg.links|
            invariant linksPublicInside == old(linksPublicInside) + arg.links[..i]
          {
            linksPublicInside := linksPublicInside + [arg.links[i]];
            i := i + 1;
          }
        } else {
          linksPublicInside := arg.links;
        }
      }
      result := linksPublicInside;
    }

    /** Sets (or, in mode "append", extends) the list of links public to
        anonymous callers and returns it. */
    method SetPublicOutsideLinks(arg: LinkArg, mode: string) returns (result: seq<string>)
      requires Valid()
      modifies this`linksPublicOutside
      ensures Valid()
      ensures linksPublicOutside == UpdatedLinks(old(linksPublicOutside), arg, mode)
      ensures result == linksPublicOutside
    {
      if arg.Items? && |arg.links| > 0 {
        if mode == "append" {
          var i := 0;
          while i < |arg.links|
            invariant 0 <= i <= |arg.links|
            invariant linksPublicOutside == old(linksPublicOutside) + arg.links[..i]
          {
            linksPublicOutside := linksPublicOutside + [arg.links[i]];
            i := i + 1;
          }
        } else {
          linksPublicOutside := arg.links;
        }
      }
      result := linksPublicOutside;
    }
  }
}
