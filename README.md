# Access-control decisions of the Hydrogen framework, in Dafny

This project models the access control list (ACL) resource of the Hydrogen
PHP framework. The resource answers one question: may a role call a
controller action? The answer is a signed outcome code:

| code | meaning |
|---|---|
| 3 | public access |
| 5 | public access if logged in ("inside") |
| -2 | an anonymous-only ("outside") link, but the caller is logged in |
| 2 | the role has full access |
| -1 | the role has no access at all |
| 1 | access by an explicit right |
| 4 | public access if not logged in |
| 0 | no access |

The codes are checked in a fixed order. `hasRight` builds a link key, looks
it up in three public-link lists, then checks the role's access level, then
the role's rights table. Both the role table and the rights table sit in
lazily filled caches.

The model has three modules:

- `AclAbstract` (`acl_abstract.dfy`) covers the abstract resource's pure
  parts:
  - PHP role ids and their truthiness, and the array key PHP files an id
    under.
  - Role records, their access levels, and the role map that the
    `foreach` fill loop builds.
  - The normalised `controller_action` key.
  - The link-list update of the three setters.
  - `Decide`, the precedence table of the outcome codes.
- `AclServer` (`acl_server.dfy`) covers the remote rights provider.
  - It folds the server's flat `{controller, action}` list into a
    `controller -> [actions]` table, `Fold`.
  - It also gives an independent reference for that table, `ActionsFor`.
- `AclResource` (`acl_resource.dfy`) is the running resource: a resource
  whose `getRole` is chosen by `RoleSource` (the abstract class's own, or
  the server's override), with the server's `getRights`, `setRight` and
  `index`.
  - The class `Acl` holds the three link lists, the role cache and the
    rights cache as fields.
  - Its methods change those fields in place, as the PHP methods do.
  - Its invariant `Valid` says the caches hold only what their sources
    gave: the role cache is empty or the map built from every record, and
    each memoised rights table is the fold of the server's answer. The
    server's answers are fixed for the resource's lifetime, so a memo that
    a later change on the server has made stale is outside this model.
  - Each method is proved against specification functions: `RolesAfter`,
    `RoleLookup`, `Resolve`, `RightsTable`, `Verdict`.
  - Lemmas about those functions state the ordering, memoisation and
    cache-transparency properties.

External collaborators are inputs:

- `Model_Role::getAll()` and the server's `role/index` answer are the
  records of `RoleSource`.
- The server's `role/getRights` answer is the oracle `fetchRights`.
- The result of the `role/setRight` post is the oracle `postRight`.
- The session's `roleId` is `session`, which is None when the environment
  has no session.

`getRole` is dispatched on `RoleSource`:

- `ModelStore` is the abstract resource's own `getRole`. It returns nothing
  for a falsy id. A missing record yields null, and `hasFullAccess` /
  `hasNoAccess` turn that into the `InvalidArgumentException`
  (`RoleNotFound`).
- `ServerIndex` is the server's override. It has no falsy shortcut. A
  missing record makes it return null from a function declared
  `object|array`, so PHP throws a `TypeError` before the
  `InvalidArgumentException` is reached (`NullRoleReturned`).

A thrown exception is an `Err` result. In particular, `hasRight` for a
truthy role id with no role record is an error, not a silent 0, because
`hasFullAccess` throws there.

Three more details of the code that the model keeps:

- The link key is `""` when the normalised controller or the action is
  PHP-falsy, which includes `"0"` as well as `""`.
- Rights tables keep duplicate actions, in server order.
- `index` throws a plain exception ("Not implemented yet").

## Model

| member | source | states |
|---|---|---|
| `AclAbstract.TruthyIffKeyTruthy` | src/Environment/Resource/Acl/Abstract.php:72-80 | A role id is truthy exactly when the array key it is filed under is neither "" nor "0". So a falsy id never reaches a record, and a truthy id never hits the "" or "0" key. |
| `AclAbstract.LevelOf` | src/Environment/Resource/Acl/Abstract.php:117-141 | Full access exactly when `access` is set and equals 1. No access exactly when `access` is unset or equals 0. Every other value leaves the decision to the rights. The three levels are disjoint. |
| `AclAbstract.LastIndexOf` | src/Environment/Resource/Acl/Abstract.php:77-78 | Gives the position of the last role record whose id has key `k`, or -1 when no record has it. |
| `AclAbstract.IndexLastWins` | src/Environment/Resource/Acl/Abstract.php:74-80 | The role cache that the fill loop builds has key `k` exactly when some record carries it, and it holds the last such record. |
| `AclAbstract.NormalizeController` | src/Environment/Resource/Acl/Abstract.php:163 | The normalised controller has the same length as the input. Each `/` becomes `_` and each ASCII capital becomes lower case. The result has no `/` and no capital letter. |
| `AclAbstract.NormalizeIdempotent` | src/Environment/Resource/Acl/Abstract.php:163 | Normalising an already normalised controller changes nothing. |
| `AclAbstract.LinkPath` | src/Environment/Resource/Acl/Abstract.php:163-164 | The key is "" exactly when the normalised controller or the action is falsy. Otherwise it is the normalised controller, then `_`, then the action unchanged. |
| `AclAbstract.AppendKeepsOrder` | src/Environment/Resource/Acl/Abstract.php:195-204 | With a non-empty list, append mode keeps the old list as a prefix and puts the new links after it, in order. |
| `AclAbstract.UpdatedLinksMembership` | src/Environment/Resource/Acl/Abstract.php:195-240 | After a setter with a non-empty list, a key is listed exactly when it is a new link, or it was listed before and the mode is append. |
| `AclAbstract.ReplaceIdempotent` | src/Environment/Resource/Acl/Abstract.php:200-201 | Replacing a list with the same argument twice gives the same list as replacing it once. |
| `AclAbstract.Decide` | src/Environment/Resource/Acl/Abstract.php:151-185 | The decision table always gives one of the documented codes, -2 to 5. |
| `AclAbstract.PublicWins` | src/Environment/Resource/Acl/Abstract.php:166-167 | A key in the public list gives 3, whatever the login state, access level or rights. |
| `AclAbstract.AnonymousCodes` | src/Environment/Resource/Acl/Abstract.php:181-185 | An anonymous caller gets 3 for a public key, 4 for an outside key and 0 otherwise, whatever the role's access level and rights. |
| `AclAbstract.AuthenticatedOrder` | src/Environment/Resource/Acl/Abstract.php:168-180 | For a logged-in caller on a non-public key: never 4. The inside list gives 5 before the outside list gives -2. Only then does the access level decide: 2 for full, -1 for none, and for rights 1 if granted, else 0. |
| `AclAbstract.AllowedIff` | src/Environment/Resource/Acl/Abstract.php:92-98 | A positive code, which is what `has` reports, comes exactly from one of: a public key; an inside key with a login; an outside key without a login; or, for a logged-in caller outside every list, full access or an explicit grant. |
| `AclServer.FoldStep` | src/Environment/Resource/Acl/Server.php:62-66 | Folding one more server record appends its action to its controller's list, creating the list when the controller is new. |
| `AclServer.FoldCollects` | src/Environment/Resource/Acl/Server.php:57-66 | The folded table has an entry for exactly the controllers the server mentions. Each entry is exactly that controller's actions, in server order, with duplicates kept. |
| `AclServer.ActionsForListed` | src/Environment/Resource/Acl/Server.php:62-65 | An action appears in a controller's list exactly when the server sent that controller/action pair. |
| `AclServer.FoldGranted` | src/Environment/Resource/Acl/Server.php:61-66 | The folded table grants a pair, in the sense of the `isset` / `in_array` test, exactly when the server listed that pair. The test itself is the one `hasRight` makes at Abstract.php:178. |
| `AclResource.ResolveStable` | src/Environment/Resource/Acl/Abstract.php:173-177 | A second access-level lookup for the same id gives the same answer and leaves the role cache as the first left it. |
| `AclResource.FilledCacheKept` | src/Environment/Resource/Acl/Abstract.php:74-79 | A non-empty role cache is never refilled, whatever id is asked for. |
| `AclResource.ResolveFromSource` | src/Environment/Resource/Acl/Abstract.php:117-141 | With a role cache that is empty or holds what the source gave, a truthy id takes the level of the last source record under its key. When no record has that key, the lookup fails: `RoleNotFound` for the role model, `NullRoleReturned` for the server's role index. |
| `AclResource.FalsyNeverLookedUp` | src/Environment/Resource/Acl/Abstract.php:119-120 | For a falsy id the access checks answer "neither full nor none" without failing and without touching the role cache. |
| `AclResource.CacheFillTransparent` | src/Environment/Resource/Acl/Server.php:116-119 | Filling the role cache for one id never changes what any id resolves to. |
| `AclResource.RightsTableMemoised` | src/Environment/Resource/Acl/Server.php:57-68 | Once a role's rights table is stored, later lookups return it whatever the server would now answer. Other roles' entries are unchanged. |
| `AclResource.SetRightKeepsVerdicts` | src/Environment/Resource/Acl/Server.php:92-102 | What `setRight` leaves behind (a filled role cache, the rights cache untouched) changes no later `hasRight` answer under any server answer. For memoised roles the answer stays what it was, whatever the server now answers: a posted grant does not invalidate memoised rights. |
| `AclResource.VerdictPublic` | src/Environment/Resource/Acl/Abstract.php:166-167 | A public key answers 3 for every role id, without filling the role cache or the rights cache. |
| `AclResource.VerdictAnonymous` | src/Environment/Resource/Acl/Abstract.php:166-185 | A falsy role id gets 3, 4 or 0 from the link lists alone. It never gets 5, -2, 2, -1 or 1, and never an error. |
| `AclResource.VerdictByServerRights` | src/Environment/Resource/Acl/Abstract.php:177-179 | A logged-in caller on a key of no list, whose role is decided by rights, gets 1 exactly when the server listed the normalised controller with the action, and 0 otherwise, as long as every memoised table is the fold of the server's current answer. |
| `AclResource.VerdictMemoised` | src/Environment/Resource/Acl/Server.php:57-68 | Asking `hasRight` again gives the same answer, needs no new server answer and changes neither cache. |
| `AclResource.RestrictedRoleExample` | src/Environment/Resource/Acl/Abstract.php:177-179 | Worked example, from a fresh resource whose server role index lists role 9 with the ACL access constant: role 9 with server rights "report"/"view" and "report"/"export" gets 1 for export and 0 for delete. |
| `AclResource.CachesTransparent` | src/Environment/Resource/Acl/Abstract.php:74-80 | With caches that hold only what their sources gave, `hasRight` answers as a fresh resource would, and its cache updates keep that so. As long as the server still answers what the tables were memoised from, the caches never change a decision. |
| `AclResource.Acl.constructor` | src/Environment/Resource/Acl/Abstract.php:43-60 | A new resource has empty link lists, an empty role cache and an empty rights cache, keeps the given collaborators, and satisfies `Valid`. |
| `AclResource.Acl.GetRole` | src/Environment/Resource/Acl/Server.php:112-120 | Fills the role cache from the role source only while it is empty (the loop is proved to build `RoleMap`), then returns the record filed under the id's key. The role model's version returns nothing for a falsy id; the server's override fails with `NullRoleReturned` for a missing record. The `ModelStore` branch (falsy shortcut, nothing for a missing key) is the abstract class's own `getRole` at Abstract.php:70-81. |
| `AclResource.Acl.HasFullAccess` | src/Environment/Resource/Acl/Abstract.php:117-125 | False for a falsy id, with no lookup. Otherwise the role's level is full access, or the lookup error. |
| `AclResource.Acl.HasNoAccess` | src/Environment/Resource/Acl/Abstract.php:133-141 | False for a falsy id, with no lookup. Otherwise the role's level is no access, or the lookup error. |
| `AclResource.Acl.GetRights` | src/Environment/Resource/Acl/Server.php:51-69 | Full-access and no-access roles get an empty table, and the rights cache is untouched. Any other role gets its memoised table, or the fold of the server's answer, which is then stored under the role's key alone. |
| `AclResource.Acl.FetchRights` | src/Environment/Resource/Acl/Server.php:57-66 | The fill loop leaves the role's entry equal to the fold of the server's answer and changes no other entry. |
| `AclResource.Acl.SetRight` | src/Environment/Resource/Acl/Server.php:92-102 | Gives -1 for a full-access role and -2 for a no-access role, checked in that order, without posting. Otherwise it gives the server's answer. It never touches the rights cache. |
| `AclResource.Acl.Index` | src/Environment/Resource/Acl/Server.php:79-82 | Always fails with `NotImplemented`, whatever the arguments. |
| `AclResource.Acl.HasRight` | src/Environment/Resource/Acl/Abstract.php:161-186 | Returns `Verdict`: the decision table applied to the link key, the login state, the resolved access level and the role's rights. Both caches end as `RolesAfterVerdict` / `RightsAfterVerdict` say, and the link lists are unchanged. |
| `AclResource.Acl.Has` | src/Environment/Resource/Acl/Abstract.php:92-99 | False, with nothing changed, when there is no session. Otherwise it reports whether `hasRight` for the session's role id is positive, or passes on the error. |
| `AclResource.Acl.SetPublicLinks` | src/Environment/Resource/Acl/Abstract.php:195-204 | The public list becomes `UpdatedLinks` of the old list: unchanged for a non-array or empty argument, extended in order for "append", replaced otherwise. It is returned, and no other field may change. |
| `AclResource.Acl.SetPublicInsideLinks` | src/Environment/Resource/Acl/Abstract.php:213-222 | The same, for the inside list only. |
| `AclResource.Acl.SetPublicOutsideLinks` | src/Environment/Resource/Acl/Abstract.php:231-240 | The same, for the outside list only. |

## Left out

- The JSON client transport (`getData` / `postData`) is not modelled. The server's answers are the oracles `fetchRights` and `postRight`. The server-side effect of a post is not modelled, so a grant posted before a role's first fetch is not reflected in that fetch. Network failures and timeouts appear nowhere in the code and are not modelled.
- PHP loose comparison is not modelled. `in_array` without strict mode is modelled as string equality, so numeric strings such as "1e1" and "10" do not match. `$role->access == 1` is modelled as integer equality.
- `strtolower` is modelled as ASCII lower-casing.
- PHP arrays are modelled as sequences, and the keys of an associative links argument are dropped. Role ids are null, integers or strings; floats and booleans are not modelled.
- `roleAccessNone`, `roleAccessFull` and `roleAccessAcl` are public properties in PHP. They are modelled as constants. `roleAccessAcl` and the `controllerActions` field are never read by the core.
- `AclResource.CachesTransparent` and `AclResource.Acl.Valid` take the server's answers as fixed for the resource's lifetime (`fetchRights` is a constant). In PHP, `setRight` changes the server without touching the rights cache, so a table memoised before the post goes stale and can give another answer than a fresh resource would; neither `Valid` nor `CachesTransparent` describes that state. `SetRightKeepsVerdicts` states what such a stale memo still answers.
- Default arguments are not modelled: `hasRight` and `has` default the controller and action to `'index'` (Abstract.php:92, 161), and the link setters default the mode to `'set'` (Abstract.php:195, 213, 231). The model always takes them explicitly.
- `has` returns the integer 0 when there is no session; the model returns false, which is what that 0 means to PHP callers.
- `AclResource.Acl.GetRights`, `AclResource.Acl.SetRight` and the server's `GetRole` require a non-null role id. This is because their parameters are declared `string`, and a null there is a `TypeError` in PHP. The only caller of `getRights` and `getRole` passes a truthy id.
- The exception messages and the "Undefined array key" warning PHP emits before returning null are not modelled; only which error is raised is.
- The namespaced `Abstraction` base class of `Server.php` is not part of this model. The members a `Server` inherits are modelled from `Abstract.php`.
