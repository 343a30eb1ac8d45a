/** Values and decisions of the abstract access control list resource:
    role ids and their PHP truthiness, role records and access levels,
    the normalised `controller_action` link key, the three public-link
    lists and the precedence table of `hasRight`. */
module AclAbstract {

  datatype Option<T> = None | Some(value: T)

  /** Why an ACL operation throws instead of answering. */
  datatype Error =
    | RoleNotFound(id: RoleId)       // InvalidArgumentException: 'Role with ID … is not existing'
    | NullRoleReturned(id: RoleId)   // TypeError: the server's getRole returns null from an object|array function
    | NotImplemented                 // Exception: 'Not implemented yet'

  datatype Result<T> = Ok(value: T) | Err(error: Error)

  // ---------------------------------------------------------------------
  // Role ids
  // ---------------------------------------------------------------------

  /** A role id as PHP hands it over: null, an integer or a string. */
  datatype RoleId = NullId | IntId(n: int) | StrId(s: string)

  /** PHP truthiness of a string: only "" and "0" are falsy. */
  predicate StrTruthy(s: string) {
    s != "" && s != "0"
  }

  /** PHP truthiness of a role id: `!$roleId` holds for null, 0, "" and "0". */
  predicate Truthy(id: RoleId) {
    match id
    case NullId => false
    case IntId(n) => n != 0
    case StrId(s) => StrTruthy(s)
  }

  function DigitChar(d: nat): char
    requires d < 10
  {
    ('0' as int + d) as char
  }

  /** Decimal text of a natural number, without leading zeros. */
  function Decimal(n: nat): (s: string)
    ensures |s| >= 1 && s[0] != '-'
    ensures s == "0" <==> n == 0
    decreases n
  {
    if n < 10 then [DigitChar(n)] else Decimal(n / 10) + [DigitChar(n % 10)]
  }

  /** The key under which a PHP array files a value indexed by `id`:
      null becomes "", an integer its decimal text and a string stays
      itself (so the string "7" and the integer 7 share one key). */
  function ArrayKey(id: RoleId): string {
    match id
    case NullId => ""
    case IntId(n) => if n < 0 then "-" + Decimal(-n) else Decimal(n)
    case StrId(s) => s
  }

  /** Testing the id and testing its array key agree: a falsy id is filed
      under "" or "0", a truthy one never is. */
  lemma TruthyIffKeyTruthy(id: RoleId)
    ensures Truthy(id) <==> StrTruthy(ArrayKey(id))
  {
  }

  // ---------------------------------------------------------------------
  // Roles
  // ---------------------------------------------------------------------

  /** A role record; `access` is None when the record has no access field. */
  datatype Role = Role(roleId: RoleId, access: Option<int>)

  const ROLE_ACCESS_NONE: int := 0
  const ROLE_ACCESS_FULL: int := 1
  const ROLE_ACCESS_ACL: int := 2

  /** Coarse access level of a role: everything, nothing, or what its rights list. */
  datatype Level = FullAccess | NoAccess | ByRights

  /** Full access exactly when the access field is set and equals the full
      constant; no access exactly when it is unset or equals the none
      constant; any other value leaves the decision to the rights. */
  function LevelOf(role: Role): (level: Level)
    ensures level == FullAccess <==> role.access == Some(ROLE_ACCESS_FULL)
    ensures level == NoAccess <==> (role.access.None? || role.access == Some(ROLE_ACCESS_NONE))
    ensures level == ByRights <==> (role.access.Some? && role.access.value != ROLE_ACCESS_FULL && role.access.value != ROLE_ACCESS_NONE)
  {
    if role.access == Some(ROLE_ACCESS_FULL) then FullAccess
    else if role.access.None? || role.access == Some(ROLE_ACCESS_NONE) then NoAccess
    else ByRights
  }

  /** The role map built by storing each record under its id's key, in
      order, so that a later record with the same key replaces an earlier one. */
  function RoleMap(records: seq<Role>): map<string, Role>
    decreases |records|
  {
    if records == [] then map[]
    else
      var last := records[|records| - 1];
      RoleMap(records[..|records| - 1])[ArrayKey(last.roleId) := last]
  }

  /** The position of the last record filed under key `k`, or -1 when no
      record is. */
  function LastIndexOf(records: seq<Role>, k: string): (i: int)
    ensures -1 <= i < |records|
    ensures i >= 0 ==> ArrayKey(records[i].roleId) == k
    ensures forall j :: i < j < |records| ==> ArrayKey(records[j].roleId) != k
    decreases |records|
  {
    if records == [] then -1
    else if ArrayKey(records[|records| - 1].roleId) == k then |records| - 1
    else LastIndexOf(records[..|records| - 1], k)
  }

  /** A key is in the role map exactly when some record carries it, and it
      maps to the last such record. */
  lemma {:induction false} IndexLastWins(records: seq<Role>, k: string)
    ensures k in RoleMap(records) <==> LastIndexOf(records, k) >= 0
    ensures k in RoleMap(records) ==> RoleMap(records)[k] == records[LastIndexOf(records, k)]
    decreases |records|
  {
    if records != [] {
      var n := |records| - 1;
      IndexLastWins(records[..n], k);
    }
  }

  // ---------------------------------------------------------------------
  // Link keys
  // ---------------------------------------------------------------------

  /** ASCII lower-casing, as `strtolower` does. */
  function LowerChar(ch: char): char {
    if 'A' <= ch <= 'Z' then (ch as int + 32) as char else ch
  }

  /** One character of a normalised controller name: `/` becomes `_`,
      upper case becomes lower case. */
  function NormalChar(ch: char): char {
    if ch == '/' then '_' else LowerChar(ch)
  }

  /** The controller name with every `/` replaced by `_`, then lower-cased. */
  function NormalizeController(controller: string): (r: string)
    ensures |r| == |controller|
    ensures forall i :: 0 <= i < |r| ==> r[i] == NormalChar(controller[i])
    ensures forall i :: 0 <= i < |r| ==> r[i] != '/' && !('A' <= r[i] <= 'Z')
  {
    if controller == [] then []
    else [NormalChar(controller[0])] + NormalizeController(controller[1..])
  }

  /** Normalising twice changes nothing more. */
  lemma NormalizeIdempotent(controller: string)
    ensures NormalizeController(NormalizeController(controller)) == NormalizeController(controller)
  {
  }

  /** The link key of a controller and action: `controller_action` with the
      controller normalised and the action as given, or "" when either part
      is falsy ("" or "0"). */
  function LinkPath(controller: string, action: string): (key: string)
    ensures key == "" <==> !StrTruthy(NormalizeController(controller)) || !StrTruthy(action)
    ensures key != "" ==>
      |key| == |controller| + 1 + |action| &&
      key[..|controller|] == NormalizeController(controller) && key[|controller|] == '_' &&
      key[|controller| + 1..] == action
  {
    var c := NormalizeController(controller);
    if StrTruthy(c) && StrTruthy(action) then c + "_" + action else ""
  }

  // ---------------------------------------------------------------------
  // Public link lists
  // ---------------------------------------------------------------------

  /** The three public-link lists: open to all, open when logged in
      ("inside"), open when not logged in ("outside"). */
  datatype Lists = Lists(public: seq<string>, inside: seq<string>, outside: seq<string>)

  /** What a link setter receives: something that is not an array, or a list. */
  datatype LinkArg = NotArray | Items(links: seq<string>)

  /** A link list after one setter call: a non-array or empty argument keeps
      it, mode "append" extends it, any other mode replaces it. */
  function UpdatedLinks(current: seq<string>, arg: LinkArg, mode: string): seq<string> {
    if arg.Items? && |arg.links| > 0 then
      if mode == "append" then current + arg.links else arg.links
    else current
  }

  /** Append keeps the old list as a prefix and puts the new links after it in order. */
  lemma AppendKeepsOrder(current: seq<string>, links: seq<string>)
    requires links != []
    ensures var r := UpdatedLinks(current, Items(links), "append");
      |r| == |current| + |links| && r[..|current|] == current && r[|current|..] == links
  {
  }

  /** Membership after a setter: with a non-empty list, a key is listed iff
      it is a new link or (appending) it was listed before. */
  lemma UpdatedLinksMembership(current: seq<string>, links: seq<string>, mode: string, key: string)
    requires links != []
    ensures key in UpdatedLinks(current, Items(links), mode) <==>
      key in links || (mode == "append" && key in current)
  {
  }

  /** Replacing with the same list twice is the same as once. */
  lemma ReplaceIdempotent(current: seq<string>, arg: LinkArg, mode: string)
    requires mode != "append"
    ensures UpdatedLinks(UpdatedLinks(current, arg, mode), arg, mode) == UpdatedLinks(current, arg, mode)
  {
  }

  // ---------------------------------------------------------------------
  // The decision table
  // ---------------------------------------------------------------------

  /** The outcome codes of hasRight, in precedence order:
      3 public, 5 public if inside, -2 outside but logged in, 2 full access,
      -1 no access at all, 1 access by right, 4 public if outside, 0 no access.
      `level` and `granted` matter only for a logged-in caller whose key is
      in no list. */
  function Decide(lists: Lists, key: string, authenticated: bool, level: Level, granted: bool): (code: int)
    ensures -2 <= code <= 5
  {
    if key in lists.public then 3
    else if authenticated then
      if key in lists.inside then 5
      else if key in lists.outside then -2
      else if level == FullAccess then 2
      else if level == NoAccess then -1
      else if granted then 1
      else 0
    else if key in lists.outside then 4
    else 0
  }

  /** A public key gives 3 whoever asks. */
  lemma PublicWins(lists: Lists, key: string, authenticated: bool, level: Level, granted: bool)
    requires key in lists.public
    ensures Decide(lists, key, authenticated, level, granted) == 3
  {
  }

  /** An anonymous caller gets only 3, 4 or 0, whatever the role data. */
  lemma AnonymousCodes(lists: Lists, key: string, level: Level, granted: bool)
    ensures var code := Decide(lists, key, false, level, granted);
      code == (if key in lists.public then 3 else if key in lists.outside then 4 else 0)
  {
  }

  /** A logged-in caller never gets 4; inside beats outside; both beat the role. */
  lemma AuthenticatedOrder(lists: Lists, key: string, level: Level, granted: bool)
    requires key !in lists.public
    ensures var code := Decide(lists, key, true, level, granted);
      code != 4 &&
      (key in lists.inside ==> code == 5) &&
      (key !in lists.inside && key in lists.outside ==> code == -2) &&
      (key !in lists.inside && key !in lists.outside ==>
        code == (match level case FullAccess => 2 case NoAccess => -1 case ByRights => if granted then 1 else 0))
  {
  }

  /** Access is allowed (a positive code) exactly when a public list opens
      the key for this caller, or a logged-in caller outside every list has
      full access or an explicit grant. */
  lemma AllowedIff(lists: Lists, key: string, authenticated: bool, level: Level, granted: bool)
    ensures Decide(lists, key, authenticated, level, granted) > 0 <==>
      key in lists.public ||
      (authenticated && key in lists.inside) ||
      (!authenticated && key in lists.outside) ||
      (authenticated && key !in lists.inside && key !in lists.outside &&
        (level == FullAccess || (level == ByRights && granted)))
  {
  }
}
