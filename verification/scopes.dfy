/** Microsoft Graph permission scopes: matching the permission names an
    application must be granted against the scopes the Graph service
    principal publishes, and the space-separated `scope` request parameter
    of OAuth 2.0. */
module GraphScopes {
  import opened Common

  /** One entry of the service principal's `oauth2PermissionScopes`. */
  datatype PermissionScope = PermissionScope(id: string, value: string)

  /** One entry of `requiredResourceAccess[0].resourceAccess`; `kind` is the
      JSON `type`. */
  datatype ResourceAccess = ResourceAccess(id: string, kind: string)

  /** The delegated permissions every created application asks for, in
      request order. This is data only: the Microsoft callbacks in `Handlers`
      take the list to match as their `toGrant` parameter, and the servers
      pass this one. */
  const PermissionScopesToGrant: seq<string> := [
    "User.Read", "Directory.Read.All", "User.Read.All", "Group.Read.All",
    "Sites.Read.All", "Team.ReadBasic.All", "TeamSettings.Read.All", "Channel.ReadBasic.All",
    "SecurityEvents.Read.All", "DeviceManagementManagedDevices.Read.All", "DeviceManagementConfiguration.Read.All",
    "Reports.Read.All", "ChannelMessage.Read.All", "Sites.FullControl.All", "Sites.Manage.All",
    "Sites.ReadWrite.All", "SecurityEvents.ReadWrite.All", "DeviceManagementApps.Read.All",
    "DeviceManagementConfiguration.ReadWrite.All", "Policy.Read.All", "Policy.ReadWrite.ConditionalAccess",
    "SecurityActions.Read.All"
  ]

  /** The scopes the draft server asks Microsoft for when the user signs in. */
  const Scopes: seq<string> := [
    "Application.ReadWrite.All",
    "AppRoleAssignment.ReadWrite.All",
    "Directory.ReadWrite.All",
    "User.Read"
  ]

  /** An available scope whose `value` is exactly `name` (case-sensitive,
      not normalised). */
  predicate Offers(available: seq<PermissionScope>, name: string) {
    exists j :: 0 <= j < |available| && available[j].value == name
  }

  /** `j` is the position of the first available scope whose value is `name`. */
  predicate FirstOffer(available: seq<PermissionScope>, name: string, j: int) {
    && 0 <= j < |available|
    && available[j].value == name
    && (forall k :: 0 <= k < j ==> available[k].value != name)
  }

  /** The `find` predicate of the scope lookup: exact, case-sensitive
      equality of `value`. */
  function ValueIs(name: string): (p: PermissionScope -> bool)
    ensures forall s :: p(s) <==> s.value == name
  {
    (s: PermissionScope) => s.value == name
  }

  /** Each required name becomes the entry `{id, type: 'Scope'}` of the first
      available scope whose value is exactly that name; the first name that
      no scope offers aborts the whole mapping with an error naming it. */
  function MatchScopes(required: seq<string>, available: seq<PermissionScope>): (r: Result<seq<ResourceAccess>, string>)
    ensures r.Ok? ==> |r.value| == |required|
    ensures r.Err? ==> r.error in required
  {
    if required == [] then Ok([])
    else
      var name := required[0];
      match FirstIndex(available, ValueIs(name))
      case None => Err(name)
      case Some(j) =>
        match MatchScopes(required[1..], available)
        case Err(e) => Err(e)
        case Ok(rest) => Ok([ResourceAccess(available[j].id, "Scope")] + rest)
  }

  /** Matching succeeds exactly when every required name is offered. */
  lemma {:induction false} MatchScopesSucceeds(required: seq<string>, available: seq<PermissionScope>)
    ensures MatchScopes(required, available).Ok? <==> forall i :: 0 <= i < |required| ==> Offers(available, required[i])
  {
    if required != [] {
      var name := required[0];
      assert FirstIndex(available, ValueIs(name)).None? <==> !Offers(available, name);
      MatchScopesSucceeds(required[1..], available);
      assert forall i :: 1 <= i < |required| ==> required[i] == required[1..][i - 1];
    }
  }

  /** `e` is the entry the mapping makes for `name`: the id of the first
      scope offering it, and the type "Scope". */
  ghost predicate EntryFor(available: seq<PermissionScope>, name: string, e: ResourceAccess) {
    e.kind == "Scope" && exists j :: FirstOffer(available, name, j) && e.id == available[j].id
  }

  /** On success the entries follow request order: the `i`-th carries the
      id of the first scope offering the `i`-th name, and the type "Scope". */
  lemma {:induction false} MatchScopesEntries(required: seq<string>, available: seq<PermissionScope>)
    requires MatchScopes(required, available).Ok?
    ensures forall i :: 0 <= i < |required| ==> EntryFor(available, required[i], MatchScopes(required, available).value[i])
  {
    if required != [] {
      var name := required[0];
      var j := FirstIndex(available, ValueIs(name)).value;
      assert FirstOffer(available, name, j);
      assert EntryFor(available, name, ResourceAccess(available[j].id, "Scope"));
      MatchScopesEntries(required[1..], available);
      var rest := MatchScopes(required[1..], available).value;
      var r := MatchScopes(required, available).value;
      assert r == [ResourceAccess(available[j].id, "Scope")] + rest;
      assert forall i :: 1 <= i < |required| ==> required[i] == required[1..][i - 1] && r[i] == rest[i - 1];
    }
  }

  /** The error names the first required name, in request order, that no
      scope offers. */
  lemma {:induction false} MatchScopesFirstMissing(required: seq<string>, available: seq<PermissionScope>, i: nat)
    requires i < |required| && !Offers(available, required[i])
    requires forall k :: 0 <= k < i ==> Offers(available, required[k])
    ensures MatchScopes(required, available) == Err(required[i])
  {
    var name := required[0];
    if i == 0 {
      assert FirstIndex(available, ValueIs(name)).None?;
    } else {
      assert Offers(available, name);
      assert FirstIndex(available, ValueIs(name)).Some?;
      assert forall k :: 0 <= k < i - 1 ==> required[1..][k] == required[k + 1];
      MatchScopesFirstMissing(required[1..], available, i - 1);
    }
  }

  /** Only the first matching scope counts: publishing one more scope after
      the others leaves a successful match unchanged. */
  lemma {:induction false} MatchScopesMonotone(required: seq<string>, available: seq<PermissionScope>, extra: PermissionScope)
    requires MatchScopes(required, available).Ok?
    ensures MatchScopes(required, available + [extra]) == MatchScopes(required, available)
  {
    if required != [] {
      FirstIndexAppend(available, extra, ValueIs(required[0]));
      MatchScopesMonotone(required[1..], available, extra);
    }
  }

  lemma {:induction false} FirstIndexAppend<T>(xs: seq<T>, x: T, p: T -> bool)
    requires FirstIndex(xs, p).Some?
    ensures FirstIndex(xs + [x], p) == FirstIndex(xs, p)
  {
    assert (xs + [x])[0] == xs[0];
    if !p(xs[0]) {
      assert (xs + [x])[1..] == xs[1..] + [x];
      FirstIndexAppend(xs[1..], x, p);
    }
  }

  /** `names.join(' ')`. */
  function Join(names: seq<string>): (r: string)
    ensures |names| == 1 ==> r == names[0]
  {
    if names == [] then []
    else if |names| == 1 then names[0]
    else names[0] + " " + Join(names[1..])
  }

  /** The characters RFC 6749 (section 3.3) allows in a scope token: %x21,
      %x23-5B and %x5D-7E, that is printable ASCII except space, double
      quote and backslash. */
  predicate IsNqChar(c: char) {
    c == '\U{0021}' || ('\U{0023}' <= c <= '\U{005B}') || ('\U{005D}' <= c <= '\U{007E}')
  }

  /** `scope-token = 1*NQCHAR`. */
  predicate IsScopeToken(s: string) {
    |s| >= 1 && forall i :: 0 <= i < |s| ==> IsNqChar(s[i])
  }

  /** A `scope` parameter: at least one token, tokens separated by single
      spaces. */
  predicate IsScopeParam(s: string) {
    |s| >= 1 && (forall i :: 0 <= i < |s| ==> s[i] == ' ' || IsNqChar(s[i]))
    && s[0] != ' ' && s[|s| - 1] != ' '
    && (forall i :: 0 <= i < |s| - 1 ==> !(s[i] == ' ' && s[i + 1] == ' '))
  }

  /** The position of the first space in `s`, or `|s|`. */
  function SpaceAt(s: string): (r: nat)
    ensures r <= |s|
    ensures r < |s| ==> s[r] == ' '
    ensures forall i :: 0 <= i < r ==> s[i] != ' '
  {
    if s == [] || s[0] == ' ' then 0 else 1 + SpaceAt(s[1..])
  }

  /** Splits a scope parameter back into its tokens at the spaces, as an
      authorization server reads it. */
  function Split(s: string): (r: seq<string>)
    decreases |s|
  {
    var k := SpaceAt(s);
    if k == |s| then [s] else [s[..k]] + Split(s[k + 1..])
  }

  lemma SpaceAtToken(t: string, rest: string)
    requires forall i :: 0 <= i < |t| ==> t[i] != ' '
    ensures SpaceAt(t + " " + rest) == |t|
    ensures SpaceAt(t) == |t|
  {
    var s := t + " " + rest;
    assert s[|t|] == ' ';
    assert forall i :: 0 <= i < |t| ==> s[i] == t[i];
  }

  /** Joining tokens with single spaces and splitting at the spaces gives
      the tokens back. */
  lemma {:induction false} SplitJoin(names: seq<string>)
    requires |names| >= 1
    requires forall i :: 0 <= i < |names| ==> IsScopeToken(names[i])
    ensures Split(Join(names)) == names
  {
    var t := names[0];
    if |names| == 1 {
      SpaceAtToken(t, []);
    } else {
      var rest := Join(names[1..]);
      var s := t + " " + rest;
      SpaceAtToken(t, rest);
      assert s[..|t|] == t;
      assert s[|t| + 1..] == rest;
      SplitJoin(names[1..]);
      assert names == [t] + names[1..];
    }
  }

  /** Joining scope tokens with single spaces makes a valid `scope`
      parameter. */
  lemma {:induction false} JoinIsScopeParam(names: seq<string>)
    requires |names| >= 1
    requires forall i :: 0 <= i < |names| ==> IsScopeToken(names[i])
    ensures IsScopeParam(Join(names))
    ensures |Join(names)| >= |names[0]|
    ensures Join(names)[..|names[0]|] == names[0]
  {
    if |names| > 1 {
      var t, rest := names[0], Join(names[1..]);
      JoinIsScopeParam(names[1..]);
      var s := t + " " + rest;
      assert s == Join(names);
      forall i | 0 <= i < |s| - 1 ensures !(s[i] == ' ' && s[i + 1] == ' ') {
        if i + 1 < |t| {
          assert s[i] == t[i];
        } else if i + 1 == |t| {
          assert s[i] == t[i];
        } else if i == |t| {
          assert s[i + 1] == rest[0];
        } else {
          assert s[i] == rest[i - |t| - 1] && s[i + 1] == rest[i - |t|];
        }
      }
      forall i | 0 <= i < |s| ensures s[i] == ' ' || IsNqChar(s[i]) {
        if i < |t| {
          assert s[i] == t[i];
        } else if i > |t| {
          assert s[i] == rest[i - |t| - 1];
        }
      }
      assert s[|s| - 1] == rest[|rest| - 1];
    }
  }

  /** Each of the sign-in scopes is a valid RFC 6749 scope token. */
  lemma ScopesAreTokens()
    ensures forall i :: 0 <= i < |Scopes| ==> IsScopeToken(Scopes[i])
  {
    forall k | 0 <= k < |Scopes| ensures IsScopeToken(Scopes[k]) {
      ScopeTokenAt(k);
    }
  }

  /** ASCII letters and the dot, which is all the sign-in scopes are made of. */
  predicate IsDottedLetter(c: char) {
    ('A' <= c <= 'Z') || ('a' <= c <= 'z') || c == '.'
  }

  /** Each sign-in scope is a token, checked character by character (the
      last two in `ScopeTokenTail`, to keep each proof small). */
  lemma ScopeTokenAt(k: nat)
    requires k < |Scopes|
    ensures IsScopeToken(Scopes[k])
  {
    if k < 2 {
      assert forall i :: 0 <= i < |Scopes[0]| ==> IsDottedLetter(Scopes[0][i]);
      assert forall i :: 0 <= i < |Scopes[1]| ==> IsDottedLetter(Scopes[1][i]);
    } else {
      ScopeTokenTail(k);
    }
  }

  /** The last two sign-in scopes are tokens. */
  lemma ScopeTokenTail(k: nat)
    requires 2 <= k < |Scopes|
    ensures IsScopeToken(Scopes[k])
  {
    assert forall i :: 0 <= i < |Scopes[2]| ==> IsDottedLetter(Scopes[2][i]);
    assert forall i :: 0 <= i < |Scopes[3]| ==> IsDottedLetter(Scopes[3][i]);
  }

  /** A request's `scope` parameter as the draft server sends it, in both the
      authorize redirect and the token request. */
  function ScopeParameter(): (r: string) {
    Join(Scopes)
  }

  /** The sign-in `scope` parameter is well formed and names exactly the
      sign-in scopes, in order. */
  lemma ScopeParameterValid()
    ensures IsScopeParam(ScopeParameter())
    ensures Split(ScopeParameter()) == Scopes
  {
    ScopesAreTokens();
    JoinIsScopeParam(Scopes);
    SplitJoin(Scopes);
  }

  /** The query of the sign-in redirect (`URLSearchParams` of the root
      route). */
  datatype AuthorizeQuery = AuthorizeQuery(
    clientId: string, responseType: string, redirectUri: string,
    responseMode: string, scope: string, prompt: string)

  /** The sign-in redirect asks for an authorization code, delivered in the
      query, with consent forced, for exactly the sign-in scopes. */
  function SignInQuery(clientId: string, redirectUri: string): (r: AuthorizeQuery)
    ensures r.clientId == clientId && r.redirectUri == redirectUri
    ensures r.responseType == "code" && r.responseMode == "query" && r.prompt == "consent"
    ensures IsScopeParam(r.scope) && Split(r.scope) == Scopes
  {
    ScopeParameterValid();
    AuthorizeQuery(clientId, "code", redirectUri, "query", ScopeParameter(), "consent")
  }
}
