/** The route handlers of the four servers, seen as functions from what the
    request carries and what the upstream services reply to the response
    sent and the upstream requests made, in order. Each `await` on an axios
    call becomes one element of the trace and one `Reply` input; a failed
    reply, or an error the handler throws, ends the `try` block in its
    `catch`. */
module Handlers {
  import opened Common
  import opened Names
  import opened ClickUp
  import opened GraphScopes
  import opened Dispatch

  /** One entry of `clickup_apps.json`, or the ClickUp application given by
      the environment. */
  datatype ClickUpCreds = ClickUpCreds(clientId: string, clientSecret: string, redirectUri: string)

  /** The application credentials the backup server adds to its state. */
  datatype AppCreds = AppCreds(clientId: string, clientSecret: string)

  /** The object the Microsoft callback encodes into the ClickUp `state`
      parameter. `tenantId` is absent when the organisation reply named no
      tenant (and `JSON.stringify` drops the key); `app` is present only in
      the backup server's state. */
  datatype StateObj = StateObj(msAccessToken: string, userProfile: string, tenantId: Option<string>, app: Option<AppCreds>)

  /** The `state` query parameter as the ClickUp callback receives it: the
      encoding of a state object, or a string that does not decode to one. */
  datatype StateParam = Encoded(obj: StateObj) | Undecodable(raw: string)

  /** The ClickUp authorisation URL the Microsoft callback redirects to. */
  datatype ClickUpAuthorize = ClickUpAuthorize(clientId: string, redirectUri: string, state: Option<StateObj>)

  /** The application Graph creates: its object id and its client id. */
  datatype NewApp = NewApp(id: string, appId: string)

  /** An upstream request, or the one file write, a handler makes. */
  datatype Call =
    | MsToken(code: Option<string>, scope: string)
    | GetProfile
    | GetOrganization
    | GetGraphServicePrincipal
    | CreateApplication(access: seq<ResourceAccess>)
    | AddPassword(objectId: string)
    | SaveAppFile(appId: string)
    | ClickUpToken(code: Option<string>, clientId: string, redirectUri: string)
    | GetTeams
    | GetSpaces(teamId: string)
    | GetLists(spaceId: string)
    | GetTasks(listId: string)
    | GetUser
    | GetUserTasks(userId: string)
    | Post(payload: WebhookPayload)

  /** What the client gets back. `NoResponse` is an exception thrown
      outside any `try`, which escapes the route handler; what the client
      then sees depends on the Express and Node.js versions. */
  datatype Response =
    | MissingCode
    | MissingParameters
    | BadRequest
    | ServerError(failure: Failure)
    | Redirect(target: ClickUpAuthorize)
    | AuditDone(results: seq<TaskResult>)
    | AuditTriggered(count: nat)
    | Integrated
    | NoResponse

  datatype Run = Run(response: Response, calls: seq<Call>)

  /** The replies the Microsoft side gives: the token, `/me`, the tenant id
      read from `/organization` (`value?.[0]?.id`), the scopes of the Graph
      service principal (`None` when `value[0]` is missing), the created
      application and the generated secret. */
  datatype MsReplies = MsReplies(
    token: Reply<string>,
    profile: Reply<string>,
    organization: Reply<Option<string>>,
    servicePrincipal: Reply<Option<seq<PermissionScope>>>,
    application: Reply<NewApp>,
    password: Reply<string>)

  /** The replies the ClickUp side gives to the token request and to the
      team, space, list and task requests. */
  datatype ClickUpReplies = ClickUpReplies(
    token: Reply<string>,
    teams: Reply<seq<Named>>,
    spaces: Reply<seq<Named>>,
    lists: Reply<seq<Named>>,
    tasks: Reply<seq<Task>>)

  /** The replies the draft server's ClickUp callback gets: the token, the
      user id and the user's tasks (`None` when the reply has no `tasks`). */
  datatype DraftReplies = DraftReplies(token: Reply<string>, user: Reply<string>, tasks: Reply<Option<seq<Task>>>)

  /** The two servers whose Microsoft callbacks differ only in the state. */
  datatype Server = TestServer | BackupServer

  /** The scope of the Microsoft token request in all but the draft server. */
  const MsDefaultScope := "https://graph.microsoft.com/.default"

  /** A query parameter is truthy when it is present and not empty. */
  predicate Present(q: Option<string>) {
    q.Some? && q.value != ""
  }

  predicate StatePresent(q: Option<StateParam>) {
    q.Some? && (q.value.Encoded? || q.value.raw != "")
  }

  /** The property name `clickupApps[tenantId]` looks up: JavaScript turns
      an undefined key into the string "undefined". */
  function TenantKey(tenant: Option<string>): (r: string)
    ensures tenant.Some? ==> r == tenant.value
    ensures tenant.None? ==> r == "undefined"
  {
    if tenant.Some? then tenant.value else "undefined"
  }

  /** `clickupApps[tenantId]`, with `None` for a missing entry. */
  function CredsFor(apps: map<string, ClickUpCreds>, tenant: Option<string>): (r: Option<ClickUpCreds>)
    ensures r.Some? <==> TenantKey(tenant) in apps
    ensures r.Some? ==> r.value == apps[TenantKey(tenant)]
  {
    if TenantKey(tenant) in apps then Some(apps[TenantKey(tenant)]) else None
  }

  /** The trace entries of a sequence of webhook posts. */
  function PostsOf(ps: seq<WebhookPayload>): (r: seq<Call>)
    ensures |r| == |ps| && forall i :: 0 <= i < |ps| ==> r[i] == Post(ps[i])
  {
    seq(|ps|, i requires 0 <= i < |ps| => Post(ps[i]))
  }

  // ---------------------------------------------------------------------
  // Microsoft callbacks

  /** `GET /callback` of the test and backup servers: exchange the code,
      read the profile and the tenant, match the Graph scopes, create the
      application and its secret, save it, then redirect to ClickUp with the
      tenant's ClickUp application and the encoded state. `toGrant` is the
      list of Graph permissions to request; both servers pass
      `GraphScopes.PermissionScopesToGrant`. */
  function MsCallback(server: Server, code: Option<string>, apps: map<string, ClickUpCreds>, toGrant: seq<string>,
                      r: MsReplies): (run: Run)
    ensures !Present(code) <==> run == Run(MissingCode, [])
    ensures Present(code) ==> |run.calls| >= 1 && run.calls[0] == MsToken(code, MsDefaultScope)
    ensures run.response.Redirect? ==>
              && r.organization.Got? && CredsFor(apps, r.organization.body).Some?
              && var creds := CredsFor(apps, r.organization.body).value;
              && run.response.target.clientId == creds.clientId
              && run.response.target.redirectUri == creds.redirectUri
  {
    if !Present(code) then Run(MissingCode, [])
    else
      var c0 := [MsToken(code, MsDefaultScope)];
      match r.token
      case Failed(e) => Run(ServerError(Upstream(e)), c0)
      case Got(token) =>
        var c1 := c0 + [GetProfile];
        match r.profile
        case Failed(e) => Run(ServerError(Upstream(e)), c1)
        case Got(profile) =>
          var c2 := c1 + [GetOrganization];
          match r.organization
          case Failed(e) => Run(ServerError(Upstream(e)), c2)
          case Got(tenant) =>
            var c3 := c2 + [GetGraphServicePrincipal];
            match r.servicePrincipal
            case Failed(e) => Run(ServerError(Upstream(e)), c3)
            case Got(None) => Run(ServerError(TypeError), c3)
            case Got(Some(available)) =>
              match MatchScopes(toGrant, available)
              case Err(name) => Run(ServerError(ScopeNotFound(name)), c3)
              case Ok(access) =>
                var c4 := c3 + [CreateApplication(access)];
                match r.application
                case Failed(e) => Run(ServerError(Upstream(e)), c4)
                case Got(app) =>
                  var c5 := c4 + [AddPassword(app.id)];
                  match r.password
                  case Failed(e) => Run(ServerError(Upstream(e)), c5)
                  case Got(secret) =>
                    var c6 := c5 + [SaveAppFile(app.appId)];
                    match CredsFor(apps, tenant)
                    case None => Run(ServerError(NoClickUpConfig(TenantKey(tenant))), c6)
                    case Some(creds) =>
                      var st := StateObj(token, profile, tenant,
                                         if server == BackupServer then Some(AppCreds(app.appId, secret)) else None);
                      Run(Redirect(ClickUpAuthorize(creds.clientId, creds.redirectUri, Some(st))), c6)
  }

  /** A tenant without ClickUp configuration ends in a server error, never
      a redirect, and only after the application has been created. */
  lemma MsCallbackNeedsConfig(server: Server, code: Option<string>, apps: map<string, ClickUpCreds>,
                              toGrant: seq<string>, r: MsReplies, available: seq<PermissionScope>)
    requires Present(code) && r.token.Got? && r.profile.Got? && r.organization.Got?
    requires r.servicePrincipal == Got(Some(available))
    requires MatchScopes(toGrant, available).Ok?
    requires r.application.Got? && r.password.Got?
    requires TenantKey(r.organization.body) !in apps
    ensures MsCallback(server, code, apps, toGrant, r).response == ServerError(NoClickUpConfig(TenantKey(r.organization.body)))
    ensures |MsCallback(server, code, apps, toGrant, r).calls| == 7
    ensures MsCallback(server, code, apps, toGrant, r).calls[4]
            == CreateApplication(MatchScopes(toGrant, available).value)
  {
  }

  /** An organisation reply naming no tenant makes the test and backup
      servers look up the ClickUp configuration under the key "undefined":
      a redirect then goes to that entry's application with a state that has
      no tenant, and without such an entry there is no redirect. */
  lemma MsCallbackUnresolvedTenant(server: Server, code: Option<string>, apps: map<string, ClickUpCreds>,
                                   toGrant: seq<string>, r: MsReplies)
    requires r.organization == Got(None)
    ensures MsCallback(server, code, apps, toGrant, r).response.Redirect? ==>
              && "undefined" in apps
              && MsCallback(server, code, apps, toGrant, r).response.target.clientId == apps["undefined"].clientId
              && MsCallback(server, code, apps, toGrant, r).response.target.redirectUri == apps["undefined"].redirectUri
              && MsCallback(server, code, apps, toGrant, r).response.target.state.Some?
              && MsCallback(server, code, apps, toGrant, r).response.target.state.value.tenantId.None?
    ensures "undefined" !in apps ==> !MsCallback(server, code, apps, toGrant, r).response.Redirect?
  {
  }

  /** A missing Graph scope ends in a server error naming it, and no
      application is created. */
  lemma MsCallbackScopeMissing(server: Server, code: Option<string>, apps: map<string, ClickUpCreds>,
                               toGrant: seq<string>, r: MsReplies, available: seq<PermissionScope>, i: nat)
    requires Present(code) && r.token.Got? && r.profile.Got? && r.organization.Got?
    requires r.servicePrincipal == Got(Some(available))
    requires i < |toGrant| && !Offers(available, toGrant[i])
    requires forall k :: 0 <= k < i ==> Offers(available, toGrant[k])
    ensures MsCallback(server, code, apps, toGrant, r).response == ServerError(ScopeNotFound(toGrant[i]))
    ensures forall j :: 0 <= j < |MsCallback(server, code, apps, toGrant, r).calls| ==>
              !MsCallback(server, code, apps, toGrant, r).calls[j].CreateApplication?
  {
    MatchScopesFirstMissing(toGrant, available, i);
  }

  /** `GET /callback` of the index server: no check of `code`; exchange it,
      read the profile and redirect to the environment's ClickUp
      application with a state holding the token and the profile. */
  function IndexMsCallback(code: Option<string>, env: ClickUpCreds, r: MsReplies): (run: Run)
    ensures |run.calls| >= 1 && run.calls[0] == MsToken(code, MsDefaultScope)
    ensures run.response.Redirect? <==> r.token.Got? && r.profile.Got?
    ensures run.response.Redirect? ==>
              run.response.target == ClickUpAuthorize(env.clientId, env.redirectUri,
                                                      Some(StateObj(r.token.body, r.profile.body, None, None)))
  {
    var c0 := [MsToken(code, MsDefaultScope)];
    match r.token
    case Failed(e) => Run(ServerError(Upstream(e)), c0)
    case Got(token) =>
      var c1 := c0 + [GetProfile];
      match r.profile
      case Failed(e) => Run(ServerError(Upstream(e)), c1)
      case Got(profile) =>
        Run(Redirect(ClickUpAuthorize(env.clientId, env.redirectUri, Some(StateObj(token, profile, None, None)))), c1)
  }

  /** `GET /callback` of the draft server: exchange the code with the
      sign-in scopes, match the Graph scopes, create the application and its
      secret, save it and redirect to the environment's ClickUp application,
      without state. The server passes `GraphScopes.PermissionScopesToGrant`
      as `toGrant`. */
  function DraftMsCallback(code: Option<string>, env: ClickUpCreds, toGrant: seq<string>, r: MsReplies): (run: Run)
    ensures !Present(code) <==> run == Run(MissingCode, [])
    ensures Present(code) ==> |run.calls| >= 1 && run.calls[0] == MsToken(code, ScopeParameter())
    ensures run.response.Redirect? ==> run.response.target == ClickUpAuthorize(env.clientId, env.redirectUri, None)
    ensures run.response.Redirect? ==>
              && r.servicePrincipal.Got? && r.servicePrincipal.body.Some?
              && MatchScopes(toGrant, r.servicePrincipal.body.value).Ok?
  {
    if !Present(code) then Run(MissingCode, [])
    else
      var c0 := [MsToken(code, ScopeParameter())];
      match r.token
      case Failed(e) => Run(ServerError(Upstream(e)), c0)
      case Got(_) =>
        var c1 := c0 + [GetGraphServicePrincipal];
        match r.servicePrincipal
        case Failed(e) => Run(ServerError(Upstream(e)), c1)
        case Got(None) => Run(ServerError(TypeError), c1)
        case Got(Some(available)) =>
          match MatchScopes(toGrant, available)
          case Err(name) => Run(ServerError(ScopeNotFound(name)), c1)
          case Ok(access) =>
            var c2 := c1 + [CreateApplication(access)];
            match r.application
            case Failed(e) => Run(ServerError(Upstream(e)), c2)
            case Got(app) =>
              var c3 := c2 + [AddPassword(app.id)];
              match r.password
              case Failed(e) => Run(ServerError(Upstream(e)), c3)
              case Got(_) =>
                Run(Redirect(ClickUpAuthorize(env.clientId, env.redirectUri, None)), c3 + [SaveAppFile(app.appId)])
  }

  /** Once the Graph scopes are read, the draft callback creates the
      application with exactly the matched scopes, or, when a required scope
      is missing, answers with an error naming it and creates nothing. */
  lemma DraftMsCallbackScopes(code: Option<string>, env: ClickUpCreds, toGrant: seq<string>, r: MsReplies,
                              available: seq<PermissionScope>)
    requires Present(code) && r.token.Got? && r.servicePrincipal == Got(Some(available))
    ensures var run := DraftMsCallback(code, env, toGrant, r);
            match MatchScopes(toGrant, available)
            case Err(name) => run == Run(ServerError(ScopeNotFound(name)), [MsToken(code, ScopeParameter()), GetGraphServicePrincipal])
            case Ok(access) => |run.calls| >= 3 && run.calls[2] == CreateApplication(access)
  {
  }

  // ---------------------------------------------------------------------
  // ClickUp callbacks

  /** Where the ClickUp lookups end: the list of tasks to fetch, with the
      ClickUp token and the requests made so far, or the failure that ends
      the `try` block and the requests made before it. */
  datatype Lookup =
    | Reached(token: string, list: Named, calls: seq<Call>)
    | Stopped(failure: Failure, calls: seq<Call>)

  /** The lookups the three audit callbacks share: exchange the code, take
      the first team, then the first space named "Equipes Technique" and the
      first list named "Audit de sécurité", compared by normalised name. */
  function LookupList(code: Option<string>, creds: ClickUpCreds, r: ClickUpReplies): (l: Lookup)
    ensures |l.calls| >= 1 && l.calls[0] == ClickUpToken(code, creds.clientId, creds.redirectUri)
    ensures l.Reached? ==> |l.calls| == 4
    ensures l.Stopped? ==> |l.calls| <= 4
  {
    var c0 := [ClickUpToken(code, creds.clientId, creds.redirectUri)];
    match r.token
    case Failed(e) => Stopped(Upstream(e), c0)
    case Got(token) =>
      var c1 := c0 + [GetTeams];
      match r.teams
      case Failed(e) => Stopped(Upstream(e), c1)
      case Got(teams) =>
        if teams == [] then Stopped(NoTeam, c1)
        else
          var c2 := c1 + [GetSpaces(teams[0].id)];
          match r.spaces
          case Failed(e) => Stopped(Upstream(e), c2)
          case Got(spaces) =>
            match FindByName(spaces, SpaceKey)
            case None => Stopped(SpaceNotFound, c2)
            case Some(space) =>
              var c3 := c2 + [GetLists(space.id)];
              match r.lists
              case Failed(e) => Stopped(Upstream(e), c3)
              case Got(lists) =>
                match FindByName(lists, ListKey)
                case None => Stopped(ListNotFound, c3)
                case Some(list) => Reached(token, list, c3)
  }

  /** The part of the test and index ClickUp callbacks after the state is
      read: the lookups, then the tasks of the list, the filter keeping the
      tasks to audit and the per-task loop. */
  function AuditPipeline(code: Option<string>, creds: ClickUpCreds, st: StateObj, r: ClickUpReplies, webhook: Webhook): (run: Run)
    ensures |run.calls| >= 1 && run.calls[0] == ClickUpToken(code, creds.clientId, creds.redirectUri)
    ensures LookupList(code, creds, r).Stopped? ==>
              run == Run(ServerError(LookupList(code, creds, r).failure), LookupList(code, creds, r).calls)
    ensures LookupList(code, creds, r).Reached? && r.tasks.Failed? ==>
              run == Run(ServerError(Upstream(r.tasks.error)),
                         LookupList(code, creds, r).calls + [GetTasks(LookupList(code, creds, r).list.id)])
    ensures LookupList(code, creds, r).Reached? && r.tasks.Got? ==>
              var b := AuditTasks(LookupList(code, creds, r).token, st, r.tasks.body, webhook);
              run == Run(b.response, LookupList(code, creds, r).calls + [GetTasks(LookupList(code, creds, r).list.id)] + b.calls)
    ensures run.response.ServerError? || run.response.AuditDone?
  {
    match LookupList(code, creds, r)
    case Stopped(f, calls) => Run(ServerError(f), calls)
    case Reached(token, list, calls) =>
      var c4 := calls + [GetTasks(list.id)];
      match r.tasks
      case Failed(e) => Run(ServerError(Upstream(e)), c4)
      case Got(tasks) =>
        var b := AuditTasks(token, st, tasks, webhook);
        Run(b.response, c4 + b.calls)
  }

  /** The test and index servers' steps once the tasks are fetched: the
      filter keeping the tasks to audit, then the per-task loop. The posts
      are those of the tasks to audit that have a script, in order, each
      with the ClickUp token and the Microsoft token and profile of the
      state, up to the first refused one; the response lists the results,
      or reports that refusal. The calls are those made after the task
      request. */
  function AuditTasks(token: string, st: StateObj, tasks: seq<Task>, webhook: Webhook): (run: Run)
    ensures run.calls
            == PostsOf(Expected(Scripted(GuardedFilter(tasks)), PostContext(token, st.msAccessToken, st.userProfile), webhook).posts)
    ensures run.response
            == if Expected(Scripted(GuardedFilter(tasks)), PostContext(token, st.msAccessToken, st.userProfile), webhook).failure.Some?
               then ServerError(Upstream(Expected(Scripted(GuardedFilter(tasks)), PostContext(token, st.msAccessToken, st.userProfile), webhook).failure.value))
               else AuditDone(Expected(Scripted(GuardedFilter(tasks)), PostContext(token, st.msAccessToken, st.userProfile), webhook).results)
  {
    var s := PostContext(token, st.msAccessToken, st.userProfile);
    var filtered := GuardedFilter(tasks);
    PerTaskDispatchSpec(filtered, s, webhook);
    var d := PerTaskDispatch(filtered, s, webhook);
    Run(if d.failure.Some? then ServerError(Upstream(d.failure.value)) else AuditDone(d.results), PostsOf(d.posts))
  }

  /** `GET /clickup-callback` of the test server. */
  function TestClickUpCallback(code: Option<string>, state: Option<StateParam>, apps: map<string, ClickUpCreds>,
                               r: ClickUpReplies, webhook: Webhook): (run: Run)
    ensures run == Run(MissingParameters, []) <==> !Present(code) || !StatePresent(state)
    ensures run == Run(BadRequest, []) <==> Present(code) && StatePresent(state) && state.value.Undecodable?
    ensures Present(code) && StatePresent(state) && state.value.Encoded? ==>
              match CredsFor(apps, state.value.obj.tenantId)
              case None => run == Run(ServerError(NoClickUpConfig(TenantKey(state.value.obj.tenantId))), [])
              case Some(creds) => |run.calls| >= 1 && run.calls[0] == ClickUpToken(code, creds.clientId, creds.redirectUri)
                                  && (run.response.ServerError? || run.response.AuditDone?)
  {
    if !Present(code) || !StatePresent(state) then Run(MissingParameters, [])
    else match state.value
      case Undecodable(_) => Run(BadRequest, [])
      case Encoded(st) =>
        match CredsFor(apps, st.tenantId)
        case None => Run(ServerError(NoClickUpConfig(TenantKey(st.tenantId))), [])
        case Some(creds) => AuditPipeline(code, creds, st, r, webhook)
  }

  /** `GET /clickup-callback` of the index server: the state is decoded
      before the `try`, so a missing or undecodable state throws out of the
      handler; `code` is not checked. */
  function IndexClickUpCallback(code: Option<string>, state: Option<StateParam>, env: ClickUpCreds,
                                r: ClickUpReplies, webhook: Webhook): (run: Run)
    ensures run == Run(NoResponse, []) <==> state.None? || state.value.Undecodable?
    ensures state.Some? && state.value.Encoded? ==> |run.calls| >= 1 && run.calls[0] == ClickUpToken(code, env.clientId, env.redirectUri)
  {
    match state
    case None => Run(NoResponse, [])
    case Some(Undecodable(_)) => Run(NoResponse, [])
    case Some(Encoded(st)) => AuditPipeline(code, env, st, r, webhook)
  }

  /** `GET /clickup-callback` of the backup server: everything after the
      presence check is inside the `try`, the lookups are unguarded, and
      one aggregated payload is posted. */
  function BackupClickUpCallback(code: Option<string>, state: Option<StateParam>, apps: map<string, ClickUpCreds>,
                                 r: ClickUpReplies, webhook: Webhook): (run: Run)
    ensures run == Run(MissingParameters, []) <==> !Present(code) || !StatePresent(state)
    ensures Present(code) && StatePresent(state) && state.value.Undecodable? ==> run == Run(ServerError(BadState), [])
    ensures run.response.AuditTriggered? ==>
              |run.calls| == 6 && run.calls[5].Post? && run.calls[5].payload.AuditBatch?
              && run.response.count == |run.calls[5].payload.scripts|
  {
    if !Present(code) || !StatePresent(state) then Run(MissingParameters, [])
    else match state.value
      case Undecodable(_) => Run(ServerError(BadState), [])
      case Encoded(st) =>
        match CredsFor(apps, st.tenantId)
        case None => Run(ServerError(NoClickUpConfig(TenantKey(st.tenantId))), [])
        case Some(creds) => BackupPipeline(code, creds, st, r, webhook)
  }

  /** What the backup server's unguarded code throws where the other
      servers throw their own error: `teams[0].id`, `space.id` and
      `list.id` on a missing element read a property of `undefined`. */
  function Unguarded(f: Failure): (g: Failure)
    ensures f.NoTeam? || f.SpaceNotFound? || f.ListNotFound? ==> g == TypeError
    ensures !(f.NoTeam? || f.SpaceNotFound? || f.ListNotFound?) ==> g == f
  {
    if f.NoTeam? || f.SpaceNotFound? || f.ListNotFound? then TypeError else f
  }

  /** The backup server's steps after the state is read: the same lookups,
      unguarded; the tasks; the unguarded filter, which throws on a task
      without custom fields; the numbered scripts; one aggregated post. */
  function BackupPipeline(code: Option<string>, creds: ClickUpCreds, st: StateObj, r: ClickUpReplies, webhook: Webhook): (run: Run)
    ensures |run.calls| >= 1 && run.calls[0] == ClickUpToken(code, creds.clientId, creds.redirectUri)
    ensures LookupList(code, creds, r).Stopped? ==>
              run == Run(ServerError(Unguarded(LookupList(code, creds, r).failure)), LookupList(code, creds, r).calls)
    ensures LookupList(code, creds, r).Reached? && r.tasks.Failed? ==>
              run == Run(ServerError(Upstream(r.tasks.error)),
                         LookupList(code, creds, r).calls + [GetTasks(LookupList(code, creds, r).list.id)])
    ensures LookupList(code, creds, r).Reached? && r.tasks.Got? ==>
              var b := BackupBatch(LookupList(code, creds, r).token, st, r.tasks.body, webhook);
              run == Run(b.response, LookupList(code, creds, r).calls + [GetTasks(LookupList(code, creds, r).list.id)] + b.calls)
    ensures run.response.ServerError? || run.response.AuditTriggered?
  {
    match LookupList(code, creds, r)
    case Stopped(f, calls) => Run(ServerError(Unguarded(f)), calls)
    case Reached(token, list, calls) =>
      var c4 := calls + [GetTasks(list.id)];
      match r.tasks
      case Failed(e) => Run(ServerError(Upstream(e)), c4)
      case Got(tasks) =>
        var b := BackupBatch(token, st, tasks, webhook);
        Run(b.response, c4 + b.calls)
  }

  /** The backup server's steps once the tasks are fetched: the unguarded
      filter, which throws on a task without custom fields; the numbered
      scripts of the tasks kept; one aggregated post with the Microsoft
      token and tenant of the state. The calls are those made after the
      task request. */
  function BackupBatch(token: string, st: StateObj, tasks: seq<Task>, webhook: Webhook): (run: Run)
    ensures (exists i :: 0 <= i < |tasks| && !HasFieldArray(tasks[i])) <==> run == Run(ServerError(TypeError), [])
    ensures AllHaveFields(tasks) ==>
              run.calls == [Post(AuditBatch(st.msAccessToken, token, st.tenantId, ScriptEntries(GuardedFilter(tasks))))]
    ensures AllHaveFields(tasks) ==>
              run.response == match webhook(AuditBatch(st.msAccessToken, token, st.tenantId, ScriptEntries(GuardedFilter(tasks))))
                              case Got(_) => AuditTriggered(|ScriptEntries(GuardedFilter(tasks))|)
                              case Failed(e) => ServerError(Upstream(e))
  {
    match UnguardedFilter(tasks)
    case Err(f) => Run(ServerError(f), [])
    case Ok(filtered) =>
      UnguardedAgreesWhenAllHaveFields(tasks);
      var scripts := ScriptEntries(filtered);
      var payload := AuditBatch(st.msAccessToken, token, st.tenantId, scripts);
      match webhook(payload)
      case Failed(e) => Run(ServerError(Upstream(e)), [Post(payload)])
      case Got(_) => Run(AuditTriggered(|scripts|), [Post(payload)])
  }

  /** `GET /clickup/callback` of the draft server: exchange the code, read
      the user, fetch the user's tasks and post them unchanged. */
  function DraftClickUpCallback(code: Option<string>, env: ClickUpCreds, r: DraftReplies, webhook: Webhook): (run: Run)
    ensures !Present(code) <==> run == Run(MissingCode, [])
    ensures Present(code) ==> |run.calls| >= 1 && run.calls[0] == ClickUpToken(code, env.clientId, env.redirectUri)
    ensures run.response == Integrated ==>
              && r.user.Got? && r.tasks.Got?
              && run.calls == [ClickUpToken(code, env.clientId, env.redirectUri), GetUser, GetUserTasks(r.user.body),
                               Post(UserTasks(r.user.body, r.tasks.body))]
  {
    if !Present(code) then Run(MissingCode, [])
    else
      var c0 := [ClickUpToken(code, env.clientId, env.redirectUri)];
      match r.token
      case Failed(e) => Run(ServerError(Upstream(e)), c0)
      case Got(_) =>
        var c1 := c0 + [GetUser];
        match r.user
        case Failed(e) => Run(ServerError(Upstream(e)), c1)
        case Got(userId) =>
          var c2 := c1 + [GetUserTasks(userId)];
          match r.tasks
          case Failed(e) => Run(ServerError(Upstream(e)), c2)
          case Got(tasks) =>
            var payload := UserTasks(userId, tasks);
            match webhook(payload)
            case Failed(e) => Run(ServerError(Upstream(e)), c2 + [Post(payload)])
            case Got(_) => Run(Integrated, c2 + [Post(payload)])
  }

  // ---------------------------------------------------------------------
  // Properties of the ClickUp callbacks

  /** Without a team the lookups stop with an error before any space
      request. */
  lemma LookupNoTeam(code: Option<string>, creds: ClickUpCreds, r: ClickUpReplies)
    requires r.token.Got? && r.teams == Got([])
    ensures LookupList(code, creds, r) == Stopped(NoTeam, [ClickUpToken(code, creds.clientId, creds.redirectUri), GetTeams])
  {
  }

  /** The spaces requested are the first team's; without a space whose name
      normalises to "equipestechnique" the lookups stop with an error and no
      list is requested. */
  lemma LookupNoSpace(code: Option<string>, creds: ClickUpCreds, r: ClickUpReplies, teams: seq<Named>, spaces: seq<Named>)
    requires r.token.Got? && r.teams == Got(teams) && teams != [] && r.spaces == Got(spaces)
    requires forall i :: 0 <= i < |spaces| ==> Normalize(spaces[i].name) != SpaceKey
    ensures LookupList(code, creds, r)
            == Stopped(SpaceNotFound, [ClickUpToken(code, creds.clientId, creds.redirectUri), GetTeams, GetSpaces(teams[0].id)])
  {
    FindByNameIsFirst(spaces, SpaceKey);
  }

  /** The lists requested are those of the first space whose name
      normalises to "equipestechnique", after a request for the first
      team's spaces. */
  lemma LookupSpace(code: Option<string>, creds: ClickUpCreds, r: ClickUpReplies, teams: seq<Named>, spaces: seq<Named>, i: nat)
    requires r.token.Got? && r.teams == Got(teams) && teams != [] && r.spaces == Got(spaces)
    requires i < |spaces| && Normalize(spaces[i].name) == SpaceKey
    requires forall j :: 0 <= j < i ==> Normalize(spaces[j].name) != SpaceKey
    ensures |LookupList(code, creds, r).calls| == 4
    ensures LookupList(code, creds, r).calls[2] == GetSpaces(teams[0].id)
    ensures LookupList(code, creds, r).calls[3] == GetLists(spaces[i].id)
  {
    FindByNameAt(spaces, SpaceKey, i);
  }

  /** Once the space is found, a missing list named "auditdesecurite" stops
      the lookups with an error before any task request. */
  lemma LookupNoList(code: Option<string>, creds: ClickUpCreds, r: ClickUpReplies,
                     teams: seq<Named>, space: Named, lists: seq<Named>)
    requires r.token.Got? && r.teams == Got(teams) && teams != [] && r.spaces.Got?
    requires FindByName(r.spaces.body, SpaceKey) == Some(space) && r.lists == Got(lists)
    requires forall i :: 0 <= i < |lists| ==> Normalize(lists[i].name) != ListKey
    ensures LookupList(code, creds, r)
            == Stopped(ListNotFound, [ClickUpToken(code, creds.clientId, creds.redirectUri), GetTeams,
                                      GetSpaces(teams[0].id), GetLists(space.id)])
  {
    FindByNameIsFirst(lists, ListKey);
  }

  /** Otherwise the lookups reach the first list whose name normalises to
      "auditdesecurite", with the ClickUp token. */
  lemma LookupFoundList(code: Option<string>, creds: ClickUpCreds, r: ClickUpReplies,
                        teams: seq<Named>, space: Named, lists: seq<Named>, i: nat)
    requires r.token.Got? && r.teams == Got(teams) && teams != [] && r.spaces.Got?
    requires FindByName(r.spaces.body, SpaceKey) == Some(space) && r.lists == Got(lists)
    requires i < |lists| && Normalize(lists[i].name) == ListKey
    requires forall j :: 0 <= j < i ==> Normalize(lists[j].name) != ListKey
    ensures LookupList(code, creds, r).Reached?
    ensures LookupList(code, creds, r).token == r.token.body && LookupList(code, creds, r).list == lists[i]
    ensures LookupList(code, creds, r).calls[3] == GetLists(space.id)
  {
    FindByNameAt(lists, ListKey, i);
    assert r.lists.body == lists;
  }

  /** The test server's round trip through the `state` parameter: the ClickUp
      callback that receives the state of a Microsoft callback's redirect
      exchanges its code with the ClickUp application the redirect went to,
      and posts with the Microsoft token and profile that callback read. */
  lemma TestStateRoundTrip(code: Option<string>, apps: map<string, ClickUpCreds>, toGrant: seq<string>, mr: MsReplies,
                           code2: Option<string>, cr: ClickUpReplies, webhook: Webhook)
    requires MsCallback(TestServer, code, apps, toGrant, mr).response.Redirect?
    requires Present(code2)
    ensures mr.token.Got? && mr.profile.Got? && mr.organization.Got? && TenantKey(mr.organization.body) in apps
    ensures MsCallback(TestServer, code, apps, toGrant, mr).response.target.state.Some?
    ensures TestClickUpCallback(code2, Some(Encoded(MsCallback(TestServer, code, apps, toGrant, mr).response.target.state.value)),
                                apps, cr, webhook)
            == AuditPipeline(code2, apps[TenantKey(mr.organization.body)],
                             StateObj(mr.token.body, mr.profile.body, mr.organization.body, None), cr, webhook)
  {
  }

  /** The index server's round trip: the ClickUp callback posts with the
      Microsoft token and profile the Microsoft callback read. */
  lemma IndexStateRoundTrip(code: Option<string>, env: ClickUpCreds, mr: MsReplies,
                            code2: Option<string>, cr: ClickUpReplies, webhook: Webhook)
    requires IndexMsCallback(code, env, mr).response.Redirect?
    ensures IndexMsCallback(code, env, mr).response.target.state.Some?
    ensures IndexClickUpCallback(code2, Some(Encoded(IndexMsCallback(code, env, mr).response.target.state.value)),
                                 env, cr, webhook)
            == AuditPipeline(code2, env, StateObj(mr.token.body, mr.profile.body, None, None), cr, webhook)
  {
  }

  /** The backup server's round trip: the ClickUp callback uses the ClickUp
      application of the tenant the Microsoft callback resolved, and its
      single post carries that tenant and that Microsoft token. */
  lemma BackupStateRoundTrip(code: Option<string>, apps: map<string, ClickUpCreds>, toGrant: seq<string>, mr: MsReplies,
                             code2: Option<string>, cr: ClickUpReplies, webhook: Webhook)
    requires MsCallback(BackupServer, code, apps, toGrant, mr).response.Redirect?
    requires Present(code2)
    ensures mr.token.Got? && mr.profile.Got? && mr.organization.Got? && mr.application.Got? && mr.password.Got?
    ensures TenantKey(mr.organization.body) in apps
    ensures MsCallback(BackupServer, code, apps, toGrant, mr).response.target.state.Some?
    ensures BackupClickUpCallback(code2, Some(Encoded(MsCallback(BackupServer, code, apps, toGrant, mr).response.target.state.value)),
                                  apps, cr, webhook)
            == BackupPipeline(code2, apps[TenantKey(mr.organization.body)],
                              StateObj(mr.token.body, mr.profile.body, mr.organization.body,
                                       Some(AppCreds(mr.application.body.appId, mr.password.body))), cr, webhook)
  {
  }

  /** The backup server's lookups are unguarded: an empty team list, a
      missing space or a missing list makes it read a property of
      `undefined`, and the run ends with a `TypeError` before the next
      request. */
  lemma BackupLookupsUnguarded(code: Option<string>, creds: ClickUpCreds, st: StateObj, r: ClickUpReplies, webhook: Webhook)
    requires r.token.Got? && r.teams.Got?
    ensures r.teams.body == [] ==>
              BackupPipeline(code, creds, st, r, webhook)
              == Run(ServerError(TypeError), [ClickUpToken(code, creds.clientId, creds.redirectUri), GetTeams])
    ensures r.teams.body != [] && r.spaces.Got? && FindByName(r.spaces.body, SpaceKey).None? ==>
              BackupPipeline(code, creds, st, r, webhook)
              == Run(ServerError(TypeError), [ClickUpToken(code, creds.clientId, creds.redirectUri), GetTeams,
                                              GetSpaces(r.teams.body[0].id)])
    ensures r.teams.body != [] && r.spaces.Got? && FindByName(r.spaces.body, SpaceKey).Some?
            && r.lists.Got? && FindByName(r.lists.body, ListKey).None? ==>
              BackupPipeline(code, creds, st, r, webhook)
              == Run(ServerError(TypeError), [ClickUpToken(code, creds.clientId, creds.redirectUri), GetTeams,
                                              GetSpaces(r.teams.body[0].id), GetLists(FindByName(r.spaces.body, SpaceKey).value.id)])
  {
    var c0 := [ClickUpToken(code, creds.clientId, creds.redirectUri), GetTeams];
    if r.teams.body == [] {
      assert LookupList(code, creds, r) == Stopped(NoTeam, c0);
    } else if r.spaces.Got? && FindByName(r.spaces.body, SpaceKey).None? {
      assert LookupList(code, creds, r) == Stopped(SpaceNotFound, c0 + [GetSpaces(r.teams.body[0].id)]);
    } else if r.spaces.Got? && r.lists.Got? && FindByName(r.lists.body, ListKey).None? {
      var space := FindByName(r.spaces.body, SpaceKey).value;
      assert LookupList(code, creds, r) == Stopped(ListNotFound, c0 + [GetSpaces(r.teams.body[0].id), GetLists(space.id)]);
    }
  }

  /** One fetched task without custom fields makes the backup server's
      filter throw: the run ends with a `TypeError` and nothing is posted. */
  lemma BackupBadTaskPostsNothing(code: Option<string>, creds: ClickUpCreds, st: StateObj, r: ClickUpReplies,
                                  webhook: Webhook, i: nat)
    requires LookupList(code, creds, r).Reached?
    requires r.tasks.Got? && i < |r.tasks.body| && !HasFieldArray(r.tasks.body[i])
    ensures BackupPipeline(code, creds, st, r, webhook)
            == Run(ServerError(TypeError), LookupList(code, creds, r).calls + [GetTasks(LookupList(code, creds, r).list.id)])
  {
    assert 0 <= i < |r.tasks.body| && !HasFieldArray(r.tasks.body[i]);
  }

  /** When every fetched task has custom fields, the backup server posts
      exactly once, after the five ClickUp requests: the Microsoft token and
      tenant of the state, the ClickUp token, and the numbered scripts of
      the tasks to audit. */
  lemma BackupSinglePost(code: Option<string>, creds: ClickUpCreds, st: StateObj, r: ClickUpReplies, webhook: Webhook)
    requires LookupList(code, creds, r).Reached?
    requires r.tasks.Got? && AllHaveFields(r.tasks.body)
    ensures BackupPipeline(code, creds, st, r, webhook).calls
            == LookupList(code, creds, r).calls + [GetTasks(LookupList(code, creds, r).list.id),
               Post(AuditBatch(st.msAccessToken, LookupList(code, creds, r).token, st.tenantId,
                               ScriptEntries(GuardedFilter(r.tasks.body))))]
  {
  }
}
