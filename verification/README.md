# ClickUp audit relay, modelled in Dafny

The repository holds four near-duplicate Express servers: `test.js`,
`index.js`, `backup_index.js` and the draft `brouillon.js`. Each chains a
Microsoft OAuth 2.0 login to a ClickUp OAuth 2.0 login, then posts to an
automation webhook. The servers do not all take the same steps.

Microsoft callback (`/callback`):

- All four exchange the Microsoft code first. `index.js` does not check
  that a code is present; the others answer a message without one.
- `test.js` and `backup_index.js` then read the profile and the tenant.
  They check that the Graph service principal offers every permission in
  `permissionScopesToGrant`. They create an application with those
  scopes, add a secret to it and save it. Finally they redirect to the
  tenant's ClickUp application with a base64 `state` object. The backup
  server's state also carries the new application's credentials.
- `index.js` reads only the profile. It redirects to the ClickUp
  application of its environment, with a state holding the Microsoft
  token and the profile.
- `brouillon.js` reads no profile and no tenant. It does the scope check,
  the application creation and the save, then redirects to the ClickUp
  application of its environment with no state.

ClickUp callback:

- `test.js`, `index.js` and `backup_index.js` exchange the ClickUp code and
  take the first team. They find the first space whose normalised name is
  `equipestechnique` and the first list whose normalised name is
  `auditdesecurite`. They fetch the list's tasks and keep those whose
  first "Traitement" custom field is strictly `0`.
- `test.js` and `index.js` then post each kept task's "Audit" script to
  the webhook, one post per task. A task whose "Audit" value is falsy is
  skipped. The first refused post throws, which ends the loop.
- `backup_index.js` posts once: an aggregated payload with numbered
  `auditscript{i+1}` entries.
- `brouillon.js` (`/clickup/callback`) looks up no team, space or list
  and filters nothing. It reads the ClickUp user, fetches that user's
  tasks and posts them unchanged.

The model treats every upstream reply as an input (`Common.Reply`: a body,
or the error an awaited axios call throws). Each handler is a function
from the request and those replies to the response and the ordered trace
of upstream requests. The two loops that push into `results` are
imperative methods, each proved equal to a specification function:

- `Dispatch.DispatchEach` is the per-task `for` loop.
- `Dispatch.CollectScripts` is the `forEach` building `auditscript{i+1}`.

The modules follow the program's structure:

| module | file | contents |
|---|---|---|
| `Common` | `common.dfy` | `Option`, `Result`, `Reply`, the handler failures, `filter`/`find` |
| `Names` | `normalize.dfy` | `normalize`: NFD, mark stripping, lower-casing, whitespace removal |
| `ClickUp` | `clickup.dfy` | tasks and custom fields, name lookups, the two task filters |
| `GraphScopes` | `scopes.dfy` | the Graph scope match and the space-joined `scope` parameter |
| `Dispatch` | `dispatch.dfy` | the per-task webhook loop and the aggregated `scripts` array |
| `Handlers` | `handlers.dfy` | the route handlers of the four servers, and their round trips |

Where the servers differ, the model keeps the differences:

- **Decoding the state.**
  - `index.js` decodes it before its `try`, so the exception escapes the
    route handler (`NoResponse`).
  - `test.js` answers 400.
  - `backup_index.js` decodes inside its `try` and answers 500.
- **Missing team, space or list.** In `backup_index.js` this reads a
  property of `undefined`, which is a `TypeError` and a 500. The other
  servers throw their own error, which also gives a 500.
- **Task filter.** `backup_index.js` has no `Array.isArray` guard, so one
  task without `custom_fields` fails the whole request.

There is no session store: the state travels in the query string, and
each callback reads back what the previous redirect put there.

## Model

| member | source | states |
|---|---|---|
| Names.Normalize | test.js:37-38 | the normalised name holds no whitespace, no combining mark U+0300–U+036F and no upper-case ASCII letter |
| Names.NormalIsFixpoint | index.js:22-23 | a name is left unchanged by normalisation exactly when it has that normal form |
| Names.NormalizeIdempotent | backup_index.js:39-40 | normalising an already normalised name changes nothing |
| Names.NormalizeAppend | test.js:37-38 | with the Latin-1 decomposition table of the model, normalising a concatenation is concatenating the normalised parts |
| Names.NfdDecomposes | test.js:38 | the model's Latin-1 decomposition table at most doubles the length and leaves no precomposed Latin-1 letter |
| Names.NormalizeAgreesByChar | test.js:37-38 | with the model's Latin-1 table, normalisation agrees with an independent per-character definition: a letter is lowered, an accented letter becomes its lowered base letter, a mark or a space disappears |
| Names.NormalizePlain | test.js:37-38 | a character without decomposition disappears when it is whitespace or a mark, and is otherwise lowered |
| Names.NormalizeAccented | test.js:37-38 | an accented Latin-1 letter normalises to its lowered base letter |
| Names.NormalizedSpaceName | test.js:213 | "Equipes Technique" normalises to `equipestechnique` |
| Names.NormalizedAccentedSpaceName | backup_index.js:223-224 | a space named "Équipes  Technique" (accent, two spaces) normalises to the literal `equipestechnique`, so it matches the space lookup's key |
| Names.NormalizedListName | backup_index.js:229-230 | "Audit de sécurité" normalises to the literal `auditdesecurite` |
| Names.NormalizedTraitement | test.js:235 | "Traitement" normalises to `traitement` |
| Names.NormalizedAudit | test.js:242 | "Audit" normalises to `audit` |
| Common.FilterSound | test.js:232-237 | every task a filter keeps comes from the input and satisfies the predicate |
| Common.FilterComplete | test.js:232-237 | every input task satisfying the predicate is kept |
| Common.FilterAppend | test.js:232-237 | filtering distributes over concatenation, so kept tasks stay in their original order |
| Common.FilterRedundant | test.js:233-236 | a first filter implied by the second changes nothing: the `Array.isArray` filter is subsumed by the "Traitement" test |
| Common.FirstIndex | test.js:102 | the index found is that of the first element satisfying the predicate; none is found exactly when no element does |
| Common.Find | test.js:213 | `find` yields an element exactly when one satisfies the predicate, and then yields the first such element |
| ClickUp.FieldValueOfIsFirst | test.js:235-236 | the custom-field value read is that of the first field whose name normalises to the key, and `undefined` when none does |
| ClickUp.FindByNameIsFirst | test.js:213-214 | the space or list found is the first whose normalised name equals the key; nothing is found exactly when no name matches |
| ClickUp.FindByNameAt | index.js:107 | the item at the first matching position is the one found |
| ClickUp.FindByNameIsFind | test.js:213 | the space and list lookups are `Array.prototype.find` with the normalised-name predicate |
| ClickUp.FieldValueOfIsFind | test.js:235-236 | the custom-field read is `find` with the normalised-name predicate, then `?.value` (`undefined` when nothing is found) |
| ClickUp.GuardedFilter | test.js:232-237 | the kept tasks are exactly the tasks with a custom-field array whose first "Traitement" value is the number 0, in order; a string "0" or an absent field is excluded |
| ClickUp.UnguardedFilter | backup_index.js:236-239 | the filter fails with a `TypeError` exactly when some task has no custom-field array; otherwise it keeps what the guarded filter keeps |
| ClickUp.UnguardedAgreesWhenAllHaveFields | backup_index.js:236-239 | when every task has custom fields the unguarded and guarded filters agree |
| ClickUp.OneBadTaskFailsUnguarded | backup_index.js:236-239 | one task without custom fields makes the unguarded filter fail, while the guarded filter skips that task |
| GraphScopes.MatchScopes | test.js:101-105 | a successful match has one entry per required permission; a failure names one of the required permissions |
| GraphScopes.MatchScopesSucceeds | brouillon.js:81-85 | matching succeeds exactly when every required permission is offered (all or nothing) |
| GraphScopes.MatchScopesEntries | brouillon.js:82-84 | entry `i` has type `Scope` and the id of the first available scope whose value is permission `i` |
| GraphScopes.MatchScopesFirstMissing | backup_index.js:104-108 | when permission `i` is the first not offered, matching throws naming permission `i` |
| GraphScopes.MatchScopesMonotone | test.js:102 | an extra scope offered after the others does not change a successful match: the first match wins |
| GraphScopes.SplitJoin | brouillon.js:43 | splitting the space-joined scope list at spaces gives back the list |
| GraphScopes.JoinIsScopeParam | brouillon.js:58 | space-joined scope tokens form a `scope` value in the syntax of section 3.3 of RFC 6749 |
| GraphScopes.ScopesAreTokens | brouillon.js:20-25 | each of the four sign-in scopes is a valid RFC 6749 scope token |
| GraphScopes.ScopeParameterValid | brouillon.js:56-58 | the `scope` sent in the token request is a valid RFC 6749 scope and splits back into the four sign-in scopes |
| GraphScopes.SignInQuery | brouillon.js:38-45 | the sign-in link asks for a code, in the query, with consent, and its scope splits back into the four sign-in scopes |
| Dispatch.DispatchEach | test.js:240-274 | the per-task loop leaves exactly the results, posts and thrown error of the loop's specification function |
| Dispatch.PerTaskDispatchSpec | index.js:135-164 | the loop posts, in filtered order, one payload per task with a truthy "Audit" value, carrying that script and the state's Microsoft token and profile unchanged, up to the first refused post; it pushes one result per accepted post |
| Dispatch.FailureIsFinal | test.js:249-255 | once a webhook post has thrown, the remaining tasks change nothing |
| Dispatch.PerTaskCounts | test.js:240-274 | there are no more results than posts, and no more posts than filtered tasks |
| Dispatch.Scripted | test.js:242-247 | the tasks whose scripts are sent all have custom fields and a truthy "Audit" value |
| Dispatch.FirstRefusal | test.js:249-255 | every post before the first refusal is accepted, and the refused post fails |
| Dispatch.CollectScripts | backup_index.js:241-251 | the `forEach` builds exactly the aggregated scripts array of its specification function |
| Dispatch.ScriptEntriesAt | backup_index.js:242-250 | entry `k` is `{auditscript<p+1>, value, task id}` for the `k`-th task with a truthy "Audit" value, at filtered position `p` |
| Dispatch.ScriptPositionsSound | backup_index.js:242-245 | the numbered positions are those of tasks with a truthy "Audit" value, strictly increasing |
| Dispatch.ScriptPositionsComplete | backup_index.js:245 | no task with a truthy "Audit" value is left out |
| Dispatch.VarNamesDistinct | backup_index.js:247 | the `varName`s are pairwise distinct and their numbers increase along the array |
| Dispatch.VarNameInjective | backup_index.js:247 | different filtered positions give different `varName`s |
| Dispatch.DecimalInjective | backup_index.js:247 | different numbers are written with different decimal digits |
| Dispatch.Decimal | backup_index.js:247 | the decimal writing of a number is a non-empty string of digits with no leading zero (except for 0 itself), with two or more digits exactly from 10 up |
| Dispatch.DecimalValue | backup_index.js:247 | the digits written for a number denote that number |
| Dispatch.VarNameNumber | backup_index.js:247 | the `varName` for filtered position `i` is "auditscript" followed by digits denoting `i + 1`, the first of them not a zero |
| Dispatch.ScriptEntriesAreScripted | backup_index.js:241-251 | the aggregated array names the same tasks, in the same order and with the same scripts, as the per-task loop would post for if no post were refused (`Dispatch.Scripted`) |
| Dispatch.PerTaskPostsFollowEntries | test.js:240-255 | the per-task loop's actual posts follow the aggregated array entry by entry (same task, same script, same order) up to and including the first refused post, and cover every entry when no post is refused |
| Handlers.MsCallbackUnresolvedTenant | test.js:90-150 | when the organisation reply names no tenant, a redirect happens only if the configuration has an entry under the key "undefined"; it then targets that entry's client id and redirect URI, and its state carries no tenant |
| Handlers.MsCallback | test.js:54-165 | without a code the answer is a message and no request; otherwise the Microsoft token request comes first, and a redirect goes to the ClickUp application configured for the resolved tenant |
| Handlers.MsCallbackNeedsConfig | test.js:142-143 | a tenant without ClickUp configuration ends in a server error, never a redirect, after the application has been created |
| Handlers.MsCallbackScopeMissing | backup_index.js:104-112 | a missing Graph permission ends in a server error naming the first missing one, and no application is created |
| Handlers.IndexMsCallback | index.js:31-70 | the token request comes first; the handler redirects exactly when the token and profile requests succeed, carrying them in the state |
| Handlers.DraftMsCallback | brouillon.js:51-126 | without a code there is no request; the token request uses the space-joined sign-in scopes; a redirect, without state, happens only after every required permission was matched |
| Handlers.DraftMsCallbackScopes | brouillon.js:81-95 | the application is created with exactly the matched scopes; on a missing permission the handler answers an error naming it after two requests |
| Handlers.LookupList | test.js:191-222 | the ClickUp token request comes first; the lookups reach the list after four requests, or stop after at most four |
| Handlers.LookupNoTeam | test.js:204-205 | an empty team list stops the lookups with an error before any space request |
| Handlers.LookupNoSpace | test.js:213-214 | the first team's spaces are requested; with no matching space the lookups stop with an error and no list is requested |
| Handlers.LookupSpace | index.js:107-113 | the lists requested are those of the first matching space of the first team |
| Handlers.LookupNoList | index.js:115-116 | with no matching list the lookups stop with an error before any task request |
| Handlers.LookupFoundList | test.js:221-228 | the list reached is the first matching list, with the ClickUp token |
| Handlers.AuditPipeline | test.js:190-295 | a lookup failure, or a failed task request, ends in a server error with the requests made so far; otherwise the trace and response are those of the filter-and-dispatch stage after the task request |
| Handlers.AuditTasks | index.js:126-182 | the posts are those the per-task loop makes for the kept tasks with a script, with the ClickUp token and the state's Microsoft token and profile; the response lists the results, or reports the refused post |
| Handlers.TestClickUpCallback | test.js:168-297 | missing code or state gives a message with no request; an undecodable state gives 400 with no request; an unconfigured tenant gives 500 with no request; otherwise the ClickUp token request comes first |
| Handlers.IndexClickUpCallback | index.js:72-188 | a missing or undecodable state makes the decoding throw outside the `try` (`NoResponse`) before any upstream request; otherwise the ClickUp token request comes first |
| Handlers.BackupClickUpCallback | backup_index.js:183-277 | missing code or state gives a message; an undecodable state gives 500; a triggered audit made six requests, the last the aggregated post, and reports its script count |
| Handlers.BackupPipeline | backup_index.js:198-275 | a lookup failure ends in a server error (a `TypeError` for a missing name) with the requests made so far; otherwise the trace and response are those of the batch stage after the task request |
| Handlers.BackupBatch | backup_index.js:236-264 | a task without custom fields gives a `TypeError` and no post; otherwise there is exactly one post, with the state's Microsoft token and tenant, the ClickUp token and the numbered scripts, and the response counts them |
| Handlers.DraftClickUpCallback | brouillon.js:128-171 | without a code there is no request; a successful run requests the token, the user and the user's tasks, then posts those tasks unchanged |
| Handlers.TestStateRoundTrip | test.js:146-188 | the ClickUp callback receiving a redirect's state uses the tenant's ClickUp application and the Microsoft token and profile read by the Microsoft callback |
| Handlers.IndexStateRoundTrip | index.js:56-74 | the ClickUp callback receiving a redirect's state posts with the Microsoft token and profile read by the Microsoft callback |
| Handlers.BackupStateRoundTrip | backup_index.js:152-198 | the ClickUp callback receiving a redirect's state uses the resolved tenant's ClickUp application, that tenant and the Microsoft token |
| Handlers.BackupLookupsUnguarded | backup_index.js:218-233 | an empty team list, a missing space or a missing list ends in a `TypeError` before the next request |
| Handlers.BackupBadTaskPostsNothing | backup_index.js:236-261 | one fetched task without custom fields ends in a `TypeError` and nothing is posted |
| Handlers.BackupSinglePost | backup_index.js:254-261 | when every task has custom fields exactly one post is made, after the five ClickUp requests, carrying the state's Microsoft token and tenant and the numbered scripts (possibly none) |

## Left out

- Express routing, the logging middleware, `app.listen` and the root routes' HTML. `GraphScopes.SignInQuery` keeps only the draft server's query parameters.
- Network behaviour of axios. Every reply is an input. A post to the webhook is a function of its payload (`Dispatch.Webhook`), and its reply body is kept as text.
- File I/O. `clickup_apps.json` is a given map. The write of `clickup-<appId>.json` appears only as the `SaveAppFile` trace entry.
- Base64, JSON and URI encoding of the state. The state arrives as the encoded object or as an undecodable string. A state that decodes to JSON that is not an object, or that lacks fields, is not modelled.
- Unicode: NFD is given by the Latin-1 decomposition table; lower-casing covers ASCII A–Z; `\s` is the fixed set of JavaScript whitespace characters. Full Unicode `toLowerCase`, which can reintroduce combining marks, is not modelled.
- A space, list or field name that is not a string, on which `normalize` throws a `TypeError`.
- JavaScript number semantics (floats, `-0`): custom-field numbers are integers.
- HTML summaries and console output, including the webhook fields they read (`complianceStatus`, `stdout`).
- `Date.now()` in application display names and in the draft payload's `timestamp`.
- The `MSAccesstoken`/`Clickupaccesstoken` copies that `test.js` adds to each result. `Dispatch.TaskResult` keeps the four fields the two servers share.
- Query parameters given as arrays.
- Prototype keys such as `constructor` looked up in `clickupApps`.
- The draft server's unencoded `redirect_uri` in its ClickUp link.
- The draft server's `tasks?.length` log line, and a user reply without `user.id`.
- Handlers.MsCallback: the test and backup servers pass `GraphScopes.PermissionScopesToGrant`. The model takes this list as the parameter `toGrant` instead of fixing it inside the handler. `Handlers.DraftMsCallback` does the same.
- Handlers.MsCallback: the contract covers the missing-code path, the first request and the redirect target. The later steps are stated by `Handlers.MsCallbackNeedsConfig`, `Handlers.MsCallbackScopeMissing` and `Handlers.TestStateRoundTrip`.
- Handlers.LookupSpace: states the two requests that matter (the spaces of the first team, the lists of the matching space) rather than the whole trace.
- Handlers.LookupFoundList: states the list reached, the token and the list request rather than the whole trace.
- What the client sees when an exception escapes a route handler (`Handlers.Response.NoResponse`, the state decoding of `index.js`) depends on versions the source does not pin: under Express 4 it is an unhandled promise rejection, on which Node.js 15 and later exit; Express 5 answers 500.
- Full Unicode NFD: canonical reordering of combining marks, and decompositions into more than two code points (U+0390 gives three). The lemmas that normalisation works character by character and that NFD at most doubles the length hold for the model's Latin-1 table, not for every Unicode string.
- A ClickUp or Graph reply whose body lacks the array the handler reads (no `teams`, `spaces`, `lists` or `tasks`, or no `value` on the service-principal reply). The source then throws a `TypeError`, answered with 500; the model's replies always carry the array. The one exception kept is a service-principal reply without `value[0]`.
