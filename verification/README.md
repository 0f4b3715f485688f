# Application lifecycle and authorization services of serverless-cd, in Dafny

This project models the two admin-side service modules of serverless-cd.

- The application service (`src/admin/services/application.service.js`) binds a hosted repository to an organization as an *application*. It lists, previews, creates, reads, updates, transfers and removes applications, and drops single environments. Each operation is a short, fixed sequence of calls on the application table, the task table and the remote webhook provider.
- The auth service (`src/admin/services/auth.service.js`) registers users. Every new user also gets a personal organization with the same name, so user names and organization names share one name space. The service also checks passwords, checks a member's role in an organization, and computes the session token's expiry.

## Layout

- `wrappers.dfy`: `Option`, the error kinds (`ValidationError`, `NoAuthError`, `ProviderError`) and `Result`.
- `stores.dfy`: the records and the abstract store operations that the services call.
  - Records: application, task, organization row, user, provider-token key, webhook.
  - Store operations: task deletion by app or by (app, environment), and organization lookup by owner name or by id.
  - The `Backend` class holds every table as a field: apps `map`, tasks `seq`, organization rows `seq`, users `map` keyed by user name, provider tokens `map`, and the webhook registry `set`. It also holds `trace`, the sequence of store writes and remote calls in the order they happen.
- `application_service.dfy`: the application service. The state-changing operations are methods with `modifies db`. The read-only queries are functions.
- `auth_service.dfy`: the auth service. `InitUser` is a method. Login, the role check and the expiry arithmetic are functions.

Invariants the model keeps:

- `Backend.Valid()`: application records sit under their own ids, every task belongs to a live application, and user records sit under their own names. Every method preserves it.
- `UniqueBindings`: no two applications bind the same (provider, provider_repo_id). `Create`, `RemoveEnv`, `Remove` and `Transfer` preserve it. `Update` preserves it when its patch does not touch the two binding fields.
- `OwnerNamesUnique`, and "every user has an owner organization with the same name": `InitUser` preserves both, given that both of its store writes succeed (see `AuthService.InitUser` under "Left out").

## Model

| member | source | states |
|---|---|---|
| `Stores.DeleteTasks` | src/admin/services/application.service.js:103 | the task deletions `deleteByAppId` (here, and at :73 by app and environment): a task survives exactly when it is outside the scope; with nothing in scope the table is unchanged |
| `Stores.DeleteTasksSplits` | src/admin/services/application.service.js:103 | deletion on a table split in two is the deletion on each part, joined: the surviving tasks keep their order |
| `Stores.DeleteEnvThenApp` | src/admin/services/application.service.js:71-75 | deleting one environment's tasks and then all of the app's tasks leaves the same table as deleting all of the app's tasks |
| `Stores.FindOrg` | src/admin/services/application.service.js:116 | `getOwnerOrgByName` / `getOrgById`: absent exactly when no row answers the query; otherwise the first row that does |
| `ApplicationService.ListByOrgName` | src/admin/services/application.service.js:13-20 | lists exactly the stored apps whose owner_org_id is the id of the owner org with that name, with their stored records |
| `Stores.Bound` | src/admin/services/application.service.js:24-27 | the lookup `getAppByProvider` finds a record exactly when one binds the pair, and under unique bindings exactly one record does |
| `ApplicationService.OwnerOrgId` | src/admin/services/application.service.js:46 | `_.get(ownerOrg, 'id')` (also at :116-117): absent exactly when no owner org has the name, otherwise the id of an owner org with that name |
| `ApplicationService.Preview` | src/admin/services/application.service.js:22-31 | fails with ValidationError exactly when some application already binds (provider, provider_repo_id); being a function, it changes no store |
| `ApplicationService.PreviewGuardsUniqueness` | src/admin/services/application.service.js:34 | a new record whose pair passed preview keeps every (provider, provider_repo_id) binding unique |
| `ApplicationService.GetAppById` | src/admin/services/application.service.js:60-62 | present exactly when the id is stored, and then it is the stored record, which carries that id |
| `ApplicationService.Create` | src/admin/services/application.service.js:33-58 | an already-bound pair fails before any webhook or app write; a refused webhook leaves no app record; on success the trace is webhook-added then app-created, exactly one app is added under the returned id, its org_id is orgId, owner_org_id is the id of the owner org named orgName (absent if none), repo_name is body.repo, webhook_secret is the secret given to the webhook, and binding uniqueness is kept |
| `ApplicationService.Update` | src/admin/services/application.service.js:83-90 | a missing app fails with ValidationError and changes nothing; otherwise the stored record becomes the shallow merge of the old record and params, and no other app changes |
| `ApplicationService.Merge` | src/admin/services/application.service.js:89 | the spread `{ ...appDetail, ...params }`: the record's id is never overwritten; the field-by-field behaviour is stated by the four lemmas below |
| `ApplicationService.MergeNoChange` | src/admin/services/application.service.js:89 | merging an empty patch keeps the record |
| `ApplicationService.MergeIdempotent` | src/admin/services/application.service.js:89 | merging the same params twice equals merging them once |
| `ApplicationService.MergeThen` | src/admin/services/application.service.js:89 | two successive updates equal one update in which the later params win field by field |
| `ApplicationService.MergeKeepsBinding` | src/admin/services/application.service.js:89 | params without provider or provider_repo_id keep the record's id and binding |
| `ApplicationService.RewriteKeepsUniqueness` | src/admin/services/application.service.js:79 | rewriting one record without changing its binding keeps bindings unique |
| `ApplicationService.EnvPathOf` | src/admin/services/application.service.js:71 | the path envName stands for: a name that is a key of environment, or has no `.`, is one key in this model (lodash also reads bracket syntax such as `a[0]` as a path); a name read as a two-step path is not a key and splits at its dot into two plain segments |
| `ApplicationService.DottedNameIsPath` | src/admin/services/application.service.js:71-78 | a name `a.b` with plain segments that is not a key is the path to field b of environment a, and `_.has` finds it exactly when a is an environment whose configuration holds b |
| `ApplicationService.EnvUnset` | src/admin/services/application.service.js:78 | `_.unset` of a name that `_.has` does not find leaves the environment exactly as it was |
| `ApplicationService.HasExactlyWhenUnsetChanges` | src/admin/services/application.service.js:71-78 | `EnvHas`, the model of `_.has` at :71, holds exactly when `_.unset` at :78 changes the environment, so tasks are deleted exactly when the record's environment changes |
| `ApplicationService.UnsetKeyDropsOneEnvironment` | src/admin/services/application.service.js:78 | unsetting a key removes that environment and keeps every other environment unchanged |
| `ApplicationService.UnsetNestedKeepsEnvironments` | src/admin/services/application.service.js:78 | unsetting a two-step path keeps the set of environments; only field b goes from environment a's configuration, and every other environment is unchanged |
| `ApplicationService.RemoveEnv` | src/admin/services/application.service.js:64-81 | a missing app fails with ValidationError; when `_.has` finds envName, exactly the tasks of (appId, envName) are deleted before the record write; the record becomes the old one with envName unset from environment, and no other app changes; the record is rewritten even when the name was not found, and then it is stored unchanged; for an envName that is a key, exactly that environment is removed and its tasks are deleted |
| `ApplicationService.Remove` | src/admin/services/application.service.js:92-113 | a missing app or a missing provider token fails with ValidationError and deletes nothing; otherwise the trace is tasks-deleted, app-deleted, then one webhook removal with the app's owner, repo_name and provider and the resolved token; a refused webhook removal leaves the local deletions in place |
| `ApplicationService.TransferPatch` | src/admin/services/application.service.js:121 | the params `{ org_id, owner_org_id }`: they leave the binding alone, and merging them into any record sets both ownership fields to the target id and keeps every other field |
| `ApplicationService.Transfer` | src/admin/services/application.service.js:115-122 | an org name with no owner org, or whose id is empty, fails with ValidationError and changes nothing; otherwise org_id and owner_org_id both become the target id and every other field is kept |
| `AuthService.CheckNameAvailable` | src/admin/services/auth.service.js:13-14 | the pattern `^[a-zA-Z0-9-_]{1,50}$`; an accepted name is never empty |
| `AuthService.UserByName` | src/admin/services/auth.service.js:16 | `getUserByName` (also at :35): present exactly when a user has the name, and then that user's record |
| `AuthService.InitUser` | src/admin/services/auth.service.js:12-29 | fails with ValidationError, changing nothing, exactly when the name breaks the pattern, a user holds it, or an owner org holds it; otherwise it adds one user with the password's digest and then one owner org with the same name owned by the new user id, returns both ids, keeps owner names unique, and the new user logs in with that password |
| `AuthService.LoginWithPassword` | src/admin/services/auth.service.js:34-43 | returns the user's id exactly when the user exists and its stored password equals md5Encrypt(password); an unknown user and a wrong password give the same ValidationError |
| `AuthService.RegisteredUserLogsIn` | src/admin/services/auth.service.js:36 | a user stored with the digest of a password logs in with that password |
| `AuthService.CheckOrganizationRole` | src/admin/services/auth.service.js:68-74 | raises NoAuthError exactly when no org row has the id; otherwise returns true only for a row whose role is in the list and false only for one whose role is not |
| `AuthService.DefaultRolesAreAdminClass` | src/admin/services/auth.service.js:68 | with the default ADMIN_ROLE_KEYS, owners and admins get true and plain members get false |
| `AuthService.SessionExp` | src/admin/services/auth.service.js:49 | exp = floor(now/1000) + floor(SESSION_EXPIRATION/1000) lies within two seconds below (now + SESSION_EXPIRATION)/1000, and is at least floor(now/1000) for a non-negative lifetime |
| `AuthService.SetJwt` | src/admin/services/auth.service.js:48-63 | the cookie is named `jwt`, is HTTP-only, has maxAge SESSION_EXPIRATION, carries the user id, and its token expiry agrees with the cookie's expiry to within two seconds |

## Assumptions

- The name check `checkNameAvailable` is in a util file that is not part of this model. `CheckNameAvailable` takes its pattern from the error message at `src/admin/services/auth.service.js:14`: 1 to 50 characters, each a letter, a digit, `-` or `_`.
- `md5Encrypt` is a function parameter whose results have the type `Hash`, the non-empty strings.
- `userModel.createUser` is taken to store the digest `md5Encrypt(password)`, the value `loginWithPassword` compares against. The user store is not part of this model.
- A nil result of the app store's list query (which the code replaces with `{}` at `application.service.js:16-18`) and an empty list are both modelled by the empty map.
- `ADMIN_ROLE_KEYS` and the role names live in a configuration package that is not part of this model. The model assumes the roles `Owner`, `Admin` and `Member`, with `ADMIN_ROLE_KEYS = [Owner, Admin]`.
- The organization table is modelled as rows of (id, user id, name, role). `getOwnerOrgByName` is taken to return the first row with that name and role `Owner`. `createOrg` is taken to add such an owner row.
- `userService.getProviderToken` is modelled as a lookup in a token table keyed by (orgId, userId, provider). A missing token fails with ValidationError.
- The ids from `unionId()` and from the stores are parameters, and are fresh.

## Behaviour of the code worth noting

- `listByOrgName` throws when no owner org has the name, because it destructures the missing lookup result at `application.service.js:14`. It never returns an empty result for that case.
- `removeEnv` passes envName to lodash's `_.has` and `_.unset` (`application.service.js:71`, `:78`), which read a name with a `.` as a property path. With environment `{prod: {trigger_spec: "x"}}` and envName `prod.trigger_spec`, the tasks filed under `prod.trigger_spec` are deleted, and the field `trigger_spec` is removed from `prod`'s configuration instead of an environment being removed.
- `transfer` also fails when the target org's id is the empty string, because the code tests the id with `_.isEmpty`.
- `remove` looks up the provider token with the caller's orgId and userId, not with the app's owner_org_id.

## Left out

- `ApplicationService.ListByOrgName`: requires that the owner org exists. The code throws a TypeError when it does not, and that case is not modelled.
- `ApplicationService.Update`: params carrying an `id` field are not modelled, because the store's behaviour when the written id differs from the key is not visible. Each field of params is either set or absent; a field explicitly set to `undefined` is not modelled.
- `ApplicationService.Create`: a failure of the store calls after the webhook is registered (`getOwnerOrgByName`, `createApp`) is not modelled. Only the webhook outcome is an input. Missing fields in the request body are not modelled.
- `ApplicationService.EnvPathOf`: a name that is not a key and has a closed `[...]`, or a `.` together with a `[`, a `]` or a second `.`, is read as one key. lodash reads such names as property paths: `a[0]` is the path a→0, and `a.b]` is the path a→b because a stray `]` is skipped. Names such as `a[` or `a]` are single keys in lodash too, and the model agrees on them.
- `ApplicationService.RemoveEnv`: names with a closed `[...]`, or with a `.` together with a `[`, a `]` or a second `.`, which lodash reads as deeper property paths or bracket paths, are treated as one plain key, so for them the source's task deletion and field removal are not modelled. Property names that every JavaScript object has (such as `__proto__`) are not modelled.
- `AuthService.SetJwt`: JWT signing and writing the cookie to the response are abstract. The cookie carries the token's claims instead of the signed string. The cookie's expiry is taken at the instant `now` at which the token's expiry is computed; the response sink reading the clock again a few milliseconds later is not modelled.
- Store and provider internals (`webhookService`, `userService`, the `appModel`, `taskModel`, `orgModel` and `userModel` persistence) are not modelled. Store contents appear as the tables, and the webhook outcomes appear as the boolean inputs `webhookAdded` and `webhookRemoved`. A failure of a persistence call (`createUser`, `createOrg`, `deleteByAppId`, `deleteAppById`, `deleteByAppIdAndEnvName`, `updateAppById`) is not modelled: every store write is taken to succeed.
- `AuthService.InitUser`: a `createOrg` failure after `createUser` succeeded (`auth.service.js:25-26`) is not modelled. The code would then leave a user without a personal organization, and the name would be refused for good at `auth.service.js:17`. The preserved invariant "every user has an owner organization with the same name" holds only when both writes succeed.
- `ApplicationService.Remove`: partial deletion is not modelled. If `deleteAppById` (`application.service.js:107`) fails after `deleteByAppId` (:103), the code leaves the app record without its tasks. The model always performs both deletions.
- Debug logging, the exact error-message text, and the `Date.now()` clock are not modelled. The clock is the `now` parameter.
- Concurrency is not modelled: the duplicate-binding race between two `create` calls, and lost updates between `update` and `removeEnv`. The model is sequential.
