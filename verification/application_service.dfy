/**
 * The application lifecycle service: binding a repository to an organization
 * (preview, create), reading (getAppById, listByOrgName), changing (update,
 * transfer), and tearing down (removeEnv, remove) applications, together with
 * the task-table and webhook side effects of each step.
 */
module ApplicationService {
  import opened Wrappers
  import opened Stores

  /** The request body of `create` (and, for its two binding fields, of `preview`). */
  datatype AppBody = AppBody(
    repo: string,
    owner: string,
    repoUrl: string,
    providerRepoId: string,
    description: string,
    provider: string,
    environment: map<string, EnvConfig>)

  /** The id of the owner org named `orgName`, or absent (`_.get(ownerOrg, 'id')`). */
  function OwnerOrgId(orgs: seq<OrgRow>, orgName: string): (ownerOrgId: Option<Id>)
    ensures ownerOrgId.None? <==> forall o | o in orgs :: !Answers(o, OwnerOrgNamed(orgName))
    ensures ownerOrgId.Some? ==> exists o | o in orgs :: Answers(o, OwnerOrgNamed(orgName)) && o.id == ownerOrgId.value
  {
    match FindOrg(orgs, OwnerOrgNamed(orgName))
    case Some(o) => Some(o.id)
    case None => None
  }

  /** The applications whose owner org is the one named `orgName`. */
  function ListByOrgName(apps: map<Id, App>, orgs: seq<OrgRow>, orgName: string): (listed: map<Id, App>)
    requires FindOrg(orgs, OwnerOrgNamed(orgName)).Some?
    ensures forall id | id in listed :: id in apps && listed[id] == apps[id]
    ensures forall id | id in listed :: exists o | o in orgs ::
      Answers(o, OwnerOrgNamed(orgName)) && apps[id].ownerOrgId == Some(o.id)
    ensures forall id | id in apps :: id in listed <==> apps[id].ownerOrgId == OwnerOrgId(orgs, orgName)
  {
    var orgId := FindOrg(orgs, OwnerOrgNamed(orgName)).value.id;
    map id | id in apps && apps[id].ownerOrgId == Some(orgId) :: apps[id]
  }

  /** Fails exactly when the repository is already bound to an application. */
  function Preview(apps: map<Id, App>, provider: string, providerRepoId: string): (r: Result<()>)
    ensures r.Err? <==> exists a | a in apps.Values :: Binds(a, provider, providerRepoId)
    ensures r.Err? ==> r.error == ValidationError
  {
    if Bound(apps, provider, providerRepoId) then Err(ValidationError) else Ok(())
  }

  /** A new record that passed `preview` keeps every binding unique. */
  lemma PreviewGuardsUniqueness(apps: map<Id, App>, a: App)
    requires UniqueBindings(apps)
    requires a.id !in apps
    requires Preview(apps, a.provider, a.providerRepoId).Ok?
    ensures UniqueBindings(apps[a.id := a])
  {
  }

  /** The record stored under `appId`, if any. */
  function GetAppById(apps: map<Id, App>, appId: Id): (found: Option<App>)
    ensures found.Some? <==> appId in apps
    ensures found.Some? ==> found.value == apps[appId]
    ensures KeyedById(apps) && found.Some? ==> found.value.id == appId
  {
    if appId in apps then Some(apps[appId]) else None
  }

  /**
   * Binds a repository: checks it is unbound, registers the webhook, then
   * persists the record. `appId` and `webhookSecret` are the fresh ids the
   * service generates; `webhookAdded` is whether the provider accepted the hook.
   */
  method Create(db: Backend, orgId: Id, orgName: string, providerToken: string, body: AppBody,
                appId: Id, webhookSecret: Id, webhookAdded: bool)
    returns (r: Result<Id>)
    requires db.Valid()
    requires appId !in db.apps
    modifies db
    ensures db.Valid()
    ensures db.tasks == old(db.tasks) && db.orgs == old(db.orgs)
    ensures db.users == old(db.users) && db.tokens == old(db.tokens)
    ensures Bound(old(db.apps), body.provider, body.providerRepoId) ==>
      && r == Err(ValidationError)
      && db.apps == old(db.apps) && db.webhooks == old(db.webhooks) && db.trace == old(db.trace)
    ensures !Bound(old(db.apps), body.provider, body.providerRepoId) && !webhookAdded ==>
      && r == Err(ProviderError)
      && db.apps == old(db.apps) && db.webhooks == old(db.webhooks) && db.trace == old(db.trace)
    ensures r.Ok? ==>
      && r.value == appId
      && db.webhooks == old(db.webhooks) + {Hook(body.owner, body.repo, body.provider, appId)}
      && db.trace == old(db.trace) + [
           WebhookAdded(body.owner, body.repo, providerToken, webhookSecret, appId, body.provider),
           AppCreated(appId)]
      && db.apps.Keys == old(db.apps).Keys + {appId}
      && (forall id | id in old(db.apps) :: db.apps[id] == old(db.apps)[id])
    ensures !Bound(old(db.apps), body.provider, body.providerRepoId) && webhookAdded ==>
      && r.Ok?
      && var a := db.apps[appId];
      && a.orgId == orgId
      && a.ownerOrgId == OwnerOrgId(db.orgs, orgName)
      && a.repoName == body.repo && a.owner == body.owner && a.repoUrl == body.repoUrl
      && Binds(a, body.provider, body.providerRepoId)
      && a.description == body.description && a.environment == body.environment
      && a.webhookSecret == webhookSecret
    ensures UniqueBindings(old(db.apps)) ==> UniqueBindings(db.apps)
  {
    var checked := Preview(db.apps, body.provider, body.providerRepoId);
    if checked.Err? {
      return Err(checked.error);
    }
    if !webhookAdded {
      return Err(ProviderError);
    }
    db.webhooks := db.webhooks + {Hook(body.owner, body.repo, body.provider, appId)};
    db.trace := db.trace + [WebhookAdded(body.owner, body.repo, providerToken, webhookSecret, appId, body.provider)];
    var app := App(appId, orgId, OwnerOrgId(db.orgs, orgName), body.description, body.owner,
                   body.provider, body.environment, body.providerRepoId, body.repo, body.repoUrl,
                   webhookSecret);
    if UniqueBindings(db.apps) {
      PreviewGuardsUniqueness(db.apps, app);
    }
    db.apps := db.apps[appId := app];
    db.trace := db.trace + [AppCreated(appId)];
    r := Ok(appId);
  }

  /**
   * The fields an `update` call sets: a present field overwrites the stored
   * one, an absent field keeps it. The id is not among them.
   */
  datatype Patch = Patch(
    orgId: Option<Id>,
    ownerOrgId: Option<Option<Id>>,
    description: Option<string>,
    owner: Option<string>,
    provider: Option<string>,
    environment: Option<map<string, EnvConfig>>,
    providerRepoId: Option<string>,
    repoName: Option<string>,
    repoUrl: Option<string>,
    webhookSecret: Option<Id>)
  {
    /** The patch touches the repository binding. */
    predicate Rebinds() {
      provider.Some? || providerRepoId.Some?
    }
  }

  /** The patch that sets no field. */
  const NoChange: Patch := Patch(None, None, None, None, None, None, None, None, None, None)

  function Pick<T>(current: T, given: Option<T>): (picked: T) {
    if given.Some? then given.value else current
  }

  function Prefer<T>(later: Option<T>, earlier: Option<T>): (preferred: Option<T>) {
    if later.Some? then later else earlier
  }

  /** The shallow merge `{ ...a, ...p }`. */
  function Merge(a: App, p: Patch): (merged: App)
    ensures merged.id == a.id
  {
    App(a.id, Pick(a.orgId, p.orgId), Pick(a.ownerOrgId, p.ownerOrgId),
        Pick(a.description, p.description), Pick(a.owner, p.owner), Pick(a.provider, p.provider),
        Pick(a.environment, p.environment), Pick(a.providerRepoId, p.providerRepoId),
        Pick(a.repoName, p.repoName), Pick(a.repoUrl, p.repoUrl),
        Pick(a.webhookSecret, p.webhookSecret))
  }

  /** `p` then `q` as one patch: where both set a field, `q` wins. */
  function Then(p: Patch, q: Patch): (both: Patch) {
    Patch(Prefer(q.orgId, p.orgId), Prefer(q.ownerOrgId, p.ownerOrgId),
          Prefer(q.description, p.description), Prefer(q.owner, p.owner),
          Prefer(q.provider, p.provider), Prefer(q.environment, p.environment),
          Prefer(q.providerRepoId, p.providerRepoId), Prefer(q.repoName, p.repoName),
          Prefer(q.repoUrl, p.repoUrl), Prefer(q.webhookSecret, p.webhookSecret))
  }

  /** Merging nothing leaves the record as it was. */
  lemma MergeNoChange(a: App)
    ensures Merge(a, NoChange) == a
  {
  }

  /** Merging the same patch twice is merging it once. */
  lemma MergeIdempotent(a: App, p: Patch)
    ensures Merge(Merge(a, p), p) == Merge(a, p)
  {
  }

  /** Two successive merges are one merge in which the later patch wins. */
  lemma MergeThen(a: App, p: Patch, q: Patch)
    ensures Merge(Merge(a, p), q) == Merge(a, Then(p, q))
  {
  }

  /** A patch that leaves the binding alone keeps the record's id and binding. */
  lemma MergeKeepsBinding(a: App, p: Patch)
    requires !p.Rebinds()
    ensures Merge(a, p).id == a.id && Binds(Merge(a, p), a.provider, a.providerRepoId)
  {
  }

  /** Rewriting one record without touching its binding keeps every binding unique. */
  lemma RewriteKeepsUniqueness(apps: map<Id, App>, appId: Id, a: App)
    requires UniqueBindings(apps)
    requires appId in apps
    requires Binds(a, apps[appId].provider, apps[appId].providerRepoId)
    ensures UniqueBindings(apps[appId := a])
  {
  }

  /** Stores the shallow merge of the existing record and `params`. */
  method Update(db: Backend, appId: Id, params: Patch) returns (r: Result<()>)
    requires db.Valid()
    modifies db
    ensures db.Valid()
    ensures db.tasks == old(db.tasks) && db.orgs == old(db.orgs) && db.users == old(db.users)
    ensures db.tokens == old(db.tokens) && db.webhooks == old(db.webhooks)
    ensures appId !in old(db.apps) ==>
      r == Err(ValidationError) && db.apps == old(db.apps) && db.trace == old(db.trace)
    ensures appId in old(db.apps) ==>
      && r == Ok(())
      && db.apps == old(db.apps)[appId := Merge(old(db.apps)[appId], params)]
      && db.trace == old(db.trace) + [AppUpdated(appId)]
    ensures UniqueBindings(old(db.apps)) && !params.Rebinds() ==> UniqueBindings(db.apps)
  {
    var existing := GetAppById(db.apps, appId);
    if existing.None? {
      return Err(ValidationError);
    }
    var merged := Merge(existing.value, params);
    if UniqueBindings(db.apps) && !params.Rebinds() {
      MergeKeepsBinding(existing.value, params);
      RewriteKeepsUniqueness(db.apps, appId, merged);
    }
    db.apps := db.apps[appId := merged];
    db.trace := db.trace + [AppUpdated(appId)];
    r := Ok(());
  }

  /**
   * How lodash's `_.has` and `_.unset` read the name they are given: an own key
   * of the object, or a property path into it. `Nested(env, field)` is the
   * path to `field` inside the configuration of environment `env`.
   */
  datatype EnvPath = Key(name: string) | Nested(env: string, field: string)

  /** A path segment lodash splits out of `a.b`: no `.`, `[` or `]` in it. */
  predicate PlainSegment(s: string) {
    forall i | 0 <= i < |s| :: s[i] != '.' && s[i] != '[' && s[i] != ']'
  }

  /** The index of the first `.` in `s`, or `|s|` when there is none. */
  function FirstDot(s: string): (i: nat)
    ensures i <= |s|
    ensures i < |s| ==> s[i] == '.'
    ensures forall j | 0 <= j < i :: s[j] != '.'
  {
    if s == [] || s[0] == '.' then 0 else 1 + FirstDot(s[1..])
  }

  /**
   * The path lodash makes of `envName` on `environment`: a name that is a key,
   * or that has no `.`, stays one key; a name `a.b` with plain segments is the
   * two-step path. Every other name is read as one key (deeper paths are not
   * part of this model).
   */
  function EnvPathOf(environment: map<string, EnvConfig>, envName: string): (path: EnvPath)
    ensures path.Key? ==> path.name == envName
    ensures path.Nested? ==>
      && envName !in environment
      && envName == path.env + "." + path.field
      && PlainSegment(path.env) && PlainSegment(path.field)
    ensures envName in environment || (forall i | 0 <= i < |envName| :: envName[i] != '.') ==>
      path == Key(envName)
  {
    var i := FirstDot(envName);
    if envName in environment || i == |envName| then Key(envName)
    else if PlainSegment(envName[..i]) && PlainSegment(envName[i + 1..]) then
      assert envName == envName[..i] + "." + envName[i + 1..];
      Nested(envName[..i], envName[i + 1..])
    else Key(envName)
  }

  /** `_.has(environment, path)`: every step of the path is an own key. */
  predicate EnvHas(environment: map<string, EnvConfig>, path: EnvPath) {
    match path
    case Key(name) => name in environment
    case Nested(env, field) => env in environment && field in environment[env]
  }

  /** `_.unset(environment, path)`: the last step is deleted from its parent, if the parent exists. */
  function EnvUnset(environment: map<string, EnvConfig>, path: EnvPath): (unset: map<string, EnvConfig>)
    ensures !EnvHas(environment, path) ==> unset == environment
  {
    match path
    case Key(name) => environment - {name}
    case Nested(env, field) =>
      if env in environment then
        assert field !in environment[env] ==> environment[env] - {field} == environment[env];
        environment[env := environment[env] - {field}]
      else environment
  }

  /** `_.has` finds the path exactly when `_.unset` of it changes the environment. */
  lemma HasExactlyWhenUnsetChanges(environment: map<string, EnvConfig>, path: EnvPath)
    ensures EnvHas(environment, path) <==> EnvUnset(environment, path) != environment
  {
  }

  /** Unsetting a key drops that environment and keeps every other one as it was. */
  lemma UnsetKeyDropsOneEnvironment(environment: map<string, EnvConfig>, name: string)
    ensures EnvUnset(environment, Key(name)).Keys == environment.Keys - {name}
    ensures forall e | e in EnvUnset(environment, Key(name)) :: EnvUnset(environment, Key(name))[e] == environment[e]
  {
  }

  /**
   * Unsetting a two-step path keeps every environment: only the field named by
   * the second step goes, from the configuration named by the first.
   */
  lemma UnsetNestedKeepsEnvironments(environment: map<string, EnvConfig>, env: string, field: string)
    ensures EnvUnset(environment, Nested(env, field)).Keys == environment.Keys
    ensures forall e | e in environment && e != env :: EnvUnset(environment, Nested(env, field))[e] == environment[e]
    ensures env in environment ==> EnvUnset(environment, Nested(env, field))[env] == environment[env] - {field}
  {
  }

  /**
   * A name `a.b` with plain segments that is not itself a key is the path to
   * field `b` of environment `a`: `removeEnv` with `prod.trigger_spec` deletes
   * the tasks filed under that name and removes field `trigger_spec` from
   * `prod`'s configuration, keeping `prod` itself.
   */
  lemma DottedNameIsPath(environment: map<string, EnvConfig>, env: string, field: string)
    requires PlainSegment(env) && PlainSegment(field)
    requires env + "." + field !in environment
    ensures EnvPathOf(environment, env + "." + field) == Nested(env, field)
    ensures EnvHas(environment, Nested(env, field)) <==> env in environment && field in environment[env]
  {
    var name := env + "." + field;
    var i := FirstDot(name);
    assert name[|env|] == '.';
    assert i == |env|;
    assert name[..i] == env && name[i + 1..] == field;
  }

  /**
   * Drops one environment: its tasks first (only when lodash finds the name in
   * the environment), then the whole record is rewritten with the name unset,
   * whether it was found or not.
   */
  method RemoveEnv(db: Backend, appId: Id, envName: string) returns (r: Result<()>)
    requires db.Valid()
    modifies db
    ensures db.Valid()
    ensures db.orgs == old(db.orgs) && db.users == old(db.users)
    ensures db.tokens == old(db.tokens) && db.webhooks == old(db.webhooks)
    ensures appId !in old(db.apps) ==>
      && r == Err(ValidationError)
      && db.apps == old(db.apps) && db.tasks == old(db.tasks) && db.trace == old(db.trace)
    ensures appId in old(db.apps) ==>
      && r == Ok(())
      && var before := old(db.apps)[appId];
      && var path := EnvPathOf(before.environment, envName);
      && db.apps == old(db.apps)[appId := before.(environment := EnvUnset(before.environment, path))]
      && (EnvHas(before.environment, path) ==>
            && db.tasks == DeleteTasks(old(db.tasks), OfEnv(appId, envName))
            && db.trace == old(db.trace) + [TasksDeleted(OfEnv(appId, envName)), AppUpdated(appId)])
      && (!EnvHas(before.environment, path) ==>
            db.tasks == old(db.tasks) && db.trace == old(db.trace) + [AppUpdated(appId)])
    ensures appId in old(db.apps) && envName in old(db.apps)[appId].environment ==>
      && db.apps[appId].environment == old(db.apps)[appId].environment - {envName}
      && db.tasks == DeleteTasks(old(db.tasks), OfEnv(appId, envName))
    ensures appId in old(db.apps) && !EnvHas(old(db.apps)[appId].environment,
                                             EnvPathOf(old(db.apps)[appId].environment, envName)) ==>
      db.apps == old(db.apps)
    ensures UniqueBindings(old(db.apps)) ==> UniqueBindings(db.apps)
  {
    var detail := GetAppById(db.apps, appId);
    if detail.None? {
      return Err(ValidationError);
    }
    var environment := detail.value.environment;
    var path := EnvPathOf(environment, envName);
    if EnvHas(environment, path) {
      db.tasks := DeleteTasks(db.tasks, OfEnv(appId, envName));
      db.trace := db.trace + [TasksDeleted(OfEnv(appId, envName))];
    }
    environment := EnvUnset(environment, path);
    var rewritten := detail.value.(environment := environment);
    if !EnvHas(detail.value.environment, path) {
      assert rewritten == detail.value;
      assert db.apps[appId := rewritten] == db.apps;
    }
    if UniqueBindings(db.apps) {
      RewriteKeepsUniqueness(db.apps, appId, rewritten);
    }
    db.apps := db.apps[appId := rewritten];
    db.trace := db.trace + [AppUpdated(appId)];
    r := Ok(());
  }

  /**
   * Deletes an application: resolves the caller's provider token, deletes the
   * app's tasks, then the record, then the remote webhook. `webhookRemoved` is
   * whether the provider accepted the removal; when it did not, the local
   * deletions stand.
   */
  method Remove(db: Backend, orgId: Id, userId: Id, appId: Id, webhookRemoved: bool)
    returns (r: Result<()>)
    requires db.Valid()
    modifies db
    ensures db.Valid()
    ensures db.orgs == old(db.orgs) && db.users == old(db.users) && db.tokens == old(db.tokens)
    ensures appId !in old(db.apps) ==>
      && r == Err(ValidationError)
      && db.apps == old(db.apps) && db.tasks == old(db.tasks)
      && db.webhooks == old(db.webhooks) && db.trace == old(db.trace)
    ensures appId in old(db.apps) && TokenKey(orgId, userId, old(db.apps)[appId].provider) !in db.tokens ==>
      && r == Err(ValidationError)
      && db.apps == old(db.apps) && db.tasks == old(db.tasks)
      && db.webhooks == old(db.webhooks) && db.trace == old(db.trace)
    ensures appId in old(db.apps) && TokenKey(orgId, userId, old(db.apps)[appId].provider) in db.tokens ==>
      && var a := old(db.apps)[appId];
      && var token := db.tokens[TokenKey(orgId, userId, a.provider)];
      && db.tasks == DeleteTasks(old(db.tasks), OfApp(appId))
      && (forall t | t in db.tasks :: t.appId != appId)
      && db.apps == old(db.apps) - {appId}
      && (webhookRemoved ==>
            && r == Ok(())
            && db.webhooks == old(db.webhooks) - {Hook(a.owner, a.repoName, a.provider, appId)}
            && db.trace == old(db.trace) + [TasksDeleted(OfApp(appId)), AppDeleted(appId),
                                            WebhookRemoved(a.owner, a.repoName, token, appId, a.provider)])
      && (!webhookRemoved ==>
            && r == Err(ProviderError)
            && db.webhooks == old(db.webhooks)
            && db.trace == old(db.trace) + [TasksDeleted(OfApp(appId)), AppDeleted(appId)])
    ensures UniqueBindings(old(db.apps)) ==> UniqueBindings(db.apps)
  {
    var detail := GetAppById(db.apps, appId);
    if detail.None? {
      return Err(ValidationError);
    }
    var a := detail.value;
    var key := TokenKey(orgId, userId, a.provider);
    if key !in db.tokens {
      return Err(ValidationError);
    }
    var token := db.tokens[key];

    db.tasks := DeleteTasks(db.tasks, OfApp(appId));
    db.trace := db.trace + [TasksDeleted(OfApp(appId))];

    db.apps := db.apps - {appId};
    db.trace := db.trace + [AppDeleted(appId)];

    if !webhookRemoved {
      return Err(ProviderError);
    }
    db.webhooks := db.webhooks - {Hook(a.owner, a.repoName, a.provider, appId)};
    db.trace := db.trace + [WebhookRemoved(a.owner, a.repoName, token, appId, a.provider)];
    r := Ok(());
  }

  /** The patch `transfer` hands to `update`: both ownership fields, nothing else. */
  function TransferPatch(targetId: Id): (p: Patch)
    ensures !p.Rebinds()
    ensures forall a: App :: Merge(a, p) == a.(orgId := targetId, ownerOrgId := Some(targetId))
  {
    NoChange.(orgId := Some(targetId), ownerOrgId := Some(Some(targetId)))
  }

  /** Moves an application to the organization named `transferOrgName`. */
  method Transfer(db: Backend, appId: Id, transferOrgName: string) returns (r: Result<()>)
    requires db.Valid()
    modifies db
    ensures db.Valid()
    ensures db.tasks == old(db.tasks) && db.orgs == old(db.orgs) && db.users == old(db.users)
    ensures db.tokens == old(db.tokens) && db.webhooks == old(db.webhooks)
    ensures OwnerOrgId(old(db.orgs), transferOrgName) !in {None, Some("")} ==>
      && var targetId := OwnerOrgId(old(db.orgs), transferOrgName).value;
      && (appId in old(db.apps) ==>
            && r == Ok(())
            && db.apps == old(db.apps)[appId := old(db.apps)[appId].(orgId := targetId, ownerOrgId := Some(targetId))]
            && db.trace == old(db.trace) + [AppUpdated(appId)])
      && (appId !in old(db.apps) ==>
            r == Err(ValidationError) && db.apps == old(db.apps) && db.trace == old(db.trace))
    ensures OwnerOrgId(old(db.orgs), transferOrgName) in {None, Some("")} ==>
      r == Err(ValidationError) && db.apps == old(db.apps) && db.trace == old(db.trace)
    ensures UniqueBindings(old(db.apps)) ==> UniqueBindings(db.apps)
  {
    var target := OwnerOrgId(db.orgs, transferOrgName);
    var targetId := if target.Some? then target.value else "";
    if targetId == "" {
      return Err(ValidationError);
    }
    r := Update(db, appId, TransferPatch(targetId));
  }
}
