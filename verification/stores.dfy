/**
 * The tables the services read and write (applications, tasks, organizations,
 * users, provider tokens), the remote webhook registry, and the store
 * operations the services call on them. Persistence itself is abstract: each
 * table is an in-memory collection and each store call is a function on it.
 */
module Stores {
  import opened Wrappers

  type Id = string

  /** One environment's configuration; its contents are opaque to the services. */
  type EnvConfig = map<string, string>

  /** An application record: one hosted repository bound to an organization. */
  datatype App = App(
    id: Id,
    orgId: Id,                  // the organization that currently owns the app
    ownerOrgId: Option<Id>,     // absent when the owner org could not be resolved
    description: string,
    owner: string,              // the repository owner on the provider
    provider: string,
    environment: map<string, EnvConfig>,
    providerRepoId: string,
    repoName: string,
    repoUrl: string,
    webhookSecret: Id)

  /** `a` is the application bound to repository `providerRepoId` of `provider`. */
  predicate Binds(a: App, provider: string, providerRepoId: string) {
    a.provider == provider && a.providerRepoId == providerRepoId
  }

  /** Some application is bound to the repository (the lookup `getAppByProvider`). */
  predicate Bound(apps: map<Id, App>, provider: string, providerRepoId: string)
    ensures Bound(apps, provider, providerRepoId) && UniqueBindings(apps) ==>
      exists id | id in apps :: Binds(apps[id], provider, providerRepoId) &&
        forall other | other in apps && Binds(apps[other], provider, providerRepoId) :: other == id
  {
    exists id | id in apps :: Binds(apps[id], provider, providerRepoId)
  }

  /** At most one application binds any (provider, provider_repo_id) pair. */
  predicate UniqueBindings(apps: map<Id, App>) {
    forall i, j | i in apps && j in apps && i != j ::
      !Binds(apps[j], apps[i].provider, apps[i].providerRepoId)
  }

  /** Every record is stored under its own id. */
  predicate KeyedById(apps: map<Id, App>) {
    forall id | id in apps :: apps[id].id == id
  }

  /** A task row; its run state and result are opaque here. */
  datatype Task = Task(id: Id, appId: Id, envName: string)

  /** What a task deletion targets: all tasks of an app, or those of one of its environments. */
  datatype TaskScope = OfApp(appId: Id) | OfEnv(appId: Id, envName: string)

  predicate InScope(t: Task, scope: TaskScope) {
    t.appId == scope.appId && (scope.OfEnv? ==> t.envName == scope.envName)
  }

  /**
   * The task store's `deleteByAppId` (scope OfApp) and `deleteByAppIdAndEnvName`
   * (scope OfEnv): every task in scope goes, every other task stays, in order.
   */
  function DeleteTasks(tasks: seq<Task>, scope: TaskScope): (kept: seq<Task>)
    ensures forall t :: t in kept <==> t in tasks && !InScope(t, scope)
    ensures (forall t | t in tasks :: !InScope(t, scope)) ==> kept == tasks
  {
    if tasks == [] then []
    else if InScope(tasks[0], scope) then DeleteTasks(tasks[1..], scope)
    else [tasks[0]] + DeleteTasks(tasks[1..], scope)
  }

  /**
   * Deletion works row by row: on a table split in two it is the deletion on
   * each part, joined, so the surviving tasks keep their relative order.
   */
  lemma {:induction false} DeleteTasksSplits(front: seq<Task>, back: seq<Task>, scope: TaskScope)
    ensures DeleteTasks(front + back, scope) == DeleteTasks(front, scope) + DeleteTasks(back, scope)
  {
    if front == [] {
      assert front + back == back;
    } else {
      var whole := front + back;
      assert whole[0] == front[0] && whole[1..] == front[1..] + back;
      DeleteTasksSplits(front[1..], back, scope);
      var keptFront := DeleteTasks(front[1..], scope);
      var keptBack := DeleteTasks(back, scope);
      if !InScope(front[0], scope) {
        assert [front[0]] + (keptFront + keptBack) == ([front[0]] + keptFront) + keptBack;
      }
    }
  }

  /**
   * Deleting one environment's tasks and then all of the app's tasks leaves the
   * same task table as deleting all of the app's tasks at once.
   */
  lemma {:induction false} DeleteEnvThenApp(tasks: seq<Task>, appId: Id, envName: string)
    ensures DeleteTasks(DeleteTasks(tasks, OfEnv(appId, envName)), OfApp(appId))
         == DeleteTasks(tasks, OfApp(appId))
  {
    if tasks != [] {
      DeleteEnvThenApp(tasks[1..], appId, envName);
      if !InScope(tasks[0], OfEnv(appId, envName)) {
        var rest := DeleteTasks(tasks[1..], OfEnv(appId, envName));
        assert ([tasks[0]] + rest)[1..] == rest;
      }
    }
  }

  /** A member's role inside an organization. */
  datatype Role = Owner | Admin | Member

  /**
   * A row of the organization table: one user's membership of the organization
   * `name`; the row with role Owner is the organization's owner record.
   */
  datatype OrgRow = OrgRow(id: Id, userId: Id, name: string, role: Role)

  /** The organization store's lookups `getOwnerOrgByName` and `getOrgById`. */
  datatype OrgQuery = OwnerOrgNamed(name: string) | WithId(id: Id)

  predicate Answers(o: OrgRow, q: OrgQuery) {
    match q
    case OwnerOrgNamed(name) => o.name == name && o.role == Owner
    case WithId(id) => o.id == id
  }

  /** The first row that answers the query, if any. */
  function FindOrg(orgs: seq<OrgRow>, q: OrgQuery): (found: Option<OrgRow>)
    ensures found.None? <==> forall o | o in orgs :: !Answers(o, q)
    ensures found.Some? ==> exists i | 0 <= i < |orgs| ::
      orgs[i] == found.value && Answers(orgs[i], q) && forall j | 0 <= j < i :: !Answers(orgs[j], q)
  {
    if orgs == [] then None
    else if Answers(orgs[0], q) then Some(orgs[0])
    else
      var found := FindOrg(orgs[1..], q);
      if found.Some? then
        ghost var i :| 0 <= i < |orgs[1..]| && orgs[1..][i] == found.value && Answers(orgs[1..][i], q)
                       && forall j | 0 <= j < i :: !Answers(orgs[1..][j], q);
        assert orgs[i + 1] == found.value;
        found
      else
        found
  }

  /** No two owner records carry the same organization name. */
  predicate OwnerNamesUnique(orgs: seq<OrgRow>) {
    forall i, j | 0 <= i < j < |orgs| ::
      orgs[i].role == Owner && orgs[j].role == Owner ==> orgs[i].name != orgs[j].name
  }

  /** A registered account; `password` is the digest of the password chosen at registration. */
  datatype User = User(id: Id, username: string, password: string)

  /** The key of the provider-token table: a user's credential for a provider, within an org. */
  datatype TokenKey = TokenKey(orgId: Id, userId: Id, provider: string)

  /** A webhook registered on the provider for an application's repository. */
  datatype Hook = Hook(owner: string, repo: string, provider: string, appId: Id)

  /** The store writes and remote calls, in the order they happened. */
  datatype Effect =
    | WebhookAdded(owner: string, repo: string, token: string, secret: Id, appId: Id, provider: string)
    | AppCreated(appId: Id)
    | AppUpdated(appId: Id)
    | TasksDeleted(scope: TaskScope)
    | AppDeleted(appId: Id)
    | WebhookRemoved(owner: string, repoName: string, token: string, appId: Id, provider: string)
    | UserCreated(userId: Id)
    | OrgCreated(orgId: Id)

  /** All the state the two services touch. */
  class Backend {
    var apps: map<Id, App>
    var tasks: seq<Task>
    var orgs: seq<OrgRow>
    var users: map<string, User>       // keyed by username
    var tokens: map<TokenKey, string>  // read only by this core
    var webhooks: set<Hook>
    var trace: seq<Effect>

    /** Empty tables; `tokens` are the provider credentials already on file. */
    constructor(tokens: map<TokenKey, string>)
      ensures Valid()
      ensures apps == map[] && tasks == [] && orgs == [] && users == map[]
      ensures this.tokens == tokens && webhooks == {} && trace == []
    {
      apps := map[];
      tasks := [];
      orgs := [];
      users := map[];
      this.tokens := tokens;
      webhooks := {};
      trace := [];
    }

    /** Records are keyed by their ids, and no task outlives its application. */
    ghost predicate Valid()
      reads this
    {
      && KeyedById(apps)
      && (forall t | t in tasks :: t.appId in apps)
      && (forall name | name in users :: users[name].username == name)
    }
  }
}
