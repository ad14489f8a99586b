/** The database tables the credential lifecycle is kept in, one datatype per row. */
module Tables {
  import opened Prelude

  type Uri = string

  const OPENID: Scope := "openid"
  const OFFLINE_ACCESS: Scope := "offline_access"

  datatype ClientStatus = ClientPending | ClientApproved | ClientRejected | ClientDisabled

  datatype UserStatus = UserPending | UserActive | UserDisabled

  /** A relying party. `redirects` holds every URI the registration matches. */
  datatype Client = Client(
    status: ClientStatus,
    codeGrant: bool,
    refreshGrant: bool,
    scopes: set<Scope>,
    redirects: set<Uri>,
    firstParty: bool,
    requireConsent: bool,
    requiresPkce: bool,
    logoutEndpoint: bool)

  /** An account. `entitled` holds the restricted scopes whose rule it satisfies now. */
  datatype User = User(status: UserStatus, entitled: set<Scope>)

  datatype Grant = Grant(scopes: set<Scope>, revokedAt: Option<Time>, version: nat)

  /** A browser session; an anonymous one has no user. */
  datatype Session = Session(user: Option<Id>, createdAt: Time, expiresAt: Time)

  datatype Request = Request(
    client: Id, redirect: Uri, scopes: set<Scope>, challenged: bool,
    expiresAt: Time, consumedAt: Option<Time>)

  datatype Code = Code(
    client: Id, user: Id, session: Id, redirect: Uri, scopes: set<Scope>, challenged: bool,
    authTime: Time, expiresAt: Time, usedAt: Option<Time>)

  datatype Refresh = Refresh(
    family: Id, parent: Option<Id>, client: Id, user: Id, session: Id, scopes: set<Scope>,
    authTime: Time, expiresAt: Time, usedAt: Option<Time>, revokedAt: Option<Time>)

  /** The per-client view of a browser session; `id` is the published `sid`. */
  datatype Oidc = Oidc(id: Id, user: Id, authTime: Time, lastSeenAt: Time, revokedAt: Option<Time>)

  /** A queued back-channel logout. */
  datatype Notice = Notice(client: Id, sid: Id, user: Id)

  /** Unique keys are map keys: grants by (user, client), OIDC sessions by (session, client). */
  datatype Store = Store(
    clients: map<Id, Client>,
    users: map<Id, User>,
    grants: map<(Id, Id), Grant>,
    sessions: map<Id, Session>,
    requests: map<Id, Request>,
    codes: map<Id, Code>,
    refresh: map<Id, Refresh>,
    oidc: map<(Id, Id), Oidc>,
    outbox: multiset<Notice>)

  /** Deployment constants. Scopes outside `restricted` may be authorized by anyone. */
  datatype Config = Config(
    registered: set<Scope>, restricted: set<Scope>, rotate: bool,
    requestTtl: Time, codeTtl: Time, accessTtl: Time, refreshTtl: Time)

  /** The ranges the environment loader enforces (seconds there, milliseconds here). */
  predicate ValidConfig(cfg: Config) {
    && 60_000 <= cfg.requestTtl <= 3_600_000
    && 30_000 <= cfg.codeTtl <= 600_000
    && 60_000 <= cfg.accessTtl <= 86_400_000
    && 3_600_000 <= cfg.refreshTtl <= 31_536_000_000
  }

  /** How long a record can matter to a signed or stored credential. */
  function Retention(cfg: Config): Time {
    if cfg.accessTtl < cfg.refreshTtl then cfg.refreshTtl else cfg.accessTtl
  }

  /** A parked request without its only mutable column. */
  function RequestBirth(row: Request): Request { row.(consumedAt := None) }

  /** A code row with its only mutable column blanked: what never changes about it. */
  function CodeBirth(row: Code): Code { row.(usedAt := None) }

  /** A refresh row with its two mutable columns blanked. */
  function RefreshBirth(row: Refresh): Refresh { row.(usedAt := None, revokedAt := None) }

  predicate SameSid(oidc: map<(Id, Id), Oidc>, j: (Id, Id), k: (Id, Id)) {
    j in oidc && k in oidc && oidc[j].id == oidc[k].id
  }

  /** The primary key of the per-client sessions. */
  ghost predicate UniqueSids(oidc: map<(Id, Id), Oidc>) {
    forall j, k {:trigger SameSid(oidc, j, k)} :: SameSid(oidc, j, k) ==> j == k
  }
}
