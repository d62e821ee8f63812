/**
 * The client objects: IntegreSQL, which holds the base URL,
 * the API version, the lazily created transport session and the current
 * template identity; Template, which drives initialize/finalize/discard; and
 * Database, which leases a test database and hands it back.
 *
 * The transport is outside the model: an operation returns the request it
 * issues and is given, as the parameter `rsp`, the response that request
 * received.
 */
module Client {
  import opened Wrappers
  import opened Errors
  import opened PathOrder
  import opened TemplateHashing
  import opened DbInfo
  import opened StatusTables
  import opened Requests

  const ENV_BASE_URL := "INTEGRESQL_CLIENT_BASE_URL"
  const ENV_API_VERSION := "INTEGRESQL_CLIENT_API_VERSION"
  const DEFAULT_BASE_URL := "http://integresql:5000/api"
  const DEFAULT_API_VERSION := "v1"

  /** An explicit setting, unless it is missing or empty; then the
      environment variable, and the default when that is unset too. */
  function Setting(explicit: Option<string>, env: map<string, string>, key: string, default: string): (r: string)
    ensures explicit.Some? && explicit.value != "" ==> r == explicit.value
    ensures (explicit.None? || explicit.value == "") && key in env ==> r == env[key]
    ensures (explicit.None? || explicit.value == "") && key !in env ==> r == default
  {
    if explicit.Some? && explicit.value != "" then explicit.value
    else if key in env then env[key]
    else default
  }

  /** The template identity a client holds: a computed TemplateHash, or a
      name given as `tpl_name`. */
  datatype Identity = Hashed(th: TemplateHash) | Named(name: string)

  /** How an identity is written into a path or a payload (`str(...)` in an
      f-string); a missing identity is written "None". */
  function IdentityText(id: Option<Identity>): (r: string)
    ensures id.Some? && id.value.Hashed? ==> r == id.value.th.hash
    ensures id.Some? && id.value.Named? ==> r == id.value.name
    ensures id.None? ==> r == "None"
  {
    match id
    case None => "None"
    case Some(Hashed(th)) => th.hash
    case Some(Named(n)) => n
  }

  /** What the `tpl_hash` setter (and the constructor) accept. */
  datatype TemplateSource = Precomputed(th: TemplateHash) | FromPaths(arg: TemplateArg)

  /** `if tpl_directory:`: an empty list is false, anything else true. */
  predicate IsTruthy(src: TemplateSource) {
    !(src.FromPaths? && src.arg.PathList? && src.arg.paths == [])
  }

  /** The `db_id` argument of destroy, free and mark_unmodified: an id (or
      None), or a DBInfo whose id is used. */
  datatype DbRef = ById(id: Option<int>) | ByInfo(info: DBInfo)

  function ResolveDbId(db: DbRef): (r: Option<int>)
    ensures db.ByInfo? ==> r == db.info.dbId
    ensures db.ById? ==> r == db.id
  {
    match db
    case ById(id) => id
    case ByInfo(info) => info.dbId
  }

  const INVALID_DATABASE_ID := IntegreSQLError("Invalid database id")

  /** A `requests.Session`. */
  class Session {
    var closed: bool

    constructor ()
      ensures !closed
    {
      closed := false;
    }

    method Close()
      modifies this
      ensures closed
    {
      closed := true;
    }
  }

  /** IntegreSQL: the client session. */
  class IntegreSQL {
    const baseUrl: string
    const apiVersion: string
    var connection: Session?
    var tplHash: Option<Identity>

    /** The constructor up to the `tpl_directory` argument, which
        `WithTemplate` handles. */
    constructor (baseUrl: Option<string>, apiVersion: Option<string>, tplName: Option<string>, env: map<string, string>)
      ensures this.baseUrl == Setting(baseUrl, env, ENV_BASE_URL, DEFAULT_BASE_URL)
      ensures this.apiVersion == Setting(apiVersion, env, ENV_API_VERSION, DEFAULT_API_VERSION)
      ensures connection == null
      ensures tplHash == if tplName.Some? then Some(Named(tplName.value)) else None
    {
      this.baseUrl := Setting(baseUrl, env, ENV_BASE_URL, DEFAULT_BASE_URL);
      this.apiVersion := Setting(apiVersion, env, ENV_API_VERSION, DEFAULT_API_VERSION);
      connection := null;
      tplHash := if tplName.Some? then Some(Named(tplName.value)) else None;
    }

    /** The full constructor: a true `tpl_directory` goes through the
        `tpl_hash` setter, whose failure is the constructor's. */
    static method WithTemplate(
      tplDirectory: TemplateSource, baseUrl: Option<string>, apiVersion: Option<string>, tplName: Option<string>,
      env: map<string, string>, md5: Md5Fn, fs: Tree, listings: map<Path, seq<Path>>)
      returns (r: Result<IntegreSQL, PathError>)
      requires tplDirectory.FromPaths? ==> ListingsCover(fs, Roots(tplDirectory.arg), listings)
      ensures r.Ok? ==> fresh(r.value) && r.value.connection == null
      ensures r.Ok? ==> r.value.baseUrl == Setting(baseUrl, env, ENV_BASE_URL, DEFAULT_BASE_URL)
      ensures r.Ok? ==> r.value.apiVersion == Setting(apiVersion, env, ENV_API_VERSION, DEFAULT_API_VERSION)
      ensures !IsTruthy(tplDirectory) ==> r.Ok?
      ensures r.Ok? && !IsTruthy(tplDirectory) ==>
        r.value.tplHash == if tplName.Some? then Some(Named(tplName.value)) else None
      ensures IsTruthy(tplDirectory) ==> match tplDirectory
        case Precomputed(th) => r.Ok? && r.value.tplHash == Some(Hashed(th))
        case FromPaths(arg) =>
          match ExpectedTemplateHash(md5, fs, Roots(arg), listings)
          case Ok(th) => r.Ok? && r.value.tplHash == Some(Hashed(th))
          case Err(e) => r == Err(e)
    {
      var c := new IntegreSQL(baseUrl, apiVersion, tplName, env);
      if IsTruthy(tplDirectory) {
        var outcome := c.SetTplHash(tplDirectory, md5, fs, listings);
        if outcome.Err? {
          return Err(outcome.error);
        }
      }
      r := Ok(c);
    }

    /** The `tpl_hash` setter: a TemplateHash is stored as it is, anything
        else is hashed first; when hashing raises, nothing changes. */
    method SetTplHash(value: TemplateSource, md5: Md5Fn, fs: Tree, listings: map<Path, seq<Path>>)
      returns (r: Result<(), PathError>)
      requires value.FromPaths? ==> ListingsCover(fs, Roots(value.arg), listings)
      modifies this
      ensures connection == old(connection)
      ensures match value
        case Precomputed(th) => r.Ok? && tplHash == Some(Hashed(th))
        case FromPaths(arg) =>
          match ExpectedTemplateHash(md5, fs, Roots(arg), listings)
          case Ok(th) => r.Ok? && tplHash == Some(Hashed(th))
          case Err(e) => r == Err(e) && tplHash == old(tplHash)
    {
      match value
      case Precomputed(th) =>
        tplHash := Some(Hashed(th));
        r := Ok(());
      case FromPaths(arg) =>
        var th := NewTemplateHash(md5, fs, arg, listings);
        if th.Err? {
          return Err(th.error);
        }
        tplHash := Some(Hashed(th.value));
        r := Ok(());
    }

    /** The `connection` property: created on first use, then reused. */
    method Connection() returns (s: Session)
      modifies this
      ensures connection == s && tplHash == old(tplHash)
      ensures old(connection) != null ==> s == old(connection)
      ensures old(connection) == null ==> fresh(s) && !s.closed
    {
      if connection == null {
        connection := new Session();
      }
      s := connection;
    }

    /** What every request leaves behind: the identity untouched, and a
        session that is the old one, or a new one when there was none. */
    twostate predicate Requested()
      reads this
    {
      tplHash == old(tplHash) &&
      connection != null &&
      (old(connection) != null ==> connection == old(connection)) &&
      (old(connection) == null ==> fresh(connection))
    }

    /** IntegreSQL.request: the request sent over the session for `path`. */
    method Request(verb: Verb, path: string, payload: Payload) returns (req: HttpRequest)
      modifies this
      ensures req == HttpRequest(verb, RequestUrl(baseUrl, apiVersion, path), payload)
      ensures Requested()
    {
      var session := Connection();
      req := HttpRequest(verb, RequestUrl(baseUrl, apiVersion, path), payload);
    }

    /** IntegreSQL.discard_template. */
    method DiscardTemplate(tpl: Option<Identity>, rsp: Response) returns (req: HttpRequest, r: Result<(), Error>)
      modifies this
      ensures req == HttpRequest(DELETE, RequestUrl(baseUrl, apiVersion, TemplatePath(IdentityText(tpl))), NoPayload)
      ensures r == ClassifyTemplateCall(rsp)
      ensures Requested()
    {
      req := Request(DELETE, TemplatePath(IdentityText(tpl)), NoPayload);
      r := ClassifyTemplateCall(rsp);
    }

    /** IntegreSQL.reset_all_tracking. */
    method ResetAllTracking(rsp: Response) returns (req: HttpRequest, r: Result<(), Error>)
      modifies this
      ensures req == HttpRequest(DELETE, RequestUrl(baseUrl, apiVersion, ADMIN_TEMPLATES), NoPayload)
      ensures r == ClassifyReset(rsp)
      ensures Requested()
    {
      req := Request(DELETE, ADMIN_TEMPLATES, NoPayload);
      r := ClassifyReset(rsp);
    }

    /** IntegreSQL.get_template (and IntegreSQL.__enter__). */
    method GetTemplate() returns (t: Template)
      ensures fresh(t) && t.client == this && t.dbinfo == None
    {
      t := new Template(this);
    }

    /** IntegreSQL.close (and IntegreSQL.__exit__): forgets the identity and
        closes and drops the session. */
    method Close()
      modifies this, connection
      ensures tplHash == None && connection == null
      ensures old(connection) != null ==> old(connection).closed
    {
      tplHash := None;
      if connection != null {
        connection.Close();
        connection := null;
      }
    }
  }

  /** Template. */
  class Template {
    const client: IntegreSQL
    var dbinfo: Option<DBInfo>

    constructor (client: IntegreSQL)
      ensures this.client == client && dbinfo == None
    {
      this.client := client;
      dbinfo := None;
    }

    /** Template.initialize: the DBInfo is stored only on 200; on 423 the
        template returns normally with its DBInfo as it was. */
    method Initialize(rsp: Response) returns (req: HttpRequest, r: Result<Initialized, Error>)
      modifies this, client
      ensures req == HttpRequest(POST, RequestUrl(client.baseUrl, client.apiVersion, TEMPLATES),
                                 HashPayload(IdentityText(old(client.tplHash))))
      ensures r == ClassifyInitialize(rsp)
      ensures dbinfo == if r.Ok? && r.value.Registered? then Some(r.value.info) else old(dbinfo)
      ensures client.Requested()
    {
      req := client.Request(POST, TEMPLATES, HashPayload(IdentityText(client.tplHash)));
      r := ClassifyInitialize(rsp);
      if r.Ok? && r.value.Registered? {
        dbinfo := Some(r.value.info);
      }
    }

    /** Template.finalize. */
    method Finalize(rsp: Response) returns (req: HttpRequest, r: Result<(), Error>)
      modifies client
      ensures req == HttpRequest(PUT, RequestUrl(client.baseUrl, client.apiVersion,
                                                 TemplatePath(IdentityText(old(client.tplHash)))), NoPayload)
      ensures r == ClassifyTemplateCall(rsp)
      ensures client.Requested()
    {
      req := client.Request(PUT, TemplatePath(IdentityText(client.tplHash)), NoPayload);
      r := ClassifyTemplateCall(rsp);
    }

    /** Template.discard: discard_template with the client's identity. */
    method Discard(rsp: Response) returns (req: HttpRequest, r: Result<(), Error>)
      modifies client
      ensures req == HttpRequest(DELETE, RequestUrl(client.baseUrl, client.apiVersion,
                                                    TemplatePath(IdentityText(old(client.tplHash)))), NoPayload)
      ensures r == ClassifyTemplateCall(rsp)
      ensures client.Requested()
    {
      req, r := client.DiscardTemplate(client.tplHash, rsp);
    }

    /** Template.get_database. */
    method GetDatabase() returns (db: Database)
      ensures fresh(db) && db.client == client && db.dbinfo == None
    {
      db := new Database(client);
    }

    /** Template.__enter__: the DBInfo stored by initialize, if any. */
    method Enter() returns (info: Option<DBInfo>)
      ensures info == dbinfo
    {
      info := dbinfo;
    }

    /** Template.__exit__: finalizes the template. */
    method Exit(rsp: Response) returns (req: HttpRequest, r: Result<(), Error>)
      modifies client
      ensures req == HttpRequest(PUT, RequestUrl(client.baseUrl, client.apiVersion,
                                                 TemplatePath(IdentityText(old(client.tplHash)))), NoPayload)
      ensures r == ClassifyTemplateCall(rsp)
      ensures client.Requested()
    {
      req, r := Finalize(rsp);
    }
  }

  /** Database. */
  class Database {
    const client: IntegreSQL
    var dbinfo: Option<DBInfo>

    constructor (client: IntegreSQL)
      ensures this.client == client && dbinfo == None
    {
      this.client := client;
      dbinfo := None;
    }

    /** Database.destroy: an id that resolves to None raises before any
        request; otherwise the database is recreated from the template. */
    method Destroy(db: DbRef, rsp: Response) returns (sent: Option<HttpRequest>, r: Result<(), Error>)
      modifies client
      ensures ResolveDbId(db).None? ==> sent == None && r == Err(INVALID_DATABASE_ID) && unchanged(client)
      ensures ResolveDbId(db).Some? ==>
        sent == Some(HttpRequest(POST, RequestUrl(client.baseUrl, client.apiVersion,
                                                  RecreatePath(IdentityText(old(client.tplHash)), ResolveDbId(db).value)), NoPayload)) &&
        r == ClassifyRelease(rsp) && client.Requested()
    {
      var id := ResolveDbId(db);
      if id.None? {
        return None, Err(INVALID_DATABASE_ID);
      }
      var req := client.Request(POST, RecreatePath(IdentityText(client.tplHash), id.value), NoPayload);
      sent, r := Some(req), ClassifyRelease(rsp);
    }

    /** Database.free: as destroy, but the database keeps its contents. */
    method Free(db: DbRef, rsp: Response) returns (sent: Option<HttpRequest>, r: Result<(), Error>)
      modifies client
      ensures ResolveDbId(db).None? ==> sent == None && r == Err(INVALID_DATABASE_ID) && unchanged(client)
      ensures ResolveDbId(db).Some? ==>
        sent == Some(HttpRequest(POST, RequestUrl(client.baseUrl, client.apiVersion,
                                                  UnlockPath(IdentityText(old(client.tplHash)), ResolveDbId(db).value)), NoPayload)) &&
        r == ClassifyRelease(rsp) && client.Requested()
    {
      var id := ResolveDbId(db);
      if id.None? {
        return None, Err(INVALID_DATABASE_ID);
      }
      var req := client.Request(POST, UnlockPath(IdentityText(client.tplHash), id.value), NoPayload);
      sent, r := Some(req), ClassifyRelease(rsp);
    }

    /** Database.open: leases a test database. */
    method Open(rsp: Response) returns (req: HttpRequest, r: Result<DBInfo, Error>)
      modifies client
      ensures req == HttpRequest(GET, RequestUrl(client.baseUrl, client.apiVersion,
                                                 TestsPath(IdentityText(old(client.tplHash)))), NoPayload)
      ensures r == ClassifyOpen(rsp)
      ensures client.Requested()
    {
      req := client.Request(GET, TestsPath(IdentityText(client.tplHash)), NoPayload);
      r := ClassifyOpen(rsp);
    }

    /** Database.mark_unmodified. */
    method MarkUnmodified(db: DbRef, rsp: Response) returns (sent: Option<HttpRequest>, r: Result<(), Error>)
      modifies client
      ensures ResolveDbId(db).None? ==> sent == None && r == Err(INVALID_DATABASE_ID) && unchanged(client)
      ensures ResolveDbId(db).Some? ==>
        sent == Some(HttpRequest(DELETE, RequestUrl(client.baseUrl, client.apiVersion,
                                                    TestPath(IdentityText(old(client.tplHash)), ResolveDbId(db).value)), NoPayload)) &&
        r == ClassifyTemplateCall(rsp) && client.Requested()
    {
      var id := ResolveDbId(db);
      if id.None? {
        return None, Err(INVALID_DATABASE_ID);
      }
      var req := client.Request(DELETE, TestPath(IdentityText(client.tplHash), id.value), NoPayload);
      sent, r := Some(req), ClassifyTemplateCall(rsp);
    }

    /** Database.__enter__: opens a database and keeps its DBInfo; when open
        raises, nothing is stored. */
    method Enter(rsp: Response) returns (req: HttpRequest, r: Result<DBInfo, Error>)
      modifies this, client
      ensures req == HttpRequest(GET, RequestUrl(client.baseUrl, client.apiVersion,
                                                 TestsPath(IdentityText(old(client.tplHash)))), NoPayload)
      ensures r == ClassifyOpen(rsp)
      ensures dbinfo == if r.Ok? then Some(r.value) else old(dbinfo)
      ensures client.Requested()
    {
      req, r := Open(rsp);
      if r.Ok? {
        dbinfo := Some(r.value);
      }
    }

    /** Database.__exit__: destroys the database __enter__ opened (a `with`
        block only exits after __enter__ returned). */
    method Exit(rsp: Response) returns (sent: Option<HttpRequest>, r: Result<(), Error>)
      requires dbinfo.Some?
      modifies client
      ensures dbinfo.value.dbId.None? ==> sent == None && r == Err(INVALID_DATABASE_ID) && unchanged(client)
      ensures dbinfo.value.dbId.Some? ==>
        sent == Some(HttpRequest(POST, RequestUrl(client.baseUrl, client.apiVersion,
                                                  RecreatePath(IdentityText(old(client.tplHash)), dbinfo.value.dbId.value)), NoPayload)) &&
        r == ClassifyRelease(rsp) && client.Requested()
    {
      sent, r := Destroy(ById(dbinfo.value.dbId), rsp);
    }
  }

  /** A template lifecycle as callers drive it: another caller is already
      initializing the template (423), so this one gets no DBInfo; then the
      template is finalized and the client closed. */
  method TemplateLifecycle(info: InfoJson) {
    var client := new IntegreSQL(None, None, Some("tpl"), map[]);
    var template := client.GetTemplate();
    var _, init := template.Initialize(Response(LOCKED, "", [], info));
    assert init == Ok(AlreadyInitializing) && template.dbinfo == None;
    var _, done := template.Finalize(Response(NO_CONTENT, "", [], info));
    assert done.Ok?;
    client.Close();
    assert client.tplHash == None && client.connection == null;
  }

  /** A lease: a database is leased and destroyed, destroyed again after the
      server forgot it, and a database without an id is refused locally. */
  method LeaseLifecycle(info: InfoJson)
    requires info.id.Some?
  {
    var client := new IntegreSQL(None, None, Some("tpl"), map[]);
    var db := new Database(client);
    var _, leased := db.Enter(Response(OK, "", [], info));
    assert leased == Ok(FromJson(info)) && db.dbinfo == Some(FromJson(info));
    var sent, released := db.Exit(Response(NO_CONTENT, "", [], info));
    assert sent.Some? && released == Ok(());
    sent, released := db.Exit(Response(NOT_FOUND, "no such database", [], info));
    assert released == Err(NotFound("no such database"));

    var missing := new Database(client);
    sent, released := missing.Destroy(ById(None), Response(NO_CONTENT, "", [], info));
    assert sent == None && released == Err(INVALID_DATABASE_ID);
  }
}
