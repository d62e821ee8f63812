/**
 * How each remote operation reads the status code of its response. Every
 * operation is written as the chain of comparisons the client makes, and its
 * contract ties that chain to the operation's table, given as data: a map
 * from the listed status codes to outcomes, with every other status raising
 * the base error "Received unexpected HTTP status <code>".
 */
module StatusTables {
  import opened Wrappers
  import opened Errors
  import opened PyText
  import opened DbInfo

  // The http.client status codes the client compares against.
  const OK := 200
  const NO_CONTENT := 204
  const BAD_REQUEST := 400
  const NOT_FOUND := 404
  const GONE := 410
  const LOCKED := 423
  const SERVICE_UNAVAILABLE := 503

  /** A response as the transport hands it over: the status code, the body as
      text, the body as bytes, and the body parsed as JSON. */
  datatype Response = Response(status: int, text: string, content: seq<byte>, json: InfoJson)

  /** What a successful initialize observed: the template was registered for
      this caller (with its DBInfo), or another caller is already initializing it. */
  datatype Initialized = Registered(info: DBInfo) | AlreadyInitializing

  function UnexpectedStatus(status: int): Error {
    IntegreSQLError("Received unexpected HTTP status " + IntToString(status))
  }

  /** The generic error names the status and nothing else, and tells statuses apart. */
  lemma UnexpectedStatusDistinct(s1: int, s2: int)
    ensures UnexpectedStatus(s1) == UnexpectedStatus(s2) <==> s1 == s2
  {
    if UnexpectedStatus(s1) == UnexpectedStatus(s2) {
      var prefix := "Received unexpected HTTP status ";
      assert (prefix + IntToString(s1))[|prefix|..] == IntToString(s1);
      assert (prefix + IntToString(s2))[|prefix|..] == IntToString(s2);
      IntToStringInjective(s1, s2);
    }
  }

  function Lookup<T>(table: map<int, Result<T, Error>>, status: int): Result<T, Error> {
    if status in table then table[status] else Err(UnexpectedStatus(status))
  }

  // initialize

  function InitializeTable(json: InfoJson): map<int, Result<Initialized, Error>> {
    map[OK := Ok(Registered(FromJson(json))),
        LOCKED := Ok(AlreadyInitializing),
        SERVICE_UNAVAILABLE := Err(ManagerNotReady)]
  }

  /** Template.initialize: 200 registers (with the body's DBInfo), 423 is the
      benign "already being initialized", 503 is ManagerNotReady. */
  function ClassifyInitialize(rsp: Response): (r: Result<Initialized, Error>)
    ensures r == Lookup(InitializeTable(rsp.json), rsp.status)
    ensures r.Ok? <==> rsp.status in {OK, LOCKED}
    ensures r == Err(UnexpectedStatus(rsp.status)) <==> rsp.status !in {OK, LOCKED, SERVICE_UNAVAILABLE}
  {
    if rsp.status == OK then Ok(Registered(FromJson(rsp.json)))
    else if rsp.status == LOCKED then Ok(AlreadyInitializing)
    else if rsp.status == SERVICE_UNAVAILABLE then Err(ManagerNotReady)
    else Err(UnexpectedStatus(rsp.status))
  }

  // finalize, discard_template and mark_unmodified

  function TemplateTable(): map<int, Result<(), Error>> {
    map[NO_CONTENT := Ok(()),
        NOT_FOUND := Err(TemplateNotFound),
        SERVICE_UNAVAILABLE := Err(ManagerNotReady)]
  }

  /** Template.finalize, IntegreSQL.discard_template and
      Database.mark_unmodified: 204 returns, 404 is TemplateNotFound (with no
      message), 503 is ManagerNotReady. */
  function ClassifyTemplateCall(rsp: Response): (r: Result<(), Error>)
    ensures r == Lookup(TemplateTable(), rsp.status)
    ensures r.Ok? <==> rsp.status == NO_CONTENT
    ensures r == Err(UnexpectedStatus(rsp.status)) <==> rsp.status !in {NO_CONTENT, NOT_FOUND, SERVICE_UNAVAILABLE}
  {
    if rsp.status == NO_CONTENT then Ok(())
    else if rsp.status == NOT_FOUND then Err(TemplateNotFound)
    else if rsp.status == SERVICE_UNAVAILABLE then Err(ManagerNotReady)
    else Err(UnexpectedStatus(rsp.status))
  }

  // open

  function OpenTable(json: InfoJson): map<int, Result<DBInfo, Error>> {
    map[OK := Ok(FromJson(json)),
        NOT_FOUND := Err(TemplateNotFound),
        GONE := Err(DatabaseDiscarded),
        SERVICE_UNAVAILABLE := Err(ManagerNotReady)]
  }

  /** Database.open: 200 leases a database described by the body, 404 is
      TemplateNotFound, 410 DatabaseDiscarded, 503 ManagerNotReady. */
  function ClassifyOpen(rsp: Response): (r: Result<DBInfo, Error>)
    ensures r == Lookup(OpenTable(rsp.json), rsp.status)
    ensures r.Ok? <==> rsp.status == OK
    ensures r == Err(UnexpectedStatus(rsp.status)) <==> rsp.status !in {OK, NOT_FOUND, GONE, SERVICE_UNAVAILABLE}
  {
    if rsp.status == OK then Ok(FromJson(rsp.json))
    else if rsp.status == NOT_FOUND then Err(TemplateNotFound)
    else if rsp.status == GONE then Err(DatabaseDiscarded)
    else if rsp.status == SERVICE_UNAVAILABLE then Err(ManagerNotReady)
    else Err(UnexpectedStatus(rsp.status))
  }

  // destroy and free

  function ReleaseTable(text: string): map<int, Result<(), Error>> {
    map[NO_CONTENT := Ok(()),
        NOT_FOUND := Err(NotFound(text)),
        BAD_REQUEST := Err(BadDatabaseID),
        SERVICE_UNAVAILABLE := Err(ManagerNotReady),
        LOCKED := Err(DatabaseInUse)]
  }

  /** Database.destroy and Database.free: 204 returns, 404 is NotFound with
      the response text, 400 BadDatabaseID, 503 ManagerNotReady, 423
      DatabaseInUse. */
  function ClassifyRelease(rsp: Response): (r: Result<(), Error>)
    ensures r == Lookup(ReleaseTable(rsp.text), rsp.status)
    ensures r.Ok? <==> rsp.status == NO_CONTENT
    ensures r == Err(UnexpectedStatus(rsp.status)) <==>
      rsp.status !in {NO_CONTENT, NOT_FOUND, BAD_REQUEST, SERVICE_UNAVAILABLE, LOCKED}
  {
    if rsp.status == NO_CONTENT then Ok(())
    else if rsp.status == NOT_FOUND then Err(NotFound(rsp.text))
    else if rsp.status == BAD_REQUEST then Err(BadDatabaseID)
    else if rsp.status == SERVICE_UNAVAILABLE then Err(ManagerNotReady)
    else if rsp.status == LOCKED then Err(DatabaseInUse)
    else Err(UnexpectedStatus(rsp.status))
  }

  // reset_all_tracking

  const RESET_FAILED := "failed to reset all tracking: "

  /** IntegreSQL.reset_all_tracking: only 204 succeeds; any other status
      raises the base error with the repr of the raw body. */
  function ClassifyReset(rsp: Response): (r: Result<(), Error>)
    ensures r.Ok? <==> rsp.status == NO_CONTENT
    ensures r.Err? ==> r.error.IntegreSQLError? && |r.error.message| > |RESET_FAILED|
    ensures r.Err? ==> r.error.message[..|RESET_FAILED|] == RESET_FAILED
    ensures r.Err? ==> r.error.message[|RESET_FAILED|..] == BytesRepr(rsp.content)
  {
    if rsp.status == NO_CONTENT then Ok(())
    else Err(IntegreSQLError(RESET_FAILED + BytesRepr(rsp.content)))
  }

  /** A failed reset shows a plain-text body verbatim, between b'...'. */
  lemma ResetShowsBody(rsp: Response)
    requires rsp.status != NO_CONTENT
    requires forall i | 0 <= i < |rsp.content| :: IsPlain(rsp.content[i])
    ensures ClassifyReset(rsp) == Err(IntegreSQLError(RESET_FAILED + "b'" + AsText(rsp.content) + "'"))
  {
    BytesReprOfPlainText(rsp.content);
    assert RESET_FAILED + BytesRepr(rsp.content) == RESET_FAILED + "b'" + AsText(rsp.content) + "'";
  }

  /** TemplateAlreadyInitialized is declared but no operation raises it: a
      423 on initialize returns normally instead. */
  lemma AlreadyInitializedNeverRaised(rsp: Response)
    ensures ClassifyInitialize(rsp) != Err(TemplateAlreadyInitialized)
    ensures ClassifyTemplateCall(rsp) != Err(TemplateAlreadyInitialized)
    ensures ClassifyOpen(rsp) != Err(TemplateAlreadyInitialized)
    ensures ClassifyRelease(rsp) != Err(TemplateAlreadyInitialized)
    ensures ClassifyReset(rsp) != Err(TemplateAlreadyInitialized)
    ensures rsp.status == LOCKED ==> ClassifyInitialize(rsp) == Ok(AlreadyInitializing)
  {
  }

  /** Apart from reset_all_tracking's error, which shows `repr(rsp.content)`
      (`ClassifyReset`), only NotFound, raised by destroy and free, carries
      response data: the response text, verbatim. Every other error of the
      initialize, template, open and release tables is the same for any body. */
  lemma OnlyNotFoundCarriesBody(rsp: Response, other: Response)
    requires other.status == rsp.status
    ensures ClassifyRelease(rsp).Err? && ClassifyRelease(rsp).error.NotFound? ==>
      MessageAttribute(ClassifyRelease(rsp).error) == Some(rsp.text) && Text(ClassifyRelease(rsp).error) == rsp.text
    ensures ClassifyRelease(rsp).Err? && !ClassifyRelease(rsp).error.NotFound? ==> ClassifyRelease(other) == ClassifyRelease(rsp)
    ensures ClassifyTemplateCall(other) == ClassifyTemplateCall(rsp)
    ensures ClassifyOpen(rsp).Err? ==> ClassifyOpen(other) == ClassifyOpen(rsp)
    ensures ClassifyInitialize(rsp).Err? ==> ClassifyInitialize(other) == ClassifyInitialize(rsp)
  {
  }
}
