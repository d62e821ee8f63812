/**
 * What IntegreSQL.request sends: the HTTP method, the URL built from the
 * base URL, the API version and the operation's path, and the JSON payload;
 * and the paths of the service's routes.
 */
module Requests {
  import opened PyText

  datatype Verb = GET | POST | PUT | DELETE

  /** The `payload` argument: none, or `{"hash": ...}` for initialize. */
  datatype Payload = NoPayload | HashPayload(hash: string)

  datatype HttpRequest = HttpRequest(verb: Verb, url: string, payload: Payload)

  /** `path.lstrip("/")`: drops every leading '/', and only those. */
  function LStripSlashes(path: string): (r: string)
    ensures |r| <= |path| && r == path[|path| - |r|..]
    ensures r == [] || r[0] != '/'
    ensures forall i | 0 <= i < |path| - |r| :: path[i] == '/'
  {
    if path != [] && path[0] == '/' then LStripSlashes(path[1..]) else path
  }

  /** The URL `f"{base_url}/{api_version}/{path}"` with the path stripped. */
  function RequestUrl(baseUrl: string, apiVersion: string, path: string): string {
    baseUrl + "/" + apiVersion + "/" + LStripSlashes(path)
  }

  /** `k` slashes. */
  function Slashes(k: nat): (r: string)
    ensures |r| == k && (k > 0 ==> r[0] == '/')
  {
    if k == 0 then "" else "/" + Slashes(k - 1)
  }

  /** The URL is the prefix `base/version/` followed by the path without its
      leading slashes, however many there were. */
  lemma {:induction false} RequestUrlShape(baseUrl: string, apiVersion: string, path: string, k: nat)
    requires forall i | 0 <= i < |path| :: i < k <==> path[i] == '/'
    requires k <= |path|
    ensures RequestUrl(baseUrl, apiVersion, path) == baseUrl + "/" + apiVersion + "/" + path[k..]
    decreases k
  {
    if k > 0 {
      assert path[0] == '/';
      RequestUrlShape(baseUrl, apiVersion, path[1..], k - 1);
      assert path[1..][k - 1..] == path[k..];
    } else if path != [] {
      assert path[0] != '/';
    }
  }

  lemma {:induction false} StripSlashesPrefix(path: string, k: nat)
    ensures LStripSlashes(Slashes(k) + path) == LStripSlashes(path)
    decreases k
  {
    if k > 0 {
      var t := Slashes(k - 1) + path;
      assert Slashes(k) + path == "/" + t;
      assert ("/" + t)[1..] == t;
      StripSlashesPrefix(path, k - 1);
    } else {
      assert Slashes(k) == [];
      assert Slashes(k) + path == path;
    }
  }

  /** Leading slashes of the path never reach the URL. */
  lemma LeadingSlashesIgnored(baseUrl: string, apiVersion: string, path: string, k: nat)
    ensures RequestUrl(baseUrl, apiVersion, Slashes(k) + path) == RequestUrl(baseUrl, apiVersion, path)
  {
    StripSlashesPrefix(path, k);
  }

  // The routes of the service, as the client spells them.

  const TEMPLATES := "/templates"
  const ADMIN_TEMPLATES := "/admin/templates"

  function TemplatePath(tplHash: string): string {
    TEMPLATES + "/" + tplHash
  }

  function TestsPath(tplHash: string): string {
    TemplatePath(tplHash) + "/tests"
  }

  function TestPath(tplHash: string, dbId: int): string {
    TestsPath(tplHash) + "/" + IntToString(dbId)
  }

  function RecreatePath(tplHash: string, dbId: int): string {
    TestPath(tplHash, dbId) + "/recreate"
  }

  function UnlockPath(tplHash: string, dbId: int): string {
    TestPath(tplHash, dbId) + "/unlock"
  }

  /** A path that starts with exactly one '/'. */
  predicate IsRoute(p: string) {
    |p| > 1 && p[0] == '/' && p[1] != '/'
  }

  /** Every route the client uses starts with exactly one '/'. */
  lemma RoutesAreRoutes(tplHash: string, dbId: int)
    ensures IsRoute(TEMPLATES) && IsRoute(ADMIN_TEMPLATES)
    ensures IsRoute(TemplatePath(tplHash)) && IsRoute(TestsPath(tplHash)) && IsRoute(TestPath(tplHash, dbId))
    ensures IsRoute(RecreatePath(tplHash, dbId)) && IsRoute(UnlockPath(tplHash, dbId))
  {
  }

  /** The URL of a route is the route without its slash, directly under
      `base/version/`. */
  lemma RouteUrl(baseUrl: string, apiVersion: string, route: string)
    requires IsRoute(route)
    ensures RequestUrl(baseUrl, apiVersion, route) == baseUrl + "/" + apiVersion + "/" + route[1..]
  {
  }
}
