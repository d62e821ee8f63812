/**
 * DBInfo: the connection details of a template or test database, taken from
 * the JSON body the service returns, and its `postgresql://` rendering.
 */
module DbInfo {
  import opened Wrappers
  import opened PyText

  /** The parsed response body `{id?, database: {templateHash, config: {...}}}`. */
  datatype ConfigJson = ConfigJson(host: string, port: int, username: string, password: string, database: string)
  datatype DatabaseJson = DatabaseJson(templateHash: string, config: ConfigJson)
  datatype InfoJson = InfoJson(id: Option<int>, database: DatabaseJson)

  datatype DBInfo = DBInfo(
    dbId: Option<int>,
    tplHash: string,
    host: string,
    port: int,
    user: string,
    password: string,
    name: string)

  /** The body a DBInfo is read from (the inverse of FromJson). */
  function ToJson(d: DBInfo): InfoJson {
    InfoJson(d.dbId, DatabaseJson(d.tplHash, ConfigJson(d.host, d.port, d.user, d.password, d.name)))
  }

  /** DBInfo.__init__: every field is copied from the body and nothing is lost;
      a missing `id` gives a DBInfo without database id. */
  function FromJson(info: InfoJson): (d: DBInfo)
    ensures ToJson(d) == info
  {
    var config := info.database.config;
    DBInfo(info.id, info.database.templateHash, config.host, config.port, config.username, config.password, config.database)
  }

  lemma FromJsonOfToJson(d: DBInfo)
    ensures FromJson(ToJson(d)) == d
  {
  }

  /** DBInfo.__str__. */
  function Uri(d: DBInfo): string {
    "postgresql://" + d.user + ":" + d.password + "@" + d.host + ":" + IntToString(d.port) + "/" + d.name
  }

  const SCHEME := "postgresql://"

  /** The index of the first `c` in `s`, or `|s|` when there is none. */
  function IndexOf(s: string, c: char): (i: nat)
    ensures i <= |s|
    ensures i < |s| ==> s[i] == c
    ensures forall j | 0 <= j < i :: s[j] != c
  {
    if s == [] then 0 else if s[0] == c then 0 else 1 + IndexOf(s[1..], c)
  }

  datatype UriParts = UriParts(user: string, password: string, host: string, port: string, name: string)

  /** Splits `s` at the first `c`, dropping it. */
  function SplitAt(s: string, c: char): Option<(string, string)> {
    var i := IndexOf(s, c);
    if i == |s| then None else Some((s[..i], s[i + 1..]))
  }

  /** Splits a connection URI at the first ':' (user), the next '@'
      (password), the next ':' (host) and the next '/' (port). */
  function ParseUri(u: string): Option<UriParts> {
    if |u| < |SCHEME| || u[..|SCHEME|] != SCHEME then None
    else
      match SplitAt(u[|SCHEME|..], ':')
      case None => None
      case Some((user, r1)) =>
        match SplitAt(r1, '@')
        case None => None
        case Some((password, r2)) =>
          match SplitAt(r2, ':')
          case None => None
          case Some((host, r3)) =>
            match SplitAt(r3, '/')
            case None => None
            case Some((port, name)) => Some(UriParts(user, password, host, port, name))
  }

  lemma SplitAtSeparator(a: string, c: char, b: string)
    requires c !in a
    ensures SplitAt(a + [c] + b, c) == Some((a, b))
  {
    var s := a + [c] + b;
    var i := IndexOf(s, c);
    assert s[|a|] == c;
    assert s[..|a|] == a && s[|a| + 1..] == b;
  }

  /** The rendered URI gives back each field, provided the user and host hold
      no ':' and the password no '@' (the rendering does not escape them). */
  lemma UriRoundTrip(d: DBInfo)
    requires ':' !in d.user && '@' !in d.password && ':' !in d.host
    ensures ParseUri(Uri(d)) == Some(UriParts(d.user, d.password, d.host, IntToString(d.port), d.name))
  {
    var port := IntToString(d.port);
    assert '/' !in port by {
      forall k | 0 <= k < |port| ensures port[k] != '/' { }
    }
    var r3 := port + "/" + d.name;
    var r2 := d.host + ":" + r3;
    var r1 := d.password + "@" + r2;
    var r0 := d.user + ":" + r1;
    assert Uri(d) == SCHEME + r0;
    assert Uri(d)[..|SCHEME|] == SCHEME && Uri(d)[|SCHEME|..] == r0;
    SplitAtSeparator(d.user, ':', r1);
    SplitAtSeparator(d.password, '@', r2);
    SplitAtSeparator(d.host, ':', r3);
    SplitAtSeparator(port, '/', d.name);
  }
}
