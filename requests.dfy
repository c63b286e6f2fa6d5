/** The requests the client sends, as values: the verb, the URL, the
    header map of the request configuration and the body. The endpoints
    and paging parameters are the constants of the initial state. */
module Requests {
  import opened Seqs
  import opened Text

  type Headers = map<string, string>

  datatype Verb = Get | Post | Delete

  datatype Body =
    | NoBody
      /** `{query, headers}`: the fixed `allUsers` query of the GraphQL
          fetch, with the header map sent inside the body. */
    | AllUsersQuery(headers: Headers)
      /** `{username, password}` posted to the token endpoint. */
    | Credentials(username: string, password: string)

  datatype Request = Request(verb: Verb, url: string, headers: Headers, body: Body)

  const Domain: string := "http://localhost:3333"
  const UsersEndpoint: string := "/api/users/"
  const ProjectsEndpoint: string := "/api/projects/"
  const TodosEndpoint: string := "/api/todos/"
  const GraphQLEndpoint: string := "/graphql/"
  const TokenEndpoint: string := "/api/token/"
  const Limit: int := 1000
  const Offset: int := 0

  /** `${domain}${endpoint}${id}`: the URL a delete is sent to. */
  function ItemUrl(domain: string, endpoint: string, id: int): (r: string)
    ensures |domain + endpoint| < |r| && r[..|domain + endpoint|] == domain + endpoint
    ensures IsIntegerText(r[|domain + endpoint|..])
  {
    domain + endpoint + IntToString(id)
  }

  /** `${domain}${endpoint}?limit=${limit}&offset=${offset}/`: the URL of a
      paged list, with the slash after the offset that the code writes. */
  function ListUrl(domain: string, endpoint: string, limit: int, offset: int): (r: string)
    ensures |domain + endpoint + "?limit="| < |r| && r[..|domain + endpoint + "?limit="|] == domain + endpoint + "?limit="
    ensures r[|r| - 1] == '/'
  {
    domain + endpoint + "?limit=" + IntToString(limit) + "&offset=" + IntToString(offset) + "/"
  }

  /** The id a router reads from the path segment that follows `prefix`. */
  function PathId(url: string, prefix: string): Option<int> {
    if |prefix| <= |url| && url[..|prefix|] == prefix && IsIntegerText(url[|prefix|..])
    then Some(Number(url[|prefix|..]))
    else None
  }

  /** The raw `limit` and `offset` values as a query-string reader splits
      them after `prefix`: the text after `?limit=` up to the first `&`,
      then the text after `offset=` up to the end. */
  function QueryValues(url: string, prefix: string): Option<(string, string)> {
    var lead := prefix + "?limit=";
    if |url| < |lead| || url[..|lead|] != lead then None
    else
      var rest := url[|lead|..];
      var k := IndexOf(rest, "&");
      if k == -1 then None
      else
        var tail := rest[k + 1..];
        if |tail| < 7 || tail[..7] != "offset=" then None
        else Some((rest[..k], tail[7..]))
  }

  /** The delete URL names the entity: its last segment reads back as the id. */
  lemma ItemUrlRoundTrip(domain: string, endpoint: string, id: int)
    ensures PathId(ItemUrl(domain, endpoint, id), domain + endpoint) == Some(id)
  {
    var url := ItemUrl(domain, endpoint, id);
    assert url[|domain + endpoint|..] == IntToString(id);
    IntToStringRoundTrip(id);
  }

  lemma NoAmpersandInInteger(i: int)
    ensures forall k :: 0 <= k < |IntToString(i)| ==> IntToString(i)[k] != '&'
  {
    var s := IntToString(i);
    if !AllDigits(s) {
      forall k | 0 < k < |s| ensures s[k] != '&' {
        assert s[k] == s[1..][k - 1];
      }
    }
  }

  /** The first `&` of `a + "&" + b` is the one after `a` when `a` has none. */
  lemma FirstAmpersand(a: string, b: string)
    requires forall k :: 0 <= k < |a| ==> a[k] != '&'
    ensures IndexOf(a + "&" + b, "&") == |a|
  {
    var t := a + "&" + b;
    assert t[|a|..|a| + 1] == "&";
    assert OccursAt(t, "&", |a|);
    forall i | 0 <= i < |a| ensures !OccursAt(t, "&", i) {
      assert t[i] == a[i];
      assert t[i..i + 1][0] == t[i];
    }
  }

  /** A reader splits a query with an `&`-free limit text back into its
      two values. */
  lemma QueryOf(prefix: string, a: string, b: string)
    requires forall k :: 0 <= k < |a| ==> a[k] != '&'
    ensures QueryValues(prefix + "?limit=" + a + "&offset=" + b, prefix) == Some((a, b))
  {
    var lead := prefix + "?limit=";
    var tail := "offset=" + b;
    var rest := a + "&" + tail;
    var url := prefix + "?limit=" + a + "&offset=" + b;
    assert url == lead + rest;
    assert url[..|lead|] == lead && url[|lead|..] == rest;
    FirstAmpersand(a, tail);
    assert rest[..|a|] == a && rest[|a| + 1..] == tail;
    assert tail[..7] == "offset=" && tail[7..] == b;
  }

  /** A query-string reader finds the limit text, which reads back as the
      limit, and an offset value that still carries the trailing slash. */
  lemma ListUrlQuery(domain: string, endpoint: string, limit: int, offset: int)
    ensures QueryValues(ListUrl(domain, endpoint, limit, offset), domain + endpoint)
         == Some((IntToString(limit), IntToString(offset) + "/"))
    ensures Number(IntToString(limit)) == limit
  {
    var ls, os := IntToString(limit), IntToString(offset);
    assert ListUrl(domain, endpoint, limit, offset) == (domain + endpoint) + "?limit=" + ls + "&offset=" + (os + "/");
    NoAmpersandInInteger(limit);
    QueryOf(domain + endpoint, ls, os + "/");
    IntToStringRoundTrip(limit);
  }

  /** The offset value the server receives is not an integer text: the
      slash the URL template adds after `${offset}` belongs to it. */
  lemma OffsetValueKeepsSlash(offset: int)
    ensures !IsIntegerText(IntToString(offset) + "/")
  {
    var v := IntToString(offset) + "/";
    assert v[|v| - 1] == '/';
    if |v| > 1 && v[0] == '-' {
      assert v[1..][|v| - 2] == '/';
    }
  }
}
