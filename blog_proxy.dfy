/**
 * The blog proxy: a request under `/blog` is forwarded to the WordPress site with its path, query,
 * headers and body, and the site's answer is passed back with its status and most of its headers.
 * The HTTP exchange itself is a parameter: `upstream` is what the site answered, or the error the
 * client raised.
 */
module BlogProxy {
  import opened Wrappers
  import opened Text
  import opened Server

  const WordpressBaseUrl := "https://your-hostinger-site.com/blog"

  /** A header list as the server hands it over: names and values in arrival order. */
  type Headers = seq<(string, string)>

  datatype IncomingRequest = IncomingRequest(httpMethod: string, query: string, headers: Headers, body: seq<int>)

  datatype OutgoingRequest = OutgoingRequest(httpMethod: string, url: string, headers: map<string, string>,
                                             content: Option<seq<int>>)

  /** The upstream answer; `headers` is the client's list, names already lower-cased and repeats already joined. */
  datatype UpstreamResponse = UpstreamResponse(status: nat, headers: Headers, content: seq<int>)

  datatype ProxyResponse = ProxyResponse(status: nat, headers: map<string, string>, content: seq<int>)

  /** The target URL as one expression. */
  function Target(path: string, query: string): string {
    (if path == "" then WordpressBaseUrl else WordpressBaseUrl + "/" + path) + (if query == "" then "" else "?" + query)
  }

  /** The step-by-step form of `Target`: the base alone for an empty path, then the query after `?` when there is one. */
  method TargetUrl(path: string, query: string) returns (url: string)
    ensures url == Target(path, query)
  {
    url := if path != "" then WordpressBaseUrl + "/" + path else WordpressBaseUrl;
    if query != "" {
      url := url + "?" + query;
    }
  }

  lemma BaseHasNoQuestionMark()
    ensures '?' !in WordpressBaseUrl
  {
  }

  /**
   * The target URL can be taken apart again: for a path without `?`, the first `?` ends the path
   * and begins the query, and without a query there is none.
   */
  lemma TargetUrlParts(path: string, query: string)
    requires '?' !in path
    ensures var url := Target(path, query);
      var at := |WordpressBaseUrl| + (if path == "" then 0 else 1 + |path|);
      && StartsWith(url, WordpressBaseUrl)
      && (query == "" ==> IndexOf(url, "?").None?)
      && (query != "" ==> IndexOf(url, "?") == Some(at) && url[at + 1..] == query)
      && (path != "" ==> url[|WordpressBaseUrl| + 1..at] == path)
  {
    var front := if path == "" then WordpressBaseUrl else WordpressBaseUrl + "/" + path;
    assert '?' !in front by {
      BaseHasNoQuestionMark();
      if path != "" {
        assert forall i :: 0 <= i < |front| ==> front[i] != '?' by {
          forall i | 0 <= i < |front|
            ensures front[i] != '?'
          {
            if i < |WordpressBaseUrl| {
              assert front[i] == WordpressBaseUrl[i];
            } else if i > |WordpressBaseUrl| {
              assert front[i] == path[i - |WordpressBaseUrl| - 1];
            }
          }
        }
      }
    }
    var url := Target(path, query);
    assert url[..|WordpressBaseUrl|] == WordpressBaseUrl;
    if query == "" {
      assert url == front;
      IndexOfAbsent(front, '?');
    } else {
      assert url == front + ['?'] + query;
      IndexOfAfterPrefix(front, '?', query);
      assert url[|front| + 1..] == query;
    }
    if path != "" {
      assert url[|WordpressBaseUrl| + 1..|front|] == path;
    }
  }

  /** A dict built from header pairs with the names in `excluded`, in any case, left out; a later pair wins. */
  function FilterHeaders(headers: Headers, excluded: set<string>): (r: map<string, string>)
    ensures forall k :: k in r ==> LowerStr(k) !in excluded
    decreases |headers|
  {
    if headers == [] then map[]
    else
      var m := FilterHeaders(headers[..|headers| - 1], excluded);
      var (k, v) := headers[|headers| - 1];
      if LowerStr(k) in excluded then m else m[k := v]
  }

  /** The last value a header list gives a name, if it gives one. */
  function LastValue(headers: Headers, name: string): Option<string>
    decreases |headers|
  {
    if headers == [] then None
    else if headers[|headers| - 1].0 == name then Some(headers[|headers| - 1].1)
    else LastValue(headers[..|headers| - 1], name)
  }

  /** Every header whose name is not excluded is kept, with the value it was given last. */
  lemma {:induction false} FilterHeadersKeeps(headers: Headers, excluded: set<string>, name: string)
    requires LowerStr(name) !in excluded
    ensures name in FilterHeaders(headers, excluded) <==> LastValue(headers, name).Some?
    ensures name in FilterHeaders(headers, excluded) ==> FilterHeaders(headers, excluded)[name] == LastValue(headers, name).value
    decreases |headers|
  {
    if headers != [] {
      FilterHeadersKeeps(headers[..|headers| - 1], excluded, name);
    }
  }

  const RequestExcluded: set<string> := {"host", "content-length"}
  const ResponseExcluded: set<string> := {"content-encoding", "transfer-encoding"}

  /** Only the methods that carry a body have it forwarded. */
  predicate CarriesBody(httpMethod: string) {
    httpMethod == "POST" || httpMethod == "PUT" || httpMethod == "PATCH"
  }

  /** The request sent to the site. */
  function Outgoing(req: IncomingRequest, path: string): (o: OutgoingRequest)
    ensures o.httpMethod == req.httpMethod && o.url == Target(path, req.query)
    ensures o.content.Some? <==> CarriesBody(req.httpMethod)
    ensures o.content.Some? ==> o.content.value == req.body
    ensures forall k :: k in o.headers ==> LowerStr(k) != "host" && LowerStr(k) != "content-length"
  {
    OutgoingRequest(req.httpMethod, Target(path, req.query), FilterHeaders(req.headers, RequestExcluded),
      if CarriesBody(req.httpMethod) then Some(req.body) else None)
  }

  /** `proxy_blog_request`: the request sent, and the site's answer or a 502. */
  method ProxyBlogRequest(req: IncomingRequest, path: string, upstream: Result<UpstreamResponse, string>)
    returns (sent: OutgoingRequest, r: Result<ProxyResponse, HttpError>)
    ensures sent == Outgoing(req, path)
    ensures upstream.Failure? ==> r == Failure(HttpError(502, "Blog proxy error: " + upstream.error))
    ensures upstream.Success? ==> (r.Success? && r.value.status == upstream.value.status
      && r.value.content == upstream.value.content
      && r.value.headers == FilterHeaders(upstream.value.headers, ResponseExcluded))
  {
    var url := TargetUrl(path, req.query);
    var headers := FilterHeaders(req.headers, RequestExcluded);
    var content := if CarriesBody(req.httpMethod) then Some(req.body) else None;
    sent := OutgoingRequest(req.httpMethod, url, headers, content);
    if upstream.Failure? {
      return sent, Failure(HttpError(502, "Blog proxy error: " + upstream.error));
    }
    var resp := upstream.value;
    r := Success(ProxyResponse(resp.status, FilterHeaders(resp.headers, ResponseExcluded), resp.content));
  }

  /** The answer passed back never carries a content or transfer encoding, in any spelling. */
  lemma ResponseDropsEncodings(headers: Headers, name: string)
    requires LowerStr(name) == "content-encoding" || LowerStr(name) == "transfer-encoding"
    ensures name !in FilterHeaders(headers, ResponseExcluded)
  {
  }
}
