/**
 * The three client-side redirects of the blog pages into the server's proxy routes: each replaces
 * the first `/blog` of the current path, and the two that read the path apart from the query and
 * fragment put those back after it.
 */
module BlogRewrites {
  import opened Wrappers
  import opened Text

  /** `Blog.jsx`: the path with `/blog` turned into `/api/blog`, then the search and the hash. */
  function BlogPageTarget(pathname: string, search: string, hash: string): string {
    ReplaceFirst(pathname, "/blog", "/api/blog") + search + hash
  }

  /** `BlogRedirect.jsx`: the path with `/blog` turned into `/api/wordpress`, then the search and the hash. */
  function BlogRedirectTarget(pathname: string, search: string, hash: string): string {
    ReplaceFirst(pathname, "/blog", "/api/wordpress") + search + hash
  }

  /** `blog.js`: the router's `asPath`, which already holds the query and the fragment, with `/blog` turned into `/api/blog`. */
  function NextBlogTarget(asPath: string): string {
    ReplaceFirst(asPath, "/blog", "/api/blog")
  }

  /** A path that starts with `/blog` has exactly that prefix replaced, and the rest kept. */
  lemma ReplaceAtStart(s: string, replacement: string)
    requires StartsWith(s, "/blog")
    ensures ReplaceFirst(s, "/blog", replacement) == replacement + s[5..]
  {
    assert OccursAt(s, "/blog", 0);
  }

  /**
   * Each rewrite: without `/blog` the path is kept as it is; otherwise the first `/blog` alone is
   * replaced, everything after it kept, and the path grows by the difference in length (4 for
   * `/api/blog`, 9 for `/api/wordpress`). The search and the hash follow the rewritten path
   * unchanged.
   */
  lemma RewriteSpec(p: string, search: string, hash: string)
    ensures IndexOf(p, "/blog").None? ==> (BlogPageTarget(p, search, hash) == p + search + hash
      && BlogRedirectTarget(p, search, hash) == p + search + hash && NextBlogTarget(p) == p)
    ensures IndexOf(p, "/blog").Some? ==>
      var k := IndexOf(p, "/blog").value;
      && BlogPageTarget(p, search, hash) == p[..k] + "/api/blog" + p[k + 5..] + search + hash
      && BlogRedirectTarget(p, search, hash) == p[..k] + "/api/wordpress" + p[k + 5..] + search + hash
      && NextBlogTarget(p) == p[..k] + "/api/blog" + p[k + 5..]
      && |NextBlogTarget(p)| == |p| + 4
      && |BlogPageTarget(p, search, hash)| == |p| + 4 + |search| + |hash|
      && |BlogRedirectTarget(p, search, hash)| == |p| + 9 + |search| + |hash|
      && forall j :: 0 <= j < k ==> !OccursAt(p, "/blog", j)
  {
  }

  /** The match is on the text, not on a path segment: `/blogger` goes to `/api/blogger`. */
  lemma SubstringNotSegment()
    ensures NextBlogTarget("/blogger") == "/api/blogger"
    ensures BlogRedirectTarget("/blogger", "", "") == "/api/wordpressger"
  {
    ReplaceAtStart("/blogger", "/api/blog");
    ReplaceAtStart("/blogger", "/api/wordpress");
    assert "/blogger"[5..] == "ger";
  }

  /** Only the first `/blog` is replaced: a second one further on is kept. */
  lemma FirstOnly(rest: string)
    ensures NextBlogTarget("/blog" + rest) == "/api/blog" + rest
    ensures BlogPageTarget("/blog" + rest, "", "") == "/api/blog" + rest
  {
    ReplaceAtStart("/blog" + rest, "/api/blog");
    assert ("/blog" + rest)[5..] == rest;
  }

  /** The rewritten path still contains `/blog`, so rewriting twice would prefix `/api` again. */
  lemma NotIdempotent(rest: string)
    ensures NextBlogTarget(NextBlogTarget("/blog" + rest)) == "/api/api/blog" + rest
  {
    FirstOnly(rest);
    var once := "/api/blog" + rest;
    RewrittenIndex(rest);
    var twice := ReplaceFirst(once, "/blog", "/api/blog");
    assert twice == once[..4] + "/api/blog" + once[9..];
    assert once[..4] == "/api";
    assert once[9..] == rest;
    assert "/api" + "/api/blog" == "/api/api/blog";
  }

  lemma RewrittenIndex(rest: string)
    ensures IndexOf("/api/blog" + rest, "/blog") == Some(4)
  {
    var once := "/api/blog" + rest;
    var w := "/blog";
    assert IndexOfFrom(once, w, 4) == Some(4) by {
      assert once[4..9] == w;
    }
    assert IndexOfFrom(once, w, 3) == Some(4) by {
      assert once[3..8][0] == 'i';
    }
    assert IndexOfFrom(once, w, 2) == Some(4) by {
      assert once[2..7][0] == 'p';
    }
    assert IndexOfFrom(once, w, 1) == Some(4) by {
      assert once[1..6][0] == 'a';
    }
    assert IndexOfFrom(once, w, 0) == Some(4) by {
      assert once[0..5][1] == 'a';
    }
  }
}
