/** The string side of dispatch in lib/proto.js: what `handle` computes once
    from the request URL (lines 98-102), the path it matches against
    (line 143), the prefix match with its border check (lines 146-157), how a
    matched route is cut out of the URL (lines 159-169) and how the URL is put
    back before the next layer (lines 122-130). */
module Routing {
  import opened JsString

  /** Lines 99-100: the length of the URL before its first '?'. */
  function PathLength(url: string): (n: nat)
    ensures n <= |url|
    ensures n < |url| ==> url[n] == '?'
    ensures forall j :: 0 <= j < n ==> url[j] != '?'
  {
    var k := IndexOf(url, "?", 0);
    if k == -1 then
      assert forall j: nat :: j < |url| ==> url[j] != '?' by {
        forall j: nat | j < |url| ensures url[j] != '?' { OccursAtUnit(url, '?', j); }
      }
      |url|
    else
      OccursAtUnit(url, '?', k);
      assert forall j :: 0 <= j < k ==> url[j] != '?' by {
        forall j | 0 <= j < k ensures url[j] != '?' { OccursAtUnit(url, '?', j); }
      }
      k
  }

  /** Line 101: `fqdn`. The source computes `false` when the URL starts with
      '/' and otherwise one plus the index of "://" in the part before the
      query, which is 0 when there is none; 0 here stands for both falsy
      values. A positive value is one past the index of the first "://". */
  function Fqdn(url: string): (f: nat)
    ensures f > 0 ==> f + 2 <= PathLength(url) && url[0] != '/' && OccursAt(url, "://", f - 1)
    ensures f > 0 ==> forall j: nat :: j < f - 1 ==> !OccursAt(url, "://", j)
    ensures f == 0 ==> (|url| > 0 && url[0] == '/') ||
                       forall j: nat :: j + 3 <= PathLength(url) ==> !OccursAt(url, "://", j)
  {
    if |url| > 0 && url[0] == '/' then 0
    else
      var before := url[..PathLength(url)];
      var k := IndexOf(before, "://", 0);
      assert forall j: nat :: j + 3 <= |before| ==> (OccursAt(before, "://", j) <==> OccursAt(url, "://", j)) by {
        forall j: nat | j + 3 <= |before| ensures OccursAt(before, "://", j) <==> OccursAt(url, "://", j) {
          assert before[j..j + 3] == url[j..j + 3];
        }
      }
      1 + k
  }

  /** Line 102: `protohost`, the scheme and host of a fully qualified URL:
      everything before the first '/' that follows "://". It is "" when
      `fqdn` is falsy, and also when no '/' follows the host (the source then
      takes `substr(0, -1)`). */
  function Protohost(url: string, fqdn: nat): (p: string)
    ensures p <= url
    ensures fqdn == 0 ==> p == ""
    ensures p != "" ==> fqdn + 2 <= |p| < |url| && url[|p|] == '/'
    ensures p != "" ==> forall j :: fqdn + 2 <= j < |p| ==> url[j] != '/'
    ensures p == "" && fqdn > 0 ==> forall j :: fqdn + 2 <= j < |url| ==> url[j] != '/'
  {
    if fqdn == 0 then ""
    else
      var k := IndexOf(url, "/", 2 + fqdn);
      if k > 0 then
        OccursAtUnit(url, '/', k);
        assert forall j :: fqdn + 2 <= j < k ==> url[j] != '/' by {
          forall j | fqdn + 2 <= j < k ensures url[j] != '/' { OccursAtUnit(url, '/', j); }
        }
        SubstrTo(url, k)
      else
        assert forall j :: fqdn + 2 <= j < |url| ==> url[j] != '/' by {
          forall j | fqdn + 2 <= j < |url| ensures url[j] != '/' { OccursAtUnit(url, '/', j); }
        }
        SubstrTo(url, k)
  }

  /** Line 143, `parseUrl(req).pathname || '/'`. The URL parser is not part of
      this model; the path is taken to be the part of the URL after
      `protohost` and before the first '?', and "/" when that part is empty
      or when a fully qualified URL has no '/' after its host. */
  function Pathname(url: string, protohost: string, fqdn: nat): (path: string)
    ensures path != ""
    ensures forall i :: 0 <= i < |path| ==> path[i] != '?'
  {
    var rest := SubstrFrom(url, |protohost|);
    var n := PathLength(rest);
    if n == 0 || (fqdn > 0 && protohost == "") then "/" else rest[..n]
  }

  /** Which path `Pathname` takes: "/" when a fully qualified URL has no
      '/' after its host or nothing comes between `protohost` and the query;
      otherwise exactly the text of the URL right after `protohost`, up to
      the first '?' or the end. */
  lemma PathnameShape(url: string, protohost: string, fqdn: nat)
    ensures var path := Pathname(url, protohost, fqdn);
      ((fqdn > 0 && protohost == "") || |url| <= |protohost| || url[|protohost|] == '?' ==> path == "/") &&
      (!(fqdn > 0 && protohost == "") && |protohost| < |url| && url[|protohost|] != '?' ==>
        |protohost| + |path| <= |url| && url[|protohost|..|protohost| + |path|] == path &&
        (|protohost| + |path| == |url| || url[|protohost| + |path|] == '?'))
  {
  }

  /** Lines 146-157: a layer's route matches a path when the lower-cased path
      begins with the lower-cased route and the path either ends there or goes
      on with '/' or '.'. */
  predicate Matches(path: string, route: string) {
    SubstrTo(Lower(path), |route|) == Lower(route) &&
    (|route| >= |path| || path[|route|] == '/' || path[|route|] == '.')
  }

  /** A route whose cut (lines 160-169) leaves the URL alone: "" or "/". */
  predicate IsRoot(route: string) {
    route == "" || route == "/"
  }

  /** Lines 160-169 for a route that is not root: cut `|route|` code units
      from the URL just after `protohost`; when the URL is not fully qualified
      and the rest does not start with '/', prepend one. The second component
      says whether that synthetic '/' was added (`slashAdded`). */
  function Strip(url: string, protohost: string, route: string, fqdn: nat): (r: (string, bool))
  {
    var cut := protohost + SubstrFrom(url, |protohost| + |route|);
    if fqdn == 0 && (cut == "" || cut[0] != '/') then ("/" + cut, true) else (cut, false)
  }

  /** Lines 122-130: drop the synthetic '/' if one was added, then splice the
      removed route text back in just after `protohost`. */
  function Restore(url: string, protohost: string, removed: string, slashAdded: bool): string
  {
    var url1 := if slashAdded then SubstrFrom(url, 1) else url;
    if |removed| != 0 then protohost + removed + SubstrFrom(url1, |protohost|) else url1
  }

  /** Putting the URL back keeps `protohost` at its front, as long as a
      synthetic '/' is only ever added together with a removed route. */
  lemma RestoreKeepsProtohost(url: string, protohost: string, removed: string, slashAdded: bool)
    requires protohost <= url && (slashAdded ==> removed != "")
    ensures protohost <= Restore(url, protohost, removed, slashAdded)
  {
    var url1 := if slashAdded then SubstrFrom(url, 1) else url;
    if removed != "" {
      assert Restore(url, protohost, removed, slashAdded) == protohost + (removed + SubstrFrom(url1, |protohost|));
    } else {
      assert !slashAdded && Restore(url, protohost, removed, slashAdded) == url;
    }
  }

  /** Lines 159-169: the URL a matched layer's handler runs with. A route
      other than "" and "/" is cut out of the URL; those two leave it alone. */
  function EnteredUrl(url: string, protohost: string, route: string, fqdn: nat): string
  {
    if IsRoot(route) then url else Strip(url, protohost, route, fqdn).0
  }

  // ---------------------------------------------------------------------
  // Properties of matching

  /** The match, stated without JavaScript's clamping `substr`: the route is
      no longer than the path, agrees with its start up to case, and is
      followed by nothing, '/' or '.'. */
  lemma MatchesIff(path: string, route: string)
    ensures Matches(path, route) <==>
      |route| <= |path| && Lower(path[..|route|]) == Lower(route) &&
      (|route| == |path| || path[|route|] == '/' || path[|route|] == '.')
  {
    if |route| <= |path| {
      LowerSlice(path, 0, |route|);
    } else {
      assert |SubstrTo(Lower(path), |route|)| == |path| < |Lower(route)|;
    }
  }

  /** A route reaches the path equal to it and every path that extends it
      with '/' or '.', and no path that extends it with another character. */
  lemma RouteMatchesAtBorder(route: string, c: char, rest: string)
    ensures Matches(route, route)
    ensures c == '/' || c == '.' ==> Matches(route + [c] + rest, route)
    ensures c != '/' && c != '.' ==> !Matches(route + [c] + rest, route)
  {
    MatchesIff(route, route);
    MatchesIff(route + [c] + rest, route);
    assert (route + [c] + rest)[..|route|] == route;
    assert (route + [c] + rest)[|route|] == c;
  }

  /** The route of a layer registered without a path ("" after normalising)
      matches every path that starts with '/', and so every path the
      dispatcher computes for a URL that is not fully qualified. */
  lemma EmptyRouteMatchesSlashPaths(path: string)
    requires path != "" && path[0] == '/'
    ensures Matches(path, "")
  {
  }

  /** A stored route "/" (registered as "//") is not a catch-all: it matches
      "/" but not "/admin", because of the border check. */
  lemma SlashRouteIsNotCatchAll()
    ensures Matches("/", "/")
    ensures !Matches("/admin", "/")
  {
    assert "/admin"[1] == 'a';
  }

  /** Matching depends on the path only up to ASCII case. */
  lemma MatchesIgnoresCase(path1: string, path2: string, route: string)
    requires Lower(path1) == Lower(path2)
    ensures Matches(path1, route) == Matches(path2, route)
  {
    if |route| < |path1| {
      assert Lower(path1)[|route|] == LowerChar(path1[|route|]);
      assert Lower(path2)[|route|] == LowerChar(path2[|route|]);
      LowerCharFixesPunctuation(path1[|route|]);
      LowerCharFixesPunctuation(path2[|route|]);
    }
  }

  /** URLs equal up to ASCII case give paths equal up to ASCII case. */
  lemma PathnameIgnoresCase(url1: string, url2: string, protohost: string, fqdn: nat)
    requires Lower(url1) == Lower(url2)
    ensures Lower(Pathname(url1, protohost, fqdn)) == Lower(Pathname(url2, protohost, fqdn))
  {
    var rest1, rest2 := SubstrFrom(url1, |protohost|), SubstrFrom(url2, |protohost|);
    assert |rest1| == |rest2|;
    if |protohost| <= |url1| {
      LowerSlice(url1, |protohost|, |url1|);
      LowerSlice(url2, |protohost|, |url2|);
    }
    assert Lower(rest1) == Lower(rest2);
    var n1, n2 := PathLength(rest1), PathLength(rest2);
    if n1 < n2 {
      assert Lower(rest1)[n1] == LowerChar(rest1[n1]);
      assert Lower(rest2)[n1] == LowerChar(rest2[n1]);
      LowerCharFixesPunctuation(rest2[n1]);
    } else if n2 < n1 {
      assert Lower(rest1)[n2] == LowerChar(rest1[n2]);
      assert Lower(rest2)[n2] == LowerChar(rest2[n2]);
      LowerCharFixesPunctuation(rest1[n2]);
    }
    if n1 != 0 {
      LowerSlice(rest1, 0, n1);
      LowerSlice(rest2, 0, n1);
    }
  }

  /** A route that is not root can match only a path that really comes from
      the URL; the route then lies inside the URL right after `protohost`,
      equal to it up to case. */
  lemma MatchedRouteLiesInUrl(url: string, protohost: string, route: string, fqdn: nat)
    requires protohost <= url
    requires !IsRoot(route) && Matches(Pathname(url, protohost, fqdn), route)
    ensures |protohost| + |route| <= |url|
    ensures Lower(url[|protohost|..|protohost| + |route|]) == Lower(route)
  {
    var path := Pathname(url, protohost, fqdn);
    MatchesIff(path, route);
    LowerCharFixesPunctuation(route[0]);
    assert Lower(route)[0] == LowerChar(route[0]);
    assert Lower(path[..|route|])[0] == LowerChar(path[..|route|][0]);
    assert path != "/";
    assert url[|protohost|..|protohost| + |route|] == path[..|route|];
  }

  // ---------------------------------------------------------------------
  // Cutting a route out of the URL and putting it back

  /** What the URL looks like while a layer runs: it keeps `protohost`, and
      when a '/' was prepended the URL is not fully qualified. */
  lemma StripShape(url: string, protohost: string, route: string, fqdn: nat)
    requires fqdn == 0 ==> protohost == ""
    ensures var (s, added) := Strip(url, protohost, route, fqdn);
      protohost <= s && (added ==> fqdn == 0) && (fqdn == 0 ==> s != "" && s[0] == '/')
  {
  }

  /** The URL a layer leaves behind when `next` is called: the route cut
      out on entry (lines 160-169), then put back (lines 122-130). */
  function Reentered(url: string, protohost: string, route: string, fqdn: nat): string
  {
    var entered := Strip(url, protohost, route, fqdn);
    Restore(entered.0, protohost, route, entered.1)
  }

  /** The URL the layer after the one with route `route` is matched against,
      whether that layer's handler ran or not: a matched route other than ""
      and "/" was cut out on entry and is put back by the next pass; any
      other layer leaves the URL alone. */
  function Pass(url: string, protohost: string, route: string, fqdn: nat): string
  {
    if !IsRoot(route) && Matches(Pathname(url, protohost, fqdn), route) then Reentered(url, protohost, route, fqdn)
    else url
  }

  /** Leaving a layer undoes entering it, except that the route's own text
      (not the text that was cut) is put back: the restored URL is
      `protohost`, then the route, then what followed the cut. When the cut
      text equals the route, the URL is exactly as before. */
  lemma {:induction false} RestoreUndoesStrip(url: string, protohost: string, route: string, fqdn: nat)
    requires protohost <= url && |protohost| + |route| <= |url|
    requires route != ""
    requires fqdn == 0 ==> protohost == ""
    ensures Reentered(url, protohost, route, fqdn) == protohost + route + url[|protohost| + |route|..]
    ensures url[|protohost|..|protohost| + |route|] == route ==> Reentered(url, protohost, route, fqdn) == url
  {
    var (s, added) := Strip(url, protohost, route, fqdn);
    var rest := url[|protohost| + |route|..];
    var cut := protohost + rest;
    assert SubstrFrom(url, |protohost| + |route|) == rest;
    var url1 := if added then SubstrFrom(s, 1) else s;
    assert url1 == cut;
    assert SubstrFrom(url1, |protohost|) == rest;
    assert url == protohost + url[|protohost|..|protohost| + |route|] + rest;
  }

  /** Replacing a middle part by one equal to it up to case keeps the whole
      string equal up to case. */
  lemma LowerSplice(front: string, a: string, b: string, back: string)
    requires Lower(a) == Lower(b)
    ensures Lower(front + a + back) == Lower(front + b + back)
  {
    LowerAppend(front + a, back);
    LowerAppend(front, a);
    LowerAppend(front + b, back);
    LowerAppend(front, b);
  }

  /** The cut depends only on `protohost` and on what follows the route. */
  lemma StripOfRestored(url: string, protohost: string, route: string, fqdn: nat)
    requires |protohost| + |route| <= |url|
    ensures Strip(protohost + route + url[|protohost| + |route|..], protohost, route, fqdn)
         == Strip(url, protohost, route, fqdn)
  {
    var rest := url[|protohost| + |route|..];
    assert SubstrFrom(protohost + route + rest, |protohost| + |route|) == rest;
  }

  /** Entering a layer and leaving it again keeps the URL equal up to ASCII
      case when the cut text equals the route up to case, and cutting the
      route out of the restored URL gives what the layer saw. */
  lemma {:induction false} EnterLeavePreservesUrl(url: string, protohost: string, route: string, fqdn: nat)
    requires protohost <= url && |protohost| + |route| <= |url|
    requires fqdn == 0 ==> protohost == ""
    requires route != "" && Lower(url[|protohost|..|protohost| + |route|]) == Lower(route)
    ensures Lower(Reentered(url, protohost, route, fqdn)) == Lower(url)
    ensures Strip(Reentered(url, protohost, route, fqdn), protohost, route, fqdn) == Strip(url, protohost, route, fqdn)
  {
    RestoreUndoesStrip(url, protohost, route, fqdn);
    SpliceIgnoresCase(url, |protohost|, route);
    StripOfRestored(url, protohost, route, fqdn);
  }

  /** Putting `part` in place of the `|part|` characters at `at` keeps the
      string equal up to case when they agree with `part` up to case. */
  lemma SpliceIgnoresCase(s: string, at: nat, part: string)
    requires at + |part| <= |s| && Lower(s[at..at + |part|]) == Lower(part)
    ensures Lower(s[..at] + part + s[at + |part|..]) == Lower(s)
  {
    assert s == s[..at] + s[at..at + |part|] + s[at + |part|..];
    LowerSplice(s[..at], part, s[at..at + |part|], s[at + |part|..]);
  }

  /** Passing a layer keeps `protohost` at the front of the URL and the URL
      itself the same up to ASCII case. */
  lemma PassKeepsUrl(url: string, protohost: string, route: string, fqdn: nat)
    requires protohost <= url && (fqdn == 0 ==> protohost == "")
    ensures protohost <= Pass(url, protohost, route, fqdn)
    ensures Lower(Pass(url, protohost, route, fqdn)) == Lower(url)
  {
    if !IsRoot(route) && Matches(Pathname(url, protohost, fqdn), route) {
      MatchedRouteLiesInUrl(url, protohost, route, fqdn);
      EnterLeavePreservesUrl(url, protohost, route, fqdn);
      RestoreUndoesStrip(url, protohost, route, fqdn);
    }
  }

  /** URLs equal up to ASCII case are seen by a layer's handler as URLs
      equal up to ASCII case: the cut and the synthetic '/' do not depend on
      case. */
  lemma EnteredUrlIgnoresCase(url1: string, url2: string, protohost: string, route: string, fqdn: nat)
    requires Lower(url1) == Lower(url2)
    ensures Lower(EnteredUrl(url1, protohost, route, fqdn)) == Lower(EnteredUrl(url2, protohost, route, fqdn))
  {
    if !IsRoot(route) {
      var k := |protohost| + |route|;
      var rest1, rest2 := SubstrFrom(url1, k), SubstrFrom(url2, k);
      if k <= |url1| {
        LowerSlice(url1, k, |url1|);
        LowerSlice(url2, k, |url2|);
      }
      assert Lower(rest1) == Lower(rest2);
      var cut1, cut2 := protohost + rest1, protohost + rest2;
      LowerAppend(protohost, rest1);
      LowerAppend(protohost, rest2);
      if cut1 != "" {
        assert Lower(cut1)[0] == LowerChar(cut1[0]);
        assert Lower(cut2)[0] == LowerChar(cut2[0]);
        LowerCharFixesPunctuation(cut1[0]);
        LowerCharFixesPunctuation(cut2[0]);
      }
      LowerAppend("/", cut1);
      LowerAppend("/", cut2);
    }
  }

  /** For a URL that is neither fully qualified nor carries a query, the path
      is the URL itself. */
  lemma PathnameOfPlainUrl(url: string)
    requires url != "" && url[0] == '/'
    requires forall i :: 0 <= i < |url| ==> url[i] != '?'
    ensures Pathname(url, "", 0) == url
  {
    assert SubstrFrom(url, 0) == url;
  }

  /** The example of a route registered as "/x/yz": a request for
      "/x/yz/extra" reaches it. */
  lemma MountedRouteMatches()
    ensures Matches(Pathname("/x/yz/extra", "", 0), "/x/yz")
  {
    var url := "/x/yz/extra";
    PathOfMountedExample();
    RouteMatchesAtBorder("/x/yz", '/', "extra");
    assert url == "/x/yz" + ['/'] + "extra";
  }

  /** The path of "/x/yz/extra" is the whole URL. */
  lemma PathOfMountedExample()
    ensures Pathname("/x/yz/extra", "", 0) == "/x/yz/extra"
  {
    PathnameOfPlainUrl("/x/yz/extra");
  }

  /** While the "/x/yz" layer runs, that request has URL "/extra"; calling
      `next` gives it "/x/yz/extra" back. */
  lemma MountedRouteSeesRemainder()
    ensures Strip("/x/yz/extra", "", "/x/yz", 0) == ("/extra", false)
    ensures Restore("/extra", "", "/x/yz", false) == "/x/yz/extra"
  {
    assert SubstrFrom("/x/yz/extra", 5) == "/extra";
    assert SubstrFrom("/extra", 0) == "/extra";
  }

  /** Because the route's own text is put back, a URL whose cut text differs
      from the route (as it may in case, since matching ignores case) does not
      come back as it was: it comes back carrying the route's text. */
  lemma {:induction false} RestoreTakesRouteText(url: string, protohost: string, route: string, fqdn: nat)
    requires protohost <= url && |protohost| + |route| <= |url|
    requires route != ""
    requires fqdn == 0 ==> protohost == ""
    requires url[|protohost|..|protohost| + |route|] != route
    ensures |Reentered(url, protohost, route, fqdn)| == |url|
    ensures Reentered(url, protohost, route, fqdn)[|protohost|..|protohost| + |route|] == route
    ensures Reentered(url, protohost, route, fqdn) != url
  {
    RestoreUndoesStrip(url, protohost, route, fqdn);
    var back := protohost + route + url[|protohost| + |route|..];
    assert back[|protohost|..|protohost| + |route|] == route;
  }
}
