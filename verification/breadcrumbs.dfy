/** Breadcrumbs for the page header: the pathname is cut at "/", empty
    segments are dropped, and each remaining segment becomes one crumb whose
    caption comes from a fixed table or a fallback rule, and whose link is
    the path up to and including that segment; the last crumb, the current
    page, has no link. */
module Breadcrumbs {
  import opened Wrappers
  import opened Strings
  import Arrays

  datatype Crumb = Crumb(caption: string, href: Option<string>)

  /** The single crumb shown for a path without segments. */
  const HomeCrumb := Crumb("Dashboard", Some("/dashboard"))

  /** Segments longer than this read as identifiers and are captioned
      "Detail". */
  const MaxCaptionedLength := 15

  const RouteLabels: map<string, string> := map[
    "dashboard" := "Dashboard",
    "users" := "Users",
    "departments" := "Departments",
    "positions" := "Job Positions",
    "process-templates" := "Process Templates",
    "process-instances" := "Process Instances",
    "my-tasks" := "My Tasks",
    "my-processes" := "My Processes",
    "auth" := "Auth",
    "login" := "Sign in",
    "register" := "Register",
    "forgot-password" := "Forgot password"
  ]

  /** A segment: non-empty and free of "/". */
  predicate IsSegment(s: string) {
    s != "" && '/' !in s
  }

  /** `pathname.split("/").filter(Boolean)`. */
  function Segments(pathname: string): (segs: seq<string>)
    ensures forall i :: 0 <= i < |segs| ==> IsSegment(segs[i])
  {
    var segs := Arrays.Filter(Split(pathname, '/'), IsNonEmpty);
    assert forall i :: 0 <= i < |segs| ==> segs[i] in Split(pathname, '/');
    segs
  }

  /** `seg.charAt(0).toUpperCase() + seg.slice(1)`, ASCII only. */
  function Capitalize(seg: string): (c: string)
    ensures |c| == |seg|
    ensures |seg| > 0 ==> c[0] == UpperAscii(seg[0]) && c[1..] == seg[1..]
  {
    if |seg| == 0 then "" else [UpperAscii(seg[0])] + seg[1..]
  }

  /** The caption of one segment: its table entry when it has one, else
      "Detail" for a long segment, else the segment with its first letter
      upper-cased. */
  function Caption(seg: string): (c: string)
    ensures seg in RouteLabels ==> c == RouteLabels[seg]
    ensures seg !in RouteLabels && |seg| > MaxCaptionedLength ==> c == "Detail"
    ensures seg !in RouteLabels && |seg| <= MaxCaptionedLength ==>
      |c| == |seg| && (|seg| > 0 ==> c[0] == UpperAscii(seg[0]) && c[1..] == seg[1..])
  {
    if seg in RouteLabels then RouteLabels[seg]
    else if |seg| > MaxCaptionedLength then "Detail"
    else Capitalize(seg)
  }

  /** The href accumulated by the loop after `segs`: "/" before each. */
  function PathOf(segs: seq<string>): string
    decreases |segs|
  {
    if |segs| == 0 then "" else PathOf(segs[..|segs| - 1]) + "/" + segs[|segs| - 1]
  }

  /** The loop of `getBreadcrumbFromPath` from index `i` on, with `href`
      the path accumulated so far. */
  function CrumbsFrom(segs: seq<string>, i: nat, href: string): (crumbs: seq<Crumb>)
    requires i <= |segs| && href == PathOf(segs[..i])
    ensures |crumbs| == |segs| - i
    ensures forall k :: 0 <= k < |crumbs| ==>
      crumbs[k] == Crumb(Caption(segs[i + k]), if i + k < |segs| - 1 then Some(PathOf(segs[..i + k + 1])) else None)
    decreases |segs| - i
  {
    if i == |segs| then []
    else
      var next := href + "/" + segs[i];
      assert segs[..i + 1][..i] == segs[..i];
      var rest := CrumbsFrom(segs, i + 1, next);
      var crumb := Crumb(Caption(segs[i]), if i < |segs| - 1 then Some(next) else None);
      assert forall k :: 1 <= k <= |rest| ==> ([crumb] + rest)[k] == rest[k - 1];
      [crumb] + rest
  }

  /** `getBreadcrumbFromPath(pathname)`. A path without segments gives the
      Dashboard crumb alone; otherwise there is one crumb per segment, in
      order, captioned from that segment, and only the last has no link. */
  function BreadcrumbFromPath(pathname: string): (crumbs: seq<Crumb>)
    ensures Segments(pathname) == [] ==> crumbs == [HomeCrumb]
    ensures Segments(pathname) != [] ==> |crumbs| == |Segments(pathname)|
    ensures Segments(pathname) != [] ==> forall k :: 0 <= k < |crumbs| ==>
      crumbs[k].caption == Caption(Segments(pathname)[k]) && (crumbs[k].href.None? <==> k == |crumbs| - 1)
  {
    var segs := Segments(pathname);
    if |segs| == 0 then [HomeCrumb] else CrumbsFrom(segs, 0, "")
  }

  /** The link of a crumb other than the last, as a path. */
  function LinkOf(pathname: string, k: nat): string
    requires Segments(pathname) != [] && k < |Segments(pathname)| - 1
  {
    BreadcrumbFromPath(pathname)[k].href.value
  }

  lemma {:induction false} JoinAppend(parts: seq<string>, x: string, sep: char)
    requires |parts| >= 1
    ensures Join(parts + [x], sep) == Join(parts, sep) + [sep] + x
    decreases |parts|
  {
    if |parts| > 1 {
      assert (parts + [x])[1..] == parts[1..] + [x];
      JoinAppend(parts[1..], x, sep);
    }
  }

  /** The accumulated href is the segments joined by "/" behind an empty
      leading part. */
  lemma {:induction false} PathOfIsJoin(segs: seq<string>)
    ensures PathOf(segs) == Join([""] + segs, '/')
    decreases |segs|
  {
    if |segs| > 0 {
      var init := segs[..|segs| - 1];
      PathOfIsJoin(init);
      assert [""] + segs == ([""] + init) + [segs[|segs| - 1]];
      JoinAppend([""] + init, segs[|segs| - 1], '/');
    }
  }

  /** Cutting a path at one "/" splits its segments in two. */
  lemma SegmentsAtSlash(a: string, b: string)
    ensures Segments(a + "/" + b) == Segments(a) + Segments(b)
  {
    SplitAtSeparator(a, b, '/');
    Arrays.FilterConcat(Split(a, '/'), Split(b, '/'), IsNonEmpty);
  }

  /** Repeated, leading and trailing slashes add no segment. */
  lemma ExtraSlashesIgnored(a: string, b: string)
    ensures Segments(a + "//" + b) == Segments(a + "/" + b)
    ensures Segments("/" + a) == Segments(a)
    ensures Segments(a + "/") == Segments(a)
  {
    assert Segments("") == [];
    SegmentsAtSlash(a, "/" + b);
    assert a + "//" + b == a + "/" + ("/" + b);
    SegmentsAtSlash("", b);
    assert "" + "/" + b == "/" + b;
    SegmentsAtSlash(a, b);
    SegmentsAtSlash("", a);
    assert "" + "/" + a == "/" + a;
    SegmentsAtSlash(a, "");
    assert a + "/" + "" == a + "/";
  }

  /** Parsing an accumulated href gives back the segments it was built
      from. */
  lemma PathOfRoundTrip(segs: seq<string>)
    requires forall i :: 0 <= i < |segs| ==> IsSegment(segs[i])
    ensures Segments(PathOf(segs)) == segs
  {
    SplitPathOf(segs);
    Arrays.FilterConcat([""], segs, IsNonEmpty);
    assert Arrays.Filter([""], IsNonEmpty) == [];
    Arrays.FilterAll(segs, IsNonEmpty);
  }

  /** Cutting an accumulated href at "/" gives an empty part, then the
      segments. */
  lemma SplitPathOf(segs: seq<string>)
    requires forall i :: 0 <= i < |segs| ==> IsSegment(segs[i])
    ensures Split(PathOf(segs), '/') == [""] + segs
  {
    var parts := [""] + segs;
    PathOfIsJoin(segs);
    forall i | 0 <= i < |parts|
      ensures '/' !in parts[i]
    {
      if i > 0 {
        assert parts[i] == segs[i - 1];
      }
    }
    SplitJoin(parts, '/');
  }

  /** The link of crumb k is the href accumulated over the first k + 1
      segments. */
  lemma LinkOfIsPathOf(pathname: string, k: nat)
    requires Segments(pathname) != [] && k < |Segments(pathname)| - 1
    ensures LinkOf(pathname, k) == PathOf(Segments(pathname)[..k + 1])
  {
  }

  /** A non-empty accumulated href is "/" followed by its segments joined
      by "/". */
  lemma PathOfNonEmpty(segs: seq<string>)
    requires |segs| >= 1
    ensures PathOf(segs) == "/" + Join(segs, '/')
  {
    PathOfIsJoin(segs);
    assert [""] + segs == [""] + [segs[0]] + segs[1..];
    assert ([""] + segs)[1..] == segs;
  }

  /** The crumbs of an accumulated href: one per segment, captioned from
      it. */
  lemma CrumbsOfPath(segs: seq<string>)
    requires |segs| >= 1
    requires forall i :: 0 <= i < |segs| ==> IsSegment(segs[i])
    ensures |BreadcrumbFromPath(PathOf(segs))| == |segs|
    ensures forall j :: 0 <= j < |segs| ==> BreadcrumbFromPath(PathOf(segs))[j].caption == Caption(segs[j])
  {
    PathOfRoundTrip(segs);
  }

  /** Crumb k links to "/" followed by the first k + 1 segments joined by
      "/", and following that link shows the first k + 1 crumbs again, the
      last of them now without a link. */
  lemma CrumbLinkRoundTrip(pathname: string, k: nat)
    requires Segments(pathname) != [] && k < |Segments(pathname)| - 1
    ensures LinkOf(pathname, k) == "/" + Join(Segments(pathname)[..k + 1], '/')
    ensures Segments(LinkOf(pathname, k)) == Segments(pathname)[..k + 1]
    ensures |BreadcrumbFromPath(LinkOf(pathname, k))| == k + 1
    ensures forall j :: 0 <= j <= k ==>
      BreadcrumbFromPath(LinkOf(pathname, k))[j].caption == BreadcrumbFromPath(pathname)[j].caption
  {
    var segs := Segments(pathname);
    var prefix := segs[..k + 1];
    var link := LinkOf(pathname, k);
    LinkOfIsPathOf(pathname, k);
    PathOfNonEmpty(prefix);
    PathOfRoundTrip(prefix);
    CrumbsOfPath(prefix);
    var shown := BreadcrumbFromPath(pathname);
    forall j | 0 <= j <= k
      ensures BreadcrumbFromPath(link)[j].caption == shown[j].caption
    {
      assert prefix[j] == segs[j];
    }
  }

  lemma {:induction false} PathOfPrefix(segs: seq<string>, i: nat, j: nat)
    requires i <= j <= |segs|
    ensures StartsWith(PathOf(segs[..j]), PathOf(segs[..i]))
    decreases j - i
  {
    if i < j {
      PathOfPrefix(segs, i, j - 1);
      assert segs[..j][..j - 1] == segs[..j - 1];
      var shorter := PathOf(segs[..j - 1]);
      assert PathOf(segs[..j]) == shorter + "/" + segs[j - 1];
      assert PathOf(segs[..j])[..|shorter|] == shorter;
    }
  }

  /** Each crumb's link is a prefix of every later crumb's link. */
  lemma LinksNest(pathname: string, i: nat, j: nat)
    requires Segments(pathname) != [] && i <= j < |Segments(pathname)| - 1
    ensures StartsWith(LinkOf(pathname, j), LinkOf(pathname, i))
  {
    PathOfPrefix(Segments(pathname), i + 1, j + 1);
  }

  lemma {:induction false} SplitOfSlashes(s: string)
    requires forall i :: 0 <= i < |s| ==> s[i] == '/'
    ensures forall i :: 0 <= i < |Split(s, '/')| ==> Split(s, '/')[i] == ""
    decreases |s|
  {
    if |s| > 0 {
      SplitOfSlashes(s[1..]);
    }
  }

  lemma {:induction false} SplitFindsNonSlash(s: string, n: nat)
    requires n < |s| && s[n] != '/'
    ensures exists i :: 0 <= i < |Split(s, '/')| && Split(s, '/')[i] != ""
    decreases |s|
  {
    var parts := Split(s, '/');
    if s[0] != '/' {
      assert parts[0] != "";
    } else {
      SplitFindsNonSlash(s[1..], n - 1);
      var i :| 0 <= i < |Split(s[1..], '/')| && Split(s[1..], '/')[i] != "";
      assert parts[i + 1] == Split(s[1..], '/')[i];
    }
  }

  /** The lone Dashboard crumb is shown exactly for paths made of slashes
      only, the empty path and "/" among them. */
  lemma DashboardOnlyForRoot(pathname: string)
    ensures BreadcrumbFromPath(pathname) == [HomeCrumb] <==>
      forall i :: 0 <= i < |pathname| ==> pathname[i] == '/'
  {
    var segs := Segments(pathname);
    if forall i :: 0 <= i < |pathname| ==> pathname[i] == '/' {
      SplitOfSlashes(pathname);
      Arrays.FilterNone(Split(pathname, '/'), IsNonEmpty);
    } else {
      var n :| 0 <= n < |pathname| && pathname[n] != '/';
      SplitFindsNonSlash(pathname, n);
      var i :| 0 <= i < |Split(pathname, '/')| && Split(pathname, '/')[i] != "";
      assert Split(pathname, '/')[i] in segs;
      assert BreadcrumbFromPath(pathname)[|segs| - 1].href.None?;
    }
  }
}
