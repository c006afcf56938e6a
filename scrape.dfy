/**
 * clone_letterboxd: for listing pages 1, 2 and 3 of the account's reviews,
 * build the page's URL, read the rendered HTML through the browser and write
 * it under data/html/<user>/films/reviews/page/<n>/index.html. The browser is
 * a function from URL to what page.content() returns after loading it, or the
 * exception loading it raised; the filesystem is an object holding files and
 * directories keyed by the segments given to os.path.join.
 */
module Scraper {
  import opened Decimal

  /** The environment variable naming the account, and its default. */
  const UsernameVariable: string := "LETTERBOXD_USERNAME"
  const DefaultUsername: string := "default_username"

  const SiteRoot: string := "https://letterboxd.com/"
  const BaseDir: string := "data/html"

  /** range(1, 4): the listing pages cloned are 1..PageCount. */
  const PageCount: nat := 3

  /** A path, as the segments joined to form it. */
  type Path = seq<string>

  /** USERNAME: os.getenv with a default. */
  function Username(env: map<string, string>): (user: string)
    ensures UsernameVariable in env ==> user == env[UsernameVariable]
    ensures UsernameVariable !in env ==> user == DefaultUsername
  {
    if UsernameVariable in env then env[UsernameVariable] else DefaultUsername
  }

  /** The URL of listing page n of the user's reviews. */
  function ListingUrl(user: string, n: nat): string {
    SiteRoot + user + "/films/reviews/page/" + DecimalString(n) + "/"
  }

  /** Distinct page numbers give distinct listing URLs. */
  lemma ListingUrlInjective(user: string, a: nat, b: nat)
    requires ListingUrl(user, a) == ListingUrl(user, b)
    ensures a == b
  {
    var prefix := SiteRoot + user + "/films/reviews/page/";
    var ta, tb := DecimalString(a) + "/", DecimalString(b) + "/";
    assert ListingUrl(user, a) == prefix + ta;
    assert ListingUrl(user, b) == prefix + tb;
    assert ta == (prefix + ta)[|prefix|..];
    assert tb == (prefix + tb)[|prefix|..];
    assert DecimalString(a) == ta[..|ta| - 1];
    assert DecimalString(b) == tb[..|tb| - 1];
    DecimalStringInjective(a, b);
  }

  /** Where listing page n is saved. */
  function SavePath(user: string, n: nat): (p: Path)
    ensures |p| == 7 && p[0] == BaseDir && p[1] == user && p[6] == "index.html"
  {
    [BaseDir, user, "films", "reviews", "page", DecimalString(n), "index.html"]
  }

  /** Distinct (user, page) pairs are saved at distinct paths. */
  lemma SavePathInjective(u1: string, a: nat, u2: string, b: nat)
    requires SavePath(u1, a) == SavePath(u2, b)
    ensures u1 == u2 && a == b
  {
    assert SavePath(u1, a)[5] == DecimalString(a);
    assert SavePath(u2, b)[5] == DecimalString(b);
    DecimalStringInjective(a, b);
  }

  /** os.path.dirname: the path without its last segment. */
  function Parent(p: Path): (dir: Path)
    requires p != []
    ensures |dir| == |p| - 1 && dir <= p
  {
    p[..|p| - 1]
  }

  /** The directories os.makedirs(p) makes sure exist: p and every ancestor. */
  function Ancestors(p: Path): (dirs: set<Path>)
    ensures forall d :: d in dirs <==> d != [] && d <= p
  {
    assert forall d :: d <= p ==> d == p[..|d|];
    set i | 1 <= i <= |p| :: p[..i]
  }

  /** What loading a URL in the browser and reading page.content() gives. */
  datatype Fetch = Rendered(html: string) | FetchFailed(reason: string)

  /** How a run ends: all pages cloned, or the exception on page n ended it. */
  datatype RunResult = Completed | Aborted(page: nat, reason: string)

  /** The page numbers 1..count, in increasing order. */
  function PagesUpTo(count: nat): (pages: seq<nat>)
    ensures |pages| == count
    ensures forall i :: 0 <= i < count ==> pages[i] == i + 1
  {
    if count == 0 then [] else PagesUpTo(count - 1) + [count]
  }

  /** Distinct listing pages are loaded from distinct URLs, so no URL is loaded twice in a run. */
  lemma VisitedUrlsDistinct(user: string, count: nat, i: nat, j: nat)
    requires i < j < count
    ensures ListingUrl(user, PagesUpTo(count)[i]) != ListingUrl(user, PagesUpTo(count)[j])
  {
    if ListingUrl(user, i + 1) == ListingUrl(user, j + 1) {
      ListingUrlInjective(user, i + 1, j + 1);
    }
  }

  /** Whether the browser renders listing page n. */
  predicate PageRenders(browse: string -> Fetch, user: string, n: nat) {
    browse(ListingUrl(user, n)).Rendered?
  }

  /** The number of leading pages among 1..n that render: the run stops at the first that does not. */
  function CompletedPages(browse: string -> Fetch, user: string, n: nat): (k: nat)
    ensures k <= n
    ensures forall i :: 1 <= i <= k ==> PageRenders(browse, user, i)
    ensures k < n ==> !PageRenders(browse, user, k + 1)
  {
    if n == 0 then 0
    else
      var k := CompletedPages(browse, user, n - 1);
      if k == n - 1 && PageRenders(browse, user, n) then n else k
  }

  /** Every page among 1..k renders. */
  predicate AllRender(browse: string -> Fetch, user: string, k: nat) {
    forall i :: 1 <= i <= k ==> PageRenders(browse, user, i)
  }

  /** The files after pages 1..k, all of which render, have been written over files, in order. */
  function Captured(files: map<Path, string>, browse: string -> Fetch, user: string, k: nat): map<Path, string>
    requires AllRender(browse, user, k)
  {
    if k == 0 then files
    else
      assert PageRenders(browse, user, k);
      Captured(files, browse, user, k - 1)[SavePath(user, k) := browse(ListingUrl(user, k)).html]
  }

  /** The save paths of pages 1..k. */
  function PagePaths(user: string, k: nat): set<Path> {
    set n | 1 <= n <= k :: SavePath(user, n)
  }

  /** The directories made by a run that wrote pages 1..k. */
  function CreatedDirs(user: string, k: nat): set<Path> {
    if k == 0 then Ancestors([BaseDir])
    else CreatedDirs(user, k - 1) + Ancestors(Parent(SavePath(user, k)))
  }

  /** Writing pages 1..k adds exactly their save paths. */
  lemma {:induction false} CapturedKeys(files: map<Path, string>, browse: string -> Fetch, user: string, k: nat)
    requires AllRender(browse, user, k)
    ensures Captured(files, browse, user, k).Keys == files.Keys + PagePaths(user, k)
  {
    if k > 0 {
      CapturedKeys(files, browse, user, k - 1);
      assert PageRenders(browse, user, k);
      assert PagePaths(user, k) == PagePaths(user, k - 1) + {SavePath(user, k)};
    }
  }

  /** The file of page n holds the HTML the browser rendered for page n. */
  lemma {:induction false} CapturedContent(files: map<Path, string>, browse: string -> Fetch, user: string, k: nat, n: nat)
    requires AllRender(browse, user, k)
    requires 1 <= n <= k
    ensures SavePath(user, n) in Captured(files, browse, user, k)
    ensures browse(ListingUrl(user, n)) == Rendered(Captured(files, browse, user, k)[SavePath(user, n)])
  {
    assert PageRenders(browse, user, n);
    if n < k {
      CapturedContent(files, browse, user, k - 1, n);
      if SavePath(user, n) == SavePath(user, k) {
        SavePathInjective(user, n, user, k);
      }
    }
  }

  /** No path other than the pages' save paths is written. */
  lemma {:induction false} CapturedElsewhere(files: map<Path, string>, browse: string -> Fetch, user: string, k: nat, p: Path)
    requires AllRender(browse, user, k)
    requires p !in PagePaths(user, k)
    ensures p in Captured(files, browse, user, k) <==> p in files
    ensures p in files ==> Captured(files, browse, user, k)[p] == files[p]
  {
    if k > 0 {
      assert p != SavePath(user, k);
      assert PagePaths(user, k - 1) <= PagePaths(user, k);
      CapturedElsewhere(files, browse, user, k - 1, p);
    }
  }

  /**
   * Files are opened in 'w' mode, so a second run that writes the same pages
   * overwrites the first: the result is as if only the second run had happened.
   */
  lemma {:induction false} RerunOverwrites(files: map<Path, string>, b1: string -> Fetch, b2: string -> Fetch, user: string, k: nat)
    requires AllRender(b1, user, k)
    requires AllRender(b2, user, k)
    ensures Captured(Captured(files, b1, user, k), b2, user, k) == Captured(files, b2, user, k)
  {
    var once, twice := Captured(files, b2, user, k), Captured(Captured(files, b1, user, k), b2, user, k);
    CapturedKeys(files, b1, user, k);
    CapturedKeys(Captured(files, b1, user, k), b2, user, k);
    CapturedKeys(files, b2, user, k);
    assert twice.Keys == once.Keys;
    forall p | p in once
      ensures twice[p] == once[p]
    {
      if p in PagePaths(user, k) {
        var n :| 1 <= n <= k && p == SavePath(user, n);
        CapturedContent(Captured(files, b1, user, k), b2, user, k, n);
        CapturedContent(files, b2, user, k, n);
      } else {
        CapturedElsewhere(Captured(files, b1, user, k), b2, user, k, p);
        CapturedElsewhere(files, b1, user, k, p);
        CapturedElsewhere(files, b2, user, k, p);
      }
    }
  }

  /** The part of the filesystem the scraper touches. */
  class FileSystem {
    var files: map<Path, string>
    var dirs: set<Path>

    /** Every file lies in a directory that exists. */
    ghost predicate Valid()
      reads this
    {
      forall p :: p in files ==> p != [] && Parent(p) in dirs
    }

    constructor ()
      ensures Valid() && files == map[] && dirs == {}
    {
      files := map[];
      dirs := {};
    }

    /** os.makedirs(path, exist_ok=True). */
    method MakeDirs(path: Path)
      requires Valid()
      modifies this
      ensures Valid()
      ensures dirs == old(dirs) + Ancestors(path) && files == old(files)
    {
      dirs := dirs + Ancestors(path);
    }

    /** open(path, 'w').write(content): creates or truncates the file; its directory must exist. */
    method WriteFile(path: Path, content: string)
      requires Valid() && path != [] && Parent(path) in dirs
      modifies this
      ensures Valid()
      ensures files == old(files)[path := content] && dirs == old(dirs)
    {
      files := files[path := content];
    }
  }

  /** The number of pages a run visits: those that render, and the one whose failure ends it. */
  function VisitedPages(browse: string -> Fetch, user: string): nat {
    var k := CompletedPages(browse, user, PageCount);
    if k < PageCount then k + 1 else k
  }

  /** How a run ends: at the first page that fails to render, or after the last page. */
  function RunOutcome(browse: string -> Fetch, user: string): RunResult {
    var k := CompletedPages(browse, user, PageCount);
    if k < PageCount then Aborted(k + 1, browse(ListingUrl(user, k + 1)).reason) else Completed
  }

  /** Once page n fails, no later page counts as completed. */
  lemma CompletedPagesStop(browse: string -> Fetch, user: string, n: nat, m: nat)
    requires 1 <= n <= m
    requires CompletedPages(browse, user, n - 1) == n - 1 && !PageRenders(browse, user, n)
    ensures CompletedPages(browse, user, m) == n - 1
  {
  }

  /**
   * One iteration of clone_letterboxd: load listing page n and read its HTML;
   * when that succeeds, make its directory and write the HTML to its save path.
   * When it fails, nothing is written.
   */
  method ClonePage(fs: FileSystem, user: string, n: nat, browse: string -> Fetch) returns (fetched: Fetch)
    requires fs.Valid()
    modifies fs
    ensures fs.Valid()
    ensures fetched == browse(ListingUrl(user, n))
    ensures fetched.Rendered? ==> fs.files == old(fs.files)[SavePath(user, n) := fetched.html]
    ensures fetched.Rendered? ==> fs.dirs == old(fs.dirs) + Ancestors(Parent(SavePath(user, n)))
    ensures fetched.FetchFailed? ==> fs.files == old(fs.files) && fs.dirs == old(fs.dirs)
  {
    fetched := browse(ListingUrl(user, n));
    if fetched.Rendered? {
      var savePath := SavePath(user, n);
      fs.MakeDirs(Parent(savePath));
      fs.WriteFile(savePath, fetched.html);
    }
  }

  /**
   * clone_letterboxd, for the account USERNAME (Username of the environment):
   * pages 1, 2, 3 in order, each loaded, read and written to its save path.
   * An exception on a page ends the run there, so the pages after it are
   * neither visited nor written.
   */
  method CloneLetterboxd(fs: FileSystem, user: string, browse: string -> Fetch)
    returns (visited: seq<nat>, result: RunResult)
    requires fs.Valid()
    modifies fs
    ensures fs.Valid()
    ensures visited == PagesUpTo(VisitedPages(browse, user))
    ensures fs.files == Captured(old(fs.files), browse, user, CompletedPages(browse, user, PageCount))
    ensures fs.dirs == old(fs.dirs) + CreatedDirs(user, CompletedPages(browse, user, PageCount))
    ensures result == RunOutcome(browse, user)
  {
    ghost var files0, dirs0 := fs.files, fs.dirs;
    fs.MakeDirs([BaseDir]);
    visited := [];
    for pageNum := 1 to PageCount + 1
      invariant fs.Valid()
      invariant CompletedPages(browse, user, pageNum - 1) == pageNum - 1
      invariant AllRender(browse, user, pageNum - 1)
      invariant visited == PagesUpTo(pageNum - 1)
      invariant fs.files == Captured(files0, browse, user, pageNum - 1)
      invariant fs.dirs == dirs0 + CreatedDirs(user, pageNum - 1)
    {
      visited := visited + [pageNum];
      var fetched := ClonePage(fs, user, pageNum, browse);
      if fetched.FetchFailed? {
        CompletedPagesStop(browse, user, pageNum, PageCount);
        result := Aborted(pageNum, fetched.reason);
        return;
      }
      assert PageRenders(browse, user, pageNum);
    }
    result := Completed;
  }
}
