/** The feed locator of the landing page (pages/src/components/section/rss.tsx):
    it reads the registry of `{repo, branch}` pairs, fetches each repository's
    watchlist, turns every book into one `ProcessedFeed` whose link points at
    the RSS file the writer publishes, and offers a title filter and a
    selection toggle. Fetches are inputs: the registry document as an
    `Option` (None = fetch or parse failure) and the watchlist fetch as a
    function from the watchlist URL to an `Option`. */
module FeedLocator {
  import opened Wrappers
  import opened Text

  datatype OtherName = OtherName(native: Option<string>, romaji: Option<string>, english: Option<string>)

  datatype Book = Book(name: string, other: seq<OtherName>, cover: string)

  datatype RepoInfo = RepoInfo(repo: string, branch: string)

  /** `sourceProvider` and `repoName` hold what `split("/")[3]` and
      `split("/")[4]` give, which is `undefined` when the path is too short. */
  datatype ProcessedFeed = ProcessedFeed(
    title: string,
    coverImage: string,
    link: string,
    sourceProvider: Option<string>,
    repoName: Option<string>)

  /** The all-or-nothing outcome of one run of `fetchFeeds`. */
  datatype LoadState = Loading | Ready(feeds: seq<ProcessedFeed>) | Failed(message: string)

  const RawHost: string := "https://raw.githubusercontent.com/"
  const FetchError: string := "Failed to fetch RSS feeds"

  /** `s.split("/")[i]`, or undefined past the last part. */
  function Segment(s: string, i: nat): Option<string> {
    var parts := Split(s, '/');
    if i < |parts| then Some(parts[i]) else None
  }

  function Owner(repo: string): Option<string> { Segment(repo, 3) }

  function RepoName(repo: string): Option<string> { Segment(repo, 4) }

  /** A template literal renders `undefined` as the text "undefined". */
  function Interpolate(v: Option<string>): string { v.GetOr("undefined") }

  function WatchlistUrl(info: RepoInfo): string {
    RawHost + Interpolate(Owner(info.repo)) + "/" + Interpolate(RepoName(info.repo))
      + "/refs/heads/" + info.branch + "/watchlist.json"
  }

  /** A romaji is chosen by `find` only when it is truthy, i.e. non-empty. */
  predicate HasRomaji(o: OtherName) { o.romaji.Some? && o.romaji.value != "" }

  /** `book.other.find((o) => o.romaji)?.romaji`: the romaji of the first
      entry whose romaji is non-empty, if any. */
  function FirstRomaji(other: seq<OtherName>): (r: Option<string>)
    ensures r.None? <==> forall i :: 0 <= i < |other| ==> !HasRomaji(other[i])
    ensures r.Some? ==> r.value != ""
  {
    if other == [] then None
    else if HasRomaji(other[0]) then other[0].romaji
    else
      assert forall i :: 1 <= i < |other| ==> other[i] == other[1..][i - 1];
      FirstRomaji(other[1..])
  }

  /** The romaji found is that of the first entry carrying a non-empty one. */
  lemma {:induction false} FirstRomajiIsFirst(other: seq<OtherName>, i: nat)
    requires i < |other| && HasRomaji(other[i])
    requires forall j :: 0 <= j < i ==> !HasRomaji(other[j])
    ensures FirstRomaji(other) == other[i].romaji
  {
    if i > 0 {
      assert !HasRomaji(other[0]);
      assert forall j :: 0 <= j < i - 1 ==> other[1..][j] == other[j + 1];
      FirstRomajiIsFirst(other[1..], i - 1);
    }
  }

  /** The name the file stem is made from: `?.romaji || book.name`. */
  function StemSource(book: Book): string {
    match FirstRomaji(book.other)
    case Some(r) => r
    case None => book.name
  }

  /** `.replace(/ /g, "_")`: only the space character is rewritten. */
  function FileStem(book: Book): string {
    ReplaceChar(StemSource(book), ' ', '_')
  }

  function FeedLink(owner: Option<string>, repoName: Option<string>, branch: string, stem: string): string {
    RawHost + Interpolate(owner) + "/" + Interpolate(repoName) + "/refs/heads/" + branch
      + "/feed/rss/" + stem + ".rss"
  }

  /** The per-book step of `watchlistData.map`. */
  function Normalize(book: Book, info: RepoInfo): ProcessedFeed {
    ProcessedFeed(
      book.name,
      book.cover,
      FeedLink(Owner(info.repo), RepoName(info.repo), info.branch, FileStem(book)),
      Owner(info.repo),
      RepoName(info.repo))
  }

  function NormalizeAll(books: seq<Book>, info: RepoInfo): (r: seq<ProcessedFeed>)
    ensures |r| == |books|
    ensures forall j :: 0 <= j < |books| ==> r[j] == Normalize(books[j], info)
  {
    seq(|books|, j requires 0 <= j < |books| => Normalize(books[j], info))
  }

  /** The feeds of all sources, concatenated in registry order. */
  function Aggregate(sources: seq<(RepoInfo, seq<Book>)>): seq<ProcessedFeed> {
    if sources == [] then []
    else
      var last := sources[|sources| - 1];
      Aggregate(sources[..|sources| - 1]) + NormalizeAll(last.1, last.0)
  }

  /** Number of books in the sources before index `i`. */
  function Offset(sources: seq<(RepoInfo, seq<Book>)>, i: nat): nat
    requires i <= |sources|
  {
    if i == 0 then 0 else Offset(sources, i - 1) + |sources[i - 1].1|
  }

  lemma {:induction false} OffsetPrefix(sources: seq<(RepoInfo, seq<Book>)>, n: nat, i: nat)
    requires i <= n <= |sources|
    ensures Offset(sources[..n], i) == Offset(sources, i)
  {
    if i > 0 {
      OffsetPrefix(sources, n, i - 1);
      assert sources[..n][i - 1] == sources[i - 1];
    }
  }

  lemma {:induction false} OffsetMonotone(sources: seq<(RepoInfo, seq<Book>)>, i: nat, k: nat)
    requires i <= k <= |sources|
    ensures Offset(sources, i) + (if i < k then |sources[i].1| else 0) <= Offset(sources, k)
  {
    if i < k {
      OffsetMonotone(sources, i, k - 1);
    }
  }

  /** Book `j` of source `i` sits at its registry-then-watchlist place. */
  predicate FeedAt(sources: seq<(RepoInfo, seq<Book>)>, i: nat, j: nat)
    requires i < |sources| && j < |sources[i].1|
  {
    var feeds := Aggregate(sources);
    Offset(sources, i) + j < |feeds| && feeds[Offset(sources, i) + j] == Normalize(sources[i].1[j], sources[i].0)
  }

  /** One feed per book: the aggregate is exactly as long as the sources
      have books together, and holds book `j` of source `i` at that book's
      place in registry-then-watchlist order; nothing is dropped, merged or
      de-duplicated. */
  lemma {:induction false} AggregateLayout(sources: seq<(RepoInfo, seq<Book>)>)
    ensures |Aggregate(sources)| == Offset(sources, |sources|)
    ensures forall i: nat, j: nat :: i < |sources| && j < |sources[i].1| ==> FeedAt(sources, i, j)
  {
    if sources != [] {
      var n := |sources| - 1;
      var init := sources[..n];
      AggregateLayout(init);
      OffsetPrefix(sources, n, n);
      var last := NormalizeAll(sources[n].1, sources[n].0);
      assert Aggregate(sources) == Aggregate(init) + last;
      forall i: nat, j: nat | i < |sources| && j < |sources[i].1|
        ensures FeedAt(sources, i, j)
      {
        if i < n {
          assert init[i] == sources[i];
          LayoutEarlier(sources, i, j);
        } else {
          LayoutLast(sources, j);
        }
      }
    }
  }

  /** A book of an earlier source keeps its place when a source is appended. */
  lemma LayoutEarlier(sources: seq<(RepoInfo, seq<Book>)>, i: nat, j: nat)
    requires i < |sources| - 1 && j < |sources[i].1|
    requires FeedAt(sources[..|sources| - 1], i, j)
    ensures FeedAt(sources, i, j)
  {
    var n := |sources| - 1;
    var init := sources[..n];
    OffsetPrefix(sources, n, i);
    OffsetMonotone(init, i, n);
    OffsetPrefix(sources, n, n);
    assert init[i] == sources[i];
  }

  /** The books of the appended source follow all earlier books. */
  lemma LayoutLast(sources: seq<(RepoInfo, seq<Book>)>, j: nat)
    requires sources != [] && j < |sources[|sources| - 1].1|
    requires |Aggregate(sources[..|sources| - 1])| == Offset(sources[..|sources| - 1], |sources| - 1)
    ensures FeedAt(sources, |sources| - 1, j)
  {
    var n := |sources| - 1;
    OffsetPrefix(sources, n, n);
    var last := NormalizeAll(sources[n].1, sources[n].0);
    assert Aggregate(sources) == Aggregate(sources[..n]) + last;
    assert Aggregate(sources)[Offset(sources, n) + j] == last[j];
  }

  /** Appending one source appends its feeds. */
  lemma AggregateSnoc(sources: seq<(RepoInfo, seq<Book>)>, info: RepoInfo, books: seq<Book>)
    ensures Aggregate(sources + [(info, books)]) == Aggregate(sources) + NormalizeAll(books, info)
  {
    assert (sources + [(info, books)])[..|sources|] == sources;
  }

  /** Every watchlist of the registry was fetched and parsed. */
  predicate AllFetched(repos: seq<RepoInfo>, fetch: string -> Option<seq<Book>>) {
    forall i :: 0 <= i < |repos| ==> fetch(WatchlistUrl(repos[i])).Some?
  }

  /** Each registry entry paired with its fetched watchlist. */
  function Fetched(repos: seq<RepoInfo>, fetch: string -> Option<seq<Book>>): (r: seq<(RepoInfo, seq<Book>)>)
    requires AllFetched(repos, fetch)
    ensures |r| == |repos|
    ensures forall i :: 0 <= i < |repos| ==> r[i] == (repos[i], fetch(WatchlistUrl(repos[i])).value)
  {
    seq(|repos|, i requires 0 <= i < |repos| && fetch(WatchlistUrl(repos[i])).Some? =>
      (repos[i], fetch(WatchlistUrl(repos[i])).value))
  }

  lemma FetchedSnoc(repos: seq<RepoInfo>, fetch: string -> Option<seq<Book>>, i: nat)
    requires i < |repos| && AllFetched(repos[..i], fetch) && fetch(WatchlistUrl(repos[i])).Some?
    ensures AllFetched(repos[..i + 1], fetch)
    ensures Fetched(repos[..i + 1], fetch)
            == Fetched(repos[..i], fetch) + [(repos[i], fetch(WatchlistUrl(repos[i])).value)]
  {
    assert forall k :: 0 <= k < i ==> repos[..i][k] == repos[..i + 1][k];
    assert repos[..i + 1][i] == repos[i];
  }

  /** `fetchFeeds`: sources are visited in registry order and their feeds
      appended to one list, which is published only when every fetch
      succeeded; any failure publishes nothing and reports the fixed error. */
  method FetchFeeds(registry: Option<seq<RepoInfo>>, fetch: string -> Option<seq<Book>>)
    returns (state: LoadState)
    ensures !state.Loading?
    ensures state.Ready? <==> registry.Some? && AllFetched(registry.value, fetch)
    ensures state.Ready? ==> state.feeds == Aggregate(Fetched(registry.value, fetch))
    ensures state.Failed? ==> state.message == FetchError
  {
    if registry.None? {
      return Failed(FetchError);
    }
    var repos := registry.value;
    var allFeeds: seq<ProcessedFeed> := [];
    var i := 0;
    while i < |repos|
      invariant 0 <= i <= |repos|
      invariant AllFetched(repos[..i], fetch)
      invariant allFeeds == Aggregate(Fetched(repos[..i], fetch))
    {
      var info := repos[i];
      var watchlist := fetch(WatchlistUrl(info));
      if watchlist.None? {
        return Failed(FetchError);
      }
      FetchedSnoc(repos, fetch, i);
      AggregateSnoc(Fetched(repos[..i], fetch), info, watchlist.value);
      allFeeds := allFeeds + NormalizeAll(watchlist.value, info);
      i := i + 1;
    }
    assert repos[..i] == repos;
    return Ready(allFeeds);
  }

  /** An empty registry is a successful run with no feeds. */
  lemma EmptyRegistryIsReady(fetch: string -> Option<seq<Book>>)
    ensures AllFetched([], fetch) && Aggregate(Fetched([], fetch)) == []
  {
  }

  /** Whether `b` can be obtained from `a` by deleting elements. */
  predicate IsSubsequence<T(==)>(b: seq<T>, a: seq<T>) {
    if b == [] then true
    else if a == [] then false
    else if b[0] == a[0] then IsSubsequence(b[1..], a[1..])
    else IsSubsequence(b, a[1..])
  }

  /** `feeds.filter((feed) => feed.title === title)`. */
  function FilterTitle(feeds: seq<ProcessedFeed>, title: string): (r: seq<ProcessedFeed>)
    ensures forall f :: f in r ==> f.title == title
    ensures forall f :: multiset(r)[f] == if f.title == title then multiset(feeds)[f] else 0
    ensures IsSubsequence(r, feeds)
  {
    if feeds == [] then []
    else
      var rest := FilterTitle(feeds[1..], title);
      assert feeds == [feeds[0]] + feeds[1..];
      if feeds[0].title == title then
        assert ([feeds[0]] + rest)[1..] == rest;
        [feeds[0]] + rest
      else
        rest
  }

  /** `filteredFeeds`: no selection (null, or the falsy empty string) leaves
      the list as it is; otherwise the feeds whose title is the selection. */
  function Filter(feeds: seq<ProcessedFeed>, selected: Option<string>): (r: seq<ProcessedFeed>)
    ensures selected.None? || selected.value == "" ==> r == feeds
    ensures selected.Some? && selected.value != "" ==>
              (forall f :: f in r ==> f.title == selected.value) && IsSubsequence(r, feeds)
              && (forall f :: f in feeds && f.title == selected.value ==> f in r)
    ensures selected.Some? && selected.value != "" ==>
              forall f :: multiset(r)[f] == if f.title == selected.value then multiset(feeds)[f] else 0
  {
    if selected.None? || selected.value == "" then feeds
    else
      var r := FilterTitle(feeds, selected.value);
      assert forall f :: f in feeds && f.title == selected.value ==> multiset(r)[f] > 0;
      r
  }

  /** A selection that no feed carries gives an empty list, not an error. */
  lemma FilterNoMatch(feeds: seq<ProcessedFeed>, title: string)
    requires title != ""
    requires forall f :: f in feeds ==> f.title != title
    ensures Filter(feeds, Some(title)) == []
  {
  }

  /** The `onSelect` handler: choosing the selected title clears the
      selection, choosing any other title selects it. */
  function Toggle(selected: Option<string>, title: string): (r: Option<string>)
    ensures r.None? <==> selected == Some(title)
    ensures r.Some? ==> r.value == title
  {
    if selected == Some(title) then None else Some(title)
  }

  /** After selecting a non-empty title, the view shows only that title's feeds. */
  lemma ToggleThenFilter(feeds: seq<ProcessedFeed>, selected: Option<string>, title: string)
    requires title != "" && selected != Some(title)
    ensures forall f :: f in Filter(feeds, Toggle(selected, title)) ==> f.title == title
  {
  }

  /** The stem is the chosen name with each space turned into '_': same
      length, no space left, and re-applying the rewrite changes nothing. */
  lemma FileStemProperties(book: Book)
    ensures |FileStem(book)| == |StemSource(book)|
    ensures ' ' !in FileStem(book)
    ensures ReplaceChar(FileStem(book), ' ', '_') == FileStem(book)
    ensures forall i :: 0 <= i < |FileStem(book)| && StemSource(book)[i] != ' ' ==>
              FileStem(book)[i] == StemSource(book)[i]
  {
    ReplaceCharRemoves(StemSource(book), ' ', '_');
  }

  /** The stem comes from the first non-empty romaji, otherwise the name. */
  lemma StemChoice(book: Book)
    ensures (forall i :: 0 <= i < |book.other| ==> !HasRomaji(book.other[i])) ==> StemSource(book) == book.name
    ensures forall i :: (0 <= i < |book.other| && HasRomaji(book.other[i])
                         && forall j :: 0 <= j < i ==> !HasRomaji(book.other[j])) ==>
              StemSource(book) == book.other[i].romaji.value
  {
    forall i | 0 <= i < |book.other| && HasRomaji(book.other[i])
               && (forall j :: 0 <= j < i ==> !HasRomaji(book.other[j]))
      ensures StemSource(book) == book.other[i].romaji.value
    {
      FirstRomajiIsFirst(book.other, i);
    }
  }

  /** For a repository URL `https://<host>/<owner>/<repo>`, the owner and
      the repository name are the 4th and 5th '/'-parts. */
  lemma OwnerAndRepoOfUrl(host: string, owner: string, repo: string)
    requires '/' !in host && '/' !in owner && '/' !in repo
    ensures Owner("https://" + host + "/" + owner + "/" + repo) == Some(owner)
    ensures RepoName("https://" + host + "/" + owner + "/" + repo) == Some(repo)
  {
    var parts := ["https:", "", host, owner, repo];
    assert parts[1..] == ["", host, owner, repo];
    assert parts[1..][1..] == [host, owner, repo];
    assert parts[1..][1..][1..] == [owner, repo];
    assert parts[1..][1..][1..][1..] == [repo];
    assert [owner, repo][1..] == [repo];
    assert [host, owner, repo][1..] == [owner, repo];
    assert ["", host, owner, repo][1..] == [host, owner, repo];
    assert Join([repo], "/") == repo;
    var j2 := Join([owner, repo], "/");
    assert j2 == owner + "/" + repo;
    var j3 := Join([host, owner, repo], "/");
    assert j3 == host + "/" + j2;
    var j4 := Join(["", host, owner, repo], "/");
    assert j4 == "" + "/" + j3;
    assert Join(parts, "/") == "https:" + "/" + j4;
    assert "https:" + "/" + ("" + "/" + j3) == "https://" + j3;
    assert Join(parts, "/") == "https://" + host + "/" + owner + "/" + repo;
    SplitJoin(parts, '/');
  }

  /** The link names the owner, repository, branch and stem in the fixed
      template, and books of one source with the same stem share the link. */
  lemma LinkDependsOnStemOnly(b1: Book, b2: Book, info: RepoInfo)
    requires FileStem(b1) == FileStem(b2)
    ensures Normalize(b1, info).link == Normalize(b2, info).link
    ensures Normalize(b1, info).title == b1.name && Normalize(b1, info).coverImage == b1.cover
  {
  }

  /** A registry entry for github.com/owner1/repoA on main and a book whose
      romaji is "Maiburu" gives one feed titled by the display name, whose
      link is the template filled with owner1, repoA, main and the stem
      Maiburu. */
  lemma MaiburuExample(repo: string, book: Book)
    requires repo == "https://" + "github.com" + "/" + "owner1" + "/" + "repoA"
    requires book == Book("My Book", [OtherName(None, Some("Maiburu"), None)], "http://x/c.png")
    ensures var feed := Normalize(book, RepoInfo(repo, "main"));
            feed.title == "My Book" && feed.coverImage == "http://x/c.png"
            && feed.sourceProvider == Some("owner1") && feed.repoName == Some("repoA")
            && feed.link == FeedLink(Some("owner1"), Some("repoA"), "main", "Maiburu")
  {
    OwnerAndRepoOfUrl("github.com", "owner1", "repoA");
    FirstRomajiIsFirst(book.other, 0);
    ReplaceCharIdentity("Maiburu", ' ', '_');
  }

  /** Only spaces are rewritten: '/', ':' and the other path characters
      pass through unchanged ("A/B: C" gives "A/B:_C"). */
  lemma OnlySpacesRewritten()
    ensures FileStem(Book("A/B: C", [], "")) == "A/B:_C"
  {
    assert StemSource(Book("A/B: C", [], "")) == "A/B: C";
  }
}
