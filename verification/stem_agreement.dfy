/** Where the two halves meet. The landing page links to
    `feed/rss/<stem>.rss` with the stem computed in rss.tsx, and the worker
    writes `feed/rss/<base>.rss` with the base computed in main.rs, both
    from the same `watchlist.json`. The two agree when each element has at
    most one `romaji` name and it is not empty; otherwise they can differ. */
module StemAgreement {
  import opened Wrappers
  import opened JsonValue
  import FeedLocator
  import Watchlist
  import Worker

  /** How the page reads one `other` object: the string value of each key. */
  function OtherNameOf(o: Json): FeedLocator.OtherName {
    FeedLocator.OtherName(AsStr(Get(o, "native")), AsStr(Get(o, "romaji")), AsStr(Get(o, "english")))
  }

  function OthersOf(others: seq<Json>): (r: seq<FeedLocator.OtherName>)
    ensures |r| == |others|
    ensures forall i :: 0 <= i < |others| ==> r[i] == OtherNameOf(others[i])
  {
    seq(|others|, i requires 0 <= i < |others| => OtherNameOf(others[i]))
  }

  /** How the page reads one element of the array. */
  function BookOf(entry: Json): FeedLocator.Book
    requires Watchlist.Carries(entry, "name") && Watchlist.Carries(entry, "cover")
  {
    FeedLocator.Book(AsStr(Get(entry, "name")).value, OthersOf(AsArray(Get(entry, "other")).GetOr([])),
      AsStr(Get(entry, "cover")).value)
  }

  predicate HasRomaji(o: Json) { Watchlist.Carries(o, "romaji") }

  /** At most one object carries a `romaji` string, and that one is not empty. */
  predicate SingleRomaji(others: seq<Json>) {
    && (forall i, j :: 0 <= i < j < |others| && HasRomaji(others[i]) ==> !HasRomaji(others[j]))
    && (forall i :: 0 <= i < |others| && HasRomaji(others[i]) ==> AsStr(Get(others[i], "romaji")).value != "")
  }

  /** With a single non-empty `romaji`, or none, the page's stem is the
      worker's file base. */
  lemma StemsAgree(entry: Json)
    requires Watchlist.Carries(entry, "name") && Watchlist.Carries(entry, "cover")
    requires AsArray(Get(entry, "other")).Some? && SingleRomaji(AsArray(Get(entry, "other")).value)
    ensures FeedLocator.FileStem(BookOf(entry)) == Worker.FilenameBase(Watchlist.EntryOf(entry))
  {
    var others := AsArray(Get(entry, "other")).value;
    var book := BookOf(entry);
    assert book.other == OthersOf(others);
    if i :| 0 <= i < |others| && HasRomaji(others[i]) {
      forall j | 0 <= j < i ensures !FeedLocator.HasRomaji(book.other[j]) {
        assert !HasRomaji(others[j]);
      }
      FeedLocator.FirstRomajiIsFirst(book.other, i);
      Watchlist.LastValueWins(others, "romaji", i);
    } else {
      Watchlist.UncarriedKeyAbsent(others, "romaji");
      assert forall j :: 0 <= j < |book.other| ==> !FeedLocator.HasRomaji(book.other[j]);
    }
  }

  /** When the stems agree, the page's link ends in the path the worker
      writes the RSS file to. */
  lemma LinkPointsAtWrittenFile(entry: Json, owner: Option<string>, repoName: Option<string>, branch: string)
    requires Watchlist.Carries(entry, "name") && Watchlist.Carries(entry, "cover")
    requires AsArray(Get(entry, "other")).Some? && SingleRomaji(AsArray(Get(entry, "other")).value)
    ensures FeedLocator.FeedLink(owner, repoName, branch, FeedLocator.FileStem(BookOf(entry)))
         == FeedLocator.RawHost + FeedLocator.Interpolate(owner) + "/" + FeedLocator.Interpolate(repoName)
            + "/refs/heads/" + branch + "/" + Worker.RssPath(Worker.FilenameBase(Watchlist.EntryOf(entry)))
  {
    StemsAgree(entry);
  }

  function Element(others: seq<Json>): Json {
    Obj(map["name" := Str("N"), "cover" := Str("c"), "other" := Arr(others)])
  }

  function Romaji(value: string): Json {
    Obj(map["romaji" := Str(value)])
  }

  /** Two `romaji` names: the page takes the first, the worker the last. */
  lemma TwoRomajisDisagree()
    ensures FeedLocator.FileStem(BookOf(Element([Romaji("A"), Romaji("B")]))) == "A"
    ensures Worker.FilenameBase(Watchlist.EntryOf(Element([Romaji("A"), Romaji("B")]))) == "B"
  {
    var others := [Romaji("A"), Romaji("B")];
    var book := BookOf(Element(others));
    assert book.other == OthersOf(others);
    FeedLocator.FirstRomajiIsFirst(book.other, 0);
    Watchlist.LastValueWins(others, "romaji", 1);
  }

  /** An empty `romaji`: the page falls back to the name, the worker keeps
      the empty string. */
  lemma EmptyRomajiDisagrees()
    ensures FeedLocator.FileStem(BookOf(Element([Romaji("")]))) == "N"
    ensures Worker.FilenameBase(Watchlist.EntryOf(Element([Romaji("")]))) == ""
  {
    var others := [Romaji("")];
    var book := BookOf(Element(others));
    assert book.other == OthersOf(others);
    assert !FeedLocator.HasRomaji(book.other[0]);
    Watchlist.LastValueWins(others, "romaji", 0);
  }
}
