/** `generate_rss`: the per-book date cache update and the RSS text for one
    watchlist entry. The clock reading `now`, the cache file contents and
    the iteration order of the entry's alternate-name map are inputs; the
    cache that would be saved is returned alongside the text. */
module RssOps {
  import opened Wrappers
  import opened Text
  import opened Types
  import opened DateCache
  import opened StrOrder
  import Mime
  import GetData

  const FeedLink := "https://github.com/Irilith/VBT"
  const Closing := "</channel>\n</rss>"

  /** The keys of all the given books. */
  function KeysOf(books: seq<BookRow>): set<string> {
    set i | 0 <= i < |books| :: CacheKey(books[i])
  }

  /** Some book has no cached date yet. */
  predicate HasNewBooks(data: map<string, string>, books: seq<BookRow>) {
    exists i :: 0 <= i < |books| && CacheKey(books[i]) !in data
  }

  /** The keys of the books with no cached date, as the `HashSet` collects them. */
  function NewTitles(data: map<string, string>, books: seq<BookRow>): (r: set<string>)
    ensures r == {} <==> !HasNewBooks(data, books)
  {
    var r := set i | 0 <= i < |books| && CacheKey(books[i]) !in data :: CacheKey(books[i]);
    assert HasNewBooks(data, books) ==> r != {} by {
      if HasNewBooks(data, books) {
        var i :| 0 <= i < |books| && CacheKey(books[i]) !in data;
        assert CacheKey(books[i]) in r;
      }
    }
    r
  }

  /** `entry(key).or_insert_with(now)` for every book in turn. */
  function StampDates(data: map<string, string>, books: seq<BookRow>, now: string): map<string, string> {
    if books == [] then data
    else
      var before := StampDates(data, books[..|books| - 1], now);
      var key := CacheKey(books[|books| - 1]);
      if key in before then before else before[key := now]
  }

  /** The date a book is published under: its cached date, or `now` when it has none. */
  function DateFor(data: map<string, string>, key: string, now: string): string {
    if key in data then data[key] else now
  }

  /** The channel's `lastBuildDate`, and the build-date map after the call. */
  function BuildDate(cache: Cache, books: seq<BookRow>, name: string, now: string): string {
    if HasNewBooks(cache.data, books) then now
    else if name in cache.titleBuildDate then cache.titleBuildDate[name]
    else now
  }

  function UpdatedBuildDates(cache: Cache, books: seq<BookRow>, name: string, now: string): map<string, string> {
    if HasNewBooks(cache.data, books) then cache.titleBuildDate[name := now] else cache.titleBuildDate
  }

  /** The values of `other` in the order `order` visits its keys. */
  function ValuesInOrder(other: map<string, string>, order: seq<string>): (r: seq<string>)
    requires forall i :: 0 <= i < |order| ==> order[i] in other
    ensures |r| == |order|
  {
    if order == [] then [] else [other[order[0]]] + ValuesInOrder(other, order[1..])
  }

  lemma {:induction false} ValuesConcat(other: map<string, string>, x: seq<string>, y: seq<string>)
    requires forall i :: 0 <= i < |x| ==> x[i] in other
    requires forall i :: 0 <= i < |y| ==> y[i] in other
    ensures forall i :: 0 <= i < |x + y| ==> (x + y)[i] in other
    ensures ValuesInOrder(other, x + y) == ValuesInOrder(other, x) + ValuesInOrder(other, y)
  {
    if x == [] {
      assert x + y == y;
    } else {
      assert (x + y)[1..] == x[1..] + y;
      ValuesConcat(other, x[1..], y);
      AppendAssoc([other[x[0]]], ValuesInOrder(other, x[1..]), ValuesInOrder(other, y));
    }
  }

  /** `order` visits every key of `other` exactly once. */
  predicate Enumerates(order: seq<string>, other: map<string, string>) {
    && (forall i :: 0 <= i < |order| ==> order[i] in other)
    && (forall k :: k in other ==> k in order)
    && (forall i, j :: 0 <= i < j < |order| ==> order[i] != order[j])
  }

  /** The alternative titles: the values sorted ascending and joined with `", "`. */
  function AltTitles(other: map<string, string>, order: seq<string>): string
    requires Enumerates(order, other)
  {
    Join(Sort(ValuesInOrder(other, order)), ", ")
  }

  /** The search URL for the title, used as the item's guid. */
  function Guid(title: string): string {
    GetData.SearchUrl + GetData.CleanQuery(title)
  }

  /** The channel header with its image block and dates, line by line. */
  function HeaderLines(entry: WatchlistEntry, now: string, buildDate: string): (r: seq<string>)
    ensures |r| == 13
  {
    [ "<?xml version=\"1.0\" encoding=\"UTF-8\" ?>",
      "<rss version=\"2.0\">",
      "<channel>",
      "    <title>" + entry.name + "</title>",
      "    <link>" + FeedLink + "</link>",
      "    <description>VBT feed for: " + entry.name + "</description>",
      "    <image>",
      "        <url>" + entry.cover + "</url>",
      "        <title>" + entry.name + "</title>",
      "        <link>" + FeedLink + "</link>",
      "    </image>",
      "    <pubDate>" + now + "</pubDate>",
      "    <lastBuildDate>" + buildDate + "</lastBuildDate>" ]
  }

  /** One `<item>` block, line by line; nothing inserted is escaped. */
  function ItemLines(book: BookRow, alt: string, cover: string, mimeType: string, date: string): (r: seq<string>)
    ensures |r| == 8
  {
    [ "    <item>",
      "        <title>" + book.title + "</title>",
      "        <link>" + FeedLink + "</link>",
      "        <description>Author: " + book.author + " | Translator: " + book.translator
        + " | ISBN: " + book.isbn + " | Alternative Titles: " + alt + "</description>",
      "        <enclosure url=\"" + cover + "\" length=\"0\" type=\"" + mimeType + "\"></enclosure>",
      "        <guid>" + Guid(book.title) + "</guid>",
      "        <pubDate>" + date + "</pubDate>",
      "    </item>" ]
  }

  /** The item blocks, one per book in order, dated from the cache as it was on entry. */
  function ItemsLines(books: seq<BookRow>, alt: string, cover: string, data: map<string, string>, now: string): (r: seq<string>)
    ensures |r| == 8 * |books|
  {
    if books == [] then []
    else
      var book := books[|books| - 1];
      ItemsLines(books[..|books| - 1], alt, cover, data, now) + ItemLines(book, alt, cover, Mime.MimeType(cover), DateFor(data, CacheKey(book), now))
  }

  /** The item lines hold one block per book, in input order: block `k`
      is book `k`'s, dated from the cache as it was on entry. */
  lemma {:induction false} ItemsLinesAt(books: seq<BookRow>, alt: string, cover: string,
                                        data: map<string, string>, now: string, k: nat)
    requires k < |books|
    ensures ItemsLines(books, alt, cover, data, now)[8 * k..8 * k + 8]
         == ItemLines(books[k], alt, cover, Mime.MimeType(cover), DateFor(data, CacheKey(books[k]), now))
  {
    var n := |books|;
    var init := ItemsLines(books[..n - 1], alt, cover, data, now);
    var last := ItemLines(books[n - 1], alt, cover, Mime.MimeType(cover), DateFor(data, CacheKey(books[n - 1]), now));
    assert ItemsLines(books, alt, cover, data, now) == init + last;
    if k < n - 1 {
      ItemsLinesAt(books[..n - 1], alt, cover, data, now, k);
      assert books[..n - 1][k] == books[k];
      BlockBefore(init, last, k);
    } else {
      BlockAtEnd(init, last, k);
    }
  }

  /** A block of eight inside the first part of a concatenation. */
  lemma BlockBefore<T>(init: seq<T>, last: seq<T>, k: nat)
    requires 8 * k + 8 <= |init|
    ensures (init + last)[8 * k..8 * k + 8] == init[8 * k..8 * k + 8]
  {
  }

  /** The block of eight right after a prefix of `k` blocks. */
  lemma BlockAtEnd<T>(init: seq<T>, last: seq<T>, k: nat)
    requires |init| == 8 * k && |last| == 8
    ensures (init + last)[8 * k..8 * k + 8] == last
  {
  }

  /** The whole feed text: the header and item lines, each ending in a
      newline, then the closing tags with no newline after them. */
  function FeedText(entry: WatchlistEntry, now: string, buildDate: string, alt: string,
                    books: seq<BookRow>, data: map<string, string>): string
  {
    Render(HeaderLines(entry, now, buildDate) + ItemsLines(books, alt, entry.cover, data, now)) + Closing
  }

  /** `generate_rss`: returns the feed text and the cache it saves. */
  method GenerateRss(books: seq<BookRow>, entry: WatchlistEntry, now: string, file: CacheFile, order: seq<string>)
    returns (rss: string, cache: Cache)
    requires Enumerates(order, entry.other)
    ensures var loaded := LoadCache(file);
      && rss == FeedText(entry, now, BuildDate(loaded, books, entry.name, now),
                         AltTitles(entry.other, order), books, loaded.data)
      && cache.data == StampDates(loaded.data, books, now)
      && cache.titleBuildDate == UpdatedBuildDates(loaded, books, entry.name, now)
  {
    cache := LoadCache(file);
    ghost var loaded := cache;
    var buildDate;
    cache, buildDate := UpdateBuildDate(cache, books, entry.name, now);
    var head := HeaderLines(entry, now, buildDate);
    var values := ValuesInOrder(entry.other, order);
    var titles := new string[|values|](k requires 0 <= k < |values| => values[k]);
    assert titles[..] == values;
    SortInPlace(titles);
    var alt := Join(titles[..], ", ");
    var data;
    rss, data := EmitItems(books, alt, entry.cover, now, cache.data, Render(head));
    cache := cache.(data := data);
    RenderConcat(head, ItemsLines(books, alt, entry.cover, loaded.data, now));
    rss := rss + Closing;
  }

  /** The `new_titles` test: when a book's key is not cached, record `now`
      as the entry's build date and use it; otherwise use the stored date,
      or `now` when none is stored. */
  method UpdateBuildDate(cache0: Cache, books: seq<BookRow>, name: string, now: string)
    returns (cache: Cache, buildDate: string)
    ensures cache == cache0.(titleBuildDate := UpdatedBuildDates(cache0, books, name, now))
    ensures buildDate == BuildDate(cache0, books, name, now)
  {
    cache := cache0;
    var newTitles := NewTitles(cache.data, books);
    if newTitles != {} {
      cache := cache.(titleBuildDate := cache.titleBuildDate[name := now]);
      buildDate := now;
    } else {
      buildDate := if name in cache.titleBuildDate then cache.titleBuildDate[name] else now;
    }
  }

  /** The `for book in books` loop: stamp each book's key with `now` unless
      it has a date, and append the book's item block dated from the cache. */
  method EmitItems(books: seq<BookRow>, alt: string, cover: string, now: string,
                   data0: map<string, string>, rss0: string)
    returns (rss: string, data: map<string, string>)
    ensures data == StampDates(data0, books, now)
    ensures rss == rss0 + Render(ItemsLines(books, alt, cover, data0, now))
  {
    rss, data := rss0, data0;
    assert rss0 + Render(ItemsLines(books[..0], alt, cover, data0, now)) == rss0;
    for i := 0 to |books|
      invariant data == StampDates(data0, books[..i], now)
      invariant rss == rss0 + Render(ItemsLines(books[..i], alt, cover, data0, now))
    {
      EmitStep(books, i, alt, cover, now, data0, rss0);
      var key := CacheKey(books[i]);
      if key !in data {
        data := data[key := now];
      }
      rss := rss + Render(ItemLines(books[i], alt, cover, Mime.MimeType(cover), data[key]));
    }
    assert books[..|books|] == books;
  }

  /** One turn of the loop: the stamped map and the text grow by book `i`. */
  lemma EmitStep(books: seq<BookRow>, i: nat, alt: string, cover: string, now: string,
                 data0: map<string, string>, rss0: string)
    requires i < |books|
    ensures var data := StampDates(data0, books[..i], now);
      var key := CacheKey(books[i]);
      var data' := if key in data then data else data[key := now];
      && data' == StampDates(data0, books[..i + 1], now)
      && rss0 + Render(ItemsLines(books[..i], alt, cover, data0, now))
           + Render(ItemLines(books[i], alt, cover, Mime.MimeType(cover), data'[key]))
         == rss0 + Render(ItemsLines(books[..i + 1], alt, cover, data0, now))
  {
    var book := books[i];
    assert books[..i + 1] == books[..i] + [book];
    StampDatesSnoc(data0, books[..i], book, now);
    ItemsLinesSnoc(books[..i], book, alt, cover, data0, now);
    StampedLookup(data0, books[..i], now, CacheKey(book));
    var done := ItemsLines(books[..i], alt, cover, data0, now);
    var item := ItemLines(book, alt, cover, Mime.MimeType(cover), DateFor(data0, CacheKey(book), now));
    RenderConcat(done, item);
    AppendAssoc(rss0, Render(done), Render(item));
  }

  lemma StampDatesSnoc(data: map<string, string>, books: seq<BookRow>, book: BookRow, now: string)
    ensures var before := StampDates(data, books, now);
      StampDates(data, books + [book], now)
        == if CacheKey(book) in before then before else before[CacheKey(book) := now]
  {
    assert (books + [book])[..|books|] == books;
  }

  lemma ItemsLinesSnoc(books: seq<BookRow>, book: BookRow, alt: string, cover: string,
                       data: map<string, string>, now: string)
    ensures ItemsLines(books + [book], alt, cover, data, now)
      == ItemsLines(books, alt, cover, data, now)
         + ItemLines(book, alt, cover, Mime.MimeType(cover), DateFor(data, CacheKey(book), now))
  {
    assert (books + [book])[..|books|] == books;
  }

  /** Stamping keeps every date already cached and adds `now` for each new key. */
  lemma {:induction false} StampDatesSpec(data: map<string, string>, books: seq<BookRow>, now: string)
    ensures StampDates(data, books, now).Keys == data.Keys + KeysOf(books)
    ensures forall k :: k in data ==> StampDates(data, books, now)[k] == data[k]
    ensures forall k :: k in KeysOf(books) && k !in data ==> StampDates(data, books, now)[k] == now
  {
    if books != [] {
      var init := books[..|books| - 1];
      StampDatesSpec(data, init, now);
      KeysOfSnoc(books);
    }
  }

  lemma KeysOfSnoc(books: seq<BookRow>)
    requires books != []
    ensures KeysOf(books) == KeysOf(books[..|books| - 1]) + {CacheKey(books[|books| - 1])}
  {
    var init := books[..|books| - 1];
    forall k | k in KeysOf(books) ensures k in KeysOf(init) + {CacheKey(books[|books| - 1])} {
      var i :| 0 <= i < |books| && k == CacheKey(books[i]);
      if i < |books| - 1 { assert k == CacheKey(init[i]); }
    }
    forall k | k in KeysOf(init) ensures k in KeysOf(books) {
      var i :| 0 <= i < |init| && k == CacheKey(init[i]);
      assert k == CacheKey(books[i]);
    }
  }

  /** Looking a key up after stamping gives its cached date, or `now`. */
  lemma {:induction false} StampedLookup(data: map<string, string>, books: seq<BookRow>, now: string, key: string)
    ensures DateFor(StampDates(data, books, now), key, now) == DateFor(data, key, now)
  {
    if books != [] {
      StampedLookup(data, books[..|books| - 1], now, key);
    }
  }

  /** The date an item is published under is the date its key has in the
      cache that is saved. */
  lemma StampedDateIsDateFor(data: map<string, string>, books: seq<BookRow>, now: string, i: nat)
    requires i < |books|
    ensures CacheKey(books[i]) in StampDates(data, books, now)
    ensures StampDates(data, books, now)[CacheKey(books[i])] == DateFor(data, CacheKey(books[i]), now)
  {
    StampDatesSpec(data, books, now);
    assert CacheKey(books[i]) in KeysOf(books);
  }

  /** The build-date map gains `name := now` exactly when some book is new,
      and is otherwise untouched; `lastBuildDate` is `now` in the first
      case and the stored date (or `now`) in the second. */
  lemma BuildDateSpec(cache: Cache, books: seq<BookRow>, name: string, now: string)
    ensures HasNewBooks(cache.data, books) ==>
      && BuildDate(cache, books, name, now) == now
      && UpdatedBuildDates(cache, books, name, now) == cache.titleBuildDate[name := now]
    ensures !HasNewBooks(cache.data, books) ==>
      && UpdatedBuildDates(cache, books, name, now) == cache.titleBuildDate
      && BuildDate(cache, books, name, now) == DateFor(cache.titleBuildDate, name, now)
  {
  }

  /** A second run over the same books finds nothing new: the saved cache
      is unchanged and `lastBuildDate` stays at the date stored by the
      first run. */
  lemma SecondRunFindsNothingNew(cache: Cache, books: seq<BookRow>, name: string, now: string, later: string)
    ensures var saved := Cache(StampDates(cache.data, books, now), UpdatedBuildDates(cache, books, name, now));
      && !HasNewBooks(saved.data, books)
      && StampDates(saved.data, books, later) == saved.data
      && UpdatedBuildDates(saved, books, name, later) == saved.titleBuildDate
      && (HasNewBooks(cache.data, books) ==> BuildDate(saved, books, name, later) == now)
  {
    var saved := Cache(StampDates(cache.data, books, now), UpdatedBuildDates(cache, books, name, now));
    StampedHasAllKeys(cache.data, books, now);
    StampDatesAllKnown(saved.data, books, later);
  }

  /** After stamping, every book's key is cached. */
  lemma StampedHasAllKeys(data: map<string, string>, books: seq<BookRow>, now: string)
    ensures !HasNewBooks(StampDates(data, books, now), books)
  {
    forall i | 0 <= i < |books| ensures CacheKey(books[i]) in StampDates(data, books, now) {
      StampedDateIsDateFor(data, books, now, i);
    }
  }

  /** Stamping books whose keys are all cached changes nothing. */
  lemma {:induction false} StampDatesAllKnown(data: map<string, string>, books: seq<BookRow>, now: string)
    requires !HasNewBooks(data, books)
    ensures StampDates(data, books, now) == data
  {
    if books != [] {
      var init := books[..|books| - 1];
      assert !HasNewBooks(data, init) by {
        forall i | 0 <= i < |init| ensures CacheKey(init[i]) in data {
          assert init[i] == books[i];
        }
      }
      StampDatesAllKnown(data, init, now);
      assert CacheKey(books[|books| - 1]) in data;
    }
  }

  /** On a second run every item keeps the date the first run gave it. */
  lemma SecondRunKeepsDates(cache: Cache, books: seq<BookRow>, now: string, later: string)
    ensures var data := StampDates(cache.data, books, now);
      forall i :: 0 <= i < |books| ==>
        DateFor(data, CacheKey(books[i]), later) == DateFor(cache.data, CacheKey(books[i]), now)
  {
    forall i | 0 <= i < |books|
      ensures DateFor(StampDates(cache.data, books, now), CacheKey(books[i]), later)
           == DateFor(cache.data, CacheKey(books[i]), now)
    {
      StampedDateIsDateFor(cache.data, books, now, i);
    }
  }

  /** In a sequence without repeats each element occurs once. */
  lemma {:induction false} DistinctOccursOnce(a: seq<string>, x: string)
    requires forall i, j :: 0 <= i < j < |a| ==> a[i] != a[j]
    ensures multiset(a)[x] == if x in a then 1 else 0
  {
    if a != [] {
      DistinctOccursOnce(a[1..], x);
      assert a == [a[0]] + a[1..];
      assert a[0] !in a[1..] by {
        forall k | 0 <= k < |a[1..]| ensures a[1..][k] != a[0] {
          assert a[1..][k] == a[k + 1];
        }
      }
    }
  }

  /** Two enumerations of the same keys hold the same keys, up to order. */
  lemma EnumerationsPermute(other: map<string, string>, a: seq<string>, b: seq<string>)
    requires Enumerates(a, other) && Enumerates(b, other)
    ensures multiset(a) == multiset(b)
  {
    forall x ensures multiset(a)[x] == multiset(b)[x] {
      DistinctOccursOnce(a, x);
      DistinctOccursOnce(b, x);
    }
  }

  /** Taking one key out of an enumeration takes its value out of the values. */
  lemma ValuesRemoveAt(other: map<string, string>, b: seq<string>, j: nat)
    requires j < |b| && forall i :: 0 <= i < |b| ==> b[i] in other
    ensures multiset(ValuesInOrder(other, b))
         == multiset(ValuesInOrder(other, b[..j] + b[j + 1..])) + multiset{other[b[j]]}
  {
    var x, y := b[..j], b[j + 1..];
    assert b[j..] == [b[j]] + y;
    assert x + b[j..] == b;
    ValuesConcat(other, x, b[j..]);
    ValuesConcat(other, [b[j]], y);
    ValuesConcat(other, x, y);
  }

  /** Removing the same key from two permutations leaves two permutations. */
  lemma RemoveMatching(a: seq<string>, b: seq<string>, j: nat)
    requires a != [] && j < |b| && b[j] == a[0] && multiset(a) == multiset(b)
    ensures multiset(a[1..]) == multiset(b[..j] + b[j + 1..])
  {
    var b' := b[..j] + b[j + 1..];
    assert a == [a[0]] + a[1..];
    assert b == b[..j] + ([b[j]] + b[j + 1..]) by {
      assert b == b[..j] + b[j..] && b[j..] == [b[j]] + b[j + 1..];
    }
    assert multiset(b') == multiset(b) - multiset{a[0]};
    assert multiset(a[1..]) == multiset(a) - multiset{a[0]};
  }

  /** Every element of `s` is a key of `other`. */
  predicate KeysIn(s: seq<string>, other: map<string, string>) {
    forall i :: 0 <= i < |s| ==> s[i] in other
  }

  lemma RemoveAtKeys(other: map<string, string>, b: seq<string>, j: nat)
    requires j < |b| && forall i :: 0 <= i < |b| ==> b[i] in other
    ensures KeysIn(b[..j] + b[j + 1..], other)
  {
    var b' := b[..j] + b[j + 1..];
    forall i | 0 <= i < |b'| ensures b'[i] in other {
      if i < j { assert b'[i] == b[i]; } else { assert b'[i] == b[i + 1]; }
    }
  }

  /** Looking up a permutation of keys gives a permutation of values. */
  lemma {:induction false} ValuesPermute(other: map<string, string>, a: seq<string>, b: seq<string>)
    requires forall i :: 0 <= i < |a| ==> a[i] in other
    requires forall i :: 0 <= i < |b| ==> b[i] in other
    requires multiset(a) == multiset(b)
    ensures multiset(ValuesInOrder(other, a)) == multiset(ValuesInOrder(other, b))
    decreases |a|
  {
    if a != [] {
      assert a[0] in multiset(b) by {
        assert a == [a[0]] + a[1..];
      }
      var j :| 0 <= j < |b| && b[j] == a[0];
      var b' := b[..j] + b[j + 1..];
      RemoveMatching(a, b, j);
      RemoveAtKeys(other, b, j);
      ValuesPermute(other, a[1..], b');
      ValuesRemoveAt(other, b, j);
    } else {
      assert |b| == |multiset(b)| == 0;
    }
  }

  /** The alternative titles do not depend on the order the map is visited in. */
  lemma AltTitlesOrderIndependent(other: map<string, string>, a: seq<string>, b: seq<string>)
    requires Enumerates(a, other) && Enumerates(b, other)
    ensures AltTitles(other, a) == AltTitles(other, b)
  {
    EnumerationsPermute(other, a, b);
    ValuesPermute(other, a, b);
    SortPermutationInvariant(ValuesInOrder(other, a), ValuesInOrder(other, b));
  }

  /** The guid is the first-page search URL for the title without its page parameter. */
  lemma GuidIsSearchUrl(title: string)
    ensures Guid(title) + "&p=" + NatToString(1) == GetData.FetchUrl(title, 1)
  {
  }
}
