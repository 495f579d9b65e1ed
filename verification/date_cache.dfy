/** The per-book date cache (crates/vbt/src/utils/cache.rs): two maps from
    text keys to dates, and the key rule `"{isbn}-{title}"`. Opening and
    decoding the file are inputs here. */
module DateCache {
  import opened Wrappers
  import opened Types

  datatype Cache = Cache(data: map<string, string>, titleBuildDate: map<string, string>)

  /** What reading the cache file produced: the file could not be opened,
      or it was opened and either decoded or not. */
  datatype CacheFile = NotOpened | Opened(decoded: Option<Cache>)

  /** `generate_cache_key`. */
  function CacheKey(book: BookRow): (key: string)
    ensures |key| == |book.isbn| + 1 + |book.title|
    ensures key[..|book.isbn|] == book.isbn && key[|book.isbn|] == '-' && key[|book.isbn| + 1..] == book.title
  {
    book.isbn + "-" + book.title
  }

  /** Rows that agree on ISBN and title share a key, whatever their other cells. */
  lemma SameIsbnAndTitleSameKey(a: BookRow, b: BookRow)
    requires a.isbn == b.isbn && a.title == b.title
    ensures CacheKey(a) == CacheKey(b)
  {
  }

  /** When neither ISBN holds a `-`, the key determines the ISBN and the title. */
  lemma KeyInjectiveWithoutDash(a: BookRow, b: BookRow)
    requires '-' !in a.isbn && '-' !in b.isbn
    ensures CacheKey(a) == CacheKey(b) <==> (a.isbn == b.isbn && a.title == b.title)
  {
    var ka, kb := CacheKey(a), CacheKey(b);
    if ka == kb {
      assert a.isbn == ka[..|a.isbn|] == b.isbn;
    }
  }

  /** The key is not injective in general: ISBN `a-b` with title `c` and
      ISBN `a` with title `b-c` both give `a-b-c`. */
  lemma KeyCollision(a: BookRow, b: BookRow)
    requires a.isbn == "a-b" && a.title == "c" && b.isbn == "a" && b.title == "b-c"
    ensures a.isbn != b.isbn && CacheKey(a) == CacheKey(b)
  {
    assert a.isbn[1] == '-' != b.isbn[0];
  }

  /** `load_cache`: the decoded cache when the file opens and decodes,
      otherwise both maps empty. */
  function LoadCache(file: CacheFile): (c: Cache)
    ensures file.Opened? && file.decoded.Some? ==> c == file.decoded.value
    ensures !(file.Opened? && file.decoded.Some?) ==> c.data == map[] && c.titleBuildDate == map[]
  {
    match file
    case Opened(Some(cache)) => cache
    case _ => Cache(map[], map[])
  }
}
