# VBT in Dafny

VBT publishes RSS feeds of upcoming Vietnamese book releases. It has two halves that meet at one file path.

**The worker** is a Rust program run once a day. For every series in `watchlist.json` it:

- fetches the publishing-plan table of ppdvn.gov.vn;
- keeps the rows that have nine cells;
- writes `feed/json/<base>.json`;
- writes `feed/rss/<base>.rss`, dating each book from a per-book date cache;
- optionally posts a Discord webhook message.

The first failing step ends the run with its error. A small RSS 2.0 writer crate sits beside it. It builds a channel field by field and escapes the five markup characters of section 2.4 of XML 1.0 with the predefined entities of section 4.6.

**The landing page** is a React component. It reads a registry of `{repo, branch}` pairs and fetches each repository's `watchlist.json`. It turns every book into a feed descriptor whose link points at the `.rss` file the worker writes. It also offers a title filter.

The model replaces everything outside the process by inputs: the network, the files, the clock and the environment. What remains are functions, and methods with loops, over strings, sequences and maps. The modules follow the source files:

| module | file | models |
|---|---|---|
| `FeedLocator` | `feed_locator.dfy` | `pages/src/components/section/rss.tsx` |
| `RssWriter` | `rss_writer.dfy` | `crates/rss/src/write.rs` |
| `RssOps` | `rss_ops.dfy` | `crates/vbt/src/file_ops/rss_ops.rs` |
| `DateCache` | `date_cache.dfy` | `crates/vbt/src/utils/cache.rs` |
| `Mime` | `mime.dfy` | `crates/vbt/src/utils/url.rs` |
| `Watchlist` | `watchlist.dfy` | `crates/vbt/src/services/watchlist.rs` |
| `GetData` | `get_data.dfy` | `crates/vbt/src/requests/get_data.rs` |
| `Discord` | `discord.dfy` | `crates/vbt/src/discord/send.rs` |
| `Worker` | `worker.dfy` | `crates/vbt/src/main.rs` |
| `StemAgreement` | `stem_agreement.dfy` | where the page's link meets the worker's output path |

Supporting modules:

- `Types` holds `BookRow` and `WatchlistEntry`.
- `JsonValue` holds the `serde_json::Value` shape.
- `Text` holds `replace`, `trim`, `split`, `join`, `contains` and line rendering.
- `StrOrder` holds Rust's string order and `slice::sort`.
- `Wrappers` holds `Option` and `Result`.

Each part takes the form of its source:

- **Updated in place.** The `Channel` builder is a class whose methods update its fields. `fetchFeeds`, `load_watchlist`, `extract_table_data`, the item loop of `generate_rss`, `process_watchlist` and `main` are methods with loops. `titles.sort()` is an in-place insertion sort on an array.
- **Pure.** `escape_xml`, the cache key, the MIME match and the per-book normalisation are functions.

Each method is proved equal to a specification function, and the properties are proved about those functions.

The model reproduces several quirks of the code rather than fixing them:

- The writer crate's item date line ends in `</pubDate` with no closing `>` (`ItemDateLineUnclosed`).
- That line prints the date's display form, while the channel dates use RFC 2822.
- `generate_rss` inserts names, covers and book cells into its XML without escaping.
- The cache key is not injective (`KeyCollision`).
- The page and the worker choose the file stem differently when a book has two `romaji` names or an empty one (`TwoRomajisDisagree`, `EmptyRomajiDisagrees`).
- The page replaces only the space character when it builds the file stem, and so does the worker. The model follows the code, so `A/B: C` gives `A/B:_C` (`OnlySpacesRewritten`).

## Model

| member | source | states |
|---|---|---|
| FeedLocator.FirstRomaji | pages/src/components/section/rss.tsx:80 | `find` yields a romaji exactly when some entry has a non-empty one, and what it yields is never empty |
| FeedLocator.FirstRomajiIsFirst | pages/src/components/section/rss.tsx:80 | the romaji chosen is that of the first entry carrying a non-empty one |
| FeedLocator.StemChoice | pages/src/components/section/rss.tsx:79-81 | the stem's source is the name when no entry has a non-empty romaji, otherwise the first such romaji |
| FeedLocator.FileStemProperties | pages/src/components/section/rss.tsx:81 | the stem has the chosen name's length, holds no space, keeps every non-space character in place and is a fixed point of the rewrite |
| FeedLocator.OnlySpacesRewritten | pages/src/components/section/rss.tsx:81 | `/` and `:` pass through: `A/B: C` becomes `A/B:_C` |
| FeedLocator.OwnerAndRepoOfUrl | pages/src/components/section/rss.tsx:72-73 | for `https://host/owner/repo` the 4th and 5th `/`-parts are the owner and the repository |
| FeedLocator.NormalizeAll | pages/src/components/section/rss.tsx:78-90 | one feed per book, in watchlist order, each the normalisation of its book |
| FeedLocator.LinkDependsOnStemOnly | pages/src/components/section/rss.tsx:83-89 | the title is the book's name and the cover is copied; books with the same stem in one source get the same link |
| FeedLocator.MaiburuExample | pages/src/components/section/rss.tsx:83-89 | a book with romaji `Maiburu` in `github.com/owner1/repoA` on `main` gets its display title, its cover, provider `owner1`, repository `repoA` and the link template filled with those values |
| FeedLocator.AggregateLayout | pages/src/components/section/rss.tsx:71-92 | the aggregate has one feed per book of all sources together, book `j` of source `i` at its registry-then-watchlist place; nothing is dropped, merged or de-duplicated |
| FeedLocator.AggregateSnoc | pages/src/components/section/rss.tsx:92 | handling one more source appends exactly its feeds |
| FeedLocator.Fetched | pages/src/components/section/rss.tsx:71-76 | every registry entry is paired, in order, with the watchlist fetched from its URL |
| FeedLocator.FetchedSnoc | pages/src/components/section/rss.tsx:71-92 | fetching one more watchlist extends the fetched prefix by that entry |
| FeedLocator.FetchFeeds | pages/src/components/section/rss.tsx:59-105 | the run never stays loading; it is ready exactly when the registry and every watchlist were fetched, and then holds the aggregate; otherwise it fails with "Failed to fetch RSS feeds" and publishes nothing |
| FeedLocator.EmptyRegistryIsReady | pages/src/components/section/rss.tsx:71-96 | an empty registry is a successful run with no feeds |
| FeedLocator.FilterTitle | pages/src/components/section/rss.tsx:108 | the result is the subsequence of feeds with that title, with each such feed's multiplicity kept and every other feed's dropped |
| FeedLocator.Filter | pages/src/components/section/rss.tsx:107-109 | no selection, or the empty string, leaves the list as it is; otherwise only feeds with the selected title remain, all of them, in order, each as many times as in the input |
| FeedLocator.FilterNoMatch | pages/src/components/section/rss.tsx:107-109 | a selection no feed carries gives an empty list |
| FeedLocator.Toggle | pages/src/components/section/rss.tsx:172-174 | choosing the selected title clears the selection; choosing any other title selects it |
| FeedLocator.ToggleThenFilter | pages/src/components/section/rss.tsx:172-174 | after choosing a new non-empty title, only that title's feeds are shown |
| RssWriter.Item.New | crates/rss/src/write.rs:176-190 | a new item has the given fields, no enclosure and the date `now` |
| RssWriter.Item.WithEnclosure | crates/rss/src/write.rs:192-203 | sets the enclosure and nothing else |
| RssWriter.Item.WithPubDate | crates/rss/src/write.rs:205-208 | sets the date and nothing else |
| RssWriter.EscapeXmlIsPerChar | crates/rss/src/write.rs:211-218 | because `&` is replaced first, the replace chain equals escaping each character once; no entity is escaped twice |
| RssWriter.EscapeXmlOne | crates/rss/src/write.rs:213-217 | each of the five markup characters becomes its entity and every other character stays |
| RssWriter.EscapeXmlConcat | crates/rss/src/write.rs:211-218 | escaping distributes over concatenation |
| RssWriter.EscapedHasNoMarkup | crates/rss/src/write.rs:211-218 | escaped text holds none of `<`, `>`, `"`, `'` |
| RssWriter.PerCharLength | crates/rss/src/write.rs:211-218 | escaping never shortens text, keeps its length exactly when the text has no markup character, and otherwise introduces an `&` |
| RssWriter.EscapeIdentity | crates/rss/src/write.rs:211-218 | text without markup characters is written unchanged |
| RssWriter.EscapeIdempotentIff | crates/rss/src/write.rs:211-218 | escaping twice equals escaping once exactly when the text has no markup character |
| RssWriter.EscapeExample | crates/rss/src/write.rs:240-243 | `Test & <test> "quoted"` is written `Test &amp; &lt;test&gt; &quot;quoted&quot;` (for any markup-free text in place of the words) |
| RssWriter.EscapeEntityAgain | crates/rss/src/write.rs:213-217 | an existing entity is escaped again: `&lt;` becomes `&amp;lt;` |
| RssWriter.ItemDateLineUnclosed | crates/rss/src/write.rs:141 | the item's date line is the `<pubDate>` element without its final `>`, and ends in `e` |
| RssWriter.ItemsLinesConcat | crates/rss/src/write.rs:121-143 | the item blocks of two lists are the blocks of the first followed by those of the second |
| RssWriter.ChannelLineCount | crates/rss/src/write.rs:88-149 | the document has 10 lines of its own, 5 more with an image, plus each item's block |
| RssWriter.BuildFraming | crates/rss/src/write.rs:91-146 | the document opens with the XML declaration, `<rss version="2.0">` and `<channel>`, and closes with `</channel>` and `</rss>` |
| RssWriter.ImageBlockIff | crates/rss/src/write.rs:102-119 | the `<image>` block is there exactly when an image was set, and the two RFC 2822 dates follow right after it |
| RssWriter.EnclosureLineIff | crates/rss/src/write.rs:131-140 | an item's enclosure line is there exactly when it has an enclosure, just before its guid line |
| RssWriter.TitlesVerbatim | crates/rss/src/write.rs:225-237 | markup-free channel and item titles are written verbatim, as in `<title>Test Channel</title>` and `<title>Test Item</title>` |
| RssWriter.AppendItemLines | crates/rss/src/write.rs:121-146 | one more item adds its block just before the two closing lines and changes nothing before it |
| RssWriter.Channel.constructor | crates/rss/src/write.rs:36-51 | a new channel has the given texts, no image, no items and both dates `now` |
| RssWriter.Channel.SetImage | crates/rss/src/write.rs:53-65 | sets the image; no other field changes |
| RssWriter.Channel.SetPubDate | crates/rss/src/write.rs:67-70 | sets `pubDate`; no other field changes |
| RssWriter.Channel.SetLastBuildDate | crates/rss/src/write.rs:72-75 | sets `lastBuildDate`; no other field changes |
| RssWriter.Channel.AddItem | crates/rss/src/write.rs:77-80 | appends exactly one item at the end, so the document gains its block before the closing lines; no other field changes |
| RssWriter.Channel.AddItems | crates/rss/src/write.rs:83-86 | appends all given items in order; no other field changes |
| RssWriter.Channel.Build | crates/rss/src/write.rs:88-149 | the text written is the rendering of the channel's lines, each followed by a newline |
| RssOps.NewTitles | crates/vbt/src/file_ops/rss_ops.rs:16-20 | the set of uncached keys is empty exactly when every book's key is cached |
| RssOps.UpdateBuildDate | crates/vbt/src/file_ops/rss_ops.rs:22-35 | the build-date map gains `name := now` when some book is new; `lastBuildDate` is `now` then, and otherwise the stored date or `now` |
| RssOps.BuildDateSpec | crates/vbt/src/file_ops/rss_ops.rs:22-35 | `title_build_date[name]` becomes `now` exactly when a book key was missing, and the map is otherwise untouched; `lastBuildDate` follows |
| RssOps.EmitItems | crates/vbt/src/file_ops/rss_ops.rs:71-103 | the loop leaves the stamped cache and appends one item block per book, each dated from the cache as it was on entry |
| RssOps.ItemsLinesAt | crates/vbt/src/file_ops/rss_ops.rs:71-103 | block `k` of the item lines is book `k`'s, in input order, dated by its cached date or `now` |
| RssOps.StampDatesSpec | crates/vbt/src/file_ops/rss_ops.rs:72-78 | after stamping, the keys are the old keys plus every book's key; old keys keep their dates and new keys get `now` |
| RssOps.StampedDateIsDateFor | crates/vbt/src/file_ops/rss_ops.rs:74-78 | the date an item shows is the date its key has in the cache that is saved |
| RssOps.StampedLookup | crates/vbt/src/file_ops/rss_ops.rs:74-78 | a key's date after stamping is its cached date, or `now` |
| RssOps.StampedHasAllKeys | crates/vbt/src/file_ops/rss_ops.rs:72-78 | after stamping no book is new |
| RssOps.StampDatesAllKnown | crates/vbt/src/file_ops/rss_ops.rs:74-78 | stamping books that are all cached changes nothing |
| RssOps.SecondRunFindsNothingNew | crates/vbt/src/file_ops/rss_ops.rs:16-35 | a second run over the same books finds nothing new, leaves the saved cache as it is and keeps the first run's `lastBuildDate` |
| RssOps.SecondRunKeepsDates | crates/vbt/src/file_ops/rss_ops.rs:74-78 | on a second run every item keeps the date the first run gave it |
| RssOps.ValuesPermute | crates/vbt/src/file_ops/rss_ops.rs:62-66 | visiting the keys in a permuted order yields a permutation of the values |
| RssOps.EnumerationsPermute | crates/vbt/src/file_ops/rss_ops.rs:62-66 | two orders that each visit every key once are permutations of each other |
| RssOps.AltTitlesOrderIndependent | crates/vbt/src/file_ops/rss_ops.rs:61-69 | the alternative titles do not depend on the order the `HashMap` is visited in |
| RssOps.GuidIsSearchUrl | crates/vbt/src/file_ops/rss_ops.rs:97-100 | the guid is the page-1 search URL of the title without its `&p=1` suffix |
| RssOps.GenerateRss | crates/vbt/src/file_ops/rss_ops.rs:12-112 | the text is the header, the sorted and joined alternative titles and one block per book, dated as above, ending in `</channel>\n</rss>`; the cache returned is the stamped cache with the updated build dates; the text does not depend on how the save ends |
| StrOrder.LessEqTotal | crates/vbt/src/file_ops/rss_ops.rs:67 | any two strings are comparable (with `LessEqReflexive`, `LessEqAntisymmetric`, `LessEqTransitive`: a total order) |
| StrOrder.SortSpec | crates/vbt/src/file_ops/rss_ops.rs:67 | the sort yields the strings in non-decreasing order, as a permutation |
| StrOrder.InsertLast | crates/vbt/src/file_ops/rss_ops.rs:67 | one pass moves `a[i]` into its place in `a[..i]` and leaves the rest of the array alone |
| StrOrder.SortInPlace | crates/vbt/src/file_ops/rss_ops.rs:67 | the array ends up as the sort of its old contents |
| StrOrder.SortedUnique | crates/vbt/src/file_ops/rss_ops.rs:67 | two sorted arrangements of the same strings are equal |
| StrOrder.SortPermutationInvariant | crates/vbt/src/file_ops/rss_ops.rs:61-69 | sorting any permutation of the strings gives the same sequence |
| DateCache.CacheKey | crates/vbt/src/utils/cache.rs:11-13 | the key is the ISBN, a `-` and the title |
| DateCache.SameIsbnAndTitleSameKey | crates/vbt/src/utils/cache.rs:12 | rows equal on ISBN and title share a key whatever their other cells |
| DateCache.KeyInjectiveWithoutDash | crates/vbt/src/utils/cache.rs:12 | when neither ISBN holds a `-`, equal keys mean equal ISBN and title |
| DateCache.KeyCollision | crates/vbt/src/utils/cache.rs:12 | ISBN `a-b` with title `c` and ISBN `a` with title `b-c` collide |
| DateCache.LoadCache | crates/vbt/src/utils/cache.rs:15-25 | the decoded cache when the file opens and decodes, otherwise both maps empty |
| Mime.MimeType | crates/vbt/src/utils/url.rs:3-9 | one of exactly three types: PNG exactly for extension `png`, JPEG exactly for `jpg` or `jpeg`, octet-stream otherwise |
| Mime.FileName | crates/vbt/src/utils/url.rs:4 | the file name is a normal component: not empty, `.` or `..`, and without `/` |
| Mime.ExtensionAfterLastDot | crates/vbt/src/utils/url.rs:4 | the extension of a name with a non-empty stem is the text after its last dot |
| Mime.MimeOfPath | crates/vbt/src/utils/url.rs:4-8 | the type of `dir/stem.ext` follows `ext` alone, compared exactly |
| Mime.JpegAfterLastDot | crates/vbt/src/utils/url.rs:6 | `a.b.jpeg` is a JPEG |
| Mime.QueryNotStripped | crates/vbt/src/utils/url.rs:7 | `c.png?x=1` is an octet-stream |
| Mime.ExtensionCaseSensitive | crates/vbt/src/utils/url.rs:5-7 | `cover.PNG` is an octet-stream |
| Watchlist.LoadWatchlist | crates/vbt/src/services/watchlist.rs:5-34 | an open or parse failure is an error naming the file; otherwise one entry per array element, in order |
| Watchlist.Entries | crates/vbt/src/services/watchlist.rs:14-31 | as many entries as array elements |
| Watchlist.OtherKeys | crates/vbt/src/services/watchlist.rs:18 | the alternate-name map only has the keys `native`, `romaji` and `english` |
| Watchlist.EntryKeys | crates/vbt/src/services/watchlist.rs:14-30 | an entry's alternate names are keyed by the three looked-up keys only |
| Watchlist.FoldKeysLookup | crates/vbt/src/services/watchlist.rs:18-21 | a looked-up key the object carries a string for takes that value; every other key keeps the value it had |
| Watchlist.LastValueWins | crates/vbt/src/services/watchlist.rs:17-21 | a key's value comes from the last object carrying a string for it |
| Watchlist.UncarriedKeyAbsent | crates/vbt/src/services/watchlist.rs:16-21 | a key no object carries a string for is absent |
| GetData.CleanQuery | crates/vbt/src/requests/get_data.rs:6 | trailing whitespace is trimmed and each space becomes `+`, one for one |
| GetData.RowOf | crates/vbt/src/requests/get_data.rs:69-83 | a row becomes a book exactly when it has nine cells |
| GetData.BooksAt | crates/vbt/src/requests/get_data.rs:69-80 | book `k` is the one its row's nine cells map to, column by column |
| GetData.ExtractRowsFilterMap | crates/vbt/src/requests/get_data.rs:62-85 | extraction keeps exactly the nine-cell rows, in document order, and maps each to its book |
| GetData.TryExtract | crates/vbt/src/requests/get_data.rs:47-87 | an attempt yields the fetch error, "Table not found", or the extracted rows |
| GetData.ExtractTableData | crates/vbt/src/requests/get_data.rs:18-45 | one to three attempts, each for page 1 of the cleaned query, pausing only between attempts; a success or a non-retryable error ends the loop with that result; three missing tables give an empty result |
| Discord.DiscordEmbed.Default | crates/vbt/src/discord/send.rs:4-12 | `..Default::default()` leaves every optional part absent |
| Discord.FieldsJson | crates/vbt/src/discord/send.rs:55-66 | one object per field, in order, each reading back as its field |
| Discord.DecodeFieldsJson | crates/vbt/src/discord/send.rs:55-66 | the field list reads back as the fields it was built from |
| Discord.FooterObjectShape | crates/vbt/src/discord/send.rs:68-76 | the footer has `text`, and `icon_url` exactly when one is given |
| Discord.EmbedObjectFixedKeys | crates/vbt/src/discord/send.rs:49-53 | the embed object has `title`, `description` and `color` 0x00ff00, and no key outside the seven known ones |
| Discord.EmbedObjectOptionalKeys | crates/vbt/src/discord/send.rs:55-88 | `fields`, `footer`, `image` and `thumbnail` are present exactly when given; `image` and `thumbnail` hold only a `url` |
| Discord.EmbedObjectRoundTrip | crates/vbt/src/discord/send.rs:48-88 | the embed object reads back as the embed: nothing given is lost and nothing absent appears |
| Discord.FooterJson | crates/vbt/src/discord/send.rs:69-74 | the key-by-key footer object is the footer's object |
| Discord.EmbedJson | crates/vbt/src/discord/send.rs:49-88 | the key-by-key embed object is the embed's object |
| Discord.Payload | crates/vbt/src/discord/send.rs:44-89 | `content` is the given text; `embeds` is there exactly when an embed is given, holding one object that reads back as the embed |
| Worker.SendWebhookMessage | crates/vbt/src/main.rs:16-28 | with webhooks disabled nothing is posted and the result is success; otherwise one POST carrying the mention, and its error |
| Worker.ProcessEntry | crates/vbt/src/main.rs:33-83 | one iteration: fetch, JSON, store, message; a fetch or JSON failure names the entry in its error |
| Worker.StoreOutputs | crates/vbt/src/main.rs:53-82 | saves the JSON, generates and saves the RSS text, then sends the message, stopping at the first error |
| Worker.NotifyProcessed | crates/vbt/src/main.rs:66-82 | the processed message is posted only with webhooks enabled, to the `PROCESSED` URL |
| Worker.ProcessWatchlist | crates/vbt/src/main.rs:30-85 | the entries are processed in watchlist order and the first failing step's error is returned |
| Worker.DailyRun | crates/vbt/src/main.rs:88-145 | the start message, the watchlist run, then the finish message; the messages are sent only with webhooks enabled |
| Worker.FilenameBaseProperties | crates/vbt/src/main.rs:53-57 | the base is the `romaji` value whenever the key is present (even if empty), otherwise the name; spaces become `_` one for one and nothing else changes |
| Worker.OutputPathsShareBase | crates/vbt/src/main.rs:59-62 | the JSON and RSS paths carry the same base, and a JSON path is never an RSS path |
| Worker.EntriesKeysKnown | crates/vbt/src/services/watchlist.rs:14-30 | every loaded entry's alternate names use the three known keys |
| Worker.KeyOrderEnumerates | crates/vbt/src/file_ops/rss_ops.rs:62-66 | the fixed key order visits each key of the map once |
| Worker.NotifyShape | crates/vbt/src/main.rs:66-82 | the message step fetches and writes nothing, and posts only with webhooks enabled |
| Worker.StoreShape | crates/vbt/src/main.rs:59-82 | storing fetches nothing; on success it has written the JSON path and then the RSS path of the entry |
| Worker.AfterFetchShape | crates/vbt/src/main.rs:45-82 | after the fetch nothing more is fetched; on success the two files of the entry are written in order |
| Worker.EntryShape | crates/vbt/src/main.rs:33-82 | an iteration fetches its entry's rows first and nothing else |
| Worker.EffectsConcat | crates/vbt/src/main.rs:33-83 | fetches, writes and posts of consecutive steps follow each other |
| Worker.RunFetchesAll | crates/vbt/src/main.rs:33-84 | a successful run has fetched every entry's rows, in watchlist order |
| Worker.RunStopsAtFailure | crates/vbt/src/main.rs:33-62 | a failed run has fetched a non-empty prefix of the entries, ending at the failing one; later entries are not processed |
| Worker.RunWrites | crates/vbt/src/main.rs:53-62 | a successful run has written, in order, each entry's JSON and then its RSS path under one base |
| Worker.RunSilent | crates/vbt/src/main.rs:66 | with webhooks disabled the loop posts nothing |
| Worker.WatchlistRunSilent | crates/vbt/src/main.rs:30-85 | with webhooks disabled `process_watchlist` posts nothing |
| Worker.DailyRunWithoutWebhook | crates/vbt/src/main.rs:97-142 | with webhooks disabled `main` is `process_watchlist` and posts nothing |
| Worker.DailyRunSucceedsOnlyAfterRun | crates/vbt/src/main.rs:120-142 | `main` succeeds only when processing succeeded |
| Worker.DailyRunAfterStart | crates/vbt/src/main.rs:111-142 | once the start message is sent, the processing effects follow it; a processing error is returned unchanged with no further message; after success the last effect is the "Finished" message |
| StemAgreement.StemsAgree | pages/src/components/section/rss.tsx:79-81 | with at most one `romaji` per element, not empty, the page's stem equals the worker's file base (`main.rs:53-57` over `watchlist.rs:17-21`) |
| StemAgreement.LinkPointsAtWrittenFile | pages/src/components/section/rss.tsx:86 | then the page's link ends in the RSS path the worker writes |
| StemAgreement.TwoRomajisDisagree | crates/vbt/src/services/watchlist.rs:17-21 | with two romaji names the page takes the first and the worker the last |
| StemAgreement.EmptyRomajiDisagrees | crates/vbt/src/main.rs:53-57 | with an empty romaji the page falls back to the name while the worker keeps the empty string |
| Text.TrimEnd | crates/vbt/src/requests/get_data.rs:6 | `trim_end` removes exactly the trailing whitespace |
| Text.Trim | crates/vbt/src/requests/get_data.rs:67 | a trimmed cell neither starts nor ends with whitespace |
| Text.TrimIsSlice | crates/vbt/src/requests/get_data.rs:67 | a trimmed cell is a slice of the cell with only whitespace before and after it, so trimming removes whitespace and nothing else |
| Text.Split | pages/src/components/section/rss.tsx:72-73 | `split` gives at least one part and no part holds the separator |
| Text.JoinSplit | pages/src/components/section/rss.tsx:72-73 | joining the parts back with the separator gives the string |
| Text.ReplaceChar | crates/vbt/src/main.rs:57 | a one-character `replace` changes exactly the positions holding that character |
| Text.ContainsIff | crates/vbt/src/requests/get_data.rs:26 | `contains` holds exactly when the text occurs at some position |

## Left out

- Network I/O: `fetch` on the page, and `reqwest` in `get_data.rs` and `send.rs`. The fetched registry, the watchlists, the table rows and the POST outcome are inputs. An HTTP error status is not an error in the source either.
- HTML parsing by `scraper`: a page is a fetch error, a document without the table, or the table's rows as lists of cell texts.
- File I/O:
  - reading `watchlist.json` and `date_cache.json` is an input;
  - `save_json`, `save_rss` and `save_cache` are outcomes taken from `World`;
  - a failed cache save changes only the cache file left for the next entry (`CacheSave`), and its log line is not modelled.
- `write_to` and `save_to_file` of the writer crate, and `crates/vbt/src/file_ops/json_ops.rs` and `crates/vbt/src/utils/fs.rs`: they only forward errors.
- The clock (`crates/vbt/src/utils/time.rs`, `Utc::now()`): every reading is a parameter. Dates are opaque strings, or a pair of renderings in the writer crate.
- `sleep`: counted as `pauses` in `ExtractTableData`. The Tokio runtime is left out.
- `println!` and `eprintln!` logging.
- Environment variables (`crates/vbt/src/config/flag.rs`, `crates/vbt/src/discord/wh.rs`): `ft_webhook` is a parameter and the two webhook URLs are `Result` inputs.
- `return_json` (`crates/vbt/src/json/return_json.rs`) is an input, `World.jsonFor`.
- React state, rendering, clipboard and toast: the page's run is a `LoadState` value.
- `pages/src/app/page.tsx`: random layout and floating-point distances.
- `pages/next.config.ts`: build configuration only.
- The development registry URL chosen by `NODE_ENV`: the registry is an input.
- `crates/vbt/examples/discord_wh.rs`: a demo that calls `send`.
- `String::with_capacity`: a capacity hint with no effect on the text.
- Integer widths:
  - the run id and the next start time (`i64`) are unbounded integers;
  - the page number (`u8`) is a `nat`;
  - the enclosure length is a `u64` newtype, as in the source.
- Worker.KeyOrder: stands for the unspecified iteration order of the alternate-name `HashMap`. The model visits the keys as `native`, `romaji`, `english`. `RssOps.AltTitlesOrderIndependent` shows the text is the same for every order. `GenerateRss` takes any order that visits each key once.
- The TypeScript `romaji?: string` field may also hold a non-string value parsed from JSON. The model reads only string values, and any other value counts as absent. In the page, a truthy non-string `romaji` is still picked by `find`; `.replace` then throws (`rss.tsx:80-81`), so the run ends Failed. The model does not capture this path.
- Watchlist.LoadWatchlist: requires a well-formed array, because the source panics through `unwrap` on a non-array root or a missing or non-string `name` or `cover`.
- Mime.FileName: models `Path::file_name` on `/`-separated text only. Windows prefixes and other platform-specific path syntax are not modelled.
