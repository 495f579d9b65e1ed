/** The daily worker (crates/vbt/src/main.rs). For every watchlist entry it
    fetches the publishing-plan rows. It then writes the JSON and RSS files
    under a name derived from the entry and, when webhooks are enabled,
    posts a Discord message. The first failing step ends the run with its
    error. Everything outside the process is an input, gathered in `World`;
    what the run does outside the process is its list of `Effect`s. */
module Worker {
  import opened Wrappers
  import opened Text
  import opened Types
  import opened JsonValue
  import opened DateCache
  import opened Discord
  import Watchlist
  import RssOps

  const ProcessedMention: string := "<@&1304123731442012220>"
  const DailyMention: string := "<@&1304134014734434315>"

  /** The keys an alternate-name map can hold. */
  const TitleKeySet: set<string> := {"native", "romaji", "english"}

  /** What the run does outside the process, in order. */
  datatype Effect =
    | Fetched(query: string)
    | Wrote(path: string, content: string)
    | Posted(url: string, payload: Json)

  /** How a save of the date cache ends. When the file cannot be created the
      old file stays; when writing fails after it was created, the truncated
      file no longer decodes. */
  datatype CacheSave = Saved | CreateFailed | WriteFailed

  /** The answers of the outside world during one run:
      - `rowsFor`: what `extract_table_data` returns for a query;
      - `jsonFor`: what `return_json` returns;
      - `saveError`: the error of a file save at a path, if it fails;
      - `cacheSave`: how entry `i`'s save of the date cache ends;
      - `rssTime`, `footerTime`: the clock at entry `i`'s `generate_rss`
        and at its webhook footer;
      - `startTime`, `finishTime`: the clock at the two daily messages;
      - `processedUrl`, `dailyUrl`: the `PROCESSED` and `DAILY` variables;
      - `postError`: the error of a POST of a payload to a URL, if any. */
  datatype World = World(
    rowsFor: string -> Result<seq<BookRow>, string>,
    jsonFor: (string, seq<BookRow>) -> Result<string, string>,
    saveError: string -> Option<string>,
    cacheSave: nat -> CacheSave,
    rssTime: nat -> string,
    footerTime: nat -> string,
    startTime: string,
    finishTime: string,
    processedUrl: Result<string, string>,
    dailyUrl: Result<string, string>,
    postError: (string, Json) -> Option<string>)

  /** What a step, or a run, leaves behind: its effects, its error (none for
      `Ok(())`), and the date-cache file it leaves for the next load. */
  datatype Outcome = Outcome(effects: seq<Effect>, error: Option<string>, cacheFile: CacheFile)

  /** `entry.other.get("romaji").unwrap_or(&entry.name)`. */
  function BaseSource(entry: WatchlistEntry): string {
    if "romaji" in entry.other then entry.other["romaji"] else entry.name
  }

  /** `filename_base`: the chosen name with every space turned into `_`. */
  function FilenameBase(entry: WatchlistEntry): string {
    ReplaceChar(BaseSource(entry), ' ', '_')
  }

  function JsonPath(base: string): string { "feed/json/" + base + ".json" }

  function RssPath(base: string): string { "feed/rss/" + base + ".rss" }

  /** The keys of an alternate-name map in the order `native`, `romaji`,
      `english`. It stands for the order the `HashMap` is visited in, which
      the alternative titles do not depend on. */
  function KeyOrder(other: map<string, string>): seq<string> {
    (if "native" in other then ["native"] else [])
      + (if "romaji" in other then ["romaji"] else [])
      + (if "english" in other then ["english"] else [])
  }

  /** What the date cache file holds after a save of `cache`. */
  function AfterSave(file: CacheFile, cache: Cache, outcome: CacheSave): CacheFile {
    match outcome
    case Saved => Opened(Some(cache))
    case CreateFailed => file
    case WriteFailed => Opened(None)
  }

  function Footer(time: string): Option<EmbedFooter> {
    Some(EmbedFooter("VBT - " + time, None))
  }

  /** The message for one processed entry. */
  function ProcessedEmbed(entry: WatchlistEntry, id: int, time: string): DiscordEmbed {
    DiscordEmbed(entry.name, "Id: **" + IntToString(id) + "**", None, Footer(time), None,
      Some(EmbedThumbnail(entry.cover)))
  }

  function StartEmbed(id: int, time: string): DiscordEmbed {
    DiscordEmbed("A daily worker has started", "Id: " + IntToString(id), None, Footer(time), None, None)
  }

  /** `<t:…:R>` is Discord's relative-time markup. */
  function FinishEmbed(futureStart: int, time: string): DiscordEmbed {
    DiscordEmbed("Finished", "Next automatic worker is: <t:" + IntToString(futureStart) + ":R>",
      None, Footer(time), None, None)
  }

  /** The POST of a message with one embed. */
  function PostOf(url: string, mention: string, embed: DiscordEmbed): Effect {
    Posted(url, Obj(PayloadObject(mention, Some(embed))))
  }

  /** The error a POST of a message with one embed ends in, if any. */
  function PostError(world: World, url: string, mention: string, embed: DiscordEmbed): Option<string> {
    world.postError(url, Obj(PayloadObject(mention, Some(embed))))
  }

  /** The message about a stored entry: nothing when webhooks are disabled;
      otherwise the `PROCESSED` URL is read and the message posted. */
  function Notify(world: World, webhook: bool, id: int, i: nat, entry: WatchlistEntry, file: CacheFile): Outcome {
    if !webhook then Outcome([], None, file)
    else
      match world.processedUrl
      case Err(e) => Outcome([], Some(e), file)
      case Ok(url) =>
        var embed := ProcessedEmbed(entry, id, world.footerTime(i));
        Outcome([PostOf(url, ProcessedMention, embed)], PostError(world, url, ProcessedMention, embed), file)
  }

  /** The RSS text `generate_rss` returns for entry `i`, dated against the
      date cache in `file`. */
  function FeedOf(world: World, i: nat, entry: WatchlistEntry, rows: seq<BookRow>, file: CacheFile): string
    requires entry.other.Keys <= TitleKeySet
  {
    KeyOrderEnumerates(entry.other);
    var now := world.rssTime(i);
    var loaded := LoadCache(file);
    RssOps.FeedText(entry, now, RssOps.BuildDate(loaded, rows, entry.name, now),
      RssOps.AltTitles(entry.other, KeyOrder(entry.other)), rows, loaded.data)
  }

  /** The date cache file after entry `i`'s `generate_rss` saved its cache. */
  function CacheAfter(world: World, i: nat, entry: WatchlistEntry, rows: seq<BookRow>, file: CacheFile): CacheFile {
    var now := world.rssTime(i);
    var loaded := LoadCache(file);
    var cache := Cache(RssOps.StampDates(loaded.data, rows, now), RssOps.UpdatedBuildDates(loaded, rows, entry.name, now));
    AfterSave(file, cache, world.cacheSave(i))
  }

  /** Generating and saving the RSS file, then the message. */
  function StoreRss(world: World, webhook: bool, id: int, i: nat, entry: WatchlistEntry,
                    rows: seq<BookRow>, file: CacheFile): Outcome
    requires entry.other.Keys <= TitleKeySet
  {
    var path := RssPath(FilenameBase(entry));
    var next := CacheAfter(world, i, entry, rows, file);
    var rest := if world.saveError(path).Some? then Outcome([], world.saveError(path), next)
                else Notify(world, webhook, id, i, entry, next);
    Outcome([Wrote(path, FeedOf(world, i, entry, rows, file))] + rest.effects, rest.error, rest.cacheFile)
  }

  /** Saving the JSON file, then the RSS step. */
  function StoreJson(world: World, webhook: bool, id: int, i: nat, entry: WatchlistEntry,
                     rows: seq<BookRow>, json: string, file: CacheFile): Outcome
    requires entry.other.Keys <= TitleKeySet
  {
    var path := JsonPath(FilenameBase(entry));
    var rest := if world.saveError(path).Some? then Outcome([], world.saveError(path), file)
                else StoreRss(world, webhook, id, i, entry, rows, file);
    Outcome([Wrote(path, json)] + rest.effects, rest.error, rest.cacheFile)
  }

  /** After the fetch: a failed fetch or JSON rendering names the entry in
      its error; otherwise the files are stored. */
  function AfterFetch(world: World, webhook: bool, id: int, i: nat, entry: WatchlistEntry, file: CacheFile): Outcome
    requires entry.other.Keys <= TitleKeySet
  {
    var name := entry.name;
    match world.rowsFor(name)
    case Err(e) => Outcome([], Some("Failed to fetch data for " + name + ": " + e), file)
    case Ok(rows) =>
      match world.jsonFor(name, rows)
      case Err(e) => Outcome([], Some("Failed to generate JSON for " + name + ": " + e), file)
      case Ok(json) => StoreJson(world, webhook, id, i, entry, rows, json, file)
  }

  /** One iteration of the `for entry in watchlist` loop, entry number `i`. */
  function EntryRun(world: World, webhook: bool, id: int, i: nat, entry: WatchlistEntry, file: CacheFile): Outcome
    requires entry.other.Keys <= TitleKeySet
  {
    var rest := AfterFetch(world, webhook, id, i, entry, file);
    Outcome([Fetched(entry.name)] + rest.effects, rest.error, rest.cacheFile)
  }

  predicate KeysKnown(entries: seq<WatchlistEntry>) {
    forall i :: 0 <= i < |entries| ==> entries[i].other.Keys <= TitleKeySet
  }

  /** The loop over `entries`, numbered from `start`: stop at the first step
      that fails, otherwise go on with the cache file the step left. */
  function Run(world: World, webhook: bool, id: int, entries: seq<WatchlistEntry>, start: nat, file: CacheFile): Outcome
    requires KeysKnown(entries)
    decreases |entries|
  {
    if entries == [] then Outcome([], None, file)
    else
      var first := EntryRun(world, webhook, id, start, entries[0], file);
      if first.error.Some? then first
      else
        var rest := Run(world, webhook, id, entries[1..], start + 1, first.cacheFile);
        Outcome(first.effects + rest.effects, rest.error, rest.cacheFile)
  }

  /** `process_watchlist`: load the watchlist, then run the loop over it. */
  function WatchlistRun(world: World, webhook: bool, id: int, watchlist: Watchlist.WatchlistFile, file: CacheFile): Outcome
    requires watchlist.Parsed? ==> Watchlist.WellFormed(watchlist.json)
  {
    match watchlist
    case OpenFailed(e) => Outcome([], Some("Failed to open watchlist.json: " + e), file)
    case ParseFailed(e) => Outcome([], Some("Failed to parse watchlist.json: " + e), file)
    case Parsed(json) =>
      EntriesKeysKnown(json);
      Run(world, webhook, id, Watchlist.Entries(json), 0, file)
  }

  /** `main`: the start message, the watchlist, then the finish message,
      the two messages only when webhooks are enabled. */
  function DailyOutcome(world: World, webhook: bool, id: int, futureStart: int,
                   watchlist: Watchlist.WatchlistFile, file: CacheFile): Outcome
    requires watchlist.Parsed? ==> Watchlist.WellFormed(watchlist.json)
  {
    Announce(world, webhook, id, futureStart, WatchlistRun(world, webhook, id, watchlist, file), file)
  }

  /** `main` around the outcome `run` of `process_watchlist`: without
      webhooks, just `run`; otherwise the start message first, then `run`,
      then the finish message when `run` succeeded. */
  function Announce(world: World, webhook: bool, id: int, futureStart: int, run: Outcome, file: CacheFile): Outcome {
    if !webhook then run
    else
      match world.dailyUrl
      case Err(e) => Outcome([], Some(e), file)
      case Ok(url) =>
        var start := StartEmbed(id, world.startTime);
        var started := [PostOf(url, DailyMention, start)];
        if PostError(world, url, DailyMention, start).Some? then
          Outcome(started, PostError(world, url, DailyMention, start), file)
        else if run.error.Some? then Outcome(started + run.effects, run.error, run.cacheFile)
        else
          var finish := FinishEmbed(futureStart, world.finishTime);
          Outcome(started + run.effects + [PostOf(url, "", finish)],
            PostError(world, url, "", finish), run.cacheFile)
  }

  /** `send_webhook_message`: posts the message only when webhooks are
      enabled, and otherwise does nothing and succeeds. */
  method SendWebhookMessage(world: World, webhook: bool, url: string, mention: string, embed: DiscordEmbed)
    returns (effects: seq<Effect>, error: Option<string>)
    ensures !webhook ==> effects == [] && error == None
    ensures webhook ==> effects == [PostOf(url, mention, embed)] && error == PostError(world, url, mention, embed)
    ensures webhook ==> effects[0].payload.fields["content"] == Str(mention)
  {
    effects, error := [], None;
    if webhook {
      var payload := Payload(mention, Some(embed));
      effects := [Posted(url, payload)];
      error := world.postError(url, payload);
    }
  }

  /** One iteration of the loop in `process_watchlist`. */
  method ProcessEntry(world: World, webhook: bool, id: int, i: nat, entry: WatchlistEntry, file: CacheFile)
    returns (o: Outcome)
    requires entry.other.Keys <= TitleKeySet
    ensures o == EntryRun(world, webhook, id, i, entry, file)
  {
    var name := entry.name;
    var rows;
    match world.rowsFor(name) {
      case Err(e) =>
        return Outcome([Fetched(name)], Some("Failed to fetch data for " + name + ": " + e), file);
      case Ok(r) =>
        rows := r;
    }
    var json;
    match world.jsonFor(name, rows) {
      case Err(e) =>
        return Outcome([Fetched(name)], Some("Failed to generate JSON for " + name + ": " + e), file);
      case Ok(j) =>
        json := j;
    }
    var stored := StoreOutputs(world, webhook, id, i, entry, rows, json, file);
    return Outcome([Fetched(name)] + stored.effects, stored.error, stored.cacheFile);
  }

  /** The rest of the iteration: save the JSON, generate and save the RSS,
      then send the message. */
  method StoreOutputs(world: World, webhook: bool, id: int, i: nat, entry: WatchlistEntry,
                      rows: seq<BookRow>, json: string, file: CacheFile)
    returns (o: Outcome)
    requires entry.other.Keys <= TitleKeySet
    ensures o == StoreJson(world, webhook, id, i, entry, rows, json, file)
  {
    var base := FilenameBase(entry);
    var saveError := world.saveError(JsonPath(base));
    if saveError.Some? {
      return Outcome([Wrote(JsonPath(base), json)], saveError, file);
    }
    KeyOrderEnumerates(entry.other);
    var rss, cache := RssOps.GenerateRss(rows, entry, world.rssTime(i), file, KeyOrder(entry.other));
    var next := AfterSave(file, cache, world.cacheSave(i));
    assert rss == FeedOf(world, i, entry, rows, file);
    var written := [Wrote(JsonPath(base), json), Wrote(RssPath(base), rss)];
    saveError := world.saveError(RssPath(base));
    if saveError.Some? {
      return Outcome(written, saveError, next);
    }
    var sent := NotifyProcessed(world, webhook, id, i, entry, next);
    assert written + sent.effects == [Wrote(JsonPath(base), json)] + ([Wrote(RssPath(base), rss)] + sent.effects);
    return Outcome(written + sent.effects, sent.error, next);
  }

  /** The `if config.ft_webhook` block at the end of the iteration. */
  method NotifyProcessed(world: World, webhook: bool, id: int, i: nat, entry: WatchlistEntry, file: CacheFile)
    returns (o: Outcome)
    ensures o == Notify(world, webhook, id, i, entry, file)
  {
    if !webhook {
      return Outcome([], None, file);
    }
    match world.processedUrl {
      case Err(e) =>
        return Outcome([], Some(e), file);
      case Ok(url) =>
        var sent, error := SendWebhookMessage(world, webhook, url, ProcessedMention,
                                              ProcessedEmbed(entry, id, world.footerTime(i)));
        return Outcome(sent, error, file);
    }
  }

  /** `process_watchlist`. */
  method ProcessWatchlist(world: World, webhook: bool, id: int, watchlist: Watchlist.WatchlistFile, file: CacheFile)
    returns (o: Outcome)
    requires watchlist.Parsed? ==> Watchlist.WellFormed(watchlist.json)
    ensures o == WatchlistRun(world, webhook, id, watchlist, file)
  {
    var loaded := Watchlist.LoadWatchlist(watchlist);
    if loaded.Err? {
      return Outcome([], Some(loaded.error), file);
    }
    var entries := loaded.value;
    EntriesKeysKnown(watchlist.json);
    ghost var total := Run(world, webhook, id, entries, 0, file);
    var effects: seq<Effect> := [];
    var cacheFile := file;
    for i := 0 to |entries|
      invariant KeysKnown(entries[i..])
      invariant var rest := Run(world, webhook, id, entries[i..], i, cacheFile);
        total == Outcome(effects + rest.effects, rest.error, rest.cacheFile)
    {
      assert entries[i..][0] == entries[i] && entries[i..][1..] == entries[i + 1..];
      var step := ProcessEntry(world, webhook, id, i, entries[i], cacheFile);
      if step.error.Some? {
        return Outcome(effects + step.effects, step.error, step.cacheFile);
      }
      AppendAssoc(effects, step.effects, Run(world, webhook, id, entries[i + 1..], i + 1, step.cacheFile).effects);
      effects := effects + step.effects;
      cacheFile := step.cacheFile;
    }
    return Outcome(effects, None, cacheFile);
  }

  /** `main`, after the environment is read: `id` is the run's Unix time
      stamp and `futureStart` the one a day later. */
  method DailyRun(world: World, webhook: bool, id: int, futureStart: int,
              watchlist: Watchlist.WatchlistFile, file: CacheFile)
    returns (o: Outcome)
    requires watchlist.Parsed? ==> Watchlist.WellFormed(watchlist.json)
    ensures o == DailyOutcome(world, webhook, id, futureStart, watchlist, file)
  {
    var effects: seq<Effect> := [];
    if webhook {
      match world.dailyUrl {
        case Err(e) =>
          return Outcome([], Some(e), file);
        case Ok(url) =>
          var sent, error := SendWebhookMessage(world, webhook, url, DailyMention, StartEmbed(id, world.startTime));
          if error.Some? {
            return Outcome(sent, error, file);
          }
          effects := sent;
      }
    }
    var run := ProcessWatchlist(world, webhook, id, watchlist, file);
    if run.error.Some? {
      return Outcome(effects + run.effects, run.error, run.cacheFile);
    }
    effects := effects + run.effects;
    if webhook {
      match world.dailyUrl {
        case Err(e) =>
          return Outcome(effects, Some(e), run.cacheFile);
        case Ok(url) =>
          var sent, error := SendWebhookMessage(world, webhook, url, "", FinishEmbed(futureStart, world.finishTime));
          return Outcome(effects + sent, error, run.cacheFile);
      }
    }
    return Outcome(effects, None, run.cacheFile);
  }

  lemma EntriesKeysKnown(json: Json)
    requires Watchlist.WellFormed(json)
    ensures KeysKnown(Watchlist.Entries(json))
  {
    forall i | 0 <= i < |json.items| ensures Watchlist.Entries(json)[i].other.Keys <= TitleKeySet {
      Watchlist.EntryKeys(json.items[i]);
    }
  }

  /** Every key of the map is listed once. */
  lemma KeyOrderEnumerates(other: map<string, string>)
    requires other.Keys <= TitleKeySet
    ensures RssOps.Enumerates(KeyOrder(other), other)
  {
  }

  /** The queries fetched, in order. */
  function Fetches(effects: seq<Effect>): seq<string> {
    if effects == [] then []
    else (if effects[0].Fetched? then [effects[0].query] else []) + Fetches(effects[1..])
  }

  /** The paths written, in order. */
  function Writes(effects: seq<Effect>): seq<string> {
    if effects == [] then []
    else (if effects[0].Wrote? then [effects[0].path] else []) + Writes(effects[1..])
  }

  /** The messages posted, in order. */
  function Posts(effects: seq<Effect>): seq<Effect> {
    if effects == [] then []
    else (if effects[0].Posted? then [effects[0]] else []) + Posts(effects[1..])
  }

  function Names(entries: seq<WatchlistEntry>): (r: seq<string>)
    ensures |r| == |entries|
  {
    if entries == [] then [] else [entries[0].name] + Names(entries[1..])
  }

  /** The JSON then the RSS path of each entry, in watchlist order. */
  function OutputPaths(entries: seq<WatchlistEntry>): (r: seq<string>)
    ensures |r| == 2 * |entries|
  {
    if entries == [] then []
    else [JsonPath(FilenameBase(entries[0])), RssPath(FilenameBase(entries[0]))] + OutputPaths(entries[1..])
  }

  lemma {:induction false} EffectsConcat(a: seq<Effect>, b: seq<Effect>)
    ensures Fetches(a + b) == Fetches(a) + Fetches(b)
    ensures Writes(a + b) == Writes(a) + Writes(b)
    ensures Posts(a + b) == Posts(a) + Posts(b)
  {
    if a != [] {
      assert (a + b)[1..] == a[1..] + b;
      EffectsConcat(a[1..], b);
      AppendAssoc(if a[0].Fetched? then [a[0].query] else [], Fetches(a[1..]), Fetches(b));
      AppendAssoc(if a[0].Wrote? then [a[0].path] else [], Writes(a[1..]), Writes(b));
      AppendAssoc(if a[0].Posted? then [a[0]] else [], Posts(a[1..]), Posts(b));
    } else {
      assert a + b == b;
    }
  }

  /** `filename_base` takes the `romaji` value whenever the key is there, even
      when it is empty, and otherwise the name. It rewrites each space to
      `_` one for one and touches nothing else, so re-applying the rewrite
      changes nothing. */
  lemma FilenameBaseProperties(entry: WatchlistEntry)
    ensures "romaji" in entry.other ==> |FilenameBase(entry)| == |entry.other["romaji"]|
    ensures "romaji" in entry.other && entry.other["romaji"] == "" ==> FilenameBase(entry) == ""
    ensures "romaji" !in entry.other ==> |FilenameBase(entry)| == |entry.name|
    ensures ' ' !in FilenameBase(entry)
    ensures ReplaceChar(FilenameBase(entry), ' ', '_') == FilenameBase(entry)
    ensures forall i :: 0 <= i < |FilenameBase(entry)| && BaseSource(entry)[i] != ' ' ==>
              FilenameBase(entry)[i] == BaseSource(entry)[i]
  {
    ReplaceCharRemoves(BaseSource(entry), ' ', '_');
    ReplaceCharIdempotent(BaseSource(entry), ' ', '_');
  }

  /** Both output paths carry the same base between a fixed directory and a
      fixed extension, and a JSON path is never an RSS path. */
  lemma OutputPathsShareBase(base: string, other: string)
    ensures JsonPath(base)[10..|JsonPath(base)| - 5] == base
    ensures RssPath(base)[9..|RssPath(base)| - 4] == base
    ensures JsonPath(base) != RssPath(other)
  {
    assert JsonPath(base)[5] == 'j';
    assert RssPath(other)[5] == 'r';
  }

  /** The message step neither fetches nor writes, and posts only when
      webhooks are enabled. */
  lemma NotifyShape(world: World, webhook: bool, id: int, i: nat, entry: WatchlistEntry, file: CacheFile)
    ensures var o := Notify(world, webhook, id, i, entry, file);
      Fetches(o.effects) == [] && Writes(o.effects) == [] && (!webhook ==> Posts(o.effects) == [])
  {
    var o := Notify(world, webhook, id, i, entry, file);
    assert |o.effects| <= 1 && (o.effects != [] ==> o.effects[0].Posted? && webhook);
    if o.effects != [] {
      assert o.effects[1..] == [];
    }
  }

  /** Storing writes the JSON path and then the RSS path when it succeeds,
      fetches nothing, and posts only when webhooks are enabled. */
  lemma StoreShape(world: World, webhook: bool, id: int, i: nat, entry: WatchlistEntry,
                   rows: seq<BookRow>, json: string, file: CacheFile)
    requires entry.other.Keys <= TitleKeySet
    ensures var o := StoreJson(world, webhook, id, i, entry, rows, json, file);
      && Fetches(o.effects) == []
      && (o.error.None? ==> Writes(o.effects) == [JsonPath(FilenameBase(entry)), RssPath(FilenameBase(entry))])
      && (!webhook ==> Posts(o.effects) == [])
  {
    var base := FilenameBase(entry);
    var path := RssPath(base);
    var next := CacheAfter(world, i, entry, rows, file);
    var tail := if world.saveError(path).Some? then Outcome([], world.saveError(path), next)
                else Notify(world, webhook, id, i, entry, next);
    NotifyShape(world, webhook, id, i, entry, next);
    var rss := StoreRss(world, webhook, id, i, entry, rows, file);
    EffectsConcat([Wrote(path, FeedOf(world, i, entry, rows, file))], tail.effects);
    var rest := if world.saveError(JsonPath(base)).Some? then Outcome([], world.saveError(JsonPath(base)), file)
                else rss;
    EffectsConcat([Wrote(JsonPath(base), json)], rest.effects);
  }

  /** After its fetch a step fetches nothing more; when it succeeds it has
      written the JSON and then the RSS file of its entry, and it has posted
      only when webhooks are enabled. */
  lemma AfterFetchShape(world: World, webhook: bool, id: int, i: nat, entry: WatchlistEntry, file: CacheFile)
    requires entry.other.Keys <= TitleKeySet
    ensures var o := AfterFetch(world, webhook, id, i, entry, file);
      && Fetches(o.effects) == []
      && (o.error.None? ==> Writes(o.effects) == [JsonPath(FilenameBase(entry)), RssPath(FilenameBase(entry))])
      && (!webhook ==> Posts(o.effects) == [])
  {
    match world.rowsFor(entry.name)
    case Err(_) =>
    case Ok(rows) =>
      match world.jsonFor(entry.name, rows)
      case Err(_) =>
      case Ok(json) => StoreShape(world, webhook, id, i, entry, rows, json, file);
  }

  /** A step fetches its entry's rows first and nothing else; when it
      succeeds it has written the JSON and then the RSS file of its entry,
      and it has posted only when webhooks are enabled. */
  lemma EntryShape(world: World, webhook: bool, id: int, i: nat, entry: WatchlistEntry, file: CacheFile)
    requires entry.other.Keys <= TitleKeySet
    ensures var o := EntryRun(world, webhook, id, i, entry, file);
      && Fetches(o.effects) == [entry.name]
      && (o.error.None? ==> Writes(o.effects) == [JsonPath(FilenameBase(entry)), RssPath(FilenameBase(entry))])
      && (!webhook ==> Posts(o.effects) == [])
  {
    AfterFetchShape(world, webhook, id, i, entry, file);
    EffectsConcat([Fetched(entry.name)], AfterFetch(world, webhook, id, i, entry, file).effects);
  }

  lemma KeysKnownTail(entries: seq<WatchlistEntry>)
    requires entries != [] && KeysKnown(entries)
    ensures entries[0].other.Keys <= TitleKeySet && KeysKnown(entries[1..])
  {
    forall i | 0 <= i < |entries[1..]| ensures entries[1..][i].other.Keys <= TitleKeySet {
      assert entries[1..][i] == entries[i + 1];
    }
  }

  /** A successful loop has fetched every entry's rows, in watchlist order. */
  lemma {:induction false} RunFetchesAll(world: World, webhook: bool, id: int, entries: seq<WatchlistEntry>, start: nat, file: CacheFile)
    requires KeysKnown(entries)
    ensures var o := Run(world, webhook, id, entries, start, file);
      o.error.None? ==> Fetches(o.effects) == Names(entries)
    decreases |entries|
  {
    if entries != [] {
      KeysKnownTail(entries);
      var first := EntryRun(world, webhook, id, start, entries[0], file);
      EntryShape(world, webhook, id, start, entries[0], file);
      if first.error.None? {
        var rest := Run(world, webhook, id, entries[1..], start + 1, first.cacheFile);
        RunFetchesAll(world, webhook, id, entries[1..], start + 1, first.cacheFile);
        EffectsConcat(first.effects, rest.effects);
      }
    }
  }

  /** A failed loop has fetched the rows of a non-empty prefix of the
      entries, in order, ending with the entry that failed: nothing after
      it was fetched. */
  lemma {:induction false} RunStopsAtFailure(world: World, webhook: bool, id: int, entries: seq<WatchlistEntry>, start: nat, file: CacheFile)
    requires KeysKnown(entries)
    ensures var o := Run(world, webhook, id, entries, start, file);
      o.error.Some? ==> 0 < |Fetches(o.effects)| <= |entries|
                        && Fetches(o.effects) == Names(entries)[..|Fetches(o.effects)|]
    decreases |entries|
  {
    if entries != [] {
      KeysKnownTail(entries);
      var first := EntryRun(world, webhook, id, start, entries[0], file);
      EntryShape(world, webhook, id, start, entries[0], file);
      if first.error.None? {
        var rest := Run(world, webhook, id, entries[1..], start + 1, first.cacheFile);
        RunStopsAtFailure(world, webhook, id, entries[1..], start + 1, first.cacheFile);
        StopsStep(first.effects, rest, entries[0].name, Names(entries[1..]));
      } else {
        assert Names(entries)[..1] == [entries[0].name];
      }
    }
  }

  /** The inductive step of `RunStopsAtFailure`, on the effects alone. */
  lemma StopsStep(first: seq<Effect>, rest: Outcome, name: string, names: seq<string>)
    requires Fetches(first) == [name]
    requires rest.error.Some? ==> 0 < |Fetches(rest.effects)| <= |names|
                                  && Fetches(rest.effects) == names[..|Fetches(rest.effects)|]
    ensures var fetched := Fetches(first + rest.effects);
      rest.error.Some? ==> 0 < |fetched| <= |names| + 1 && fetched == ([name] + names)[..|fetched|]
  {
    EffectsConcat(first, rest.effects);
    if rest.error.Some? {
      var n := |Fetches(rest.effects)|;
      assert ([name] + names)[..n + 1] == [name] + names[..n];
    }
  }

  /** A successful loop has written, in watchlist order, each entry's JSON
      file and then its RSS file, under the same base name. */
  lemma {:induction false} RunWrites(world: World, webhook: bool, id: int, entries: seq<WatchlistEntry>, start: nat, file: CacheFile)
    requires KeysKnown(entries)
    ensures var o := Run(world, webhook, id, entries, start, file);
      o.error.None? ==> Writes(o.effects) == OutputPaths(entries)
    decreases |entries|
  {
    if entries != [] {
      KeysKnownTail(entries);
      var first := EntryRun(world, webhook, id, start, entries[0], file);
      EntryShape(world, webhook, id, start, entries[0], file);
      if first.error.None? {
        var rest := Run(world, webhook, id, entries[1..], start + 1, first.cacheFile);
        RunWrites(world, webhook, id, entries[1..], start + 1, first.cacheFile);
        EffectsConcat(first.effects, rest.effects);
      }
    }
  }

  /** With webhooks disabled the loop posts nothing. */
  lemma {:induction false} RunSilent(world: World, id: int, entries: seq<WatchlistEntry>, start: nat, file: CacheFile)
    requires KeysKnown(entries)
    ensures Posts(Run(world, false, id, entries, start, file).effects) == []
    decreases |entries|
  {
    if entries != [] {
      KeysKnownTail(entries);
      var first := EntryRun(world, false, id, start, entries[0], file);
      EntryShape(world, false, id, start, entries[0], file);
      if first.error.None? {
        var rest := Run(world, false, id, entries[1..], start + 1, first.cacheFile);
        RunSilent(world, id, entries[1..], start + 1, first.cacheFile);
        EffectsConcat(first.effects, rest.effects);
      }
    }
  }

  lemma WatchlistRunSilent(world: World, id: int, watchlist: Watchlist.WatchlistFile, file: CacheFile)
    requires watchlist.Parsed? ==> Watchlist.WellFormed(watchlist.json)
    ensures Posts(WatchlistRun(world, false, id, watchlist, file).effects) == []
  {
    if watchlist.Parsed? {
      EntriesKeysKnown(watchlist.json);
      RunSilent(world, id, Watchlist.Entries(watchlist.json), 0, file);
    }
  }

  /** Webhooks are enabled and the start message went out. */
  predicate StartSent(world: World, webhook: bool, id: int) {
    && webhook && world.dailyUrl.Ok?
    && PostError(world, world.dailyUrl.value, DailyMention, StartEmbed(id, world.startTime)).None?
  }

  /** Without webhooks `main` is `process_watchlist` and posts nothing. */
  lemma DailyRunWithoutWebhook(world: World, id: int, futureStart: int,
                           watchlist: Watchlist.WatchlistFile, file: CacheFile)
    requires watchlist.Parsed? ==> Watchlist.WellFormed(watchlist.json)
    ensures var o := DailyOutcome(world, false, id, futureStart, watchlist, file);
      o == WatchlistRun(world, false, id, watchlist, file) && Posts(o.effects) == []
  {
    WatchlistRunSilent(world, id, watchlist, file);
  }

  /** `main` succeeds only when processing succeeded: a processing error is
      never swallowed. */
  lemma DailyRunSucceedsOnlyAfterRun(world: World, webhook: bool, id: int, futureStart: int, run: Outcome, file: CacheFile)
    ensures Announce(world, webhook, id, futureStart, run, file).error.None? ==> run.error.None?
  {
  }

  /** Once the start message is sent: the processing effects follow it; a
      processing error is returned unchanged and no further message is
      sent; after a successful run the last effect is the "Finished"
      message. */
  lemma DailyRunAfterStart(world: World, webhook: bool, id: int, futureStart: int, run: Outcome, file: CacheFile)
    requires StartSent(world, webhook, id)
    ensures var o := Announce(world, webhook, id, futureStart, run, file);
      && o.effects[1..|run.effects| + 1] == run.effects
      && (run.error.Some? ==> o.error == run.error && |o.effects| == |run.effects| + 1)
      && (run.error.None? ==> |o.effects| == |run.effects| + 2)
      && (run.error.None? ==>
            o.effects[|o.effects| - 1] == PostOf(world.dailyUrl.value, "", FinishEmbed(futureStart, world.finishTime)))
  {
    var started := [PostOf(world.dailyUrl.value, DailyMention, StartEmbed(id, world.startTime))];
    assert (started + run.effects)[1..] == run.effects;
  }
}
