/** Loading the watchlist: one entry per element of the parsed JSON array,
    in order, with the alternate names of its `other` list folded into a
    map in which a later value for a key replaces an earlier one. Opening
    and parsing the file are inputs. */
module Watchlist {
  import opened Wrappers
  import opened JsonValue
  import opened Types

  /** What reading `watchlist.json` produced. */
  datatype WatchlistFile =
    | OpenFailed(openError: string)
    | ParseFailed(parseError: string)
    | Parsed(json: Json)

  /** The keys looked up in each `other` object, in lookup order. */
  const TitleKeys: seq<string> := ["native", "romaji", "english"]

  /** `title[key].as_str()` is a string. */
  predicate Carries(title: Json, key: string) {
    AsStr(Get(title, key)).Some?
  }

  /** The `unwrap`s succeed: the root is an array and every element has a
      string `name` and `cover`. */
  predicate WellFormed(json: Json) {
    json.Arr? &&
    forall i :: 0 <= i < |json.items| ==>
      Carries(json.items[i], "name") && Carries(json.items[i], "cover")
  }

  /** Inserting the string values `title` has for `keys`, in order. */
  function FoldKeys(m: map<string, string>, title: Json, keys: seq<string>): map<string, string> {
    if keys == [] then m
    else
      var before := FoldKeys(m, title, keys[..|keys| - 1]);
      var key := keys[|keys| - 1];
      if Carries(title, key) then before[key := AsStr(Get(title, key)).value] else before
  }

  /** The alternate-name map after folding every object of `others`. */
  function FoldOther(others: seq<Json>): map<string, string> {
    if others == [] then map[]
    else FoldKeys(FoldOther(others[..|others| - 1]), others[|others| - 1], TitleKeys)
  }

  /** The alternate names of one element: a missing or non-array `other` gives none. */
  function OtherTitles(entry: Json): map<string, string> {
    match AsArray(Get(entry, "other"))
    case Some(others) => FoldOther(others)
    case None => map[]
  }

  /** The entry one well-formed element becomes. */
  function EntryOf(entry: Json): WatchlistEntry
    requires Carries(entry, "name") && Carries(entry, "cover")
  {
    WatchlistEntry(AsStr(Get(entry, "name")).value, AsStr(Get(entry, "cover")).value, OtherTitles(entry))
  }

  /** The entries of a well-formed array, element by element. */
  function Entries(json: Json): (r: seq<WatchlistEntry>)
    requires WellFormed(json)
    ensures |r| == |json.items|
  {
    seq(|json.items|, i requires 0 <= i < |json.items| && WellFormed(json) => EntryOf(json.items[i]))
  }

  /** The whole load: errors are reported with the file named, otherwise one
      entry per array element, in order. */
  method LoadWatchlist(file: WatchlistFile) returns (r: Result<seq<WatchlistEntry>, string>)
    requires file.Parsed? ==> WellFormed(file.json)
    ensures file.OpenFailed? ==> r == Err("Failed to open watchlist.json: " + file.openError)
    ensures file.ParseFailed? ==> r == Err("Failed to parse watchlist.json: " + file.parseError)
    ensures file.Parsed? ==> r == Ok(Entries(file.json))
    ensures file.Parsed? ==>
      && r.Ok? && |r.value| == |file.json.items|
      && forall i :: 0 <= i < |r.value| ==> r.value[i] == EntryOf(file.json.items[i])
  {
    match file
    case OpenFailed(e) =>
      return Err("Failed to open watchlist.json: " + e);
    case ParseFailed(e) =>
      return Err("Failed to parse watchlist.json: " + e);
    case Parsed(json) =>
      var items := json.items;
      var entries: seq<WatchlistEntry> := [];
      for i := 0 to |items|
        invariant |entries| == i
        invariant forall k :: 0 <= k < i ==> entries[k] == EntryOf(items[k])
      {
        var entry := items[i];
        var otherTitles: map<string, string> := map[];
        match AsArray(Get(entry, "other")) {
          case Some(other) =>
            for j := 0 to |other|
              invariant otherTitles == FoldOther(other[..j])
            {
              var title := other[j];
              ghost var before := otherTitles;
              for k := 0 to |TitleKeys|
                invariant otherTitles == FoldKeys(before, title, TitleKeys[..k])
              {
                var key := TitleKeys[k];
                assert TitleKeys[..k + 1][..k] == TitleKeys[..k];
                match AsStr(Get(title, key)) {
                  case Some(value) => otherTitles := otherTitles[key := value];
                  case None =>
                }
              }
              assert TitleKeys[..|TitleKeys|] == TitleKeys;
              assert other[..j + 1][..j] == other[..j];
            }
            assert other[..|other|] == other;
          case None =>
        }
        entries := entries + [WatchlistEntry(AsStr(Get(entry, "name")).value, AsStr(Get(entry, "cover")).value, otherTitles)];
      }
      assert entries == Entries(json);
      return Ok(entries);
  }

  /** Folding only ever inserts the keys it looks up. */
  lemma {:induction false} FoldKeysDomain(m: map<string, string>, title: Json, keys: seq<string>)
    ensures FoldKeys(m, title, keys).Keys <= m.Keys + set k | k in keys
  {
    if keys != [] {
      FoldKeysDomain(m, title, keys[..|keys| - 1]);
    }
  }

  /** An entry's alternate names are keyed by the three looked-up keys only. */
  lemma EntryKeys(entry: Json)
    requires Carries(entry, "name") && Carries(entry, "cover")
    ensures EntryOf(entry).other.Keys <= {"native", "romaji", "english"}
  {
    match AsArray(Get(entry, "other"))
    case Some(others) => OtherKeys(others);
    case None =>
  }

  /** The alternate-name map only has the keys `native`, `romaji` and `english`. */
  lemma {:induction false} OtherKeys(others: seq<Json>)
    ensures FoldOther(others).Keys <= {"native", "romaji", "english"}
  {
    if others != [] {
      OtherKeys(others[..|others| - 1]);
      FoldKeysDomain(FoldOther(others[..|others| - 1]), others[|others| - 1], TitleKeys);
    }
  }

  /** Folding one object: a looked-up key it carries takes its value, every
      other key keeps the value it had. */
  lemma {:induction false} FoldKeysLookup(m: map<string, string>, title: Json, keys: seq<string>, key: string)
    ensures var r := FoldKeys(m, title, keys);
      if key in keys && Carries(title, key) then key in r && r[key] == AsStr(Get(title, key)).value
      else (key in r <==> key in m) && (key in m ==> r[key] == m[key])
  {
    if keys != [] {
      var init := keys[..|keys| - 1];
      FoldKeysLookup(m, title, init, key);
      assert keys == init + [keys[|keys| - 1]];
    }
  }

  /** The value stored for a key comes from the last object carrying a
      string for it. */
  lemma {:induction false} LastValueWins(others: seq<Json>, key: string, i: nat)
    requires key in TitleKeys
    requires i < |others| && Carries(others[i], key)
    requires forall k :: i < k < |others| ==> !Carries(others[k], key)
    ensures key in FoldOther(others)
    ensures FoldOther(others)[key] == AsStr(Get(others[i], key)).value
  {
    var n := |others| - 1;
    FoldKeysLookup(FoldOther(others[..n]), others[n], TitleKeys, key);
    if i < n {
      LastValueWins(others[..n], key, i);
    }
  }

  /** A key no object carries a string for is absent. */
  lemma {:induction false} UncarriedKeyAbsent(others: seq<Json>, key: string)
    requires forall k :: 0 <= k < |others| ==> !Carries(others[k], key)
    ensures key !in FoldOther(others)
  {
    if others != [] {
      var n := |others| - 1;
      UncarriedKeyAbsent(others[..n], key);
      FoldKeysLookup(FoldOther(others[..n]), others[n], TitleKeys, key);
    }
  }
}
