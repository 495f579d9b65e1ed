/** The record types shared by the Rust crate: a scraped table row
    (crates/vbt/src/types/book.rs) and a watchlist entry
    (crates/vbt/src/types/watchlist.rs). */
module Types {

  /** One publication-plan table row, its nine cells in column order. */
  datatype BookRow = BookRow(
    stt: string,
    isbn: string,
    title: string,
    author: string,
    translator: string,
    quantity: string,
    selfPublished: string,
    partner: string,
    registrationNumber: string)

  /** A watched series: its name, cover URL and alternate names keyed by
      `native`, `romaji` or `english`. */
  datatype WatchlistEntry = WatchlistEntry(name: string, cover: string, other: map<string, string>)
}
