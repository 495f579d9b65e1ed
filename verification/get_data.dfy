/** Fetching the publication-plan table for a series name: the query URL,
    the mapping of table rows to `BookRow`s, and the retry policy for a page
    whose table is missing. The HTTP request and the HTML parsing are
    inputs: a page is either a fetch error, a document without the table, or
    the table's rows as lists of cell texts. */
module GetData {
  import opened Wrappers
  import opened Text
  import opened Types

  const SearchUrl := "https://ppdvn.gov.vn/web/guest/ke-hoach-xuat-ban?query="
  const TableNotFound := "Table not found"
  const MaxRetries: nat := 3

  /** `query.trim_end().replace(" ", "+")`. */
  function CleanQuery(query: string): (r: string)
    ensures |r| == |TrimEnd(query)| && ' ' !in r
    ensures r == [] || !IsWhitespace(r[|r| - 1])
    ensures forall i :: 0 <= i < |r| ==> r[i] == if query[i] == ' ' then '+' else query[i]
  {
    ReplaceChar(TrimEnd(query), ' ', '+')
  }

  /** The search URL for one page of results. */
  function FetchUrl(query: string, page: nat): string {
    SearchUrl + CleanQuery(query) + "&p=" + NatToString(page)
  }

  /** What one request for the page produced. */
  datatype Page =
    | FetchFailed(fetchError: string)
    | NoTable
    | Table(rows: seq<seq<string>>)

  /** The nine cells of a row, each trimmed, in column order: `stt`,
      `isbn`, `title`, `author`, `translator`, `quantity`,
      `self_published`, `partner`, `registration_number`. */
  function BookOf(cells: seq<string>): BookRow
    requires |cells| == 9
  {
    BookRow(Trim(cells[0]), Trim(cells[1]), Trim(cells[2]), Trim(cells[3]), Trim(cells[4]),
      Trim(cells[5]), Trim(cells[6]), Trim(cells[7]), Trim(cells[8]))
  }

  /** A row becomes a book exactly when it has nine cells. */
  function RowOf(cells: seq<string>): (r: Option<BookRow>)
    ensures r.Some? <==> |cells| == 9
  {
    if |cells| == 9 then Some(BookOf(cells)) else None
  }

  /** The `filter_map` over the table rows. */
  function ExtractRows(rows: seq<seq<string>>): seq<BookRow> {
    if rows == [] then []
    else
      var init := ExtractRows(rows[..|rows| - 1]);
      match RowOf(rows[|rows| - 1])
      case Some(book) => init + [book]
      case None => init
  }

  /** The rows kept are the nine-cell rows, in document order. */
  function NineCellRows(rows: seq<seq<string>>): (r: seq<seq<string>>)
    ensures forall k :: 0 <= k < |r| ==> |r[k]| == 9
  {
    if rows == [] then []
    else NineCellRows(rows[..|rows| - 1]) + (if |rows[|rows| - 1]| == 9 then [rows[|rows| - 1]] else [])
  }

  /** The books of nine-cell rows, one per row, in order. */
  function Books(kept: seq<seq<string>>): (r: seq<BookRow>)
    requires forall k :: 0 <= k < |kept| ==> |kept[k]| == 9
    ensures |r| == |kept|
  {
    if kept == [] then []
    else Books(kept[..|kept| - 1]) + [BookOf(kept[|kept| - 1])]
  }

  /** The book at each position is the one its row maps to. */
  lemma {:induction false} BooksAt(kept: seq<seq<string>>, k: nat)
    requires forall i :: 0 <= i < |kept| ==> |kept[i]| == 9
    requires k < |kept|
    ensures Books(kept)[k] == BookOf(kept[k])
  {
    if k < |kept| - 1 {
      BooksAt(kept[..|kept| - 1], k);
    }
  }

  /** Extraction keeps exactly the nine-cell rows, in document order, and
      maps each to its book: a filter followed by a map. */
  lemma {:induction false} ExtractRowsFilterMap(rows: seq<seq<string>>)
    ensures ExtractRows(rows) == Books(NineCellRows(rows))
  {
    if rows != [] {
      var init := rows[..|rows| - 1];
      var last := rows[|rows| - 1];
      ExtractRowsFilterMap(init);
      if |last| == 9 {
        var kept := NineCellRows(init) + [last];
        assert NineCellRows(rows) == kept;
        assert kept[..|kept| - 1] == NineCellRows(init);
        assert ExtractRows(rows) == ExtractRows(init) + [BookOf(last)];
        assert Books(kept) == Books(NineCellRows(init)) + [BookOf(last)];
      } else {
        assert ExtractRows(rows) == ExtractRows(init);
        assert NineCellRows(rows) == NineCellRows(init);
      }
    }
  }

  /** One attempt: the fetch error, "Table not found", or the extracted rows. */
  function TryExtract(page: Page): (r: Result<seq<BookRow>, string>)
    ensures page.FetchFailed? ==> r == Err(page.fetchError)
    ensures page.NoTable? ==> r == Err(TableNotFound)
    ensures page.Table? ==> r == Ok(ExtractRows(page.rows))
  {
    match page
    case FetchFailed(e) => Err(e)
    case NoTable => Err(TableNotFound)
    case Table(rows) => Ok(ExtractRows(rows))
  }

  /** An attempt that is retried: an error whose text mentions a missing table. */
  predicate Retryable(r: Result<seq<BookRow>, string>) {
    r.Err? && Contains(r.error, TableNotFound)
  }

  /** Every attempt before `m` was retried, and so was attempt `m`: then every
      attempt up to `m` was. */
  lemma RetriedThrough(pageAt: nat -> Page, m: nat)
    requires forall n :: 1 <= n < m ==> Retryable(TryExtract(pageAt(n)))
    requires Retryable(TryExtract(pageAt(m)))
    ensures forall n :: 1 <= n < m + 1 ==> Retryable(TryExtract(pageAt(n)))
  {
  }

  /** One attempt of `extract_table_data`: a success is returned, an error
      mentioning a missing table is retried, any other error is returned. */
  method Attempt(page: Page) returns (outcome: Result<seq<BookRow>, string>, retry: bool)
    ensures outcome == TryExtract(page)
    ensures retry <==> Retryable(outcome)
  {
    outcome := TryExtract(page);
    match outcome
    case Ok(rows) =>
      retry := false;
    case Err(e) =>
      retry := Contains(e, TableNotFound);
  }

  /** `extract_table_data`: up to three attempts, pausing between attempts.
      `pageAt(n)` is what attempt `n` (from 1) receives; every attempt asks
      for page 1 of `query`. */
  method ExtractTableData(query: string, pageAt: nat -> Page)
    returns (result: Result<seq<BookRow>, string>, requests: seq<string>, pauses: nat)
    ensures 1 <= |requests| <= MaxRetries
    ensures forall k :: 0 <= k < |requests| ==> requests[k] == FetchUrl(query, 1)
    ensures pauses == |requests| - 1
    ensures forall n :: 1 <= n < |requests| ==> Retryable(TryExtract(pageAt(n)))
    ensures var last := TryExtract(pageAt(|requests|));
      if Retryable(last) then |requests| == MaxRetries && result == Ok([])
      else result == last
  {
    var url := FetchUrl(query, 1);
    requests, pauses := [], 0;
    var attempt: nat := 1;
    while attempt <= MaxRetries
      invariant 1 <= attempt <= MaxRetries + 1
      invariant |requests| == attempt - 1
      invariant pauses == if attempt <= MaxRetries then attempt - 1 else attempt - 2
      invariant forall k :: 0 <= k < |requests| ==> requests[k] == url
      invariant forall n :: 1 <= n < attempt ==> Retryable(TryExtract(pageAt(n)))
      decreases MaxRetries + 1 - attempt
    {
      requests := requests + [url];
      var outcome, retry := Attempt(pageAt(attempt));
      if !retry {
        assert pageAt(|requests|) == pageAt(attempt);
        return outcome, requests, pauses;
      }
      RetriedThrough(pageAt, attempt);
      if attempt < MaxRetries {
        pauses := pauses + 1;
      }
      attempt := attempt + 1;
    }
    assert Retryable(TryExtract(pageAt(|requests|)));
    result := Ok([]);
  }
}
