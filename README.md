# TrendTracker price history, modelled in Dafny

This project models the bookkeeping of `TrendTracker` in `scraper.py`: a
price tracker that, on each tick, fetches a product's price, appends it with
a time-of-day stamp to the CSV file `tracker_data.csv`, compares it with the
last stored price and prints a verdict, and at shutdown plots the history.

- `wrappers.dfy` — `Option`, the stand-in for Python's `None`.
- `store.dfy` (module `Store`) — the history file as a sequence of lines
  (a header line, then data lines); a missing file and a zero-byte file are
  both the empty sequence. `save_data`'s effect (`Saved`, `SavedAll`),
  reading the file back (`ReadAll`), the three-way comparison of
  `check_for_alerts` (`Classify`, `AlertFor`) and the guard of
  `visualize_trends` (`ChartOf`).
- `fetch.dfy` (module `Fetch`) — the currency stripping of `fetch_price`
  and its `None`-on-failure paths.
- `tracker.dfy` (module `Tracker`) — the class `TrendTracker` whose field
  `storage` is the file's contents, with `SaveData`, `CheckForAlerts`,
  `VisualizeTrends`, one tick of `run` (`Tick`) and a finite run (`Run`),
  together with the functions that specify a run and the lemmas about it.

Prices are a whole number of pence (`int`): the tracker only compares them.
Timestamps are opaque strings supplied with each tick. The fetch outcome of
a tick is an input, a price or `None`.

The central property: because `run` calls `save_data` before
`check_for_alerts`, the comparison is always made against the row that was
just written, so every verdict is "no change" (or none, when the file
cannot be read back): neither the drop alert nor the rise message can ever
appear. The order of the two
calls is a parameter (`Tracker.Order`) of the functions that specify a run,
so the corrected order, which reads the previous price before saving, is
modelled and proved beside the written one; `Run` follows the code as
written.

Three behaviours of the code that the model keeps as they are: only `£`
and `$` are stripped from the price text (thousands separators are not);
when no row is stored nothing is printed, rather than a "no prior data"
verdict; and the save comes before the comparison.

## Model

| member | source | states |
|---|---|---|
| `Store.Saved` | scraper.py:39-52 | one save adds exactly one data line for the new observation at the end; everything before it is the old file, or the header alone when the file was missing or empty; the store stays well-formed exactly when it was |
| `Store.SavedAll` | scraper.py:39-52 | N saves add at least N lines, and after at least one save the file ends with the line of the last observation saved |
| `Store.SavedAllShape` | scraper.py:39-52 | after any number of saves the file is its old contents (or the header, if it was empty and something was saved) followed by one data line per save in call order |
| `Store.SavedAllAppends` | scraper.py:50-52 | saving to a non-empty file keeps every existing line, header included, and appends one data line per observation in order |
| `Store.SavesFromEmpty` | scraper.py:44-52 | starting from a missing or zero-byte file, N saves give N+1 lines: the header at index 0 and the N rows in order after it, so the header appears only at index 0 |
| `Store.SavedAllWellFormed` | scraper.py:44-52 | saving never repairs or damages a store: the result is well-formed iff the original was, and is empty only if nothing was saved to an empty file |
| `Store.ReadAll` | scraper.py:59 | reading back gives "missing" exactly for an empty file, a failure exactly for a non-empty file that is not header-then-data-lines, and otherwise the observations of the lines below the header, in order |
| `Store.ReadAfterSaves` | scraper.py:39-59 | round trip: observations saved into an empty file read back exactly and in order |
| `Store.ReadAfterSave` | scraper.py:47-59 | round trip of one save on a readable store: the rows read back are the old rows with the new observation last |
| `Store.Classify` | scraper.py:62-67 | the verdict is a drop iff the current price is below the previous one, a rise iff above, no change iff equal |
| `Store.AlertFor` | scraper.py:54-70 | no verdict iff the file is missing or empty, cannot be read back, or holds only the header; otherwise the comparison with the price on the file's last line |
| `Store.AlertAfterSaves` | scraper.py:57-67 | on a file built by saves alone, the verdict compares with the most recently saved price, and there is none before the first save |
| `Store.ChartOf` | scraper.py:72-88 | the missing-file report exactly when the file is empty; a chart exactly when the first line is a header naming both `Timestamp` and `Price`, titled as given and plotting every line below the header; the missing-columns report otherwise; a well-formed non-empty store is always plotted |
| `Store.ChartAfterSaves` | scraper.py:78-87 | the chart of a file built by saves alone plots exactly the saved observations in order |
| `Fetch.RemoveChar` | scraper.py:32 | the result contains no occurrence of the removed character and no character that was not in the text |
| `Fetch.RemoveCharAppend` | scraper.py:32 | removing a character distributes over concatenation, so the order of what is kept is unchanged |
| `Fetch.RemoveAbsentChar` | scraper.py:32 | a text without the character is returned unchanged |
| `Fetch.RemoveCharCounts` | scraper.py:32 | every other character keeps its number of occurrences |
| `Fetch.StripCurrency` | scraper.py:31-32 | the stripped text contains neither `£` nor `$`, and only characters of the original text |
| `Fetch.StripCurrencyCounts` | scraper.py:32 | every character other than `£` and `$` occurs as often after stripping as before |
| `Fetch.StripCurrencyAppend` | scraper.py:32 | stripping distributes over concatenation: the kept characters stay in their order |
| `Fetch.StripCurrencySingle` | scraper.py:32 | a single character is dropped iff it is `£` or `$` |
| `Fetch.StripCurrencyPlain` | scraper.py:32 | text without currency symbols is left unchanged |
| `Fetch.StripCurrencyIdempotent` | scraper.py:32 | stripping twice is stripping once |
| `Fetch.FetchPrice` | scraper.py:19-37 | `None` when the request fails or the price element is absent; a price only as the parse of the element's text with its currency symbols removed (a parse failure is `None`) |
| `Tracker.SuccessesAreFetched` | scraper.py:100-103 | every observation a run saves is a tick's timestamp with the price that tick fetched; when every fetch succeeds each tick saves once, and when every fetch fails nothing is saved |
| `Tracker.AfterTick` | scraper.py:100-103 | a tick whose fetch gave `None` leaves the file as it was; a tick with a price appends exactly one data line for it (after the header, when the file was empty) and keeps everything before it |
| `Tracker.TickAlert` | scraper.py:100-104 | a tick without a price prints no verdict; saving first, any verdict compares the price with itself; reading first, any verdict compares the price with the last data line of the file as it was before the tick |
| `Tracker.TickThenRest` | scraper.py:99-104 | the saves of a run are the first tick's save (none on `None`) followed by those of the remaining ticks |
| `Tracker.AlertAt` | scraper.py:99-104 | tick i's verdict is the verdict of one tick made on the file that the first i ticks left behind |
| `Tracker.TickVerdictIsNoChange` | scraper.py:100-104 | a tick with no price gives no verdict; a tick with a price gives "no change" on any readable store and no verdict on an unreadable one, never a drop or a rise |
| `Tracker.RunVerdictsAreNoChange` | scraper.py:99-108 | across a whole run, whatever prices are fetched, every verdict is "no change" or none |
| `Tracker.CheckingFirstComparesWithPrior` | scraper.py:61-67 | with the previous price read before saving, a run from an empty file gives no verdict until a price has been saved and then compares each price with the last one saved before it |
| `Tracker.ThreeTicksAsWritten` | scraper.py:100-104 | ticks fetching 10.00, 9.50, 9.50 from an empty file print "no change" three times |
| `Tracker.ThreeTicksCheckingFirst` | scraper.py:61-67 | the same ticks, reading the previous price first, give no verdict, a drop, then no change |
| `Tracker.TrendTracker.constructor` | scraper.py:10-13 | a tracker keeps its URL and product name and starts from whatever the storage file already holds |
| `Tracker.TrendTracker.SaveData` | scraper.py:39-52 | the new file is the old one with the observation saved, as `Store.Saved` |
| `Tracker.TrendTracker.CheckForAlerts` | scraper.py:54-70 | the verdict is the one `Store.AlertFor` gives for the current file and price, and the file is not changed |
| `Tracker.TrendTracker.VisualizeTrends` | scraper.py:72-88 | the missing-file report exactly when the file is empty; a chart exactly when the first line is a header naming both `Timestamp` and `Price`, titled "Price Trend: " and the product name and plotting every line below the header; the missing-columns report otherwise |
| `Tracker.TrendTracker.Tick` | scraper.py:100-106 | the file is saved to on a price and untouched on `None`; the verdict is "no change" on a readable store, none otherwise |
| `Tracker.TrendTracker.TickComparingPrevious` | scraper.py:100-104 | the same file update, with the verdict taken against the file as it was before saving |
| `Tracker.TrendTracker.Run` | scraper.py:96-111 | after a series of ticks the file holds the old contents plus one row per successful fetch in order; the verdicts are the run's, each "no change" or none; the final chart is that of the resulting file |

## Findings

| source | as written | input that shows it | evidently intended | confidence | as-written member | corrected member |
|---|---|---|---|---|---|---|
| scraper.py:103-104 | `save_data` runs before `check_for_alerts`, so the last stored price is always the one just fetched | from an empty file, ticks fetching 10.00 then 9.50: the second tick prints "No change in price" | the second tick prints the drop alert, comparing 9.50 with the previous 10.00 | high; not executed | `Tracker.ThreeTicksAsWritten` | `Tracker.CheckingFirstComparesWithPrior` |

## Left out

- The HTTP request, its `User-Agent` header, `raise_for_status`, BeautifulSoup and the `.price_color` selector: network and foreign libraries; their outcome is the `Fetch.Response` input.
- `float(...)` on the stripped text: floating-point parsing; it is the `parse` parameter of `Fetch.FetchPrice`, which answers `None` where `float` raises. Prices are whole pence, so NaN, infinities and rounding are not modelled.
- `datetime.now().strftime`: the wall clock; each tick receives its timestamp.
- pandas CSV details (quoting, number formatting, type inference): the file is a sequence of lines. `Store.ReadAll` treats any header other than exactly `Timestamp,Price`, and any header line below the first, as a read failure; pandas would still read some such files (for example one whose header adds a third column).
- `Store.ChartOf`: does not carry the column names that `visualize_trends` prints when a column is missing.
- `Tracker.TrendTracker.VisualizeTrends` (and `Store.ChartOf`): does not model that a zero-byte file passes `os.path.isfile` and then makes `read_csv` raise outside any `try`, inside the interrupt handler of `run`, so the program ends with an error instead of a chart; missing and zero-byte files are one state here, and both give the missing-file report.
- The matplotlib drawing itself: user interface.
- Console messages ("Saved entry", "Starting tracker", errors): output only; a verdict is a `Change` value.
- Failures while writing the file in `save_data` are not caught by the code and would end the run; storage is modelled as always writable.
- `time.sleep`, `KeyboardInterrupt` and the unbounded `while True`: `Run` takes a finite series of ticks and then produces the chart, as the interrupt handler does.
- The `__main__` block: configuration only.
