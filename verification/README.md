# Yahoo Finance market-data updater — a Dafny model

`yahoo_market_updater.py` walks a fixed list of Canadian-listed symbols. It
reads each symbol's quote from Yahoo Finance and upserts one document per
symbol into the Firestore collection `market_data`. It has three update
functions, one per profile, each with its own copy of the same loop
(:108-180, :182-251, :253-314):

- `intraday` writes the realtime fields;
- `daily` writes the valuation fields;
- `weekly` writes the share-count fields.

This project models the deterministic core of that script and proves what it
promises:

- **Ticker normalisation** (`Normalize`): the chained `str.replace` that
  removes `.V`, `.TO` and `.CN`. It is modelled as a left-to-right,
  non-overlapping scan.
- **Field tables** (`Values`, `Dicts`, `Profiles`):
  - the three tables, exactly as written;
  - Python's `a or b` fallback, where `None` and a numeric zero are both
    falsy;
  - dict-literal evaluation, where a later key wins;
  - the flat backward-compatible copies of each field.
- **Document and upsert** (`Store`, `Document`):
  - the written document, with `ticker`, `fullTicker`, the nested section, the
    flat fields, the server-timestamp token and `dataSource`;
  - the `set(..., merge=True)` upsert into a store keyed by collection and
    document id.
- **Run loop** (`Pipeline`): the three copies of the loop differ only in
  the document they write, so the model folds them into one `Pipeline.Run`,
  parameterised by the profile's write planner:
  - one step per symbol, in list order;
  - a failed fetch or write increments `fail_count` and moves on;
  - a success increments `success_count`, prints a progress line when the
    1-based index is a multiple of 50, and pauses.
- **Entry point** (`Dispatch`): the update type from `argv`, which defaults to
  `intraday`. A failed store set-up, or an unknown type, ends with status 1.
  Otherwise the status is 0.

Three behaviours of the code are worth knowing:

- **Inner occurrences are removed.** The code removes every occurrence of
  `.V`, `.TO` and `.CN` in any position, not only a trailing exchange suffix
  (`Normalize.CleanRemovesInnerOccurrences`).
- **Cleaning is not idempotent.** `Normalize.CleanNotIdempotent` gives an
  input where cleaning twice differs from cleaning once.
- **Zero falls through.** `or` tests truthiness, so a present zero also falls
  through to the second quote field. A null-check fallback would keep the
  zero (`Values.OrVersusCoalesce`).

The store's `merge=True` is modelled as Firestore documents it. Top-level keys
of the update replace or add. A nested map is merged one level deep: keys of
the old nested map that are absent from the new one survive.
`Store.MergeIsOverride` shows that this equals a plain key-wise override
whenever the new nested map mentions every old key. `Document.OwnFieldsReplaced`
uses the same condition: a profile's write leaves exactly its new sub-map
whenever the stored sub-map holds only names from that profile's table. A
run starting from a store where every sub-map meets this condition keeps it
that way (`Pipeline.SectionsStayInTables`). An empty store meets it. A
sub-map that some other writer left with extra keys keeps those keys.

## Model

| member | source | states |
|---|---|---|
| Values.Or | yahoo_market_updater.py:133-137 | `a or b` yields one of its operands, is truthy exactly when either operand is, and skips a present zero |
| Values.OrVersusCoalesce | yahoo_market_updater.py:133 | `or` differs from a null-check fallback exactly when the first value is a present zero and the second is not zero |
| Values.OrExamples | yahoo_market_updater.py:206 | a zero first value yields the second, a missing first value yields the second, a non-zero first value is kept |
| Dicts.Literal | yahoo_market_updater.py:132-151 | a dict literal, as `Profiles.Section` and `Profiles.Flat` evaluate the tables, has exactly the keys it lists, and each key maps to the value of its last entry |
| Dicts.UniqueLiteral | yahoo_market_updater.py:143-151 | a literal without repeated keys has every entry as written and as many keys as entries |
| Normalize.Replace | yahoo_market_updater.py:129 | `str.replace` with an empty replacement never lengthens a string, shortens it when the pattern occurs, and changes nothing otherwise |
| Normalize.RemoveFirst | yahoo_market_updater.py:129 | replacing a dot-led pattern by nothing drops its first occurrence after a base free of it and carries on with the rest |
| Normalize.Clean | yahoo_market_updater.py:129 | the cleaned ticker is no longer than the original, and equals it exactly when none of `.V`, `.TO`, `.CN` occurs |
| Normalize.StripsExchangeSuffix | yahoo_market_updater.py:129 | a symbol free of the three patterns, followed by one exchange suffix, cleans to the bare symbol |
| Normalize.CleanIdempotentWhenFree | yahoo_market_updater.py:201 | a cleaned ticker free of the patterns cleans to itself |
| Normalize.CleanNotIdempotent | yahoo_market_updater.py:272 | cleaning twice can differ from cleaning once: `A..VV` cleans to `A.V`, which cleans to `A` |
| Normalize.CleanRemovesInnerOccurrences | yahoo_market_updater.py:129 | a `.V` in the middle of a dot-free symbol is removed too, not only a trailing suffix |
| Normalize.CleanInnerExample | yahoo_market_updater.py:129 | `AB.VC.TO` cleans to `ABC` |
| Normalize.CleanVentureExample | yahoo_market_updater.py:129 | `ORC-B.V` cleans to `ORC-B` |
| Normalize.CleanCanadianExample | yahoo_market_updater.py:129 | `SNDL.CN` cleans to `SNDL` |
| Normalize.CleanInnerDotsExample | yahoo_market_updater.py:129 | `BTC.PR.A.CN` cleans to `BTC.PR.A`: inner dots not followed by an exchange code survive |
| Profiles.TablesWellFormed | yahoo_market_updater.py:132-151 | within each table the nested names and the flat names are distinct |
| Profiles.SectionContents | yahoo_market_updater.py:132-141 | `Profiles.Section` evaluated over `Profiles.Table`: the nested section has exactly the table's names as keys, each holding its extracted value |
| Profiles.FlatContents | yahoo_market_updater.py:143-151 | `Profiles.Flat`, the `flat_data` copy: it has exactly the table's flat names, each holding the same value as its nested field |
| Profiles.FieldCounts | yahoo_market_updater.py:132-286 | the realtime and daily sections each have 7 fields and the monthly section has 3, as do their flat copies |
| Profiles.ExtractSemantics | yahoo_market_updater.py:132-141 | `Profiles.Extract` over `Values.Get` (`info.get`), against a null-check reference: a direct field is the snapshot's value or `None` when missing; a fallback field is the first present of its two keys, except that a present zero primary also gives way to the secondary |
| Profiles.RealtimeFields | yahoo_market_updater.py:132-151 | the rows of `Profiles.Table(Realtime)`: each realtime field and its flat copy is read from the quote keys the code names, with the five `or` fallbacks and two direct reads |
| Profiles.DailyFields | yahoo_market_updater.py:204-223 | each daily field and its flat copy is read from the code's quote keys, with the three `or` fallbacks |
| Profiles.MonthlyFields | yahoo_market_updater.py:275-286 | shares outstanding, EPS (trailing, else forward) and float, with their flat copies |
| Profiles.PriceFallsThrough | yahoo_market_updater.py:133 | when `currentPrice` is missing or zero, the price is `regularMarketPrice`, whatever it is |
| Profiles.PriceFallbackExample | yahoo_market_updater.py:133 | a missing `currentPrice` with a non-zero `regularMarketPrice` stores the latter |
| Profiles.ZeroChangeKept | yahoo_market_updater.py:139 | a present zero change is stored as zero: it has no fallback |
| Profiles.ZeroPeFallsToNone | yahoo_market_updater.py:206 | a zero trailing P/E with no forward P/E stores `None`, not zero |
| Store.Merge | yahoo_market_updater.py:154-161 | `merge=True`, field by field through `Store.MergeField`: the result has exactly the old and new top-level keys, every new value, every old field the update does not name, and a merged sub-map has exactly the old and new sub-keys, with new values winning; a sub-map written where none was stored is stored as written |
| Store.Apply | yahoo_market_updater.py:154-161 | an upsert creates the addressed document as written when it is missing, merges onto it otherwise, and leaves every other document unchanged |
| Store.MergeIdempotent | yahoo_market_updater.py:226-233 | writing the same update twice leaves the document as writing it once |
| Store.MergeIsOverride | yahoo_market_updater.py:289-296 | when the new nested maps mention every old nested key, the merge is a plain key-wise override |
| Document.ComposeShape | yahoo_market_updater.py:154-161 | `Document.Compose`, the dict literal passed to `set`: the composed document holds the cleaned ticker, the raw ticker, the section, every flat value, the timestamp token and the source name, and no other key |
| Document.ComposeKeys | yahoo_market_updater.py:154-161 | the document's keys are exactly the fixed list of the four fixed keys, the section name and the flat names, and it has five more keys than flat fields |
| Document.ComposeMerged | yahoo_market_updater.py:154-161 | merging a document into one written by the same profile leaves the section and flat fields equal to the new values |
| Document.DocumentFields | yahoo_market_updater.py:226-233 | `Document.Build`: each profile's document holds `ticker` as the cleaned ticker, `fullTicker` as the raw one, its section, the timestamp, `Yahoo Finance`, and each flat field equal to its nested field |
| Document.DocumentKeys | yahoo_market_updater.py:289-296 | each profile's document has exactly the fixed keys, the section name and the flat names, which is the table size plus five |
| Document.WriteTarget | yahoo_market_updater.py:154 | `Document.PlanWrite`: the write goes to `market_data/<cleaned ticker>`, and the document's `ticker` field equals the document id |
| Document.ProfilesDisjoint | yahoo_market_updater.py:204-233 | fields owned by one profile never appear in another profile's document |
| Document.OtherProfilesKept | yahoo_market_updater.py:226-233 | an upsert by one profile leaves every field owned by another profile as it was |
| Document.OwnFieldsReplaced | yahoo_market_updater.py:154-161 | after an upsert onto a document whose sub-map under the profile's name holds only that table's names, the profile's own section and flat fields hold exactly the new values |
| Document.MergeKeepsSection | yahoo_market_updater.py:154-161 | a profile's write keeps every profile's stored sub-map within that profile's table names |
| Document.ApplyKeepsSections | yahoo_market_updater.py:226-233 | a profile's merge-write onto a store whose sub-maps stay within their tables keeps the whole store so |
| Pipeline.Step | yahoo_market_updater.py:123-173 | one loop iteration: a success adds one to the success count only and merges its document onto the addressed path, creating it when missing, with every other document and no new path touched; a failure adds one to the failure count only and leaves the store as it was; either way one log entry for this ticker is appended after the kept earlier ones |
| Pipeline.Run | yahoo_market_updater.py:122-173 | after k symbols there are k log entries, the success count is the number of fetched outcomes, and success plus failed is k |
| Pipeline.RunUpdate | yahoo_market_updater.py:196-244 | a full run logs every symbol once and its counters add up to the universe size |
| Pipeline.LogMatches | yahoo_market_updater.py:122-173 | the j-th log entry is exactly the reference effect of the j-th symbol and outcome |
| Pipeline.EachSymbolOnce | yahoo_market_updater.py:122-173 | symbols are handled in list order; a write and a pause happen exactly for fetched ones, and an error line exactly for failed ones |
| Pipeline.ProgressLines | yahoo_market_updater.py:163-166 | a progress line is printed exactly after a success at a 1-based index divisible by 50, showing that index, the total and the running counts |
| Pipeline.PausesPerSuccess | yahoo_market_updater.py:169 | the number of pauses equals the success count |
| Pipeline.WrittenPresent | yahoo_market_updater.py:154-163 | once a symbol has been written, its document stays in the store for the rest of the loop |
| Pipeline.SectionsStayInTables | yahoo_market_updater.py:267-307 | a run starting from a store whose sub-maps hold only their tables' names leaves every document so |
| Pipeline.UntouchedAfterRun | yahoo_market_updater.py:267-307 | a document no successful symbol addresses is present after the run exactly when it was before, with the same value |
| Pipeline.LastWriterAfterRun | yahoo_market_updater.py:154-161 | each successful symbol's document is present after the run and reflects every field it wrote, unless a later symbol cleaning to the same id overwrote it |
| Pipeline.EmptyUniverse | yahoo_market_updater.py:122 | an empty list logs nothing, counts nothing and leaves the store unchanged |
| Dispatch.SelectProfile | yahoo_market_updater.py:336-345 | a selected profile is one whose command name equals the type |
| Dispatch.SelectInvertsName | yahoo_market_updater.py:336-342 | selection and command names are inverse: a type selects a profile exactly when it is that profile's name |
| Dispatch.Invoke | yahoo_market_updater.py:324-353 | the status is 0 or 1; after a successful set-up it is 0 exactly when there is no argument or the first argument is `intraday`, `daily` or `weekly`; it is 0 exactly when set-up succeeds and the type selects a profile, and then the selected loop's result is the final store; on 1 the store is untouched |
| Dispatch.DefaultIsIntraday | yahoo_market_updater.py:324 | with no argument the intraday loop runs |
| Dispatch.TypeExamples | yahoo_market_updater.py:336-345 | `weekly` runs the monthly-fields loop, extra arguments are ignored, and `monthly` or `Daily` ends with status 1 |
| Dispatch.FailuresDoNotFail | yahoo_market_updater.py:171-173 | when every fetch fails the status is still 0, nothing counts as success, every symbol counts as failed and the store is unchanged |

## Left out

- **Fetching.** `yf.Ticker(ticker).info` becomes an outcome per symbol: a
  snapshot, a fetch failure, or a write failure. Any exception raised inside
  the per-symbol `try` maps to one of these.
- **Firestore.** The client and its network calls are modelled by
  `Store.Apply`. A write that raises is taken to leave the store unchanged.
- **`SERVER_TIMESTAMP`.** It is a token, not a time.
- **Store set-up.** `initialize_firebase`, with its environment variable,
  JSON credentials and `firebase_admin` set-up, becomes the boolean `setupOk`.
- **Console output.** The banners, `datetime.now()` and `update_type.upper()`
  are left out. Only the progress line's numbers and the fact that an error
  line is printed are kept.
- **Pauses.** `time.sleep(0.1)` is recorded as a flag on the step; no time is
  modelled.
- **Numbers.** Quote values are floats or ints in the source. They are
  abstracted to missing, zero or non-zero, which is all the `or` fallback
  distinguishes.
- **The symbol list.** The `YAHOO_COMPANIES` list is a parameter. The proofs
  hold for any list.
- **Exceptions after a write.** An exception raised after the write, by the
  progress `print` or by `sleep`, would count a symbol both as success and as
  failure. It is not modelled.
- **Exit paths.** An exception outside the per-symbol `try`, after set-up,
  is not modelled. The traceback printing is not modelled either.
- Normalize.Replace: requires a non-empty pattern. The script only ever
  passes the three non-empty suffixes.
- Store.Merge: models `merge=True` one level deep, because the documents
  written here nest only one level.
