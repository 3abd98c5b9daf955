# Security scanner: scan history store and findings view, in Dafny

The scanner front end keeps a history of scan results, runs (mock) scans,
and shows one result as severity-bucketed findings. This project models the
logic under that UI over immutable sequences and proves its properties:

- `ScannerTypes` (`scanner_types.dfy`) is the data model of `src/types/scanner.ts`.
  It has the closed severity and status unions with their string literals, the
  finding, summary, result and request records, and optional fields as `Option`.
- `ScanStore` (`scan_store.dfy`) is the `useScanStore` hook. Its state is an
  explicit record `Store(history, loading, currentScan, stored)`. Each operation is a
  pure transition that returns the state after React has applied the updates and run
  the effects they trigger:
  - `Mount` is the initial load effect followed by the persist effect.
  - `runScan` is a `BeginScan` / `CompleteScan` / `FailScan` triple. `RunScan` returns
    the pending state, the settled state and the returned value or thrown error.
  - `ClearHistory` and `DeleteResult` are the other two operations.
  - `Session` replays any sequence of calls after mounting. Each scan in it carries its own generator call.
- `ScanResultsView` (`scan_results_view.dfy`) holds the list logic of
  `src/components/scanner/ScanResults.tsx`: the accordion toggle, the five
  severity buckets, `hasFindings`, the disabled tabs, and the tab counts as opposed to
  the summary cards. In the source `toggleAccordionItem` is defined but never called:
  the rendered accordions replace `openItems` directly through `onValueChange`
  (ScanResults.tsx:219-249), so the toggle lemmas describe the helper, not the
  accordion that is displayed.
- `Sequences` (`sequences.dfy`) is JavaScript's `filter`, with lemmas for the facts
  it keeps: order (subsequence), multiplicity, idempotence, concatenation, duplicates.
- `Wrappers` (`wrappers.dfy`) holds `Option` and `Result`.

Both mock generators live in a module that is not part of this model
(`src/utils/mockData`). They are therefore function-valued parameters, and both
may fail with a `ScanError`: `ScanGenerator` takes a repository and a branch, and
`HistoryGenerator` takes a count.
Browser storage is `Stored = Absent | Unreadable | Saved(entries)`. The source
tests the stored string for truthiness, so a missing item and an empty string are
both `Absent`. `Unreadable` is content that `JSON.parse` rejects.

Behaviour of the hook that the model keeps:

- The hook calls `generateMockScanResult` directly (useScanStore.ts:58). A
  generator error is re-thrown after `loading` is cleared, and history and
  `currentScan` stay unchanged.
- Unreadable stored history is not replaced by generated entries. The error is
  caught, the history stays empty, and the persist effect then stores `[]`. The
  same happens when `generateMockHistory(3)` throws on a first visit, so every
  later mount adopts the empty history (`FailedSeedReloadsEmpty`).
- `deleteResult` removes every entry with the given id, not just one.
- `clearHistory` removes the stored item, but its `setHistory([])` makes the persist
  effect write `[]` straight back. After a reload the history is therefore still
  empty; it is not seeded again (`ClearedHistoryReloadsEmpty`).
- The summary cards show `result.summary` exactly as stored. The tabs count the
  findings. The view never reconciles the two (`CardsAndTabsIndependent`).

## Model

| member | source | states |
|---|---|---|
| `ScannerTypes.ParseSeverity` | src/types/scanner.ts:2 | a string parses to a severity exactly when it is one of the five literals, and printing that severity gives the string back |
| `ScannerTypes.SeverityNameRoundTrip` | src/types/scanner.ts:2 | printing a severity and parsing it gives the same severity |
| `ScannerTypes.SeveritiesExhaustive` | src/types/scanner.ts:2 | there are exactly five severities, each listed once, with pairwise distinct literals |
| `ScannerTypes.ParseStatus` | src/types/scanner.ts:29 | a string parses to a status exactly when it is `completed`, `failed` or `in-progress`, and printing it gives the string back |
| `ScannerTypes.StatusNameRoundTrip` | src/types/scanner.ts:29 | printing a status and parsing it gives the same status |
| `ScannerTypes.SummaryOf` | src/types/scanner.ts:22-28 | a summary can be built from any per-severity counting, and it holds that count for each level |
| `ScannerTypes.SummaryIsItsCounts` | src/types/scanner.ts:22-28 | a summary is exactly one count per severity: rebuilding it from its counts gives it back, and equal counts mean equal summaries |
| `ScanStore.Persist` | src/hooks/useScanStore.ts:42-48 | after the persist effect the stored copy equals the history, and nothing else changes |
| `ScanStore.Mount` | src/hooks/useScanStore.ts:19-48 | mounting runs the load effect `LoadHistory` and then the persist effect. Once mounted the store is idle, shows no scan and is in sync with storage. It adopts a stored history as is. With nothing stored it seeds what the generator returns for count 3. With unreadable storage, or when the generator throws, it starts empty |
| `ScanStore.FailedSeedReloadsEmpty` | src/hooks/useScanStore.ts:24-48 | when seeding throws, the mount stores an empty history and every later mount adopts it |
| `ScanStore.BeginScan` | src/hooks/useScanStore.ts:50-51 | starting a scan raises `loading` and changes nothing else |
| `ScanStore.CompleteScan` | src/hooks/useScanStore.ts:58-65 | on success the result is the current scan and the head of history, the old history follows in its original order, storage is synced, and loading is off |
| `ScanStore.FailScan` | src/hooks/useScanStore.ts:66-72 | on a thrown error loading is off, and history, current scan and storage are unchanged |
| `ScanStore.RunScan` | src/hooks/useScanStore.ts:50-73 | while pending only `loading` differs from the prior state, and it is true. Once settled, `loading` is false. The call returns or throws exactly the generator's outcome for the request's repository and branch. On success that value is the current scan and is prepended to history; on failure nothing else changed |
| `ScanStore.ClearHistory` | src/hooks/useScanStore.ts:75-79 | the history is empty, storage ends holding an empty history, and `currentScan` and `loading` are untouched |
| `ScanStore.ClearHistoryIdempotent` | src/hooks/useScanStore.ts:75-79 | clearing twice equals clearing once |
| `ScanStore.ClearedHistoryReloadsEmpty` | src/hooks/useScanStore.ts:24-79 | mounting from the storage a clear leaves behind gives an empty history, not a seeded one |
| `ScanStore.DeleteResult` | src/hooks/useScanStore.ts:81-87 | the new history holds exactly the old entries whose id differs, each as often as before, in their original order; every entry with the id is removed. `currentScan` becomes none iff its id is the deleted id, otherwise it is unchanged. Storage is synced and `loading` is untouched |
| `ScanStore.DeleteResultIdempotent` | src/hooks/useScanStore.ts:81-85 | deleting an id twice equals deleting it once |
| `ScanStore.DeleteUndoesScan` | src/hooks/useScanStore.ts:58-85 | deleting a freshly completed scan whose id is new restores the previous history and clears the current scan |
| `ScanStore.ApplyKeepsRest` | src/hooks/useScanStore.ts:42-87 | from an idle, synced store, any settled call leaves it idle and synced |
| `ScanStore.SessionAtRest` | src/hooks/useScanStore.ts:18-97 | after mounting and any sequence of settled calls, each scan with its own generator outcome, loading is off and the stored copy equals the history |
| `ScanStore.ReloadRestoresSession` | src/hooks/useScanStore.ts:24-48 | after any session, mounting again from what was stored shows the same history |
| `ScanResultsView.ToggleAccordionItem` | src/components/scanner/ScanResults.tsx:28-34 | toggling flips the membership of the item. Every other id keeps its membership, multiplicity and relative order. An open item is removed in place; a closed one is appended at the end. A duplicate-free list stays duplicate-free |
| `ScanResultsView.ToggleRemovesOccurrences` | src/components/scanner/ScanResults.tsx:28-34 | closing an item removes all its occurrences and leaves every other id's count unchanged |
| `ScanResultsView.ToggleTwiceRestores` | src/components/scanner/ScanResults.tsx:28-34 | opening a closed item and toggling it again gives back the original list |
| `ScanResultsView.ToggleTwiceMovesToEnd` | src/components/scanner/ScanResults.tsx:28-34 | closing an open item and toggling it again moves it behind the other open items |
| `ScanResultsView.Bucket` | src/components/scanner/ScanResults.tsx:71-75 | a bucket holds exactly the findings of its severity, each as often as in `findings`, and in `findings` order |
| `ScanResultsView.BucketsPartition` | src/components/scanner/ScanResults.tsx:71-75 | the five buckets together hold every finding exactly as often as `findings` does, so their lengths sum to `findings.length` |
| `ScanResultsView.FindingInOneBucket` | src/components/scanner/ScanResults.tsx:71-75 | each finding lies in the bucket of its own severity and in no other |
| `ScanResultsView.TabDisabledIffNoneOfSeverity` | src/components/scanner/ScanResults.tsx:201-214 | `TabDisabled` holds of a severity tab iff no finding has that severity |
| `ScanResultsView.HasFindingsIffSomeTabEnabled` | src/components/scanner/ScanResults.tsx:77-214 | `HasFindings` (the tabs are shown) holds iff at least one severity tab is enabled |
| `ScanResultsView.TabCounts` | src/components/scanner/ScanResults.tsx:200-215 | each severity tab shows its bucket's length, the counts add up to the "All" count, and a count is zero iff that tab is disabled |
| `ScanResultsView.CardsAndTabsIndependent` | src/components/scanner/ScanResults.tsx:146-215 | `TabCounts` do not depend on the summary and `CardCounts` (the summary cards) do not depend on the findings. A result whose summary disagrees with its findings is shown unreconciled |

## Left out

- Browser storage and JSON serialisation. The stored item is the abstract `Stored` value. A stored history is assumed to read back equal to what was written. Valid JSON that is not an array is not modelled.
- Storage write failures (a full quota) are caught and only logged in the source. The model assumes every write succeeds.
- Toast notifications and `console.error` logging are fire-and-forget side effects with no bearing on the state.
- The two-second delay and async interleaving are left out, for example a `deleteResult` racing a pending `runScan`, or the `currentScan` that `deleteResult` reads from its render's closure. Every call is modelled as settling before the next one.
- At mount both effects first run in the same commit with the initial empty history. The persist effect therefore briefly writes `[]` before the loaded history is written back. Only the settled state is modelled.
- `generateMockScanResult` and `generateMockHistory` are not part of this model. They are parameters that may succeed or throw, and nothing is assumed about what they return. In a session every scan carries its own generator, so two scans of the same request may differ. Whether the seed really has three entries depends on the generator.
- The form's non-empty-repository guard (src/components/scanner/ScannerForm.tsx:21) is not a precondition of `RunScan`: the hook neither checks nor depends on it.
- The extended `ScanRequest` options are carried in the datatype, but `runScan` passes on only the repository and the branch.
- Summary counts and the request's `scanDepth` are JavaScript numbers. They are modelled as `int`, so fractional values are not modelled.
- The severity icon and colour mappings, all JSX, and the form, modal, shell and page components are presentation only.
