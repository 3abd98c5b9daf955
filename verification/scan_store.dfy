/** The scan history store: the state behind the `useScanStore` hook and its
    transitions. React's state cells become the fields of an immutable
    `Store`; each operation returns the state once React has applied its
    updates and run the effects they trigger. */
module ScanStore {
  import opened Wrappers
  import opened Sequences
  import opened ScannerTypes

  /** The number of generated entries a first visit starts with. */
  const SeedCount: nat := 3

  /** What the browser's storage holds under the history key. A missing item
      and an empty string are both falsy in the source and are both `Absent`;
      `Unreadable` is content the JSON parser rejects. */
  datatype Stored = Absent | Unreadable | Saved(entries: seq<ScanResult>)

  /** The hook's state: the history (most recent first), the loading flag,
      the scan being shown, and the persisted copy of the history. */
  datatype Store = Store(
    history: seq<ScanResult>,
    loading: bool,
    currentScan: Option<ScanResult>,
    stored: Stored)

  /** The persisted copy equals the in-memory history. */
  predicate Synced(s: Store) {
    s.stored == Saved(s.history)
  }

  /** The mock scan generator `generateMockScanResult(repository, branch)`,
      which may throw. */
  type ScanGenerator = (string, Option<string>) -> Result<ScanResult, ScanError>

  /** The mock history generator `generateMockHistory(count)`, which may
      throw inside the load effect's `try`. */
  type HistoryGenerator = nat -> Result<seq<ScanResult>, ScanError>

  // ---------------------------------------------------------------------------
  // Mounting: the initial state, the load effect and the persist effect
  // ---------------------------------------------------------------------------

  /** The state cells' initial values, before any effect has run. */
  function Initial(stored: Stored): Store {
    Store([], false, None, stored)
  }

  /** The load effect: adopt the stored history; with nothing stored, seed
      generated entries and store them; when parsing or generating throws,
      report the error and leave the history as it is. */
  function LoadHistory(s: Store, generateHistory: HistoryGenerator): Store {
    match s.stored
    case Saved(entries) => s.(history := entries)
    case Absent =>
      (match generateHistory(SeedCount)
       case Success(seed) => s.(history := seed, stored := Saved(seed))
       case Failure(_) => s)
    case Unreadable => s
  }

  /** The persist effect: overwrite the stored copy with the history. It runs
      after every commit in which the history was replaced. */
  function Persist(s: Store): (r: Store)
    ensures Synced(r)
    ensures r.(stored := s.stored) == s
  {
    s.(stored := Saved(s.history))
  }

  /** The store once mounted: both effects have run and settled. */
  function Mount(stored: Stored, generateHistory: HistoryGenerator): (r: Store)
    ensures !r.loading && r.currentScan == None
    ensures Synced(r)
    ensures stored.Saved? ==> r.history == stored.entries
    ensures stored == Absent && generateHistory(SeedCount).Success? ==> r.history == generateHistory(SeedCount).value
    ensures stored == Absent && generateHistory(SeedCount).Failure? ==> r.history == []
    ensures stored == Unreadable ==> r.history == []
  {
    Persist(LoadHistory(Initial(stored), generateHistory))
  }

  /** When seeding throws on a first visit, the mount stores an empty history,
      and every later mount adopts it instead of seeding again. */
  lemma FailedSeedReloadsEmpty(generateHistory: HistoryGenerator, later: HistoryGenerator)
    requires generateHistory(SeedCount).Failure?
    ensures Mount(Absent, generateHistory).stored == Saved([])
    ensures Mount(Mount(Absent, generateHistory).stored, later).history == []
  {
  }

  // ---------------------------------------------------------------------------
  // runScan as a Begin / Complete / Fail triple
  // ---------------------------------------------------------------------------

  /** The first step of a scan: raise the loading flag and nothing else. */
  function BeginScan(s: Store): (r: Store)
    ensures r.loading
    ensures r.(loading := s.loading) == s
  {
    s.(loading := true)
  }

  /** A scan that produced `result`: it becomes the current scan, is placed
      in front of the history, the history is persisted and loading ends. */
  function CompleteScan(s: Store, result: ScanResult): (r: Store)
    ensures !r.loading
    ensures r.currentScan == Some(result)
    ensures |r.history| == |s.history| + 1
    ensures r.history[0] == result && r.history[1..] == s.history
    ensures Synced(r)
  {
    Persist(s.(currentScan := Some(result), history := [result] + s.history, loading := false))
  }

  /** A scan whose generator threw: loading ends and nothing else changes. */
  function FailScan(s: Store): (r: Store)
    ensures !r.loading
    ensures r.history == s.history && r.currentScan == s.currentScan && r.stored == s.stored
  {
    s.(loading := false)
  }

  /** The trace of one `runScan` call: the state while the scan is pending,
      the state once it has settled, and what the call returns or throws. */
  datatype ScanRun = ScanRun(pending: Store, settled: Store, outcome: Result<ScanResult, ScanError>)

  /** `runScan(request)`: begin, ask the generator for a result with the
      request's repository and branch, then complete with it or fail with its
      error, which is re-thrown. */
  function RunScan(s: Store, request: ScanRequest, generate: ScanGenerator): (run: ScanRun)
    ensures run.pending.loading && run.pending.(loading := s.loading) == s
    ensures !run.settled.loading
    ensures run.outcome == generate(request.repository, request.branch)
    ensures run.outcome.Success? ==>
              && run.settled.currentScan == Some(run.outcome.value)
              && run.settled.history == [run.outcome.value] + s.history
              && Synced(run.settled)
    ensures run.outcome.Failure? ==> run.settled == s.(loading := false)
  {
    var pending := BeginScan(s);
    match generate(request.repository, request.branch)
    case Success(result) => ScanRun(pending, CompleteScan(pending, result), Success(result))
    case Failure(error) => ScanRun(pending, FailScan(pending), Failure(error))
  }

  // ---------------------------------------------------------------------------
  // clearHistory and deleteResult
  // ---------------------------------------------------------------------------

  /** `clearHistory()`: empty the history and remove the stored item. The
      persist effect then runs for the new (empty) history and stores `[]`. */
  function ClearHistory(s: Store): (r: Store)
    ensures r.history == []
    ensures r.currentScan == s.currentScan && r.loading == s.loading
    ensures r.stored == Saved([])
  {
    Persist(s.(history := [], stored := Absent))
  }

  /** The filter predicate `result => result.id !== id`. */
  function KeepsOther(id: string): ScanResult -> bool {
    (result: ScanResult) => result.id != id
  }

  /** The current scan has id `id`. */
  predicate ShowsResult(s: Store, id: string) {
    s.currentScan.Some? && s.currentScan.value.id == id
  }

  /** `deleteResult(id)`: drop every history entry with that id, clear the
      current scan when it has that id, and persist the history. */
  function DeleteResult(s: Store, id: string): (r: Store)
    ensures forall e :: e in r.history <==> e in s.history && e.id != id
    ensures IsSubsequence(r.history, s.history)
    ensures forall e :: multiset(r.history)[e] == if e.id == id then 0 else multiset(s.history)[e]
    ensures ShowsResult(s, id) ==> r.currentScan == None
    ensures !ShowsResult(s, id) ==> r.currentScan == s.currentScan
    ensures r.loading == s.loading
    ensures Synced(r)
  {
    FilterIsSubsequence(s.history, KeepsOther(id));
    assert forall e :: multiset(Filter(s.history, KeepsOther(id)))[e] == if e.id == id then 0 else multiset(s.history)[e] by {
      forall e ensures multiset(Filter(s.history, KeepsOther(id)))[e] == if e.id == id then 0 else multiset(s.history)[e] {
        FilterMultiplicity(s.history, KeepsOther(id), e);
      }
    }
    var kept := s.(history := Filter(s.history, KeepsOther(id)));
    Persist(if ShowsResult(s, id) then kept.(currentScan := None) else kept)
  }

  /** Deleting the same id twice is deleting it once. */
  lemma DeleteResultIdempotent(s: Store, id: string)
    ensures DeleteResult(DeleteResult(s, id), id) == DeleteResult(s, id)
  {
    FilterIdempotent(s.history, KeepsOther(id));
  }

  /** Deleting a fresh scan's id right after it completed restores the
      history and leaves no current scan. */
  lemma DeleteUndoesScan(s: Store, result: ScanResult)
    requires forall e :: e in s.history ==> e.id != result.id
    ensures DeleteResult(CompleteScan(s, result), result.id).history == s.history
    ensures DeleteResult(CompleteScan(s, result), result.id).currentScan == None
  {
    var h := CompleteScan(s, result).history;
    assert h == [result] + s.history;
    FilterAppend([result], s.history, KeepsOther(result.id));
    assert Filter([result], KeepsOther(result.id)) == [];
    FilterKeepsAll(s.history, KeepsOther(result.id));
  }

  /** Clearing twice is clearing once. */
  lemma ClearHistoryIdempotent(s: Store)
    ensures ClearHistory(ClearHistory(s)) == ClearHistory(s)
  {
  }

  /** A cleared history stays empty across a reload: the persist effect left
      `[]` in storage, which the next mount adopts instead of seeding. */
  lemma ClearedHistoryReloadsEmpty(s: Store, generateHistory: HistoryGenerator)
    ensures Mount(ClearHistory(s).stored, generateHistory).history == []
  {
  }

  // ---------------------------------------------------------------------------
  // Sessions: the store across a sequence of user actions
  // ---------------------------------------------------------------------------

  /** A call a consumer of the hook makes. Each scan carries the generator
      call it makes, so every scan of a session has an outcome of its own. */
  datatype Action = Scan(request: ScanRequest, generate: ScanGenerator) | Clear | Delete(id: string)

  /** The settled state after `action`. */
  function Apply(s: Store, action: Action): Store {
    match action
    case Scan(request, generate) => RunScan(s, request, generate).settled
    case Clear => ClearHistory(s)
    case Delete(id) => DeleteResult(s, id)
  }

  /** Mount, then perform `actions` one after the other. */
  function Session(stored: Stored, actions: seq<Action>, generateHistory: HistoryGenerator): Store
    decreases |actions|
  {
    if |actions| == 0 then Mount(stored, generateHistory)
    else Apply(Session(stored, actions[..|actions| - 1], generateHistory), actions[|actions| - 1])
  }

  /** Every settled action keeps the store at rest and its storage in step. */
  lemma ApplyKeepsRest(s: Store, action: Action)
    requires Synced(s) && !s.loading
    ensures Synced(Apply(s, action)) && !Apply(s, action).loading
  {
  }

  /** In every session, once each call has settled, loading is off and the
      stored copy equals the history. */
  lemma {:induction false} SessionAtRest(stored: Stored, actions: seq<Action>, generateHistory: HistoryGenerator)
    ensures Synced(Session(stored, actions, generateHistory))
    ensures !Session(stored, actions, generateHistory).loading
    decreases |actions|
  {
    if |actions| > 0 {
      SessionAtRest(stored, actions[..|actions| - 1], generateHistory);
      ApplyKeepsRest(Session(stored, actions[..|actions| - 1], generateHistory), actions[|actions| - 1]);
    }
  }

  /** After any session a reload shows the same history: what the persist
      effect stored is what the next mount adopts. */
  lemma ReloadRestoresSession(stored: Stored, actions: seq<Action>, generateHistory: HistoryGenerator, later: HistoryGenerator)
    ensures Mount(Session(stored, actions, generateHistory).stored, later).history == Session(stored, actions, generateHistory).history
  {
    SessionAtRest(stored, actions, generateHistory);
  }
}
