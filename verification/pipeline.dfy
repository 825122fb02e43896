/**
  The per-profile update loop. Each symbol of the universe is visited once, in
  order, with a 1-based position `i`. Inside one `try`:

    fetch the snapshot; build the document; merge-write it; success += 1;
    if i % 50 == 0: print the progress line; pause 0.1 s

  and any exception of the fetch or of the write counts a failure, prints an
  error line, and moves on to the next symbol.

  The three update functions are this one loop with a different document:
  the loop is stated for any write planner, and `Planned(p)` is the planner of
  profile `p`. The fetch and the write are the environment's: the outcome of
  each symbol is a parameter, one per symbol, and a failed write leaves the
  store unchanged.
 */
module Pipeline {
  import opened Values
  import opened Normalize
  import opened Profiles
  import opened Store
  import opened Document

  /** What happened to one symbol's fetch and write. */
  datatype Outcome =
    | FetchFailed             // the snapshot request raised
    | WriteFailed             // the snapshot arrived but the merge-write raised
    | Fetched(info: Snapshot) // the snapshot arrived and the write went through

  /** `Progress: i/total (success success, failed failed)` */
  datatype ProgressLine = ProgressLine(index: nat, total: nat, success: nat, failed: nat)

  /** What the loop did for one symbol, apart from the store. */
  datatype Effect = Effect(
    ticker: string,
    write: Option<WriteOp>,          // the write that reached the store
    progress: Option<ProgressLine>,  // the progress line printed, if any
    paused: bool,                    // whether the 0.1 s pause ran
    errorLogged: bool)               // whether an error line was printed

  datatype RunState = RunState(store: Db, success: nat, failed: nat, log: seq<Effect>)

  /** The write a symbol's snapshot turns into. */
  type Planner = (string, Snapshot) -> WriteOp

  /** The planner of one profile: its document, at the cleaned ticker's path. */
  function Planned(p: Profile): Planner {
    (ticker: string, info: Snapshot) => PlanWrite(p, ticker, info)
  }

  const ProgressEvery := 50

  /** `i % 50 == 0`: the progress line is due after the symbol at 1-based position `i`. */
  predicate ProgressDue(i: nat) {
    i % ProgressEvery == 0
  }

  /** How many of the first `n` symbols were written. */
  function Successes(outcomes: seq<Outcome>, n: nat): (c: nat)
    requires n <= |outcomes|
    ensures c <= n
  {
    if n == 0 then 0 else Successes(outcomes, n - 1) + (if outcomes[n - 1].Fetched? then 1 else 0)
  }

  /**
    The body of the loop for the symbol at 1-based position `i` of `total`.
    A success bumps the success count and applies its merge-write to the
    addressed document only; a failure bumps the failure count and leaves the
    store alone. Either way one log entry for this ticker is appended and the
    earlier ones are kept.
   */
  function Step(plan: Planner, total: nat, i: nat, ticker: string, outcome: Outcome, st: RunState): (r: RunState)
    ensures outcome.Fetched? ==> r.success == st.success + 1 && r.failed == st.failed
    ensures !outcome.Fetched? ==> r.success == st.success && r.failed == st.failed + 1
    ensures |r.log| == |st.log| + 1 && r.log[..|st.log|] == st.log && r.log[|st.log|].ticker == ticker
    ensures !outcome.Fetched? ==> r.store == st.store
    ensures outcome.Fetched? ==>
              var w := plan(ticker, outcome.info);
              && r.store.Keys == st.store.Keys + {w.path}
              && (forall q :: q in st.store && q != w.path ==> r.store[q] == st.store[q])
              && (w.path in st.store ==> r.store[w.path] == Merge(st.store[w.path], w.doc))
              && (w.path !in st.store ==> r.store[w.path] == w.doc)
  {
    match outcome
    case Fetched(info) =>
      var w := plan(ticker, info);
      var success := st.success + 1;
      var line := if ProgressDue(i) then Some(ProgressLine(i, total, success, st.failed)) else None;
      RunState(Apply(st.store, w.path, w.doc), success, st.failed,
               st.log + [Effect(ticker, Some(w), line, true, false)])
    case _ =>
      RunState(st.store, st.success, st.failed + 1, st.log + [Effect(ticker, None, None, false, true)])
  }

  /** The loop after its first `k` symbols. */
  function Run(plan: Planner, universe: seq<string>, outcomes: seq<Outcome>, store0: Db, k: nat): (r: RunState)
    requires |outcomes| == |universe| && k <= |universe|
    ensures |r.log| == k
    ensures r.success == Successes(outcomes, k)
    ensures r.success + r.failed == k
    decreases k
  {
    if k == 0 then RunState(store0, 0, 0, [])
    else Step(plan, |universe|, k, universe[k - 1], outcomes[k - 1], Run(plan, universe, outcomes, store0, k - 1))
  }

  /** The whole loop of one profile: every symbol of the universe. */
  function RunUpdate(p: Profile, universe: seq<string>, outcomes: seq<Outcome>, store0: Db): (r: RunState)
    requires |outcomes| == |universe|
    ensures |r.log| == |universe|
    ensures r.success == Successes(outcomes, |universe|) && r.success + r.failed == |universe|
  {
    Run(Planned(p), universe, outcomes, store0, |universe|)
  }

  /**
    The effect of symbol `j` (0-based), stated from the outcomes alone: the
    counts a progress line shows are those of the first `j + 1` outcomes.
   */
  function Expected(plan: Planner, universe: seq<string>, outcomes: seq<Outcome>, j: nat): Effect
    requires |outcomes| == |universe| && j < |universe|
  {
    match outcomes[j]
    case Fetched(info) =>
      var success := Successes(outcomes, j + 1);
      var line := if ProgressDue(j + 1)
                  then Some(ProgressLine(j + 1, |universe|, success, j + 1 - success)) else None;
      Effect(universe[j], Some(plan(universe[j], info)), line, true, false)
    case _ => Effect(universe[j], None, None, false, true)
  }

  /** The newest entry of the log is the one its position and the outcomes prescribe. */
  lemma LastEntry(plan: Planner, universe: seq<string>, outcomes: seq<Outcome>, store0: Db, k: nat)
    requires |outcomes| == |universe| && 0 < k <= |universe|
    ensures Run(plan, universe, outcomes, store0, k).log[k - 1] == Expected(plan, universe, outcomes, k - 1)
  {
    var prev := Run(plan, universe, outcomes, store0, k - 1);
    var r := Run(plan, universe, outcomes, store0, k);
    var e := Expected(plan, universe, outcomes, k - 1);
    if outcomes[k - 1].Fetched? && ProgressDue(k) {
      var line, want := r.log[k - 1].progress.value, e.progress.value;
      assert line.success == want.success by {
        assert prev.success == Successes(outcomes, k - 1);
      }
      assert line.failed == want.failed;
      assert line == want;
    }
  }

  /** Each symbol's effect depends on its own outcome and on the counts before it, nothing else. */
  lemma {:induction false} LogMatches(plan: Planner, universe: seq<string>, outcomes: seq<Outcome>, store0: Db, k: nat)
    requires |outcomes| == |universe| && k <= |universe|
    ensures forall j :: 0 <= j < k ==>
              Run(plan, universe, outcomes, store0, k).log[j] == Expected(plan, universe, outcomes, j)
    decreases k
  {
    if k > 0 {
      LogMatches(plan, universe, outcomes, store0, k - 1);
      LastEntry(plan, universe, outcomes, store0, k);
      var prev := Run(plan, universe, outcomes, store0, k - 1);
      var r := Run(plan, universe, outcomes, store0, k);
      assert r.log[..k - 1] == prev.log;
      forall j | 0 <= j < k - 1 ensures r.log[j] == Expected(plan, universe, outcomes, j) {
        assert r.log[j] == prev.log[j];
      }
    }
  }

  /**
    Every symbol is attempted exactly once, in order, and one symbol's
    failure neither stops the loop nor changes what any other symbol does:
    a symbol is written, and paused after, exactly when its own outcome is a
    fetched snapshot, and then with its own profile document at its cleaned
    ticker; otherwise exactly an error line is logged.
   */
  lemma EachSymbolOnce(p: Profile, universe: seq<string>, outcomes: seq<Outcome>, store0: Db)
    requires |outcomes| == |universe|
    ensures var r := RunUpdate(p, universe, outcomes, store0);
      && |r.log| == |universe|
      && forall j :: 0 <= j < |universe| ==>
           && r.log[j].ticker == universe[j]
           && (r.log[j].write.Some? <==> outcomes[j].Fetched?)
           && (outcomes[j].Fetched? ==> r.log[j].write == Some(PlanWrite(p, universe[j], outcomes[j].info)))
           && (r.log[j].paused <==> outcomes[j].Fetched?)
           && (r.log[j].errorLogged <==> !outcomes[j].Fetched?)
  {
    LogMatches(Planned(p), universe, outcomes, store0, |universe|);
  }

  /**
    A progress line is printed for position `i` exactly when that symbol
    succeeded and `i` is a multiple of 50; it shows `i`, the universe size,
    and the success and failure counts after that symbol, which add up to `i`.
   */
  lemma ProgressLines(p: Profile, universe: seq<string>, outcomes: seq<Outcome>, store0: Db)
    requires |outcomes| == |universe|
    ensures var r := RunUpdate(p, universe, outcomes, store0);
      forall j :: 0 <= j < |universe| ==>
        && (r.log[j].progress.Some? <==> outcomes[j].Fetched? && (j + 1) % 50 == 0)
        && (r.log[j].progress.Some? ==>
              && r.log[j].progress.value.index == j + 1
              && r.log[j].progress.value.total == |universe|
              && r.log[j].progress.value.success == Successes(outcomes, j + 1)
              && r.log[j].progress.value.success + r.log[j].progress.value.failed == j + 1)
  {
    LogMatches(Planned(p), universe, outcomes, store0, |universe|);
  }

  /** How many entries of a log paused. */
  function Pauses(log: seq<Effect>): nat
    decreases |log|
  {
    if log == [] then 0 else Pauses(log[..|log| - 1]) + (if log[|log| - 1].paused then 1 else 0)
  }

  /** The loop pauses once per success and never after a failure. */
  lemma {:induction false} PausesPerSuccess(plan: Planner, universe: seq<string>, outcomes: seq<Outcome>,
                                            store0: Db, k: nat)
    requires |outcomes| == |universe| && k <= |universe|
    ensures Pauses(Run(plan, universe, outcomes, store0, k).log) == Run(plan, universe, outcomes, store0, k).success
    decreases k
  {
    if k > 0 {
      PausesPerSuccess(plan, universe, outcomes, store0, k - 1);
      var r := Run(plan, universe, outcomes, store0, k);
      assert r.log[..k - 1] == Run(plan, universe, outcomes, store0, k - 1).log;
    }
  }

  /** One more symbol changes the store by its merge-write when it succeeded, and not at all otherwise. */
  lemma StoreStep(plan: Planner, universe: seq<string>, outcomes: seq<Outcome>, store0: Db, k: nat)
    requires |outcomes| == |universe| && 0 < k <= |universe|
    ensures var prior := Run(plan, universe, outcomes, store0, k - 1).store;
      Run(plan, universe, outcomes, store0, k).store ==
        if outcomes[k - 1].Fetched?
        then Apply(prior, plan(universe[k - 1], outcomes[k - 1].info).path,
                   plan(universe[k - 1], outcomes[k - 1].info).doc)
        else prior
  {
  }

  /** Where a successful symbol's write goes. */
  function Target(plan: Planner, universe: seq<string>, outcomes: seq<Outcome>, j: nat): DocPath
    requires |outcomes| == |universe| && j < |universe| && outcomes[j].Fetched?
  {
    plan(universe[j], outcomes[j].info).path
  }

  /** Once a symbol has been written, its document stays in the store. */
  lemma {:induction false} WrittenPresent(plan: Planner, universe: seq<string>, outcomes: seq<Outcome>, store0: Db,
                                          k: nat, j: nat)
    requires |outcomes| == |universe| && j < k <= |universe|
    requires outcomes[j].Fetched?
    ensures Target(plan, universe, outcomes, j) in Run(plan, universe, outcomes, store0, k).store
    decreases k
  {
    if k - 1 > j {
      WrittenPresent(plan, universe, outcomes, store0, k - 1, j);
    }
    StoreStep(plan, universe, outcomes, store0, k);
  }

  /** A document no successful symbol writes to is left exactly as it was, and so is its absence. */
  lemma {:induction false} Untouched(plan: Planner, universe: seq<string>, outcomes: seq<Outcome>, store0: Db,
                                     k: nat, path: DocPath)
    requires |outcomes| == |universe| && k <= |universe|
    requires forall j :: 0 <= j < k && outcomes[j].Fetched? ==> Target(plan, universe, outcomes, j) != path
    ensures var st := Run(plan, universe, outcomes, store0, k).store;
      && (path in st <==> path in store0)
      && (path in store0 ==> st[path] == store0[path])
    decreases k
  {
    if k > 0 {
      Untouched(plan, universe, outcomes, store0, k - 1, path);
      StoreStep(plan, universe, outcomes, store0, k);
    }
  }

  /**
    The last successful symbol writing to a path decides every field it
    writes: the final document holds each of them, sub-map entries included.
   */
  lemma {:induction false} LastWriterCovers(plan: Planner, universe: seq<string>, outcomes: seq<Outcome>, store0: Db,
                                            k: nat, j: nat)
    requires |outcomes| == |universe| && j < k <= |universe|
    requires outcomes[j].Fetched?
    requires forall m :: j < m < k && outcomes[m].Fetched? ==>
               Target(plan, universe, outcomes, m) != Target(plan, universe, outcomes, j)
    ensures var st := Run(plan, universe, outcomes, store0, k).store;
      && Target(plan, universe, outcomes, j) in st
      && DocCovers(st[Target(plan, universe, outcomes, j)], plan(universe[j], outcomes[j].info).doc)
    decreases k
  {
    StoreStep(plan, universe, outcomes, store0, k);
    if k - 1 > j {
      LastWriterCovers(plan, universe, outcomes, store0, k - 1, j);
    }
  }

  /** Where symbol `j` of a profile run is written: its cleaned ticker in `market_data`. */
  function PathOf(universe: seq<string>, j: nat): DocPath
    requires j < |universe|
  {
    DocPath(Collection, Clean(universe[j]))
  }

  /** A profile run writes each successful symbol to its cleaned ticker. */
  lemma PlannedTarget(p: Profile, universe: seq<string>, outcomes: seq<Outcome>, j: nat)
    requires |outcomes| == |universe| && j < |universe| && outcomes[j].Fetched?
    ensures Target(Planned(p), universe, outcomes, j) == PathOf(universe, j)
    ensures Planned(p)(universe[j], outcomes[j].info).doc == Build(p, universe[j], outcomes[j].info)
  {
  }

  /** After a profile run, a document no successful symbol cleans to is as it was, absence included. */
  lemma UntouchedAfterRun(p: Profile, universe: seq<string>, outcomes: seq<Outcome>, store0: Db, path: DocPath)
    requires |outcomes| == |universe|
    requires forall j :: 0 <= j < |universe| && outcomes[j].Fetched? ==> PathOf(universe, j) != path
    ensures var st := RunUpdate(p, universe, outcomes, store0).store;
      && (path in st <==> path in store0)
      && (path in store0 ==> st[path] == store0[path])
  {
    forall j | 0 <= j < |universe| && outcomes[j].Fetched?
      ensures Target(Planned(p), universe, outcomes, j) != path
    {
      PlannedTarget(p, universe, outcomes, j);
    }
    Untouched(Planned(p), universe, outcomes, store0, |universe|, path);
  }

  /**
    After a profile run, the document of the last successful symbol cleaning
    to an id exists and holds every field that symbol's document wrote.
   */
  lemma LastWriterAfterRun(p: Profile, universe: seq<string>, outcomes: seq<Outcome>, store0: Db, j: nat)
    requires |outcomes| == |universe| && j < |universe| && outcomes[j].Fetched?
    requires forall m :: j < m < |universe| && outcomes[m].Fetched? ==> PathOf(universe, m) != PathOf(universe, j)
    ensures var st := RunUpdate(p, universe, outcomes, store0).store;
      && PathOf(universe, j) in st
      && DocCovers(st[PathOf(universe, j)], Build(p, universe[j], outcomes[j].info))
  {
    PlannedTarget(p, universe, outcomes, j);
    forall m | j < m < |universe| && outcomes[m].Fetched?
      ensures Target(Planned(p), universe, outcomes, m) != Target(Planned(p), universe, outcomes, j)
    {
      PlannedTarget(p, universe, outcomes, m);
    }
    LastWriterCovers(Planned(p), universe, outcomes, store0, |universe|, j);
  }

  /** An empty universe writes nothing and reports no success and no failure. */
  lemma EmptyUniverse(p: Profile, store0: Db)
    ensures var r := RunUpdate(p, [], [], store0);
      r.store == store0 && r.success == 0 && r.failed == 0 && r.log == []
  {
  }

  /**
    A profile run keeps every stored sub-map within its own table's names,
    so each later write by the same profile replaces that sub-map outright.
   */
  lemma {:induction false} SectionsStayInTables(p: Profile, universe: seq<string>, outcomes: seq<Outcome>,
                                                store0: Db, k: nat)
    requires |outcomes| == |universe| && k <= |universe|
    requires StoreSectionsInTables(store0)
    ensures StoreSectionsInTables(Run(Planned(p), universe, outcomes, store0, k).store)
    decreases k
  {
    if k > 0 {
      SectionsStayInTables(p, universe, outcomes, store0, k - 1);
      StoreStep(Planned(p), universe, outcomes, store0, k);
      if outcomes[k - 1].Fetched? {
        ApplyKeepsSections(Run(Planned(p), universe, outcomes, store0, k - 1).store,
                           p, universe[k - 1], outcomes[k - 1].info);
      }
    }
  }
}
