/**
  The script's entry point: the update type is the first command-line
  argument, `intraday` when there is none; the store client is set up first,
  then the type picks the profile loop. A set-up failure, or a type other
  than `intraday`, `daily` or `weekly`, ends the process with status 1 and
  runs no loop; otherwise the process ends with status 0, however many
  symbols failed.
 */
module Dispatch {
  import opened Values
  import opened Profiles
  import opened Store
  import opened Pipeline

  const DefaultType := "intraday"

  /** `sys.argv[1] if len(sys.argv) > 1 else 'intraday'`; `argv[0]` is the script. */
  function UpdateType(argv: seq<string>): (t: string)
    ensures |argv| > 1 ==> t == argv[1]
    ensures |argv| <= 1 ==> t == DefaultType
  {
    if |argv| > 1 then argv[1] else DefaultType
  }

  /** The command-line name that selects each profile. */
  function CommandName(p: Profile): string {
    match p
    case Realtime => "intraday"
    case Daily => "daily"
    case Monthly => "weekly"
  }

  /** The `if`/`elif` chain: exact, case-sensitive string comparison. */
  function SelectProfile(t: string): (r: Option<Profile>)
    ensures r.Some? ==> CommandName(r.value) == t
  {
    if t == "intraday" then Some(Realtime)
    else if t == "daily" then Some(Daily)
    else if t == "weekly" then Some(Monthly)
    else None
  }

  /** Selection and naming are inverse: a type is valid exactly when it names a profile. */
  lemma SelectInvertsName(p: Profile, t: string)
    ensures SelectProfile(CommandName(p)) == Some(p)
    ensures SelectProfile(t) == Some(p) <==> t == CommandName(p)
  {
  }

  /** How the process ends, and the store it leaves. */
  datatype Exit = Exit(status: int, store: Db, run: Option<RunState>)

  /**
    The `__main__` block. `setupOk` is whether the store client came up; a
    failed set-up raises inside the outer `try` before the type is looked at.
   */
  function Invoke(argv: seq<string>, setupOk: bool, universe: seq<string>, outcomes: seq<Outcome>, store0: Db): (e: Exit)
    requires |outcomes| == |universe|
    ensures e.status == 0 || e.status == 1
    ensures e.status == 0 <==> setupOk && SelectProfile(UpdateType(argv)).Some?
    ensures setupOk ==> (e.status == 0 <==> |argv| <= 1 || argv[1] in {"intraday", "daily", "weekly"})
    ensures e.status == 1 ==> e.store == store0 && e.run == None
    ensures e.status == 0 ==>
              e.run == Some(RunUpdate(SelectProfile(UpdateType(argv)).value, universe, outcomes, store0)) &&
              e.store == e.run.value.store
  {
    if !setupOk then Exit(1, store0, None)
    else
      match SelectProfile(UpdateType(argv))
      case None => Exit(1, store0, None)
      case Some(p) =>
        var r := RunUpdate(p, universe, outcomes, store0);
        Exit(0, r.store, Some(r))
  }

  /** With no argument the intraday loop runs. */
  lemma DefaultIsIntraday(script: string, universe: seq<string>, outcomes: seq<Outcome>, store0: Db)
    requires |outcomes| == |universe|
    ensures Invoke([script], true, universe, outcomes, store0).run == Some(RunUpdate(Realtime, universe, outcomes, store0))
  {
  }

  /** `weekly` runs the monthly-fields loop; `monthly`, or a capitalised name, is rejected. */
  lemma TypeExamples(script: string, universe: seq<string>, outcomes: seq<Outcome>, store0: Db)
    requires |outcomes| == |universe|
    ensures Invoke([script, "weekly"], true, universe, outcomes, store0).run == Some(RunUpdate(Monthly, universe, outcomes, store0))
    ensures Invoke([script, "daily", "extra"], true, universe, outcomes, store0).run == Some(RunUpdate(Daily, universe, outcomes, store0))
    ensures Invoke([script, "monthly"], true, universe, outcomes, store0).status == 1
    ensures Invoke([script, "Daily"], true, universe, outcomes, store0).status == 1
  {
  }

  /** Every symbol failing still ends with status 0: per-symbol failures never reach the exit status. */
  lemma FailuresDoNotFail(argv: seq<string>, universe: seq<string>, store0: Db)
    requires SelectProfile(UpdateType(argv)).Some?
    ensures var outcomes := seq(|universe|, _ => FetchFailed);
      var e := Invoke(argv, true, universe, outcomes, store0);
      e.status == 0 && e.run.value.success == 0 && e.run.value.failed == |universe| && e.store == store0
  {
    var outcomes := seq(|universe|, _ => FetchFailed);
    var p := SelectProfile(UpdateType(argv)).value;
    NoneFetched(outcomes, |universe|);
    forall path | path in store0
      ensures path in RunUpdate(p, universe, outcomes, store0).store
      ensures RunUpdate(p, universe, outcomes, store0).store[path] == store0[path]
    {
      UntouchedAfterRun(p, universe, outcomes, store0, path);
    }
    forall path | path in RunUpdate(p, universe, outcomes, store0).store ensures path in store0 {
      UntouchedAfterRun(p, universe, outcomes, store0, path);
    }
  }

  lemma {:induction false} NoneFetched(outcomes: seq<Outcome>, n: nat)
    requires n <= |outcomes|
    requires forall j :: 0 <= j < |outcomes| ==> outcomes[j] == FetchFailed
    ensures Successes(outcomes, n) == 0
  {
    if n > 0 {
      NoneFetched(outcomes, n - 1);
    }
  }
}
