/**
 The app supervisor: relaunch a child while it is wanted, back off between attempts, and give up on one
 that never stays up.
 */
module Supervisor {

  const BACKOFF_START: nat := 1
  const BACKOFF_MAX: nat := 60
  const HEALTHY_RUN: real := 60.0
  const MAX_CRASH_LOOP: nat := 5

  /** One pass of the loop as the environment decides it. */
  datatype Round =
    | NoLaunch(error: string)
    | Run(code: int, seconds: real, wantedAtExit: bool, wantedAfterSleep: bool)
  {
    predicate Healthy() { Run? && seconds > HEALTHY_RUN }

    predicate Short() { Run? && seconds <= HEALTHY_RUN }
  }

  datatype AppState = Stopped | Starting | Running | Exited | Failed

  datatype Note = NoError | LaunchError(error: string) | ExitCode(code: int) | CrashLooping(code: int, starts: nat)

  datatype Emission = AppStarted | AppExited(code: int, restarting: bool) | AppLaunchFailed(error: string)

  // ----------------------------------------------------------- specification

  /** How many short runs end the first `n` rounds, uninterrupted. */
  function Crashes(rounds: seq<Round>, n: nat): (c: nat)
    requires n <= |rounds|
    ensures c <= n && forall k :: n - c <= k < n ==> rounds[k].Short()
    ensures c < n ==> !rounds[n - c - 1].Short()
  {
    if n == 0 || !rounds[n - 1].Short() then 0 else Crashes(rounds, n - 1) + 1
  }

  predicate EverHealthy(rounds: seq<Round>, n: nat)
    requires n <= |rounds|
  {
    exists k :: 0 <= k < n && rounds[k].Healthy()
  }

  function Pow2(n: nat): (p: nat)
    ensures p > 0
  {
    if n == 0 then 1 else 2 * Pow2(n - 1)
  }

  datatype Verdict = Goes | GivesUp | Leaves | LaunchFails | AsksToStop {
    predicate Sleeps() { Goes? || Leaves? }
  }

  /** What round `i` means for the supervisor, given the rounds before it. */
  function Judge(rounds: seq<Round>, i: nat): Verdict
    requires i < |rounds|
  {
    if rounds[i].NoLaunch? then LaunchFails
    else if !rounds[i].wantedAtExit then AsksToStop
    else if Crashes(rounds, i + 1) >= MAX_CRASH_LOOP then GivesUp
    else if !rounds[i].wantedAfterSleep then Leaves
    else Goes
  }

  /** None of the first `n` rounds ended the supervision. */
  predicate GoesOn(rounds: seq<Round>, n: nat) {
    n <= |rounds| && forall k :: 0 <= k < n ==> Judge(rounds, k) == Goes
  }

  /** How long the supervisor sleeps after round `i`: a power of two fixed by the history. */
  function SleepAfter(rounds: seq<Round>, i: nat): nat
    requires i < |rounds|
  {
    var crashes := Crashes(rounds, i + 1);
    if EverHealthy(rounds, i + 1) then Pow2(crashes) else if crashes == 0 then 1 else Pow2(crashes - 1)
  }

  function Emitted(rounds: seq<Round>, i: nat): seq<Emission>
    requires i < |rounds|
  {
    match rounds[i]
    case NoLaunch(error) => [AppLaunchFailed(error)]
    case Run(code, _, _, _) =>
      if Judge(rounds, i).AsksToStop? then [AppStarted]
      else [AppStarted, AppExited(code, !Judge(rounds, i).GivesUp?)]
  }

  function EmittedIn(rounds: seq<Round>, n: nat): (all: seq<Emission>)
    requires n <= |rounds|
    ensures |all| <= 2 * n
  {
    if n == 0 then [] else EmittedIn(rounds, n - 1) + Emitted(rounds, n - 1)
  }

  function SleptIn(rounds: seq<Round>, n: nat): nat
    requires n <= |rounds|
  {
    if n == 0 then 0 else SleptIn(rounds, n - 1) + SleepAfter(rounds, n - 1)
  }

  // -------------------------------------------------------------- properties

  /** While it goes on, every five launches in a row hold a healthy run. */
  lemma HealthyWithinFive(rounds: seq<Round>, n: nat, i: nat)
    requires GoesOn(rounds, n) && i + MAX_CRASH_LOOP <= n
    ensures exists k :: i <= k < i + MAX_CRASH_LOOP && rounds[k].Healthy()
  {
    var end := i + MAX_CRASH_LOOP;
    assert Judge(rounds, end - 1) == Goes;
    var k := end - Crashes(rounds, end) - 1;
    assert !rounds[k].Short();
    assert Judge(rounds, k) == Goes;
  }

  lemma CrashesBelow(rounds: seq<Round>, n: nat)
    requires GoesOn(rounds, n)
    ensures Crashes(rounds, n) < MAX_CRASH_LOOP
  {
    if n > 0 {
      assert Judge(rounds, n - 1) == Goes;
    }
  }

  predicate AllShort(rounds: seq<Round>, i: nat, j: nat)
    requires i <= j <= |rounds|
  {
    forall k :: i <= k < j ==> rounds[k].Short()
  }

  lemma CrashesAtLeast(rounds: seq<Round>, n: nat, c: nat)
    requires c <= n <= |rounds|
    ensures Crashes(rounds, n) >= c <==> AllShort(rounds, n - c, n)
  {
    var crashes := Crashes(rounds, n);
    if crashes < c {
      assert !rounds[n - crashes - 1].Short();
    }
  }

  /**
   The supervisor gives up exactly when the app is still wanted and its last five runs were all short, and it
   never lets a sixth short run follow.
   */
  lemma GivesUpExactly(rounds: seq<Round>, n: nat)
    requires n < |rounds| && GoesOn(rounds, n)
    ensures Judge(rounds, n) == GivesUp <==>
            && rounds[n].Run? && rounds[n].wantedAtExit
            && n + 1 >= MAX_CRASH_LOOP && AllShort(rounds, n + 1 - MAX_CRASH_LOOP, n + 1)
    ensures Crashes(rounds, n + 1) <= MAX_CRASH_LOOP
  {
    CrashesBelow(rounds, n);
    if n + 1 >= MAX_CRASH_LOOP {
      CrashesAtLeast(rounds, n + 1, MAX_CRASH_LOOP);
    }
  }

  lemma SmallPowers()
    ensures Pow2(0) == 1 && Pow2(1) == 2 && Pow2(2) == 4 && Pow2(3) == 8 && Pow2(4) == 16
  {
  }

  /** Every sleep is one of 1, 2, 4, 8 and 16 seconds: the 60 second cap is never reached. */
  lemma SleepIsShort(rounds: seq<Round>, n: nat)
    requires n < |rounds| && GoesOn(rounds, n) && Judge(rounds, n).Sleeps()
    ensures SleepAfter(rounds, n) in {1, 2, 4, 8, 16}
    ensures SleepAfter(rounds, n) == 16 ==> EverHealthy(rounds, n)
  {
    SmallPowers();
    assert Crashes(rounds, n + 1) in {0, 1, 2, 3, 4};
  }

  /** An app that never stays up is launched five times, announced ten times, and waited for 15 seconds. */
  lemma NeverUpIsDroppedQuickly(rounds: seq<Round>, n: nat)
    requires n < |rounds| && GoesOn(rounds, n) && !EverHealthy(rounds, n + 1)
    ensures n < MAX_CRASH_LOOP && |EmittedIn(rounds, n + 1)| <= 2 * MAX_CRASH_LOOP
    ensures SleptIn(rounds, n) == Pow2(n) - 1 <= 15
  {
    if n >= MAX_CRASH_LOOP {
      HealthyWithinFive(rounds, n, n - MAX_CRASH_LOOP);
      assert false;
    }
    ColdSleeps(rounds, n);
    SmallPowers();
  }

  lemma {:induction false} ColdSleeps(rounds: seq<Round>, n: nat)
    requires GoesOn(rounds, n) && !EverHealthy(rounds, n)
    ensures SleptIn(rounds, n) == Pow2(n) - 1 && Crashes(rounds, n) == n
  {
    if n > 0 {
      ColdSleeps(rounds, n - 1);
      assert Judge(rounds, n - 1) == Goes;
    }
  }

  /** The backoff variable at the head of the loop, if nothing capped it. */
  function Backoff(rounds: seq<Round>, n: nat): nat
    requires n <= |rounds|
  {
    if n == 0 then BACKOFF_START else 2 * SleepAfter(rounds, n - 1)
  }

  lemma EverHealthyGrows(rounds: seq<Round>, n: nat)
    requires n < |rounds|
    ensures EverHealthy(rounds, n + 1) <==> EverHealthy(rounds, n) || rounds[n].Healthy()
  {
  }

  /** Doubling, resetting and capping the backoff variable computes exactly the sleep the history fixes. */
  lemma BackoffIsSleep(rounds: seq<Round>, n: nat)
    requires n < |rounds| && GoesOn(rounds, n) && Judge(rounds, n).Sleeps()
    ensures SleepAfter(rounds, n) == if rounds[n].Healthy() then BACKOFF_START else Backoff(rounds, n)
    ensures Backoff(rounds, n + 1) <= BACKOFF_MAX
  {
    SmallPowers();
    EverHealthyGrows(rounds, n);
    SleepIsShort(rounds, n);
    if n > 0 {
      assert Judge(rounds, n - 1) == Goes;
      if rounds[n].Short() {
        HistoryDoubles(rounds, n);
      }
    }
  }

  lemma HistoryDoubles(rounds: seq<Round>, n: nat)
    requires 0 < n < |rounds| && rounds[n].Short() && rounds[n - 1].Run?
    ensures SleepAfter(rounds, n) == 2 * SleepAfter(rounds, n - 1)
  {
    EverHealthyGrows(rounds, n);
    if !EverHealthy(rounds, n) {
      assert rounds[n - 1].Short();
    }
  }

  /** The state and the message that a finished round leaves behind. */
  predicate Reported(rounds: seq<Round>, i: nat, state: AppState, note: Note)
    requires i < |rounds|
  {
    match rounds[i]
    case NoLaunch(error) => state == Failed && note == LaunchError(error)
    case Run(code, _, _, _) =>
      match Judge(rounds, i)
      case AsksToStop => state == Stopped
      case GivesUp => state == Failed && note == CrashLooping(code, MAX_CRASH_LOOP)
      case _ => state == Exited && note == ExitCode(code)
  }

  /** The last five runs, this one included, were all at most a minute long. */
  predicate FiveShort(rounds: seq<Round>, i: nat)
    requires i < |rounds|
  {
    i >= 4 && forall k :: i - 4 <= k <= i ==> rounds[k].Run? && rounds[k].seconds <= 60.0
  }

  /** What each round announces, what it leaves to be read, and whether the supervision goes on after it. */
  lemma RoundInWords(rounds: seq<Round>, i: nat, state: AppState, note: Note)
    requires i < |rounds| && GoesOn(rounds, i)
    ensures match rounds[i]
            case NoLaunch(error) =>
              && Emitted(rounds, i) == [AppLaunchFailed(error)] && Judge(rounds, i) != Goes
              && (Reported(rounds, i, state, note) <==> state == Failed && note == LaunchError(error))
            case Run(code, _, wantedAtExit, wantedAfterSleep) =>
              if !wantedAtExit then
                && Emitted(rounds, i) == [AppStarted] && Judge(rounds, i) != Goes
                && (Reported(rounds, i, state, note) <==> state == Stopped)
              else if FiveShort(rounds, i) then
                && Emitted(rounds, i) == [AppStarted, AppExited(code, false)] && Judge(rounds, i) != Goes
                && (Reported(rounds, i, state, note) <==> state == Failed && note == CrashLooping(code, 5))
              else
                && Emitted(rounds, i) == [AppStarted, AppExited(code, true)] && (Judge(rounds, i) == Goes <==> wantedAfterSleep)
                && (Reported(rounds, i, state, note) <==> state == Exited && note == ExitCode(code))
  {
    hide Crashes;
    GivesUpExactly(rounds, i);
  }

  /** The supervision is still on after `n` rounds. */
  predicate On(rounds: seq<Round>, n: nat)
    requires n <= |rounds|
  {
    n == 0 || Judge(rounds, n - 1) == Goes
  }

  /** What the first `n` rounds left behind: only the last may have ended it; sleeps and events are the history's. */
  predicate Ran(rounds: seq<Round>, n: nat, slept: seq<nat>, emitted: seq<Emission>) {
    && n <= |rounds| && GoesOn(rounds, if n == 0 then 0 else n - 1)
    && |slept| == (if n > 0 && !Judge(rounds, n - 1).Sleeps() then n - 1 else n)
    && SleptRight(rounds, slept) && emitted == EmittedIn(rounds, n)
  }

  predicate SleptRight(rounds: seq<Round>, slept: seq<nat>) {
    |slept| <= |rounds| && forall k :: 0 <= k < |slept| ==> slept[k] == SleepAfter(rounds, k)
  }

  lemma SleptOneMore(rounds: seq<Round>, slept: seq<nat>, sleep: nat)
    requires SleptRight(rounds, slept) && |slept| < |rounds| && sleep == SleepAfter(rounds, |slept|)
    ensures SleptRight(rounds, slept + [sleep])
  {
  }

  lemma RanOn(rounds: seq<Round>, n: nat, slept: seq<nat>, emitted: seq<Emission>)
    requires Ran(rounds, n, slept, emitted) && On(rounds, n)
    ensures GoesOn(rounds, n) && |slept| == n
  {
  }

  lemma RanOneMore(rounds: seq<Round>, n: nat, slept: seq<nat>, emitted: seq<Emission>, more: seq<nat>)
    requires n < |rounds| && Ran(rounds, n, slept, emitted) && On(rounds, n)
    requires more == if Judge(rounds, n).Sleeps() then [SleepAfter(rounds, n)] else []
    ensures Ran(rounds, n + 1, slept + more, emitted + Emitted(rounds, n))
  {
    RanOn(rounds, n, slept, emitted);
    if more == [] {
      assert slept + more == slept;
    } else {
      SleptOneMore(rounds, slept, SleepAfter(rounds, n));
    }
  }

  // ---------------------------------------------------------- the supervisor

  /** `wanted` also stands for the supervisor itself not stopping. */
  class AppSupervisor {
    var wanted: bool
    var state: AppState
    var restarts: nat
    var lastError: Note
    var emitted: seq<Emission>

    /** `start_app` for an app that is not running and has no unmet setup. */
    constructor ()
      ensures wanted && state == Starting && restarts == 0 && lastError == NoError && emitted == []
    {
      wanted, state, restarts, lastError, emitted := true, Starting, 0, NoError, [];
    }

    /**
     The loop, over the rounds the environment plays. It uses `n` of them: all, or up to the first that ends
     the supervision. `slept` holds the sleeps and `emitted` the events of this supervision.
     */
    method Supervise(rounds: seq<Round>) returns (n: nat, slept: seq<nat>)
      requires wanted
      modifies this
      ensures Ran(rounds, n, slept, emitted) && (n == |rounds| || !On(rounds, n))
      ensures wanted <==> On(rounds, n)
      ensures n > 0 ==> Reported(rounds, n - 1, state, lastError)
      ensures restarts == old(restarts) + |slept|
    {
      n, slept, emitted := 0, [], [];
      var backoff, crashLoop, sleeps, sleep := BACKOFF_START, 0, true, 0;
      while n < |rounds| && wanted
        invariant Ran(rounds, n, slept, emitted)
        invariant wanted <==> On(rounds, n)
        invariant wanted ==> crashLoop == Crashes(rounds, n) && backoff == Backoff(rounds, n)
        invariant n > 0 ==> Reported(rounds, n - 1, state, lastError)
        invariant restarts == old(restarts) + |slept|
      {
        RanOn(rounds, n, slept, emitted);
        ghost var before := emitted;
        sleeps, sleep, backoff, crashLoop := PlayRound(rounds[n], backoff, crashLoop, rounds, n);
        RanOneMore(rounds, n, slept, before, if sleeps then [sleep] else []);
        slept := slept + if sleeps then [sleep] else [];
        n := n + 1;
      }
    }

    /** One pass: launch, wait for the exit, judge it, sleep. */
    method PlayRound(round: Round, backoff: nat, crashLoop: nat, ghost rounds: seq<Round>, ghost n: nat)
      returns (sleeps: bool, sleep: nat, nextBackoff: nat, nextCrashLoop: nat)
      requires wanted && n < |rounds| && GoesOn(rounds, n) && round == rounds[n]
      requires crashLoop == Crashes(rounds, n) && backoff == Backoff(rounds, n)
      modifies this
      ensures emitted == old(emitted) + Emitted(rounds, n) && Reported(rounds, n, state, lastError)
      ensures wanted <==> Judge(rounds, n) == Goes
      ensures sleeps <==> Judge(rounds, n).Sleeps()
      ensures sleeps ==> sleep == SleepAfter(rounds, n) && nextBackoff == Backoff(rounds, n + 1)
      ensures sleeps ==> nextCrashLoop == Crashes(rounds, n + 1)
      ensures restarts == old(restarts) + if sleeps then 1 else 0
    {
      sleeps, sleep, nextBackoff, nextCrashLoop := false, 0, backoff, crashLoop;
      CrashesBelow(rounds, n);
      match round {
        case NoLaunch(error) =>
          state, lastError, wanted := Failed, LaunchError(error), false;
          emitted := emitted + [AppLaunchFailed(error)];
        case Run(code, seconds, wantedAtExit, wantedAfterSleep) =>
          state, wanted := Running, wantedAtExit;
          if !wanted {
            state, emitted := Stopped, emitted + [AppStarted];
            return;
          }
          var healthy := seconds > HEALTHY_RUN;
          nextCrashLoop := if healthy then 0 else crashLoop + 1;
          emitted := emitted + [AppStarted, AppExited(code, nextCrashLoop < MAX_CRASH_LOOP)];
          if nextCrashLoop >= MAX_CRASH_LOOP {
            state, lastError, wanted := Failed, CrashLooping(code, nextCrashLoop), false;
            return;
          }
          state, lastError, restarts := Exited, ExitCode(code), restarts + 1;
          BackoffIsSleep(rounds, n);
          sleep := if healthy then BACKOFF_START else backoff;
          nextBackoff := if sleep * 2 <= BACKOFF_MAX then sleep * 2 else BACKOFF_MAX;
          sleeps, wanted := true, wantedAfterSleep;
      }
    }
  }
}
