/**
 * The respawn loop of sandbox/supervisor/src/server.rs. Each turn of the loop ends in a failed
 * spawn or in a crash; a shutdown ends the list of turns. The loop keeps a deque of recent crash
 * times and gives up when the deque holds CRASH_LOOP_LIMIT of them.
 */
module CrashLoop {
  import opened Prelude

  const SECOND: int := 1_000_000_000
  const CRASH_LIMIT: nat := 6
  const CRASH_WINDOW: int := 600 * SECOND
  const STABLE_AFTER: int := 60 * SECOND
  const RESTART_BACKOFF: seq<nat> := [1, 2, 4, 8, 16, 30]

  /** How one turn ended; times are monotonic instants in nanoseconds. */
  datatype Turn = SpawnFailed | Crashed(started: int, at: int)

  /** The crash times among the first `n` turns, oldest first. */
  function CrashTimes(turns: seq<Turn>, n: nat): seq<int>
    requires n <= |turns|
  {
    if n == 0 then []
    else if turns[n - 1].Crashed? then CrashTimes(turns, n - 1) + [turns[n - 1].at]
    else CrashTimes(turns, n - 1)
  }

  /** Crash `k` is the sixth (or later) crash within some 600 s span that it closes. */
  predicate LoopsAt(times: seq<int>, k: nat)
    requires k < |times|
  {
    CRASH_LIMIT <= k + 1 && times[k] - times[k + 1 - CRASH_LIMIT] <= CRASH_WINDOW
  }

  /** No crash so far closes a span of six within 600 s. */
  predicate Quiet(times: seq<int>) {
    forall k :: 0 <= k < |times| ==> !LoopsAt(times, k)
  }

  predicate Stable(turn: Turn) { turn.Crashed? && turn.at - turn.started >= STABLE_AFTER }

  /** Turns since the last child that stayed up for a minute, that child's own turn included. */
  function Streak(turns: seq<Turn>, n: nat): nat
    requires n <= |turns|
  {
    if n == 0 then 0 else if Stable(turns[n - 1]) then 1 else Streak(turns, n - 1) + 1
  }

  /** The backoff slept after turn `k`: a table entry chosen by the streak. */
  function Pause(turns: seq<Turn>, k: nat): nat
    requires k < |turns|
  {
    RESTART_BACKOFF[Min(Streak(turns, k + 1) - 1, |RESTART_BACKOFF| - 1)]
  }

  /** `exits` holds exactly the crash times within 600 s of the latest one, oldest first. */
  predicate RecentExits(exits: seq<int>, times: seq<int>) {
    && |exits| <= |times|
    && exits == times[|times| - |exits|..]
    && forall i :: 0 <= i < |times| ==>
         (times[|times| - 1] - times[i] <= CRASH_WINDOW <==> |times| - |exits| <= i)
  }

  /**
   * The respawn loop. It gives up at the first crash that is the sixth within some 600 s span,
   * and at no other point; spawn failures never count; every other turn is followed by the
   * backoff its streak selects.
   */
  method Run(turns: seq<Turn>) returns (crashLoop: bool, taken: nat, pauses: seq<nat>)
    requires Sorted(CrashTimes(turns, |turns|))
    ensures taken <= |turns| && |pauses| == if crashLoop then taken - 1 else taken
    ensures forall k :: 0 <= k < |pauses| ==> pauses[k] == Pause(turns, k)
    ensures crashLoop ==> GivesUpAt(turns, taken)
    ensures !crashLoop ==> taken == |turns| && Quiet(CrashTimes(turns, |turns|))
  {
    var backoff: nat := 0;
    var exits: seq<int> := [];
    taken, pauses := 0, [];
    while taken < |turns|
      invariant taken <= |turns|
      invariant RecentExits(exits, CrashTimes(turns, taken)) && |exits| < CRASH_LIMIT
      invariant Quiet(CrashTimes(turns, taken))
      invariant |pauses| == taken && backoff == Streak(turns, taken)
      invariant forall k :: 0 <= k < |pauses| ==> pauses[k] == Pause(turns, k)
    {
      var turn := turns[taken];
      ghost var before := CrashTimes(turns, taken);
      taken := taken + 1;
      if turn.Crashed? {
        CrashTimesPrefix(turns, taken, |turns|);
        exits := PushExit(exits, turn.at, before);
        if |exits| >= CRASH_LIMIT {
          return true, taken, pauses;
        }
        QuietStep(before, turn.at);
        if turn.at - turn.started >= STABLE_AFTER {
          backoff := 0;
        }
      }
      pauses := pauses + [RESTART_BACKOFF[Min(backoff, |RESTART_BACKOFF| - 1)]];
      backoff := backoff + 1;
    }
    crashLoop := false;
  }

  /** Turn `n` was a crash that closed the first such span; every earlier prefix was quiet. */
  predicate GivesUpAt(turns: seq<Turn>, n: nat) {
    && 0 < n <= |turns| && turns[n - 1].Crashed?
    && Quiet(CrashTimes(turns, n - 1))
    && LoopsAt(CrashTimes(turns, n), |CrashTimes(turns, n)| - 1)
  }

  /** The deque update: append the new crash, then pop what is more than 600 s older. */
  method PushExit(exits: seq<int>, now: int, ghost before: seq<int>) returns (kept: seq<int>)
    requires RecentExits(exits, before) && Sorted(before + [now])
    ensures RecentExits(kept, before + [now])
    ensures |kept| >= CRASH_LIMIT <==> LoopsAt(before + [now], |before|)
  {
    kept := exits + [now];
    ghost var times := before + [now];
    assert kept == times[|times| - |kept|..];
    assert before != [] ==> times[|before| - 1] <= times[|before|];
    while kept != [] && now - kept[0] > CRASH_WINDOW
      invariant 0 < |kept| <= |times| && kept == times[|times| - |kept|..]
      invariant forall i :: 0 <= i < |times| - |kept| ==> now - times[i] > CRASH_WINDOW
    {
      assert kept[1..] == times[|times| - |kept| + 1..];
      kept := kept[1..];
    }
  }

  /** `Quiet` is exactly: no six crashes of the run, adjacent or not, lie within 600 s of each other. */
  lemma QuietMeansNoSixWithinWindow(times: seq<int>)
    requires Sorted(times)
    ensures Quiet(times) <==>
      (forall i, j :: 0 <= i && i + CRASH_LIMIT - 1 <= j < |times| ==> times[j] - times[i] > CRASH_WINDOW)
  {
    if Quiet(times) {
      forall i, j | 0 <= i && i + CRASH_LIMIT - 1 <= j < |times| ensures times[j] - times[i] > CRASH_WINDOW {
        assert !LoopsAt(times, j);
        assert times[i] <= times[j + 1 - CRASH_LIMIT];
      }
    } else {
      var k :| 0 <= k < |times| && LoopsAt(times, k);
      assert times[k] - times[k + 1 - CRASH_LIMIT] <= CRASH_WINDOW;
    }
  }

  lemma QuietStep(before: seq<int>, now: int)
    requires Quiet(before) && !LoopsAt(before + [now], |before|)
    ensures Quiet(before + [now])
  {
    var times := before + [now];
    forall k | 0 <= k < |times| ensures !LoopsAt(times, k) {
      if k < |before| {
        assert !LoopsAt(before, k);
      }
    }
  }

  lemma {:induction false} CrashTimesPrefix(turns: seq<Turn>, n: nat, m: nat)
    requires n <= m <= |turns| && Sorted(CrashTimes(turns, m))
    ensures Sorted(CrashTimes(turns, n))
    decreases m
  {
    if n < m {
      var shorter := CrashTimes(turns, m - 1);
      assert forall i :: 0 <= i < |shorter| ==> shorter[i] == CrashTimes(turns, m)[i];
      CrashTimesPrefix(turns, n, m - 1);
    }
  }

  /** The streak counts the turns from the last stable child on, that one included, or all of them. */
  lemma {:induction false} StreakSince(turns: seq<Turn>, n: nat, since: nat)
    requires since < n <= |turns| && (since == 0 || Stable(turns[since])) && forall j :: since < j < n ==> !Stable(turns[j])
    ensures Streak(turns, n) == n - since
    decreases n
  {
    if since < n - 1 {
      StreakSince(turns, n - 1, since);
    }
  }

  /** Pauses grow from 1 s to 30 s over six turns without a stable child and stay there; a stable child starts over. */
  lemma PauseAfter(turns: seq<Turn>, k: nat, since: nat)
    requires since <= k < |turns| && (since == 0 || Stable(turns[since])) && forall j :: since < j <= k ==> !Stable(turns[j])
    ensures Pause(turns, k) == match k - since case 0 => 1 case 1 => 2 case 2 => 4 case 3 => 8 case 4 => 16 case _ => 30
  {
    StreakSince(turns, k + 1, since);
  }
}
