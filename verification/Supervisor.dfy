/** The reconnect loop of the supervisor (cmd/dev-connect/main.go). Times are in seconds. */
module Supervisor {

  const MAX_BACKOFF := 30

  /** How one round of the loop goes: how the port-forward ended, and whether the context was done when it returned or
      during the wait behind it. */
  datatype Round = Round(failed: bool, doneAfterRun: bool, doneDuringWait: bool)

  /** Why the loop ended, if it has. */
  datatype End = StillRunning | ContextDone | ReconnectDisabled(failed: bool)

  function Pow2(n: nat): nat {
    if n == 0 then 1 else 2 * Pow2(n - 1)
  }

  function Min(a: nat, b: nat): nat {
    if a < b then a else b
  }

  /** The wait behind attempt `k`, counted from 0. */
  function Wait(k: nat): nat {
    Min(Pow2(k), MAX_BACKOFF)
  }

  function Total(n: nat): nat {
    if n == 0 then 0 else Total(n - 1) + Wait(n - 1)
  }

  lemma {:induction false} Pow2AtLeast32(n: nat)
    requires n >= 5
    ensures Pow2(n) >= 32
  {
    if n > 5 {
      Pow2AtLeast32(n - 1);
    } else {
      assert Pow2(3) == 8;
    }
  }

  /** The next wait is the doubled one, capped. */
  lemma NextWait(k: nat)
    ensures Wait(k + 1) == if Wait(k) < MAX_BACKOFF then Min(2 * Wait(k), MAX_BACKOFF) else Wait(k)
  {
  }

  /** Five attempts wait 31 seconds in all, every further one 30. */
  lemma {:induction false} TotalWait(n: nat)
    requires n >= 5
    ensures Total(n) == 31 + 30 * (n - 5)
  {
    if n == 5 {
      assert Wait(0) == 1 && Wait(1) == 2 && Wait(2) == 4;
      assert Pow2(3) == 8 && Wait(3) == 8 && Wait(4) == 16;
      assert Total(2) == 3 && Total(3) == 7 && Total(4) == 15;
    } else {
      TotalWait(n - 1);
      Pow2AtLeast32(n - 1);
    }
  }

  function Sum(waits: seq<nat>): nat {
    if waits == [] then 0 else Sum(waits[..|waits| - 1]) + waits[|waits| - 1]
  }

  /** The endless loop of `runTunnelSupervisor`, for as many rounds as are given. The waits that ran to their end
      are 1, 2, 4, 8, 16, 30, 30, ... seconds; the loop ends only on a done context or with reconnecting disabled. */
  method RunTunnelSupervisor(rounds: seq<Round>, reconnects: bool) returns (waits: seq<nat>, end: End)
    ensures |waits| <= |rounds| && forall k :: 0 <= k < |waits| ==> waits[k] == Wait(k)
    ensures Sum(waits) == Total(|waits|)
    ensures end == StillRunning <==>
      && (rounds == [] || reconnects)
      && forall k :: 0 <= k < |rounds| ==> !rounds[k].doneAfterRun && !rounds[k].doneDuringWait
    ensures end == StillRunning ==> |waits| == |rounds|
    ensures end != StillRunning ==> |waits| < |rounds|
    ensures waits != [] ==> reconnects
    ensures forall k :: 0 <= k < |waits| ==> !rounds[k].doneAfterRun && !rounds[k].doneDuringWait
    ensures end != StillRunning ==>
      var last := rounds[|waits|];
      && end == (if !last.doneAfterRun && !reconnects then ReconnectDisabled(last.failed) else ContextDone)
      && (end == ContextDone ==> last.doneAfterRun || last.doneDuringWait)
  {
    waits := [];
    var backoff := 1;
    var attempt := 0;
    while attempt < |rounds|
      invariant 0 <= attempt <= |rounds| && |waits| == attempt && backoff == Wait(attempt)
      invariant forall k :: 0 <= k < attempt ==> waits[k] == Wait(k)
      invariant attempt > 0 ==> reconnects
      invariant forall k :: 0 <= k < attempt ==> !rounds[k].doneAfterRun && !rounds[k].doneDuringWait
      invariant Sum(waits) == Total(attempt)
    {
      var round := rounds[attempt];
      if round.doneAfterRun {
        return waits, ContextDone;
      }
      if !reconnects {
        return waits, ReconnectDisabled(round.failed);
      }
      if round.doneDuringWait {
        return waits, ContextDone;
      }
      waits := waits + [backoff];
      assert waits[..attempt] + [backoff] == waits;
      NextWait(attempt);
      if backoff < MAX_BACKOFF {
        backoff := backoff * 2;
        if backoff > MAX_BACKOFF {
          backoff := MAX_BACKOFF;
        }
      }
      attempt := attempt + 1;
    }
    end := StillRunning;
  }
}
