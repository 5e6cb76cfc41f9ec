/**
 * Kick and Start (internal/limitsync/limitsync.go): a channel of capacity one
 * wakes the loop that runs the sync. Kicks come at any moment, from any
 * goroutine, and those that arrive while one is waiting collapse into it.
 */
module Wakeup {
  /** Where the loop of Start is. Woken means a select fired and its run has not begun yet. */
  datatype Phase = Woken | Running | Selecting | Stopped

  /**
   * token is whether the channel holds one. The rest is history: unserved, whether
   * a kick has happened since a token was last received or a run began; and how
   * many kicks there were, and how many woke the loop.
   */
  datatype State = State(token: bool, phase: Phase, cancelled: bool, unserved: bool, kicks: nat, wakes: nat)

  datatype Event = Kick | Cancel | Begin | Finish | TakeToken | TakeTick | Stop

  /** Start begins with a run of its own. */
  const Init := State(false, Woken, false, false, 0, 0)

  predicate Enabled(s: State, e: Event) {
    match e
    case Kick => true
    case Cancel => true
    case Begin => s.phase == Woken
    case Finish => s.phase == Running
    case TakeToken => s.phase == Selecting && s.token
    case TakeTick => s.phase == Selecting
    case Stop => s.phase == Selecting && s.cancelled
  }

  function Next(s: State, e: Event): State
    requires Enabled(s, e)
  {
    match e
    case Kick => s.(token := true, unserved := true, kicks := s.kicks + 1)
    case Cancel => s.(cancelled := true)
    case Begin => s.(phase := Running, unserved := false)
    case Finish => s.(phase := Selecting)
    case TakeToken => s.(phase := Woken, token := false, unserved := false, wakes := s.wakes + 1)
    case TakeTick => s.(phase := Woken)
    case Stop => s.(phase := Stopped)
  }

  ghost predicate IsRun(s: State, trace: seq<Event>)
    decreases |trace|
  {
    trace == [] || (Enabled(s, trace[0]) && IsRun(Next(s, trace[0]), trace[1..]))
  }

  ghost function After(s: State, trace: seq<Event>): State
    requires IsRun(s, trace)
    decreases |trace|
  {
    if trace == [] then s else After(Next(s, trace[0]), trace[1..])
  }

  /** A kick that no run has answered has its token in the channel, and tokens are never made up. */
  predicate Inv(s: State) {
    && (s.unserved ==> s.token)
    && s.wakes + (if s.token then 1 else 0) <= s.kicks
  }

  /** No wakeup is lost, and kicks only ever coalesce. */
  lemma {:induction false} NoLostWakeup(s: State, trace: seq<Event>)
    requires Inv(s) && IsRun(s, trace)
    ensures Inv(After(s, trace))
    decreases |trace|
  {
    if trace != [] {
      NoLostWakeup(Next(s, trace[0]), trace[1..]);
    }
  }

  /** The loop owes a run: a token waits for its select, or a select has fired. */
  predicate Owes(s: State) {
    s.token || s.phase == Woken
  }

  lemma {:induction false} OwedUntilBegun(s: State, trace: seq<Event>)
    requires Owes(s) && IsRun(s, trace)
    ensures Owes(After(s, trace)) || exists j :: 0 <= j < |trace| && trace[j] == Begin
    decreases |trace|
  {
    if trace != [] && trace[0] != Begin {
      OwedUntilBegun(Next(s, trace[0]), trace[1..]);
      if !Owes(After(s, trace)) {
        var j :| 0 <= j < |trace[1..]| && trace[1..][j] == Begin;
        assert trace[j + 1] == Begin;
      }
    }
  }

  /**
   * Whatever happens, a kick is followed by a run that begins after it, unless
   * the loop still owes that run at the end.
   */
  lemma {:induction false} KickIsServed(s: State, trace: seq<Event>, i: nat)
    requires IsRun(s, trace) && i < |trace| && trace[i] == Kick
    ensures Owes(After(s, trace)) || exists j :: i < j < |trace| && trace[j] == Begin
    decreases i
  {
    if i == 0 {
      OwedUntilBegun(Next(s, Kick), trace[1..]);
      if !Owes(After(s, trace)) {
        var j :| 0 <= j < |trace[1..]| && trace[1..][j] == Begin;
        assert trace[j + 1] == Begin;
      }
    } else {
      KickIsServed(Next(s, trace[0]), trace[1..], i - 1);
      if !Owes(After(s, trace)) {
        var j :| i - 1 < j < |trace[1..]| && trace[1..][j] == Begin;
        assert trace[j + 1] == Begin;
      }
    }
  }

  /** A loop that owes a run is never stuck: it can begin it, wake up for it, or finish the run before it. */
  lemma OwedRunCanCome(s: State)
    requires Owes(s) && s.phase != Stopped
    ensures exists e :: e !in {Kick, Cancel, TakeTick, Stop} && Enabled(s, e)
  {
    if s.phase == Woken {
      assert Enabled(s, Begin);
    } else if s.phase == Running {
      assert Enabled(s, Finish);
    } else {
      assert Enabled(s, TakeToken);
    }
  }

  /** The loop stops only if the context ended. */
  lemma {:induction false} StopsOnlyWhenCancelled(s: State, trace: seq<Event>)
    requires IsRun(s, trace) && s.phase != Stopped && !s.cancelled && After(s, trace).phase == Stopped
    ensures Cancel in trace
    decreases |trace|
  {
    if trace[0] != Cancel {
      StopsOnlyWhenCancelled(Next(s, trace[0]), trace[1..]);
    }
  }
}
