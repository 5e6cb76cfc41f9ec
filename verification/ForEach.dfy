/**
 * forEach (internal/limitsync/limitsync.go) step by step: the caller's loop, the
 * goroutines it starts, the channel that bounds them and the wait group.
 */
module ForEach {
  import opened Options

  datatype Caller<E> =
    | At(item: nat)
    | Sending(item: nat)
    | Waiting
    | Returned(err: Option<E>)

  /** A goroutine: before its call, in it, with its result, past the error lock, and past the slot. */
  datatype Routine<E> = Ready | Calling | Answered(err: Option<E>) | Leaving | Freed

  /**
   * slots and group are the channel's length and the wait group's counter. The rest is
   * history: how many items were handed out, the calls in order, what each returned,
   * and which calls have taken the error lock with an error, in that order.
   */
  datatype State<E> = State(
    items: nat, workers: nat, cancelled: bool,
    caller: Caller<E>, routines: map<nat, Routine<E>>, slots: nat, group: nat, firstErr: Option<E>,
    started: nat, calls: seq<nat>, results: map<nat, Option<E>>, failed: seq<nat>)

  datatype Event<E> =
    | Cancel
    | CheckContext
    | Send
    | Wait
    | Call(r: nat)
    | Answer(r: nat, err: Option<E>)
    | Note(r: nat)
    | Free(r: nat)
    | Done(r: nat)

  function Init<E>(items: nat, workers: nat, cancelled: bool): State<E> {
    State(items, workers, cancelled, At(0), map[], 0, 0, None, 0, [], map[], [])
  }

  predicate Enabled<E>(s: State<E>, e: Event<E>) {
    match e
    case Cancel => true
    case CheckContext => s.caller.At?
    case Send => s.caller.Sending? && s.slots < s.workers
    case Wait => s.caller.Waiting? && s.group == 0
    case Call(r) => r in s.routines && s.routines[r].Ready?
    case Answer(r, _) => r in s.routines && s.routines[r].Calling?
    case Note(r) => r in s.routines && s.routines[r].Answered?
    case Free(r) => r in s.routines && s.routines[r].Leaving? && s.slots > 0
    case Done(r) => r in s.routines && s.routines[r].Freed? && s.group > 0
  }

  function Next<E>(s: State<E>, e: Event<E>): State<E>
    requires Enabled(s, e)
  {
    match e
    case Cancel => s.(cancelled := true)
    case CheckContext =>
      s.(caller := if s.caller.item >= s.items || s.cancelled then Waiting else Sending(s.caller.item))
    case Send =>
      var i := s.caller.item;
      s.(slots := s.slots + 1, group := s.group + 1, routines := s.routines[i := Ready], started := s.started + 1, caller := At(i + 1))
    case Wait => s.(caller := Returned(s.firstErr))
    case Call(r) => s.(routines := s.routines[r := Calling], calls := s.calls + [r])
    case Answer(r, err) => s.(routines := s.routines[r := Answered(err)], results := s.results[r := err])
    case Note(r) =>
      s.(routines := s.routines[r := Leaving],
         firstErr := if s.firstErr.None? then s.routines[r].err else s.firstErr,
         failed := if s.routines[r].err.Some? then s.failed + [r] else s.failed)
    case Free(r) => s.(slots := s.slots - 1, routines := s.routines[r := Freed])
    case Done(r) => s.(group := s.group - 1, routines := s.routines - {r})
  }

  ghost predicate IsRun<E(!new)>(s: State<E>, trace: seq<Event<E>>)
    decreases |trace|
  {
    trace == [] || (Enabled(s, trace[0]) && IsRun(Next(s, trace[0]), trace[1..]))
  }

  ghost function After<E(!new)>(s: State<E>, trace: seq<Event<E>>): State<E>
    requires IsRun(s, trace)
    decreases |trace|
  {
    if trace == [] then s else After(Next(s, trace[0]), trace[1..])
  }

  // ----- The invariant -----

  function Holding<E>(routines: map<nat, Routine<E>>): set<nat> {
    set r | r in routines && !routines[r].Freed?
  }

  function InCall<E>(routines: map<nat, Routine<E>>): set<nat> {
    set r | r in routines && routines[r].Calling?
  }

  ghost predicate CallerFits<E>(s: State<E>) {
    && s.started <= s.items
    && match s.caller
       case At(i) => i == s.started
       case Sending(i) => i == s.started && i < s.items
       case Waiting => s.started == s.items || s.cancelled
       case Returned(err) => (s.started == s.items || s.cancelled) && s.routines == map[] && err == s.firstErr
  }

  predicate CountsFit<E>(s: State<E>) {
    && s.slots == |Holding(s.routines)| && s.slots <= s.workers
    && s.group == |s.routines|
  }

  /** Each item handed out has been called once, unless its goroutine has not come to it. */
  ghost predicate CallsFit<E>(s: State<E>) {
    && (forall r :: r in s.routines ==> r < s.started)
    && (forall i :: 0 <= i < |s.calls| ==> s.calls[i] < s.started && (s.calls[i] in s.routines ==> !s.routines[s.calls[i]].Ready?))
    && (forall i, j :: 0 <= i < j < |s.calls| ==> s.calls[i] != s.calls[j])
    && (forall r: nat :: r < s.started && (r in s.routines ==> !s.routines[r].Ready?) ==> r in s.calls)
  }

  /** What was returned so far, and whether it has reached the first error. */
  ghost predicate ResultsFit<E>(s: State<E>) {
    && (forall r :: r in s.results ==> r in s.calls)
    && (forall r :: r in s.calls && r !in s.results ==> r in s.routines && s.routines[r].Calling?)
    && (forall r :: r in s.routines && s.routines[r].Answered? ==> r in s.results && s.results[r] == s.routines[r].err)
    && (forall r :: r in s.routines && (s.routines[r].Ready? || s.routines[r].Calling?) ==> r !in s.results)
    && (forall i :: 0 <= i < |s.failed| ==> s.failed[i] in s.results && s.results[s.failed[i]].Some?)
    && s.firstErr == (if s.failed == [] then None else s.results[s.failed[0]])
    && (forall r :: r in s.results && s.results[r].Some? ==> r in s.failed || (r in s.routines && s.routines[r].Answered?))
  }

  ghost predicate Inv<E>(s: State<E>) {
    CallerFits(s) && CountsFit(s) && CallsFit(s) && ResultsFit(s)
  }

  lemma RoutineSet<E>(routines: map<nat, Routine<E>>, r: nat, x: Routine<E>)
    ensures |routines[r := x]| == |routines| + if r in routines then 0 else 1
    ensures |Holding(routines[r := x])| ==
            |Holding(routines)| - (if r in Holding(routines) then 1 else 0) + if x.Freed? then 0 else 1
  {
    assert |routines[r := x]| == |routines[r := x].Keys| && |routines| == |routines.Keys|;
    assert routines[r := x].Keys == routines.Keys + {r};
    HoldingSet(routines, r, x);
  }

  lemma HoldingSet<E>(routines: map<nat, Routine<E>>, r: nat, x: Routine<E>)
    ensures Holding(routines[r := x]) == if x.Freed? then Holding(routines) - {r} else Holding(routines) + {r}
  {
    var n := routines[r := x];
    forall q ensures q in Holding(n) <==> if q == r then !x.Freed? else q in Holding(routines) {
      assert q != r && q in routines ==> n[q] == routines[q];
    }
  }

  lemma RoutineOver<E>(routines: map<nat, Routine<E>>, r: nat)
    requires r in routines && routines[r].Freed?
    ensures |routines - {r}| == |routines| - 1 && |Holding(routines - {r})| == |Holding(routines)|
  {
    var n := routines - {r};
    assert n.Keys == routines.Keys - {r} && |n| == |n.Keys| && |routines| == |routines.Keys|;
    assert Holding(n) == Holding(routines);
  }

  lemma CountsKept<E>(s: State<E>, e: Event<E>)
    requires Inv(s) && Enabled(s, e)
    ensures CountsFit(Next(s, e))
  {
    match e
    case Send => RoutineSet(s.routines, s.caller.item, Ready);
    case Call(r) => RoutineSet(s.routines, r, Calling);
    case Answer(r, err) => RoutineSet(s.routines, r, Answered(err));
    case Note(r) => RoutineSet(s.routines, r, Leaving);
    case Free(r) => RoutineSet(s.routines, r, Freed);
    case Done(r) => RoutineOver(s.routines, r);
    case _ =>
  }

  lemma SendCalls<E>(s: State<E>, e: Event<E>)
    requires Inv(s) && Enabled(s, e) && e.Send?
    ensures CallsFit(Next(s, e))
  {
    var n := Next(s, e);
    var i := s.caller.item;
    forall k | 0 <= k < |n.calls| ensures n.calls[k] < n.started && (n.calls[k] in n.routines ==> !n.routines[n.calls[k]].Ready?) {
      assert s.calls[k] < s.started;
    }
    forall r: nat | r < n.started && (r in n.routines ==> !n.routines[r].Ready?) ensures r in n.calls {
      assert n.routines[i] == Ready;
      assert r < s.started;
    }
  }

  lemma CallCalls<E>(s: State<E>, e: Event<E>)
    requires Inv(s) && Enabled(s, e) && e.Call?
    ensures CallsFit(Next(s, e))
  {
  }

  lemma CallsKept<E>(s: State<E>, e: Event<E>)
    requires Inv(s) && Enabled(s, e)
    ensures CallsFit(Next(s, e))
  {
    match e
    case Send => SendCalls(s, e);
    case Call(_) => CallCalls(s, e);
    case _ =>
  }

  lemma SendResults<E>(s: State<E>, e: Event<E>)
    requires Inv(s) && Enabled(s, e) && e.Send?
    ensures ResultsFit(Next(s, e))
  {
  }

  lemma CallResults<E>(s: State<E>, e: Event<E>)
    requires Inv(s) && Enabled(s, e) && e.Call?
    ensures ResultsFit(Next(s, e))
  {
  }

  lemma AnswerResults<E>(s: State<E>, e: Event<E>)
    requires Inv(s) && Enabled(s, e) && e.Answer?
    ensures ResultsFit(Next(s, e))
  {
    var n := Next(s, e);
    assert e.r in s.calls;
    assert forall r :: r in s.failed ==> r != e.r;
  }

  lemma NoteResults<E>(s: State<E>, e: Event<E>)
    requires Inv(s) && Enabled(s, e) && e.Note?
    ensures ResultsFit(Next(s, e))
  {
    assert e.r in s.results;
  }

  lemma FreeResults<E>(s: State<E>, e: Event<E>)
    requires Inv(s) && Enabled(s, e) && (e.Free? || e.Done?)
    ensures ResultsFit(Next(s, e))
  {
  }

  lemma ResultsKept<E>(s: State<E>, e: Event<E>)
    requires Inv(s) && Enabled(s, e)
    ensures ResultsFit(Next(s, e))
  {
    match e
    case Send => SendResults(s, e);
    case Call(_) => CallResults(s, e);
    case Answer(_, _) => AnswerResults(s, e);
    case Note(_) => NoteResults(s, e);
    case Free(_) => FreeResults(s, e);
    case Done(_) => FreeResults(s, e);
    case _ =>
  }

  lemma StepKeeps<E>(s: State<E>, e: Event<E>)
    requires Inv(s) && Enabled(s, e)
    ensures Inv(Next(s, e))
  {
    CountsKept(s, e);
    CallsKept(s, e);
    ResultsKept(s, e);
  }

  lemma {:induction false} RunKeeps<E(!new)>(s: State<E>, trace: seq<Event<E>>)
    requires Inv(s) && IsRun(s, trace)
    ensures Inv(After(s, trace))
    decreases |trace|
  {
    if trace != [] {
      StepKeeps(s, trace[0]);
      RunKeeps(Next(s, trace[0]), trace[1..]);
    }
  }

  // ----- What it means -----

  /** At every moment at most workers calls are in flight, and no item was called twice. */
  lemma BoundedAndOnce<E(!new)>(items: nat, workers: nat, cancelled: bool, trace: seq<Event<E>>)
    requires IsRun(Init<E>(items, workers, cancelled), trace)
    ensures var s := After(Init<E>(items, workers, cancelled), trace);
            && |InCall(s.routines)| <= workers
            && forall i, j :: 0 <= i < j < |s.calls| ==> s.calls[i] != s.calls[j]
  {
    var init := Init<E>(items, workers, cancelled);
    RunKeeps(init, trace);
    SettingsStay(init, trace);
    var s := After(init, trace);
    assert InCall(s.routines) <= Holding(s.routines);
    SubsetIsSmaller(InCall(s.routines), Holding(s.routines));
  }

  lemma SubsetIsSmaller<T>(a: set<T>, b: set<T>)
    requires a <= b
    ensures |a| <= |b|
  {
    assert b == a + (b - a);
  }

  lemma {:induction false} SettingsStay<E(!new)>(s: State<E>, trace: seq<Event<E>>)
    requires IsRun(s, trace)
    ensures After(s, trace).items == s.items && After(s, trace).workers == s.workers
    decreases |trace|
  {
    if trace != [] {
      SettingsStay(Next(s, trace[0]), trace[1..]);
    }
  }

  /**
   * On return nothing is running, every call has returned, every item was called
   * unless the context ended, and there is an error exactly if some call failed.
   */
  lemma Returns<E(!new)>(items: nat, workers: nat, cancelled: bool, trace: seq<Event<E>>)
    requires IsRun(Init<E>(items, workers, cancelled), trace)
    requires After(Init<E>(items, workers, cancelled), trace).caller.Returned?
    ensures var s := After(Init<E>(items, workers, cancelled), trace);
            && s.routines == map[] && s.slots == 0 && s.group == 0
            && (!s.cancelled ==> s.started == items)
            && (forall r: nat :: r in s.calls <==> r < s.started)
            && (forall r :: r in s.results <==> r in s.calls)
            && (s.caller.err.Some? <==> exists r :: r in s.results && s.results[r].Some?)
            && (forall r :: r in s.failed <==> r in s.results && s.results[r].Some?)
            && s.caller.err == (if s.failed == [] then None else s.results[s.failed[0]])
  {
    var init := Init<E>(items, workers, cancelled);
    RunKeeps(init, trace);
    SettingsStay(init, trace);
    var s := After(init, trace);
    assert Holding(s.routines) == {};
  }

  /** With a worker, the loop is never stuck before it returns. */
  lemma NeverStuck<E(!new)>(s: State<E>)
    requires Inv(s) && s.workers > 0 && !s.caller.Returned?
    ensures exists e :: e != Event<E>.Cancel && Enabled(s, e)
  {
    if r :| r in s.routines {
      match s.routines[r]
      case Ready => assert Enabled(s, Event<E>.Call(r));
      case Calling => assert Enabled(s, Event<E>.Answer(r, None));
      case Answered(_) => assert Enabled(s, Event<E>.Note(r));
      case Leaving =>
        assert r in Holding(s.routines);
        assert Enabled(s, Event<E>.Free(r));
      case Freed =>
        assert r in s.routines.Keys;
        assert Enabled(s, Event<E>.Done(r));
    } else {
      assert s.routines == map[] && Holding(s.routines) == {};
      assert Enabled(s, if s.caller.At? then CheckContext else if s.caller.Sending? then Send else Wait);
    }
  }
}
