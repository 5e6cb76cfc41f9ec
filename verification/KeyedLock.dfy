/**
 * A mutex per user (internal/handlers/keylock.go). Lock and its unlock closure
 * are not atomic: the sections under mu and the channel operations are, and
 * goroutines interleave between them. Each section is a method here.
 */
module KeyedLocks {
  /** One user's channel of capacity one, and how many goroutines are concerned with it. */
  class LockEntry {
    var token: bool
    var refs: int

    constructor ()
      ensures !token && refs == 0
    {
      token, refs := false, 0;
    }
  }

  /** Where a call to Lock, or to the closure it returned, is between two sections. */
  datatype Call =
    | Waiting(user: int, entry: LockEntry)
    | Holding(user: int, entry: LockEntry)
    | Drained(user: int, entry: LockEntry)
    | GaveUp(user: int, entry: LockEntry)

  /** The calls that concern a user. */
  ghost function Concerned(calls: map<int, Call>, user: int): set<int> {
    set c | c in calls && calls[c].user == user
  }

  ghost predicate Held(calls: map<int, Call>, user: int) {
    exists c :: c in calls && calls[c].Holding? && calls[c].user == user
  }

  /** What an entry says of a user's calls: how many there are, and whether one holds the lock. */
  ghost predicate EntryFits(token: bool, refs: int, calls: map<int, Call>, user: int) {
    refs == |Concerned(calls, user)| && (token <==> Held(calls, user))
  }

  lemma NoneConcerned(calls: map<int, Call>, user: int)
    requires forall c :: c in calls ==> calls[c].user != user
    ensures EntryFits(false, 0, calls, user)
  {
    assert forall c :: c !in Concerned(calls, user);
    assert Concerned(calls, user) == {};
  }

  lemma NobodyLeft(calls: map<int, Call>, user: int)
    requires |Concerned(calls, user)| == 0
    ensures forall c :: c in calls ==> calls[c].user != user
  {
    forall c | c in calls ensures calls[c].user != user {
      assert c !in Concerned(calls, user);
    }
  }

  lemma CallAdded(calls: map<int, Call>, c: int, s: Call, u: int, token: bool, refs: int)
    requires c !in calls && s.Waiting? && EntryFits(token, refs, calls, u)
    ensures EntryFits(token, if u == s.user then refs + 1 else refs, calls[c := s], u)
  {
    var r := calls[c := s];
    assert Concerned(r, u) == Concerned(calls, u) + (if u == s.user then {c} else {});
    assert forall d :: d in calls ==> r[d] == calls[d];
  }

  /** Only the lock of the call that moves can change hands. */
  lemma CallMoved(calls: map<int, Call>, c: int, s: Call, u: int, token: bool, refs: int)
    requires c in calls && s.user == calls[c].user && EntryFits(token, refs, calls, u)
    requires u == s.user && s.Holding? ==> !token
    requires calls[c].Holding? ==> forall d :: d in calls && calls[d].Holding? && calls[d].user == s.user ==> d == c
    ensures EntryFits(if u == s.user && (calls[c].Holding? || s.Holding?) then s.Holding? else token, refs, calls[c := s], u)
  {
    var r := calls[c := s];
    assert Concerned(r, u) == Concerned(calls, u);
    assert r[c] == s && forall d :: d in calls && d != c ==> r[d] == calls[d];
  }

  lemma CallEnded(calls: map<int, Call>, c: int, u: int, token: bool, refs: int)
    requires c in calls && !calls[c].Holding? && EntryFits(token, refs, calls, u)
    ensures EntryFits(token, if u == calls[c].user then refs - 1 else refs, calls - {c}, u)
  {
    var r := calls - {c};
    assert Concerned(r, u) == Concerned(calls, u) - (if u == calls[c].user then {c} else {});
    assert forall d :: d in r ==> r[d] == calls[d];
  }

  class KeyedLock {
    var entries: map<int, LockEntry>
    /** The calls under way. */
    var calls: map<int, Call>
    /** The closures whose once has fired. */
    var spent: set<int>

    /**
     * All calls for a user share the entry in the map, which counts them; its
     * token is out exactly while one of them holds the lock.
     */
    ghost predicate Valid()
      reads this, entries.Values
    {
      Counted() && forall u :: u in entries ==> entries[u].refs > 0
    }

    ghost predicate Counted()
      reads this, entries.Values
    {
      && (forall c :: c in calls ==> calls[c].user in entries && entries[calls[c].user] == calls[c].entry)
      && (forall u :: u in entries ==> EntryFits(entries[u].token, entries[u].refs, calls, u))
      && OneEntryEach() && AtMostOneHolder() && OnceFired()
    }

    ghost predicate OneEntryEach()
      reads this
    {
      forall u, v :: u in entries && v in entries && entries[u] == entries[v] ==> u == v
    }

    ghost predicate AtMostOneHolder()
      reads this
    {
      forall c, d :: c in calls && d in calls && calls[c].Holding? && calls[d].Holding? && calls[c].user == calls[d].user
                     ==> c == d
    }

    ghost predicate OnceFired()
      reads this
    {
      forall c :: c in calls ==> if calls[c].Drained? then c in spent else calls[c].GaveUp? || c !in spent
    }

    constructor ()
      ensures Valid() && entries == map[] && calls == map[] && spent == {}
    {
      entries, calls, spent := map[], map[], {};
    }

    /** The first section of Lock: find or add the user's entry, and count this call. */
    method Register(c: int, user: int)
      requires Valid() && c !in calls && c !in spent
      modifies this`entries, this`calls, if user in entries then {entries[user]} else {}
      ensures Valid()
      ensures user in entries && calls == old(calls)[c := Waiting(user, entries[user])]
      ensures user in old(entries) ==> entries == old(entries)
      ensures user !in old(entries) ==> fresh(entries[user]) && entries == old(entries)[user := entries[user]]
    {
      if user !in entries {
        AddEntry(user);
      }
      var e := entries[user];
      var s := Waiting(user, e);
      CallCounted(c, s);
      e.refs := e.refs + 1;
      calls := calls[c := s];
    }

    lemma CallCounted(c: int, s: Call)
      requires Counted() && c !in calls && s.Waiting?
      ensures forall u :: u in entries ==>
                EntryFits(entries[u].token, if u == s.user then entries[u].refs + 1 else entries[u].refs, calls[c := s], u)
    {
      forall u | u in entries
        ensures EntryFits(entries[u].token, if u == s.user then entries[u].refs + 1 else entries[u].refs, calls[c := s], u)
      {
        CallAdded(calls, c, s, u, entries[u].token, entries[u].refs);
      }
    }

    method AddEntry(user: int)
      requires Valid() && user !in entries
      modifies this`entries
      ensures Counted() && user in entries && fresh(entries[user]) && entries == old(entries)[user := entries[user]]
      ensures entries[user].refs == 0 && forall u :: u in entries && u != user ==> entries[u].refs > 0
    {
      var e := new LockEntry();
      NoneConcerned(calls, user);
      entries := entries[user := e];
    }

    /** The channel send of Lock, which goes through only while the token is in. */
    method Acquire(c: int) returns (ok: bool)
      requires Valid() && c in calls && calls[c].Waiting?
      modifies this`calls, calls[c].entry`token
      ensures Valid()
      ensures ok <==> !old(Held(calls, calls[c].user))
      ensures calls == if ok then old(calls)[c := Holding(old(calls)[c].user, old(calls)[c].entry)] else old(calls)
    {
      var e := calls[c].entry;
      assert entries[calls[c].user] == e;
      if e.token {
        return false;
      }
      var s := Holding(calls[c].user, e);
      forall u | u in entries ensures EntryFits(u == s.user || entries[u].token, entries[u].refs, calls[c := s], u) {
        CallMoved(calls, c, s, u, entries[u].token, entries[u].refs);
      }
      e.token := true;
      calls := calls[c := s];
      return true;
    }

    /** The other branch of the select: the request ended while it waited. */
    method GiveUp(c: int)
      requires Valid() && c in calls && calls[c].Waiting?
      modifies this`calls
      ensures Valid()
      ensures calls == old(calls)[c := GaveUp(old(calls)[c].user, old(calls)[c].entry)]
    {
      var s := GaveUp(calls[c].user, calls[c].entry);
      forall u | u in entries ensures EntryFits(entries[u].token, entries[u].refs, calls[c := s], u) {
        CallMoved(calls, c, s, u, entries[u].token, entries[u].refs);
      }
      calls := calls[c := s];
    }

    /** The unlock closure takes the token back, the first time it runs. */
    method Drain(c: int) returns (first: bool)
      requires Valid() && ((c in calls && calls[c].Holding?) || c in spent)
      modifies this`calls, this`spent, if c in calls then {calls[c].entry} else {}
      ensures Valid()
      ensures first <==> c !in old(spent)
      ensures first ==> spent == old(spent) + {c} && calls == old(calls)[c := Drained(old(calls)[c].user, old(calls)[c].entry)]
      ensures !first ==> spent == old(spent) && calls == old(calls) && (c in calls ==> unchanged(calls[c].entry))
    {
      if c in spent {
        return false;
      }
      var s := Drained(calls[c].user, calls[c].entry);
      forall u | u in entries ensures EntryFits(u != s.user && entries[u].token, entries[u].refs, calls[c := s], u) {
        CallMoved(calls, c, s, u, entries[u].token, entries[u].refs);
      }
      spent := spent + {c};
      s.entry.token := false;
      calls := calls[c := s];
      return true;
    }

    /** The section of release: the last one concerned removes the entry. */
    method Release(c: int)
      requires Valid() && c in calls && (calls[c].Drained? || calls[c].GaveUp?)
      modifies this`calls, this`entries, calls[c].entry`refs
      ensures Valid() && calls == old(calls) - {c}
      ensures entries == old(entries) || entries == old(entries) - {old(calls)[c].user}
    {
      var s := calls[c];
      assert entries[s.user] == s.entry;
      CallDismissed(c);
      s.entry.refs := s.entry.refs - 1;
      calls := calls - {c};
      if s.entry.refs == 0 {
        NobodyLeft(calls, s.user);
        entries := entries - {s.user};
      }
    }

    lemma CallDismissed(c: int)
      requires Counted() && c in calls && !calls[c].Holding?
      ensures forall u :: u in entries ==>
                EntryFits(entries[u].token, if u == calls[c].user then entries[u].refs - 1 else entries[u].refs, calls - {c}, u)
    {
      forall u | u in entries
        ensures EntryFits(entries[u].token, if u == calls[c].user then entries[u].refs - 1 else entries[u].refs, calls - {c}, u)
      {
        CallEnded(calls, c, u, entries[u].token, entries[u].refs);
      }
    }

    /** Unlocking a second time, at whatever moment, changes nothing. */
    method UnlockAgain(c: int)
      requires Valid() && c in spent
      modifies this, entries.Values
      ensures Valid() && entries == old(entries) && calls == old(calls) && spent == old(spent)
      ensures forall u :: u in entries ==> entries[u].token == old(entries[u].token) && entries[u].refs == old(entries[u].refs)
    {
      var first := Drain(c);
    }

    // ----- What it means -----

    /** The entry is in the map exactly while a call is concerned with it, and counts those calls. */
    lemma EntryWhileConcerned(user: int)
      requires Valid()
      ensures user in entries <==> exists c :: c in calls && calls[c].user == user
      ensures user in entries ==> entries[user].refs == |Concerned(calls, user)|
    {
      if user in entries && forall c :: c in calls ==> calls[c].user != user {
        NoneConcerned(calls, user);
      }
    }

    /** At most one call holds a user's lock, and then the user's token is out. */
    lemma MutualExclusion(c: int, d: int)
      requires Valid() && c in calls && d in calls && calls[c].Holding? && calls[d].Holding?
      requires calls[c].user == calls[d].user || calls[c].entry == calls[d].entry
      ensures c == d && calls[c].entry.token
    {
      assert entries[calls[c].user] == calls[c].entry && entries[calls[d].user] == calls[d].entry;
      assert Held(calls, calls[c].user);
    }
  }

  datatype Section = RegisterFor(user: int) | TryAcquire | Abandon | Unlock | Finish

  // ----- Schedules -----

  datatype Phase = Waits | Holds | Drains | Leaves

  datatype Place = Place(phase: Phase, user: int)

  /** The lock without its entries: where each call is, and which closures have fired. */
  datatype Picture = Picture(places: map<int, Place>, spent: set<int>)

  function PlaceOf(call: Call): Place {
    match call
    case Waiting(user, _) => Place(Waits, user)
    case Holding(user, _) => Place(Holds, user)
    case Drained(user, _) => Place(Drains, user)
    case GaveUp(user, _) => Place(Leaves, user)
  }

  function PictureOf(calls: map<int, Call>, spent: set<int>): Picture {
    Picture(map c | c in calls :: PlaceOf(calls[c]), spent)
  }

  predicate Free(p: Picture, user: int) {
    forall c :: c in p.places ==> p.places[c] != Place(Holds, user)
  }

  predicate In(p: Picture, c: int, phase: Phase) {
    c in p.places && p.places[c].phase == phase
  }

  function Moved(p: Picture, c: int, phase: Phase): Picture
    requires c in p.places
  {
    p.(places := p.places[c := Place(phase, p.places[c].user)])
  }

  /** A mutex per user: what a call's next section comes to, or nothing if it cannot take it. */
  function Taken(p: Picture, c: int, s: Section): Picture {
    match s
    case RegisterFor(user) =>
      if c !in p.places && c !in p.spent then p.(places := p.places[c := Place(Waits, user)]) else p
    case TryAcquire => if In(p, c, Waits) && Free(p, p.places[c].user) then Moved(p, c, Holds) else p
    case Abandon => if In(p, c, Waits) then Moved(p, c, Leaves) else p
    case Unlock => if In(p, c, Holds) && c !in p.spent then Moved(p, c, Drains).(spent := p.spent + {c}) else p
    case Finish => if In(p, c, Drains) || In(p, c, Leaves) then p.(places := p.places - {c}) else p
  }

  function AllTaken(p: Picture, schedule: seq<(int, Section)>): Picture
  {
    if schedule == [] then p
    else
      var last := schedule[|schedule| - 1];
      Taken(AllTaken(p, schedule[..|schedule| - 1]), last.0, last.1)
  }

  lemma FreeUnlessHeld(calls: map<int, Call>, spent: set<int>, user: int)
    ensures Free(PictureOf(calls, spent), user) <==> !Held(calls, user)
  {
    var p := PictureOf(calls, spent);
    forall c | c in calls ensures p.places[c] == Place(Holds, user) <==> calls[c].Holding? && calls[c].user == user {
    }
  }

  lemma PictureMoved(calls: map<int, Call>, c: int, call: Call, spent: set<int>)
    ensures PictureOf(calls[c := call], spent).places == PictureOf(calls, spent).places[c := PlaceOf(call)]
  {
  }

  lemma PictureEnded(calls: map<int, Call>, c: int, spent: set<int>)
    ensures PictureOf(calls - {c}, spent).places == PictureOf(calls, spent).places - {c}
  {
  }

  /** A call takes its next section if it can. A call that was never seen starts a new Lock. */
  method Take(l: KeyedLock, c: int, s: Section)
    requires l.Valid()
    modifies l, set u | u in l.entries :: l.entries[u]
    ensures l.Valid()
    ensures PictureOf(l.calls, l.spent) == Taken(old(PictureOf(l.calls, l.spent)), c, s)
    ensures forall u :: u in l.entries ==> (u in old(l.entries) && l.entries[u] == old(l.entries)[u]) || fresh(l.entries[u])
  {
    ghost var calls, spent := l.calls, l.spent;
    match s {
      case RegisterFor(user) =>
        if c !in l.calls && c !in l.spent {
          l.Register(c, user);
          PictureMoved(calls, c, l.calls[c], spent);
        }
      case TryAcquire =>
        if c in l.calls && l.calls[c].Waiting? {
          FreeUnlessHeld(calls, spent, l.calls[c].user);
          var _ := l.Acquire(c);
          PictureMoved(calls, c, l.calls[c], spent);
        }
      case Abandon =>
        if c in l.calls && l.calls[c].Waiting? {
          l.GiveUp(c);
          PictureMoved(calls, c, l.calls[c], spent);
        }
      case Unlock =>
        if (c in l.calls && l.calls[c].Holding?) || c in l.spent {
          var first := l.Drain(c);
          if first {
            PictureMoved(calls, c, l.calls[c], spent);
          }
        }
      case Finish =>
        if c in l.calls && (l.calls[c].Drained? || l.calls[c].GaveUp?) {
          l.Release(c);
          PictureEnded(calls, c, spent);
        }
    }
  }

  /**
   * Whatever the schedule, the lock does what a mutex per user does, and when no
   * call is under way its map is empty.
   */
  method Interleave(l: KeyedLock, schedule: seq<(int, Section)>)
    requires l.Valid() && l.entries == map[] && l.calls == map[] && l.spent == {}
    modifies l
    ensures l.Valid() && l.AtMostOneHolder()
    ensures PictureOf(l.calls, l.spent) == AllTaken(Picture(map[], {}), schedule)
    ensures forall u :: u in l.entries <==> exists c :: c in l.calls && l.calls[c].user == u
  {
    for i := 0 to |schedule|
      invariant l.Valid() && forall u :: u in l.entries ==> fresh(l.entries[u])
      invariant PictureOf(l.calls, l.spent) == AllTaken(Picture(map[], {}), schedule[..i])
    {
      assert schedule[..i + 1][..i] == schedule[..i];
      Take(l, schedule[i].0, schedule[i].1);
    }
    assert schedule[..|schedule|] == schedule;
    forall u ensures u in l.entries <==> exists c :: c in l.calls && l.calls[c].user == u {
      l.EntryWhileConcerned(u);
    }
  }

  /** As a mutex: however the sections interleave, two calls never hold the same user's lock. */
  lemma {:induction false} OneHolder(schedule: seq<(int, Section)>, c: int, d: int)
    requires var p := AllTaken(Picture(map[], {}), schedule);
             In(p, c, Holds) && In(p, d, Holds) && p.places[c].user == p.places[d].user
    ensures c == d
    decreases |schedule|
  {
    if schedule != [] && c != d {
      var n := |schedule| - 1;
      var p := AllTaken(Picture(map[], {}), schedule[..n]);
      if In(p, c, Holds) && In(p, d, Holds) && p.places[c].user == p.places[d].user {
        OneHolder(schedule[..n], c, d);
      }
    }
  }
}
