/**
 * Why Freshness excepts unrecorded pushes: a run after which a key is not
 * pending, and enforces the limits of a profile its owner was moved away from.
 */
module UnrecordedPush {
  import opened Options
  import opened KeyProvider
  import opened Database
  import opened Profiles
  import opened Freshness
  import opened Agreement

  function ProfileFor(model: string): Profile {
    Profile(model, "", [model], None, None, 0, model == "a", 1)
  }

  function Assigned(profile: int): User {
    User("sub", "mail", "name", Some(profile), None, None, false)
  }

  /** Two profiles, and one user assigned to the first. */
  function Start(): World {
    World("", Db(map[1 := ProfileFor("a"), 2 := ProfileFor("b")], map[], map[1 := Assigned(1)], map[], [], 2, 1, 0),
          map[], map[], map[], map[], map[], {}, map[], {})
  }

  function ReadingOf(profile: int, model: string): Reading {
    Reading("sub", profile, 1, Limits([model], None, None, []))
  }

  /** The user holds a key that was issued with the first profile's limits. */
  function WithKey(): World {
    var row := NewKeyRow(1, "ref", 100, 1, 1, "name", "mail");
    var w := Start();
    w.(db := w.db.(keys := map[1 := row], lastKey := 1),
       keys := map["ref" := Issued("alias", ReadingOf(1, "a"))], pushed := map["ref" := ReadingOf(1, "a")],
       rowOf := map["ref" := 1], used := {"ref"})
  }

  lemma KeyIsRequested()
    ensures Goes(Start(), Open(7, 1, 1), Start().(requests := map[7 := ProfileRead(1, 1, ProfileFor("a"))]))
    ensures Goes(Start().(requests := map[7 := ProfileRead(1, 1, ProfileFor("a"))]), OpenWindows(7, []),
                 Start().(requests := map[7 := Ready(1, ReadingOf(1, "a"))]))
  {
  }

  /** The key exists in the gateway, and its request has yet to store it. */
  function Unstored(): World {
    WithKey().(db := Start().db, rowOf := map[], requests := map[7 := Created(1, ReadingOf(1, "a"), "ref")])
  }

  lemma KeyIsCreated()
    ensures Goes(Start().(requests := map[7 := Ready(1, ReadingOf(1, "a"))]), CreateKey(7, "ref", "alias", true), Unstored())
  {
  }

  lemma KeyIsStored()
    ensures Goes(Unstored(), StoreKey(7, 100, "name", "mail"), WithKey())
  {
    assert KeysOfUser(Unstored().db, 1) == {};
  }

  lemma KeyIsIssued()
    ensures Reaches(Start(), WithKey())
  {
    KeyIsRequested();
    KeyIsCreated();
    KeyIsStored();
    Stays(WithKey());
    var w1 := Start().(requests := map[7 := ProfileRead(1, 1, ProfileFor("a"))]);
    var w2 := Start().(requests := map[7 := Ready(1, ReadingOf(1, "a"))]);
    Prepend(Unstored(), StoreKey(7, 100, "name", "mail"), WithKey(), WithKey());
    Prepend(w2, CreateKey(7, "ref", "alias", true), Unstored(), WithKey());
    Prepend(w1, OpenWindows(7, []), w2, WithKey());
    Prepend(Start(), Open(7, 1, 1), w1, WithKey());
  }

  /** The user was moved to the second profile. */
  function Away(): World {
    WithKey().(db := WithKey().db.(users := map[1 := Assigned(2)]))
  }

  /** A worker has got as far as push with the key meanwhile. */
  function Moved(push: Push): World {
    Away().(workers := map[1 := Worker("ref", "sub", "name", "mail", push)])
  }

  /** The limits landed, but the answer was lost. */
  function LostPush(): World {
    var r := ReadingOf(2, "b");
    Moved(Lost).(keys := map["ref" := Updated(WithKey().keys["ref"], r)], pushed := map["ref" := r], unrecorded := {"ref"})
  }

  /** The worker records that its push failed. */
  function FailedPush(): World {
    LostPush().(db := MarkLimitSyncFailed(Away().db, 1, "no answer", 3), workers := map[])
  }

  function BackAgain(): World {
    FailedPush().(db := FailedPush().db.(users := map[1 := Assigned(1)]))
  }

  lemma UserMoves()
    ensures Goes(WithKey(), Admin(Assign(1, Some(2), None, None, false)), Away())
    ensures Goes(FailedPush(), Admin(Assign(1, Some(1), None, None, false)), BackAgain())
  {
  }

  lemma KeyIsTargeted()
    ensures Goes(Away(), Target(1, 0), Moved(Targeted(Some(2))))
  {
    assert Pending(Away().db, 1, 0);
  }

  lemma ProfileIsRead()
    ensures Goes(Moved(Targeted(Some(2))), ReadRow(1), Moved(RowRead(2, ProfileFor("b"))))
    ensures Goes(Moved(RowRead(2, ProfileFor("b"))), ReadWindows(1, []), Moved(Loaded(ReadingOf(2, "b"))))
  {
  }

  lemma PushIsLost()
    ensures Goes(Moved(Loaded(ReadingOf(2, "b"))), PushLimits(1, false), LostPush())
  {
  }

  lemma FailureIsRecorded()
    ensures Goes(LostPush(), Fail(1, "no answer", 3), FailedPush())
  {
  }

  lemma BackAgainDisagrees()
    ensures Disagrees(BackAgain(), 1, 0)
  {
    var v := BackAgain();
    assert EffectiveProfile(v.db, v.db.users[1]) == Some(1);
    assert v.keys["ref"].models == ["b"] && v.db.profiles[1].models == ["a"];
    assert ["b"][0] != ["a"][0];
  }

  lemma DisagreementIsReached()
    ensures Reaches(WithKey(), BackAgain())
  {
    UserMoves();
    KeyIsTargeted();
    ProfileIsRead();
    PushIsLost();
    FailureIsRecorded();
    var v := BackAgain();
    Stays(v);
    Prepend(FailedPush(), Admin(Assign(1, Some(1), None, None, false)), v, v);
    Prepend(LostPush(), Fail(1, "no answer", 3), FailedPush(), v);
    Prepend(Moved(Loaded(ReadingOf(2, "b"))), PushLimits(1, false), LostPush(), v);
    Prepend(Moved(RowRead(2, ProfileFor("b"))), ReadWindows(1, []), Moved(Loaded(ReadingOf(2, "b"))), v);
    Prepend(Moved(Targeted(Some(2))), ReadRow(1), Moved(RowRead(2, ProfileFor("b"))), v);
    Prepend(Away(), Target(1, 0), Moved(Targeted(Some(2))), v);
    Prepend(WithKey(), Admin(Assign(1, Some(2), None, None, false)), Away(), v);
  }

  /** Without the exception the claim is false: a key that is not pending can enforce another profile's limits. */
  lemma UnrecordedPushCanDisagree()
    ensures exists w, v, key, now :: Init(w) && Reaches(w, v) && Disagrees(v, key, now)
  {
    KeyIsIssued();
    DisagreementIsReached();
    BackAgainDisagrees();
    var a :| IsRun(Start(), a) && After(Start(), a) == WithKey();
    var b :| IsRun(WithKey(), b) && After(WithKey(), b) == BackAgain();
    RunsCompose(Start(), a, b);
    assert Init(Start()) && Reaches(Start(), BackAgain());
  }
}
