/** The convergence poller `WaitUntil` and the blocking operations built on
    it (`CreateDb`, `Park`, `Unpark`). Sleeping is not performed: each
    method reports, as a ghost result, the seconds it would have slept. The
    replies to the successive fetches are given as a sequence, consumed one
    per attempt. */
module Poller {
  import opened Api
  import opened Text
  import opened Dispatch

  /** Seconds `time.Sleep` waits for a duration of `intervalSeconds`
      seconds: a duration that is not positive returns at once. */
  function SleepSeconds(intervalSeconds: int): nat {
    if intervalSeconds > 0 then intervalSeconds else 0
  }

  /** Whether fetching with this reply shows the database in `status`. */
  predicate Arrived(id: string, reply: Reply, status: Status) {
    var found := FindDb(id, reply);
    found.Ok? && found.value.status == status
  }

  /** The error `WaitUntil` returns when its budget runs out. */
  function WaitTimeout(id: string, status: Status, tries: int, intervalSeconds: int): string {
    "unable to find db id " + id + " with status " + Name(status) + " after "
      + IntToDecimal(intervalSeconds * tries) + " seconds"
  }

  /** What a poll returns: the database (Go's zero value on error), the
      error if any, and how many fetches were made. */
  datatype Waited = Waited(db: Database, result: Outcome, attempts: nat)

  /** The poll from attempt `i` on. */
  function WaitFrom(id: string, replies: seq<Reply>, status: Status, tries: int, intervalSeconds: int, i: nat): Waited
    requires tries <= |replies|
    decreases tries - i
  {
    if i >= tries then
      Waited(ZeroDatabase, Fail(WaitTimeout(id, status, tries, intervalSeconds)), i)
    else if Arrived(id, replies[i], status) then
      Waited(FindDb(id, replies[i]).value, Pass, i + 1)
    else
      WaitFrom(id, replies, status, tries, intervalSeconds, i + 1)
  }

  /** What `WaitUntil(id, tries, intervalSeconds, status)` returns. */
  function WaitSpec(id: string, replies: seq<Reply>, status: Status, tries: int, intervalSeconds: int): Waited
    requires tries <= |replies|
  {
    WaitFrom(id, replies, status, tries, intervalSeconds, 0)
  }

  /** `WaitUntil`: up to `tries` times, sleep, fetch, and stop at the first
      database in `status`; a failed fetch only uses up its attempt. */
  method WaitUntil(id: string, replies: seq<Reply>, tries: int, intervalSeconds: int, status: Status)
    returns (db: Database, result: Outcome, ghost attempts: nat, ghost elapsed: nat)
    requires tries <= |replies|
    ensures db == WaitSpec(id, replies, status, tries, intervalSeconds).db
    ensures result == WaitSpec(id, replies, status, tries, intervalSeconds).result
    ensures attempts == WaitSpec(id, replies, status, tries, intervalSeconds).attempts
    ensures elapsed == attempts * SleepSeconds(intervalSeconds)
  {
    attempts, elapsed := 0, 0;
    ghost var sleep := SleepSeconds(intervalSeconds);
    var i := 0;
    while i < tries
      invariant 0 <= i && (tries >= 0 ==> i <= tries)
      invariant attempts == i && elapsed == i * sleep
      invariant WaitFrom(id, replies, status, tries, intervalSeconds, i)
             == WaitSpec(id, replies, status, tries, intervalSeconds)
    {
      assert (i + 1) * sleep == i * sleep + sleep;
      elapsed := elapsed + sleep;
      attempts := attempts + 1;
      var found := FindDb(id, replies[i]);
      if found.Err? {
        assert !Arrived(id, replies[i], status);
        i := i + 1;
        continue;
      }
      if found.value.status == status {
        assert Arrived(id, replies[i], status);
        return found.value, Pass, attempts, elapsed;
      }
      assert !Arrived(id, replies[i], status);
      i := i + 1;
    }
    db, result := ZeroDatabase, Fail(WaitTimeout(id, status, tries, intervalSeconds));
  }

  lemma {:induction false} WaitFromFirstArrival(id: string, replies: seq<Reply>, status: Status, tries: int, intervalSeconds: int, i: nat)
    requires tries <= |replies|
    requires forall j :: 0 <= j < i && j < tries ==> !Arrived(id, replies[j], status)
    ensures var w := WaitFrom(id, replies, status, tries, intervalSeconds, i);
      (w.result.Pass? <==> exists k :: i <= k < tries && Arrived(id, replies[k], status))
      && (w.result.Pass? ==>
            i < w.attempts <= tries
            && FindDb(id, replies[w.attempts - 1]) == Ok(w.db)
            && w.db.status == status
            && forall j :: 0 <= j < w.attempts - 1 ==> !Arrived(id, replies[j], status))
      && (w.result.Fail? ==>
            w.attempts == (if tries > i then tries else i)
            && w.db == ZeroDatabase
            && w.result.message == WaitTimeout(id, status, tries, intervalSeconds)
            && forall j :: 0 <= j < tries ==> !Arrived(id, replies[j], status))
    decreases tries - i
  {
    if i < tries && !Arrived(id, replies[i], status) {
      WaitFromFirstArrival(id, replies, status, tries, intervalSeconds, i + 1);
    }
  }

  /** `WaitUntil` succeeds exactly when some fetch within the budget shows
      the status; it then returns the database of the FIRST such fetch,
      every earlier fetch having failed or shown another status. Otherwise
      it makes exactly `tries` fetches (none when `tries <= 0`) and returns
      the zero database with the timeout message. */
  lemma WaitUntilFirstArrival(id: string, replies: seq<Reply>, status: Status, tries: int, intervalSeconds: int)
    requires tries <= |replies|
    ensures var w := WaitSpec(id, replies, status, tries, intervalSeconds);
      (w.result.Pass? <==> exists k :: 0 <= k < tries && Arrived(id, replies[k], status))
      && (w.result.Pass? ==>
            1 <= w.attempts <= tries
            && FindDb(id, replies[w.attempts - 1]) == Ok(w.db)
            && w.db.status == status
            && forall j :: 0 <= j < w.attempts - 1 ==> !Arrived(id, replies[j], status))
      && (w.result.Fail? ==>
            w.attempts == (if tries > 0 then tries else 0)
            && w.db == ZeroDatabase
            && w.result.message == WaitTimeout(id, status, tries, intervalSeconds))
  {
    WaitFromFirstArrival(id, replies, status, tries, intervalSeconds, 0);
  }

  lemma {:induction false} WaitFromIgnoresNonArrival(id: string, replies: seq<Reply>, status: Status, tries: int, intervalSeconds: int, i: nat, j: nat, other: Reply)
    requires tries <= |replies| && j < |replies|
    requires !Arrived(id, replies[j], status) && !Arrived(id, other, status)
    ensures WaitFrom(id, replies[j := other], status, tries, intervalSeconds, i)
         == WaitFrom(id, replies, status, tries, intervalSeconds, i)
    decreases tries - i
  {
    var r := replies[j := other];
    if i < tries {
      assert Arrived(id, r[i], status) == Arrived(id, replies[i], status);
      if !Arrived(id, replies[i], status) {
        WaitFromIgnoresNonArrival(id, replies, status, tries, intervalSeconds, i + 1, j, other);
      } else {
        assert i != j;
      }
    }
  }

  /** A fetch error is absorbed: the poll cannot tell a failed fetch from
      one that shows another status, nor one failure from another, so
      swapping any such reply for another leaves the whole result, attempt
      count included, unchanged. */
  lemma FetchErrorIsAbsorbed(id: string, replies: seq<Reply>, status: Status, tries: int, intervalSeconds: int, j: nat, other: Reply)
    requires tries <= |replies| && j < |replies|
    requires !Arrived(id, replies[j], status) && !Arrived(id, other, status)
    ensures WaitSpec(id, replies[j := other], status, tries, intervalSeconds)
         == WaitSpec(id, replies, status, tries, intervalSeconds)
  {
    WaitFromIgnoresNonArrival(id, replies, status, tries, intervalSeconds, 0, j, other);
  }

  /** `CreateDb`'s budget: 30 fetches, 30 seconds apart, until ACTIVE. */
  const CreateTries := 30
  const CreateIntervalSeconds := 30
  /** `Park`'s budget: 30 fetches, 30 seconds apart, until PARKED. */
  const ParkTries := 30
  const ParkIntervalSeconds := 30
  /** `Unpark`'s budget: 60 fetches, 30 seconds apart, until ACTIVE. */
  const UnparkTries := 60
  const UnparkIntervalSeconds := 30

  /** What `CreateDb` returns: the creation error as is, or the poll's
      result with its error wrapped. */
  function CreateDbSpec(createReply: Reply, replies: seq<Reply>): Waited
    requires CreateTries <= |replies|
  {
    match CreateDbAsync(createReply)
    case Err(m) => Waited(ZeroDatabase, Fail(m), 0)
    case Ok(id) =>
      var w := WaitSpec(id, replies, Active, CreateTries, CreateIntervalSeconds);
      if w.result.Pass? then w
      else Waited(w.db, Fail("create db failed because '" + w.result.message + "'"), w.attempts)
  }

  /** `CreateDb`: create, then wait for ACTIVE. */
  method CreateDb(createReply: Reply, replies: seq<Reply>)
    returns (db: Database, result: Outcome, ghost attempts: nat, ghost elapsed: nat)
    requires CreateTries <= |replies|
    ensures db == CreateDbSpec(createReply, replies).db
    ensures result == CreateDbSpec(createReply, replies).result
    ensures attempts == CreateDbSpec(createReply, replies).attempts
    ensures elapsed == attempts * CreateIntervalSeconds
  {
    var created := CreateDbAsync(createReply);
    if created.Err? {
      return ZeroDatabase, Fail(created.message), 0, 0;
    }
    db, result, attempts, elapsed := WaitUntil(created.value, replies, CreateTries, CreateIntervalSeconds, Active);
    if result.Fail? {
      result := Fail("create db failed because '" + result.message + "'");
    }
  }

  /** What `Park` returns. */
  function ParkSpec(id: string, parkReply: Reply, replies: seq<Reply>): (Outcome, nat)
    requires ParkTries <= |replies|
  {
    match ParkAsync(id, parkReply)
    case Fail(m) => (Fail("park db failed because '" + m + "'"), 0)
    case Pass =>
      var w := WaitSpec(id, replies, Parked, ParkTries, ParkIntervalSeconds);
      if w.result.Pass? then (Pass, w.attempts)
      else (Fail("unable to check status for park db because of error '" + w.result.message + "'"), w.attempts)
  }

  /** `Park`: park, then wait for PARKED. */
  method Park(id: string, parkReply: Reply, replies: seq<Reply>)
    returns (result: Outcome, ghost attempts: nat, ghost elapsed: nat)
    requires ParkTries <= |replies|
    ensures result == ParkSpec(id, parkReply, replies).0
    ensures attempts == ParkSpec(id, parkReply, replies).1
    ensures elapsed == attempts * ParkIntervalSeconds
  {
    var parked := ParkAsync(id, parkReply);
    if parked.Fail? {
      return Fail("park db failed because '" + parked.message + "'"), 0, 0;
    }
    var _, waited, n, t := WaitUntil(id, replies, ParkTries, ParkIntervalSeconds, Parked);
    attempts, elapsed := n, t;
    result := if waited.Pass? then Pass
      else Fail("unable to check status for park db because of error '" + waited.message + "'");
  }

  /** What `Unpark` returns. */
  function UnparkSpec(id: string, unparkReply: Reply, replies: seq<Reply>): (Outcome, nat)
    requires UnparkTries <= |replies|
  {
    match UnparkAsync(id, unparkReply)
    case Fail(m) => (Fail("unpark db failed because '" + m + "'"), 0)
    case Pass =>
      var w := WaitSpec(id, replies, Active, UnparkTries, UnparkIntervalSeconds);
      if w.result.Pass? then (Pass, w.attempts)
      else (Fail("unable to check status for unpark db because of error '" + w.result.message + "'"), w.attempts)
  }

  /** `Unpark`: unpark, then wait for ACTIVE. */
  method Unpark(id: string, unparkReply: Reply, replies: seq<Reply>)
    returns (result: Outcome, ghost attempts: nat, ghost elapsed: nat)
    requires UnparkTries <= |replies|
    ensures result == UnparkSpec(id, unparkReply, replies).0
    ensures attempts == UnparkSpec(id, unparkReply, replies).1
    ensures elapsed == attempts * UnparkIntervalSeconds
  {
    var unparked := UnparkAsync(id, unparkReply);
    if unparked.Fail? {
      return Fail("unpark db failed because '" + unparked.message + "'"), 0, 0;
    }
    var _, waited, n, t := WaitUntil(id, replies, UnparkTries, UnparkIntervalSeconds, Active);
    attempts, elapsed := n, t;
    result := if waited.Pass? then Pass
      else Fail("unable to check status for unpark db because of error '" + waited.message + "'");
  }

  /** `CreateDb` blocks until the new database is ACTIVE: it succeeds
      exactly when the creation is accepted and some fetch within its 30
      shows ACTIVE, and then returns the record of the first such fetch. A
      rejected creation makes no fetch; a poll that runs out returns the
      zero database and the wrapped timeout. */
  lemma CreateDbConverges(createReply: Reply, replies: seq<Reply>)
    requires CreateTries <= |replies|
    ensures var w := CreateDbSpec(createReply, replies);
      var created := CreateDbAsync(createReply);
      (w.result.Pass? <==>
         created.Ok? && exists k :: 0 <= k < CreateTries && Arrived(created.value, replies[k], Active))
      && w.attempts <= CreateTries
      && (created.Err? ==> w == Waited(ZeroDatabase, Fail(created.message), 0))
      && (created.Ok? && w.result.Pass? ==>
            1 <= w.attempts
            && FindDb(created.value, replies[w.attempts - 1]) == Ok(w.db)
            && w.db.status == Active
            && forall j :: 0 <= j < w.attempts - 1 ==> !Arrived(created.value, replies[j], Active))
      && (created.Ok? && w.result.Fail? ==>
            w.attempts == CreateTries && w.db == ZeroDatabase
            && w.result.message == "create db failed because '"
                 + WaitTimeout(created.value, Active, CreateTries, CreateIntervalSeconds) + "'")
  {
    var created := CreateDbAsync(createReply);
    if created.Ok? {
      WaitUntilFirstArrival(created.value, replies, Active, CreateTries, CreateIntervalSeconds);
    }
  }

  /** `Park` blocks until the database is PARKED: it succeeds exactly when
      the park request is accepted and some fetch within its 30 shows
      PARKED. A rejected request makes no fetch; a poll that runs out makes
      all 30 and reports the wrapped timeout. */
  lemma ParkConverges(id: string, parkReply: Reply, replies: seq<Reply>)
    requires ParkTries <= |replies|
    ensures var (r, n) := ParkSpec(id, parkReply, replies);
      (r.Pass? <==>
         ParkAsync(id, parkReply).Pass? && exists k :: 0 <= k < ParkTries && Arrived(id, replies[k], Parked))
      && n <= ParkTries
      && (ParkAsync(id, parkReply).Fail? ==> n == 0)
      && (r.Pass? ==>
            1 <= n && Arrived(id, replies[n - 1], Parked)
            && forall j :: 0 <= j < n - 1 ==> !Arrived(id, replies[j], Parked))
      && (ParkAsync(id, parkReply).Pass? && r.Fail? ==>
            n == ParkTries
            && r.message == "unable to check status for park db because of error '"
                 + WaitTimeout(id, Parked, ParkTries, ParkIntervalSeconds) + "'")
  {
    WaitUntilFirstArrival(id, replies, Parked, ParkTries, ParkIntervalSeconds);
  }

  /** `Unpark` blocks until the database is ACTIVE again: it succeeds
      exactly when the unpark request is accepted and some fetch within its
      60 shows ACTIVE. A rejected request makes no fetch; a poll that runs
      out makes all 60 and reports the wrapped timeout. */
  lemma UnparkConverges(id: string, unparkReply: Reply, replies: seq<Reply>)
    requires UnparkTries <= |replies|
    ensures var (r, n) := UnparkSpec(id, unparkReply, replies);
      (r.Pass? <==>
         UnparkAsync(id, unparkReply).Pass? && exists k :: 0 <= k < UnparkTries && Arrived(id, replies[k], Active))
      && n <= UnparkTries
      && (UnparkAsync(id, unparkReply).Fail? ==> n == 0)
      && (r.Pass? ==>
            1 <= n && Arrived(id, replies[n - 1], Active)
            && forall j :: 0 <= j < n - 1 ==> !Arrived(id, replies[j], Active))
      && (UnparkAsync(id, unparkReply).Pass? && r.Fail? ==>
            n == UnparkTries
            && r.message == "unable to check status for unpark db because of error '"
                 + WaitTimeout(id, Active, UnparkTries, UnparkIntervalSeconds) + "'")
  {
    WaitUntilFirstArrival(id, replies, Active, UnparkTries, UnparkIntervalSeconds);
  }

  /** Creation that is accepted with `location: db-123`, followed by fetches
      showing PENDING, PENDING, then ACTIVE: `CreateDb` returns the ACTIVE
      record after exactly three fetches (90 seconds of sleep). */
  lemma CreateDbScenario(createReply: Reply, replies: seq<Reply>, db: Database)
    requires createReply.Received? && createReply.res.statusCode == 201
    requires createReply.res.location == "db-123"
    requires CreateTries <= |replies|
    requires FindDb("db-123", replies[0]).Ok? && FindDb("db-123", replies[0]).value.status == Pending
    requires FindDb("db-123", replies[1]).Ok? && FindDb("db-123", replies[1]).value.status == Pending
    requires FindDb("db-123", replies[2]) == Ok(db) && db.status == Active
    ensures CreateDbSpec(createReply, replies) == Waited(db, Pass, 3)
    ensures CreateDbSpec(createReply, replies).attempts * CreateIntervalSeconds == 90
  {
    WaitUntilFirstArrival("db-123", replies, Active, CreateTries, CreateIntervalSeconds);
    var w := WaitSpec("db-123", replies, Active, CreateTries, CreateIntervalSeconds);
    assert Arrived("db-123", replies[2], Active);
    assert w.attempts == 3;
  }

  /** A poll for PARKED with a budget of 3 fetches 1 second apart that never
      sees PARKED fails after all 3 with a message naming the 3 seconds. */
  lemma ParkTimeoutScenario(id: string, replies: seq<Reply>)
    requires 3 <= |replies|
    requires forall j :: 0 <= j < 3 ==> !Arrived(id, replies[j], Parked)
    ensures WaitSpec(id, replies, Parked, 3, 1)
         == Waited(ZeroDatabase,
              Fail("unable to find db id " + id + " with status " + "PARKED" + " after " + "3" + " seconds"), 3)
  {
    WaitUntilFirstArrival(id, replies, Parked, 3, 1);
    assert IntToDecimal(3) == "3";
  }
}
