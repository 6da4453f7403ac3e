/** `Terminate`: request termination, then poll the database with its own
    loop (not `WaitUntil`) until it is gone or reported as terminating. */
module Deletion {
  import opened Api
  import opened Text
  import opened ErrorFormat
  import opened Dispatch

  /** The poll's fixed budget: 30 fetches, 10 seconds apart. */
  const TerminateTries := 30
  const TerminateIntervalSeconds := 10

  /** How the message for an undecodable 200 poll reply begins. */
  const UndecodablePollLead: string :=
    "critical error trying to get status of database not deleted, unable to decode response with error: "

  /** The error for a 200 poll reply whose body does not decode as a database. */
  function UndecodablePoll(reason: string): string {
    UndecodablePollLead + reason
  }

  /** How one poll reply is read. */
  datatype PollStep =
    | Unauthorized                      // a 401: the database is gone
    | Deleted                           // a 200 whose status is TERMINATED or TERMINATING
    | StillThere                        // a 200 with any other status
    | Rejected(code: int, text: string) // any other code, with readErrorFromResponse's text
    | Aborted(message: string)          // no response, or a 200 body that does not decode

  function ClassifyPoll(id: string, reply: Reply): PollStep {
    match reply
    case RequestFailed(reason) =>
      Aborted(FindRequestError(id, reason))
    case TransportFailed(reason) =>
      Aborted(FindTransportError(id, reason))
    case Received(res) =>
      if res.statusCode == 401 then Unauthorized
      else if res.statusCode == 200 then
        match res.asDatabase
        case DecodeFailed(reason) => Aborted(UndecodablePoll(reason))
        case Decoded(db) =>
          if db.status == Terminated || db.status == Terminating then Deleted else StillThere
      else Rejected(res.statusCode, ErrorText(res, [200, 401]))
  }

  /** Whether a poll step ends the loop. */
  predicate Decisive(s: PollStep) {
    s.Unauthorized? || s.Deleted? || s.Aborted?
  }

  /** The status code a retried step saw. */
  function RetryCode(s: PollStep): int
    requires !Decisive(s)
  {
    if s.StillThere? then 200 else s.code
  }

  const IncompleteDeletion: string := " not complete. Last response from finding db was '"
  const LastCodeIntro: string := "' and last status code was "

  /** The error `Terminate` returns when no poll decided. */
  function TerminateTimeout(id: string, lastResponse: string, lastStatusCode: int): string {
    "delete of db " + id + IncompleteDeletion + lastResponse + LastCodeIntro + IntToDecimal(lastStatusCode)
  }

  /** What `Terminate` returns and how many polls it made. */
  datatype TerminateResult = TerminateResult(result: Outcome, polls: nat)

  /** How each reply of a poll sequence is read. */
  function Steps(id: string, polls: seq<Reply>): (steps: seq<PollStep>)
    ensures |steps| == |polls|
    ensures forall j :: 0 <= j < |polls| ==> steps[j] == ClassifyPoll(id, polls[j])
  {
    seq(|polls|, j requires 0 <= j < |polls| => ClassifyPoll(id, polls[j]))
  }

  /** The poll from attempt `i` on, over the classified replies, with the
      loop's two tracking variables. */
  function PollFrom(id: string, steps: seq<PollStep>, i: nat, lastResponse: string, lastStatusCode: int): TerminateResult
    requires TerminateTries <= |steps|
    decreases TerminateTries - i
  {
    if i >= TerminateTries then
      TerminateResult(Fail(TerminateTimeout(id, lastResponse, lastStatusCode)), i)
    else
      match steps[i]
      case Unauthorized => TerminateResult(Pass, i + 1)
      case Deleted => TerminateResult(Pass, i + 1)
      case Aborted(m) => TerminateResult(Fail(m), i + 1)
      case StillThere => PollFrom(id, steps, i + 1, lastResponse, 200)
      case Rejected(code, text) => PollFrom(id, steps, i + 1, text, code)
  }

  /** What `Terminate(id, preparedStateOnly)` returns. */
  function TerminateSpec(id: string, terminateReply: Reply, polls: seq<Reply>): TerminateResult
    requires TerminateTries <= |polls|
  {
    match TerminateAsync(id, terminateReply)
    case Fail(m) => TerminateResult(Fail(m), 0)
    case Pass => PollFrom(id, Steps(id, polls), 0, "", 0)
  }

  /** `Terminate`: the termination request, then up to 30 polls 10 seconds
      apart. `preparedStateOnly` only selects the request's query
      (`TerminateQuery`); the reply to that request is `terminateReply`. */
  method Terminate(id: string, preparedStateOnly: bool, terminateReply: Reply, polls: seq<Reply>)
    returns (result: Outcome, ghost attempts: nat, ghost elapsed: nat)
    requires TerminateTries <= |polls|
    ensures result == TerminateSpec(id, terminateReply, polls).result
    ensures attempts == TerminateSpec(id, terminateReply, polls).polls
    ensures elapsed == attempts * TerminateIntervalSeconds
  {
    var requested := TerminateAsync(id, terminateReply);
    if requested.Fail? {
      return requested, 0, 0;
    }
    result, attempts, elapsed := AwaitDeletion(id, polls);
  }

  /** The poll loop of `Terminate`, once the termination request has been
      accepted: fetch the database until a poll decides, keeping the text
      of the last rejected poll and the status code of the last response. */
  method AwaitDeletion(id: string, polls: seq<Reply>)
    returns (result: Outcome, ghost attempts: nat, ghost elapsed: nat)
    requires TerminateTries <= |polls|
    ensures result == PollFrom(id, Steps(id, polls), 0, "", 0).result
    ensures attempts == PollFrom(id, Steps(id, polls), 0, "", 0).polls
    ensures elapsed == attempts * TerminateIntervalSeconds
  {
    ghost var steps := Steps(id, polls);
    ghost var spec := PollFrom(id, steps, 0, "", 0);
    var tries := TerminateTries;
    var intervalSeconds := 10;
    var lastResponse := "";
    var lastStatusCode := 0;
    attempts, elapsed := 0, 0;
    var i := 0;
    while i < tries
      invariant 0 <= i <= tries
      invariant attempts == i && elapsed == i * intervalSeconds
      invariant PollFrom(id, steps, i, lastResponse, lastStatusCode) == spec
    {
      elapsed := elapsed + intervalSeconds;
      attempts := attempts + 1;
      if polls[i].RequestFailed? {
        assert steps[i] == Aborted(FindRequestError(id, polls[i].reason));
        return Fail(FindRequestError(id, polls[i].reason)), attempts, elapsed;
      }
      if polls[i].TransportFailed? {
        assert steps[i] == Aborted(FindTransportError(id, polls[i].reason));
        return Fail(FindTransportError(id, polls[i].reason)), attempts, elapsed;
      }
      var res := polls[i].res;
      lastStatusCode := res.statusCode;
      if res.statusCode == 401 {
        assert steps[i] == Unauthorized;
        return Pass, attempts, elapsed;
      }
      if res.statusCode == 200 {
        if res.asDatabase.DecodeFailed? {
          assert steps[i] == Aborted(UndecodablePoll(res.asDatabase.reason));
          return Fail(UndecodablePoll(res.asDatabase.reason)), attempts, elapsed;
        }
        var db := res.asDatabase.value;
        if db.status == Terminated || db.status == Terminating {
          assert steps[i] == Deleted;
          return Pass, attempts, elapsed;
        }
        assert steps[i] == StillThere;
        i := i + 1;
        continue;
      }
      lastResponse := ReadErrorFromResponse(res, [200, 401]);
      assert steps[i] == Rejected(lastStatusCode, lastResponse);
      i := i + 1;
    }
    result := Fail(TerminateTimeout(id, lastResponse, lastStatusCode));
  }

  /** The text of the last rejected poll among `steps`, or `otherwise` if none was rejected. */
  function LastRejection(steps: seq<PollStep>, otherwise: string): string {
    if |steps| == 0 then otherwise
    else if steps[|steps| - 1].Rejected? then steps[|steps| - 1].text
    else LastRejection(steps[..|steps| - 1], otherwise)
  }

  /** Reading one more step on the left: a rejection there replaces the default. */
  lemma {:induction false} LastRejectionCons(x: PollStep, rest: seq<PollStep>, otherwise: string)
    ensures LastRejection([x] + rest, otherwise)
         == LastRejection(rest, if x.Rejected? then x.text else otherwise)
    decreases |rest|
  {
    var s := [x] + rest;
    if |rest| > 0 {
      assert s[|s| - 1] == rest[|rest| - 1];
      assert s[..|s| - 1] == [x] + rest[..|rest| - 1];
      LastRejectionCons(x, rest[..|rest| - 1], otherwise);
    }
  }

  lemma {:induction false} PollFromDecided(id: string, steps: seq<PollStep>, i: nat, k: nat, lastResponse: string, lastStatusCode: int)
    requires TerminateTries <= |steps| && i <= k < TerminateTries
    requires forall j :: i <= j < k ==> !Decisive(steps[j])
    requires Decisive(steps[k])
    ensures PollFrom(id, steps, i, lastResponse, lastStatusCode)
         == TerminateResult(if steps[k].Aborted? then Fail(steps[k].message) else Pass, k + 1)
    decreases k - i
  {
    if i < k {
      var s := steps[i];
      if s.StillThere? {
        PollFromDecided(id, steps, i + 1, k, lastResponse, 200);
      } else {
        PollFromDecided(id, steps, i + 1, k, s.text, s.code);
      }
    }
  }

  /** The first decisive poll decides `Terminate`: a 401, or a 200 showing
      TERMINATED or TERMINATING, is success; a failed request or an
      undecodable 200 body aborts with its own error, however much budget
      remains. */
  lemma TerminateDecidedByFirstDecisivePoll(id: string, terminateReply: Reply, polls: seq<Reply>, k: nat)
    requires TerminateTries <= |polls| && k < TerminateTries
    requires TerminateAsync(id, terminateReply).Pass?
    requires forall j :: 0 <= j < k ==> !Decisive(ClassifyPoll(id, polls[j]))
    requires Decisive(ClassifyPoll(id, polls[k]))
    ensures var t := TerminateSpec(id, terminateReply, polls);
      t.polls == k + 1
      && (t.result.Pass? <==> ClassifyPoll(id, polls[k]).Unauthorized? || ClassifyPoll(id, polls[k]).Deleted?)
      && (ClassifyPoll(id, polls[k]).Aborted? ==> t.result == Fail(ClassifyPoll(id, polls[k]).message))
  {
    PollFromDecided(id, Steps(id, polls), 0, k, "", 0);
  }

  lemma {:induction false} PollFromExhausted(id: string, steps: seq<PollStep>, i: nat, lastResponse: string, lastStatusCode: int)
    requires TerminateTries <= |steps| && i < TerminateTries
    requires forall j :: i <= j < TerminateTries ==> !Decisive(steps[j])
    ensures PollFrom(id, steps, i, lastResponse, lastStatusCode)
         == TerminateResult(Fail(TerminateTimeout(id,
              LastRejection(steps[i..TerminateTries], lastResponse),
              RetryCode(steps[TerminateTries - 1]))), TerminateTries)
    decreases TerminateTries - i
  {
    var s := steps[i];
    var next := if s.Rejected? then s.text else lastResponse;
    assert steps[i..TerminateTries] == [s] + steps[i + 1..TerminateTries];
    LastRejectionCons(s, steps[i + 1..TerminateTries], lastResponse);
    if i + 1 < TerminateTries {
      PollFromExhausted(id, steps, i + 1, next, RetryCode(s));
    } else {
      assert steps[i + 1..TerminateTries] == [];
    }
  }

  /** When none of the 30 polls is decisive, `Terminate` fails after all 30
      with the text of the last rejected poll ("" if none was rejected) and
      the status code of the 30th poll. */
  lemma TerminateExhausted(id: string, terminateReply: Reply, polls: seq<Reply>)
    requires TerminateTries <= |polls|
    requires TerminateAsync(id, terminateReply).Pass?
    requires forall j :: 0 <= j < TerminateTries ==> !Decisive(ClassifyPoll(id, polls[j]))
    ensures TerminateSpec(id, terminateReply, polls)
         == TerminateResult(Fail(TerminateTimeout(id,
              LastRejection(Steps(id, polls)[..TerminateTries], ""),
              RetryCode(ClassifyPoll(id, polls[TerminateTries - 1])))), TerminateTries)
  {
    var steps := Steps(id, polls);
    PollFromExhausted(id, steps, 0, "", 0);
    assert steps[0..TerminateTries] == steps[..TerminateTries];
  }

  /** A failed termination request ends `Terminate` before any poll, with
      that request's error. */
  lemma TerminateRequestFailureSkipsPolling(id: string, terminateReply: Reply, polls: seq<Reply>)
    requires TerminateTries <= |polls|
    requires TerminateAsync(id, terminateReply).Fail?
    ensures TerminateSpec(id, terminateReply, polls) == TerminateResult(TerminateAsync(id, terminateReply), 0)
    ensures terminateReply.Received? ==>
      TerminateSpec(id, terminateReply, polls).result.message == Rejection(TerminateAction, terminateReply.res)
  {
  }

  /** Termination accepted, then the first poll answers 401: `Terminate`
      succeeds at once, after one poll (10 seconds of sleep). */
  lemma TerminateGoneScenario(id: string, terminateReply: Reply, polls: seq<Reply>)
    requires TerminateTries <= |polls|
    requires terminateReply.Received? && terminateReply.res.statusCode == 202
    requires polls[0].Received? && polls[0].res.statusCode == 401
    ensures TerminateSpec(id, terminateReply, polls) == TerminateResult(Pass, 1)
  {
    TerminateDecidedByFirstDecisivePoll(id, terminateReply, polls, 0);
  }
}
