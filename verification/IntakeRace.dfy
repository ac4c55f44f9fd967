/** A run from the empty tables in which one of two reviews loses the race. */
module IntakeRace {
  import opened Wrappers
  import opened Intake

  lemma Arrived(ss: seq<System>, key: string -> int, ms: seq<Move>, q: Request)
    returns (ss': seq<System>, ms': seq<Move>)
    requires IsRun(ss, key, ms) && Arrives(q)
    ensures IsRun(ss', key, ms') && |ms'| == |ms| + 1
    ensures ss'[|ms'|] == ss[|ms|].(requests := ss[|ms|].requests + [q])
  {
    ss', ms' := ss + [ss[|ms|].(requests := ss[|ms|].requests + [q])], ms + [Arrive(q)];
  }

  lemma Took(ss: seq<System>, key: string -> int, ms: seq<Move>, r: nat, c: Choice)
    returns (ss': seq<System>, ms': seq<Move>)
    requires IsRun(ss, key, ms) && r < |ss[|ms|].requests| && Enabled(ss[|ms|], key, ss[|ms|].requests[r], c)
    ensures IsRun(ss', key, ms') && |ms'| == |ms| + 1
    ensures ss'[|ms'|] == Act(ss[|ms|], key, r, c)
  {
    ss', ms' := ss + [Act(ss[|ms|], key, r, c)], ms + [Statement(r, c)];
  }

  /** A challenge is issued to the owner. */
  lemma ChallengeIssued(key: string -> int, owner: string) returns (ss: seq<System>, ms: seq<Move>)
    ensures IsRun(ss, key, ms)
    ensures var row := Challenge(owner, CHALLENGE_TTL_MS);
            ss[|ms|] == EMPTY.(requests := [Closed(Issued)], pool := Pool(map["c" := row], map["c" := row], []))
  {
    ss, ms := Arrived([EMPTY], key, [], Issue(owner));
    ss, ms := Took(ss, key, ms, 0, Go);
    assert Sweep(map[], 0) == map[];
    ss, ms := Took(ss, key, ms, 0, Fresh("c"));
    assert ss[|ms|].requests == [Closed(Issued)];
  }

  /** It is presented, signed and consumed. */
  lemma ChallengeConsumed(key: string -> int, owner: string) returns (ss: seq<System>, ms: seq<Move>)
    ensures IsRun(ss, key, ms)
    ensures var s := ss[|ms|];
            && s.requests == [Closed(Issued), SubmitConsumed(owner, "c")]
            && s.locks == map[] && s.apps == map[] && s.ids == {} && s.mail == EMPTY.mail && s.now == 0
  {
    ss, ms := ChallengeIssued(key, owner);
    ss, ms := Arrived(ss, key, ms, Submit(owner, "c"));
    ss, ms := Took(ss, key, ms, 1, Go);
    ss, ms := Took(ss, key, ms, 1, SignatureIs(true));
    ss, ms := Took(ss, key, ms, 1, Go);
  }

  /** The application is inserted and its token mailed. */
  lemma ApplicationCreated(key: string -> int, owner: string) returns (ss: seq<System>, ms: seq<Move>)
    ensures IsRun(ss, key, ms)
    ensures var s := ss[|ms|];
            && |s.requests| == 2 && s.requests[1] == SendToken("app", Created)
            && s.apps == map["app" := NewApplication(owner)] && s.mail == EMPTY.mail && s.now == 0
  {
    ss, ms := ChallengeConsumed(key, owner);
    ss, ms := Took(ss, key, ms, 1, Go);
    ss, ms := Took(ss, key, ms, 1, Go);
    ss, ms := Took(ss, key, ms, 1, Fresh("app"));
    ss, ms := Took(ss, key, ms, 1, Go);
  }

  /** The token is redeemed. */
  lemma ApplicationVerified(key: string -> int, owner: string) returns (ss: seq<System>, ms: seq<Move>)
    ensures IsRun(ss, key, ms)
    ensures var s := ss[|ms|];
            && |s.requests| == 3 && "app" in s.apps
            && s.apps["app"] == NewApplication(owner).(emailVerified := true)
  {
    ss, ms := ApplicationCreated(key, owner);
    ss, ms := Took(ss, key, ms, 1, Fresh("t"));
    ss, ms := Arrived(ss, key, ms, Verify("t"));
    ss, ms := Took(ss, key, ms, 2, Finds("app"));
    ss, ms := Took(ss, key, ms, 2, Go);
  }

  /** Two reviews both read the pending application; the second update finds it reviewed. */
  lemma ReviewLosesRace(key: string -> int, owner: string, winner: Request, loser: Request)
    returns (ss: seq<System>, ms: seq<Move>)
    requires Arrives(winner) && winner.Review? && winner.app == "app"
    requires Arrives(loser) && loser.Review? && loser.app == "app"
    ensures IsRun(ss, key, ms)
    ensures var s := ss[|ms|];
            && |s.requests| == 5 && s.requests[3] == Closed(Reviewed) && s.requests[4] == Closed(NotFound)
            && "app" in s.apps && s.apps["app"].status == winner.verdict
              && s.apps["app"].reviewedBy == Some(winner.reviewer)
  {
    ss, ms := ApplicationVerified(key, owner);
    ss, ms := Arrived(ss, key, ms, winner);
    ss, ms := Arrived(ss, key, ms, loser);
    ss, ms := Took(ss, key, ms, 3, Go);
    ss, ms := Took(ss, key, ms, 4, Go);
    ss, ms := Took(ss, key, ms, 3, Go);
    ss, ms := Took(ss, key, ms, 4, Go);
  }

  /** A first token is stored, and then a resend asks for another one. */
  lemma ResentBeforeVerifying(key: string -> int, owner: string) returns (ss: seq<System>, ms: seq<Move>)
    ensures IsRun(ss, key, ms)
    ensures var s := ss[|ms|];
            && |s.requests| == 3 && s.requests[2] == Closed(Accepted) && s.now == 0
            && s.apps == map["app" := NewApplication(owner)]
            && s.mail.rows == map["app" := Token("second", TOKEN_TTL_MS)]
            && "first" in s.mail.superseded
  {
    ss, ms := ApplicationCreated(key, owner);
    ss, ms := Took(ss, key, ms, 1, Fresh("first"));
    ss, ms := Arrived(ss, key, ms, Resend("app"));
    ss, ms := Took(ss, key, ms, 2, Go);
    ss, ms := Took(ss, key, ms, 2, Fresh("second"));
    assert ss[|ms|].mail.rows == map["app" := Token("second", TOKEN_TTL_MS)];
  }

  /** The replaced token is refused, and the second one verifies the application. */
  lemma ResendReplacesToken(key: string -> int, owner: string) returns (ss: seq<System>, ms: seq<Move>)
    ensures IsRun(ss, key, ms)
    ensures var s := ss[|ms|];
            && |s.requests| == 5 && s.requests[3] == Closed(InvalidToken) && s.requests[4] == Closed(Verified)
            && "app" in s.apps && s.apps["app"].emailVerified && s.apps["app"].owner == owner
  {
    ss, ms := ResentBeforeVerifying(key, owner);
    ss, ms := Arrived(ss, key, ms, Verify("first"));
    ss, ms := Took(ss, key, ms, 3, Go);
    ss, ms := Arrived(ss, key, ms, Verify("second"));
    ss, ms := Took(ss, key, ms, 4, Finds("app"));
    ss, ms := Took(ss, key, ms, 4, Go);
  }
}
