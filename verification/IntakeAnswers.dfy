/** What each intake request is answered, and what keeps a challenge or a token good meanwhile. */
module IntakeAnswers {
  import opened Wrappers
  import opened Intake
  import opened IntakeSafety

  /** At this point of the run a statement of request `r` is executed. */
  ghost predicate Runs(ss: seq<System>, key: string -> int, ms: seq<Move>, k: nat, r: nat, c: Choice) {
    IsRun(ss, key, ms) && k < |ms| && ms[k] == Statement(r, c) && r < |ss[k].requests|
  }

  // ---------- submitting ----------

  /** The challenge was issued to this owner and is neither used nor expired nor swept. */
  predicate Presentable(s: System, challenge: string, owner: string) {
    && challenge in s.pool.rows
    && s.pool.rows[challenge].owner == owner
    && s.now < s.pool.rows[challenge].expiresAt
  }

  lemma SubmitAct(s: System, key: string -> int, r: nat, c: Choice, owner: string, challenge: string)
    requires r < |s.requests| && s.requests[r] == Submit(owner, challenge)
    ensures Act(s, key, r, c) == At(s, r,
      if Presentable(s, challenge, owner) then SubmitLookedUp(owner, challenge) else Closed(InvalidChallenge))
  {
  }

  /** A submission goes past its lookup iff its owner can present the challenge; otherwise it is told so. */
  lemma LookupAnswers(ss: seq<System>, key: string -> int, ms: seq<Move>, k: nat, r: nat, c: Choice, owner: string,
                      challenge: string)
    requires Runs(ss, key, ms, k, r, c) && ss[k].requests[r] == Submit(owner, challenge)
    ensures r < |ss[k + 1].requests| && ss[k + 1].pool == ss[k].pool
    ensures ss[k + 1].requests[r] == SubmitLookedUp(owner, challenge) <==> Presentable(ss[k], challenge, owner)
    ensures ss[k + 1].requests[r] == Closed(InvalidChallenge) <==> !Presentable(ss[k], challenge, owner)
  {
    StatementHappens(ss, key, ms, k, r, c);
    SubmitAct(ss[k], key, r, c, owner, challenge);
  }

  lemma SignatureAct(s: System, key: string -> int, r: nat, c: Choice, owner: string, challenge: string)
    requires r < |s.requests| && s.requests[r] == SubmitLookedUp(owner, challenge) && c.SignatureIs?
    ensures Act(s, key, r, c) == At(s, r, if c.valid then SubmitSigned(owner, challenge) else Closed(InvalidSignature))
  {
  }

  /** It goes past the signature check iff the signature is valid. */
  lemma SignatureAnswers(ss: seq<System>, key: string -> int, ms: seq<Move>, k: nat, r: nat, c: Choice, owner: string,
                         challenge: string)
    requires Runs(ss, key, ms, k, r, c) && ss[k].requests[r] == SubmitLookedUp(owner, challenge)
    ensures c.SignatureIs? && r < |ss[k + 1].requests| && ss[k + 1].pool == ss[k].pool
    ensures ss[k + 1].requests[r] == SubmitSigned(owner, challenge) <==> c.valid
    ensures ss[k + 1].requests[r] == Closed(InvalidSignature) <==> !c.valid
  {
    StatementHappens(ss, key, ms, k, r, c);
    SignatureAct(ss[k], key, r, c, owner, challenge);
  }

  lemma ConsumeAct(s: System, key: string -> int, r: nat, c: Choice, owner: string, challenge: string)
    requires r < |s.requests| && s.requests[r] == SubmitSigned(owner, challenge)
    ensures var s' := Act(s, key, r, c);
            && r < |s'.requests|
            && (Presentable(s, challenge, owner) ==>
                  && s'.requests[r] == SubmitConsumed(owner, challenge) && challenge !in s'.pool.rows
                  && s'.pool.attempts == s.pool.attempts + [Attempt(challenge, owner, s.now)])
            && (!Presentable(s, challenge, owner) ==>
                  s'.requests[r] == Closed(InvalidChallenge) && s'.pool == s.pool)
  {
  }

  /** And it gets its create attempt iff the challenge can still be presented, which then is used up. */
  lemma ConsumeAnswers(ss: seq<System>, key: string -> int, ms: seq<Move>, k: nat, r: nat, c: Choice, owner: string,
                       challenge: string)
    requires Runs(ss, key, ms, k, r, c) && ss[k].requests[r] == SubmitSigned(owner, challenge)
    ensures r < |ss[k + 1].requests|
    ensures ss[k + 1].requests[r] == SubmitConsumed(owner, challenge) <==> Presentable(ss[k], challenge, owner)
    ensures ss[k + 1].requests[r] == Closed(InvalidChallenge) <==> !Presentable(ss[k], challenge, owner)
    ensures Presentable(ss[k], challenge, owner) ==> challenge !in ss[k + 1].pool.rows
    ensures !Presentable(ss[k], challenge, owner) ==> ss[k + 1].pool == ss[k].pool
  {
    StatementHappens(ss, key, ms, k, r, c);
    ConsumeAct(ss[k], key, r, c, owner, challenge);
  }

  // ---------- no application without a signature ----------

  /** Earlier in the run a valid signature of this owner for this challenge was checked. */
  ghost predicate Signed(ss: seq<System>, ms: seq<Move>, k: nat, owner: string, challenge: string) {
    exists j, r :: SignedAt(ss, ms, k, j, r, owner, challenge)
  }

  ghost predicate SignedAt(ss: seq<System>, ms: seq<Move>, k: nat, j: int, r: int, owner: string, challenge: string) {
    && 0 <= j < k && j < |ms| && j < |ss| && 0 <= r < |ss[j].requests|
    && ms[j] == Statement(r, SignatureIs(true)) && ss[j].requests[r] == SubmitLookedUp(owner, challenge)
  }

  ghost predicate AllSigned(ss: seq<System>, ms: seq<Move>, k: nat)
    requires k < |ss|
  {
    && (forall r :: 0 <= r < |ss[k].requests| && ss[k].requests[r].SubmitSigned? ==>
          Signed(ss, ms, k, ss[k].requests[r].owner, ss[k].requests[r].challenge))
    && (forall a <- ss[k].pool.attempts :: Signed(ss, ms, k, a.owner, a.challenge))
  }

  lemma SignedStays(ss: seq<System>, ms: seq<Move>, k: nat, owner: string, challenge: string)
    requires Signed(ss, ms, k, owner, challenge)
    ensures Signed(ss, ms, k + 1, owner, challenge)
  {
    var j, r :| SignedAt(ss, ms, k, j, r, owner, challenge);
    assert SignedAt(ss, ms, k + 1, j, r, owner, challenge);
  }

  /** How a statement comes to a signed submission, and to an attempt. */
  ghost predicate SigningStep(s: System, r: nat, c: Choice, s': System)
    requires r < |s.requests|
  {
    && OnlyMoves(s.requests, r, s'.requests)
    && (s'.requests[r].SubmitSigned? ==>
          c == SignatureIs(true)
            && s.requests[r] == SubmitLookedUp(s'.requests[r].owner, s'.requests[r].challenge))
    && forall a <- s'.pool.attempts ::
         a in s.pool.attempts || s.requests[r] == SubmitSigned(a.owner, a.challenge)
  }

  lemma ActSigns(s: System, key: string -> int, r: nat, c: Choice)
    requires r < |s.requests| && Enabled(s, key, s.requests[r], c)
    ensures SigningStep(s, r, c, Act(s, key, r, c))
  {
    StatementShape(s, key, r, c);
  }

  lemma SigningStepKeeps(ss: seq<System>, ms: seq<Move>, k: nat, r: nat, c: Choice)
    requires k < |ms| && k + 1 < |ss| && AllSigned(ss, ms, k) && ms[k] == Statement(r, c)
    requires r < |ss[k].requests| && SigningStep(ss[k], r, c, ss[k + 1])
    ensures AllSigned(ss, ms, k + 1)
  {
    var after := ss[k + 1].requests;
    forall q | 0 <= q < |after| && after[q].SubmitSigned?
      ensures Signed(ss, ms, k + 1, after[q].owner, after[q].challenge)
    {
      if q == r {
        assert SignedAt(ss, ms, k + 1, k, r, after[q].owner, after[q].challenge);
      } else {
        SignedStays(ss, ms, k, ss[k].requests[q].owner, ss[k].requests[q].challenge);
      }
    }
    forall a | a in ss[k + 1].pool.attempts ensures Signed(ss, ms, k + 1, a.owner, a.challenge) {
      SignedStays(ss, ms, k, a.owner, a.challenge);
    }
  }

  /** At most new requests have arrived. */
  predicate Joined(before: seq<Request>, after: seq<Request>) {
    before <= after && forall q :: |before| <= q < |after| ==> Arrives(after[q])
  }

  lemma OtherMovesKeepSigned(ss: seq<System>, ms: seq<Move>, k: nat)
    requires k < |ms| && k + 1 < |ss| && AllSigned(ss, ms, k)
    requires ss[k + 1].pool == ss[k].pool
    requires Joined(ss[k].requests, ss[k + 1].requests)
    ensures AllSigned(ss, ms, k + 1)
  {
    var before, after := ss[k].requests, ss[k + 1].requests;
    forall q | 0 <= q < |after| && after[q].SubmitSigned?
      ensures Signed(ss, ms, k + 1, after[q].owner, after[q].challenge)
    {
      assert q < |before|;
      SignedStays(ss, ms, k, before[q].owner, before[q].challenge);
    }
    forall a | a in ss[k + 1].pool.attempts ensures Signed(ss, ms, k + 1, a.owner, a.challenge) {
      SignedStays(ss, ms, k, a.owner, a.challenge);
    }
  }

  lemma {:induction false} RunKeepsSigned(ss: seq<System>, key: string -> int, ms: seq<Move>, k: nat)
    requires IsRun(ss, key, ms) && k < |ss|
    ensures AllSigned(ss, ms, k)
  {
    if k > 0 {
      RunKeepsSigned(ss, key, ms, k - 1);
      assert Next(ss[k - 1], key, ms[k - 1], ss[k - 1 + 1]);
      if ms[k - 1].Statement? {
        ActSigns(ss[k - 1], key, ms[k - 1].r, ms[k - 1].choice);
        SigningStepKeeps(ss, ms, k - 1, ms[k - 1].r, ms[k - 1].choice);
      } else {
        OtherMovesKeepSigned(ss, ms, k - 1);
      }
    }
  }

  /** Every application in the table goes back to a valid signature of its owner. */
  lemma EveryApplicationIsSigned(ss: seq<System>, key: string -> int, ms: seq<Move>, k: nat, app: string)
    requires IsRun(ss, key, ms) && k < |ss| && app in ss[k].apps
    ensures app in ss[k].born && Signed(ss, ms, k, ss[k].apps[app].owner, ss[k].born[app])
  {
    ApplicationsHaveTheirOwnChallenge(ss, key, ms, k, app, app);
    RunKeepsSigned(ss, key, ms, k);
    var i :| 0 <= i < |ss[k].pool.attempts| && ss[k].pool.attempts[i].challenge == ss[k].born[app]
      && ss[k].pool.attempts[i].owner == ss[k].apps[app].owner;
    assert ss[k].pool.attempts[i] in ss[k].pool.attempts;
  }

  // ---------- a challenge stays good for five minutes ----------

  ghost predicate UsedUp(attempts: seq<Attempt>, challenge: string) {
    exists i :: 0 <= i < |attempts| && attempts[i].challenge == challenge
  }

  ghost predicate StillGood(s: System, challenge: string, row: Challenge) {
    (challenge in s.pool.rows && s.pool.rows[challenge] == row)
    || row.expiresAt <= s.now || UsedUp(s.pool.attempts, challenge)
  }

  lemma PoolStepKeepsGood(q: Request, pool: Pool, q': Request, pool': Pool, now: int, challenge: string, row: Challenge)
    requires PoolStep(q, pool, q', pool', now) && challenge in pool.issued
    requires (challenge in pool.rows && pool.rows[challenge] == row) || row.expiresAt <= now
      || UsedUp(pool.attempts, challenge)
    ensures (challenge in pool'.rows && pool'.rows[challenge] == row) || row.expiresAt <= now
      || UsedUp(pool'.attempts, challenge)
    ensures challenge in pool'.issued
  {
    if UsedUp(pool.attempts, challenge) {
      var i :| 0 <= i < |pool.attempts| && pool.attempts[i].challenge == challenge;
      assert pool'.attempts[i] == pool.attempts[i];
    } else if q.SubmitSigned? && q.challenge == challenge && |pool'.attempts| > |pool.attempts| {
      assert pool'.attempts[|pool.attempts|].challenge == challenge;
    }
  }

  lemma StepKeepsGood(ss: seq<System>, key: string -> int, ms: seq<Move>, k: nat, challenge: string, row: Challenge)
    requires IsRun(ss, key, ms) && k < |ms| && StillGood(ss[k], challenge, row) && challenge in ss[k].pool.issued
    ensures StillGood(ss[k + 1], challenge, row) && challenge in ss[k + 1].pool.issued
  {
    assert Next(ss[k], key, ms[k], ss[k + 1]);
    if ms[k].Statement? {
      StatementShape(ss[k], key, ms[k].r, ms[k].choice);
      PoolStepKeepsGood(ss[k].requests[ms[k].r], ss[k].pool, ss[k + 1].requests[ms[k].r], ss[k + 1].pool, ss[k].now,
        challenge, row);
    }
  }

  lemma {:induction false} RunKeepsGood(ss: seq<System>, key: string -> int, ms: seq<Move>, i: nat, j: nat,
                                        challenge: string, row: Challenge)
    requires IsRun(ss, key, ms) && i <= j < |ss|
    requires challenge in ss[i].pool.issued && StillGood(ss[i], challenge, row)
    ensures challenge in ss[j].pool.issued && StillGood(ss[j], challenge, row)
  {
    if i < j {
      RunKeepsGood(ss, key, ms, i, j - 1, challenge, row);
      StepKeepsGood(ss, key, ms, j - 1, challenge, row);
    }
  }

  lemma IssueAct(s: System, key: string -> int, r: nat, c: Choice)
    requires r < |s.requests| && Enabled(s, key, s.requests[r], c)
    ensures s.requests[r].Issue? ==>
      Act(s, key, r, c).requests == s.requests[r := IssueSwept(s.requests[r].owner, s.now + 300_000)]
    ensures s.requests[r].IssueSwept? ==>
      && c.Fresh? && c.value in Act(s, key, r, c).pool.rows && c.value in Act(s, key, r, c).pool.issued
      && Act(s, key, r, c).pool.rows[c.value] == Challenge(s.requests[r].owner, s.requests[r].expiresAt)
      && Act(s, key, r, c).requests == s.requests[r := Closed(Issued)]
  {
  }

  /** A challenge request's sweep deletes exactly the challenges that have expired. */
  lemma SweepDeletesExpired(ss: seq<System>, key: string -> int, ms: seq<Move>, k: nat, r: nat, c: Choice,
                            challenge: string)
    requires Runs(ss, key, ms, k, r, c) && ss[k].requests[r].Issue?
    ensures challenge in ss[k + 1].pool.rows <==>
      challenge in ss[k].pool.rows && ss[k].now < ss[k].pool.rows[challenge].expiresAt
    ensures challenge in ss[k + 1].pool.rows ==> ss[k + 1].pool.rows[challenge] == ss[k].pool.rows[challenge]
  {
    StatementHappens(ss, key, ms, k, r, c);
    SweepAct(ss[k], key, r, c);
  }

  lemma SweepAct(s: System, key: string -> int, r: nat, c: Choice)
    requires r < |s.requests| && s.requests[r].Issue?
    ensures Act(s, key, r, c).pool.rows
         == map x | x in s.pool.rows && s.now < s.pool.rows[x].expiresAt :: s.pool.rows[x]
  {
  }

  /** A challenge request fixes its expiry five minutes after its sweep. */
  lemma ChallengeExpiry(ss: seq<System>, key: string -> int, ms: seq<Move>, k: nat, r: nat, c: Choice)
    requires Runs(ss, key, ms, k, r, c) && ss[k].requests[r].Issue?
    ensures r < |ss[k + 1].requests|
    ensures ss[k + 1].requests[r] == IssueSwept(ss[k].requests[r].owner, ss[k].now + 300_000)
  {
    StatementHappens(ss, key, ms, k, r, c);
    IssueAct(ss[k], key, r, c);
  }

  /** And from its insert on, its owner can present it until it expires, unless it has been used. */
  lemma ChallengeStaysPresentable(ss: seq<System>, key: string -> int, ms: seq<Move>, k: nat, r: nat, c: Choice,
                                  j: nat)
    requires Runs(ss, key, ms, k, r, c) && ss[k].requests[r].IssueSwept? && k < j < |ss|
    ensures c.Fresh? && r < |ss[k + 1].requests| && ss[k + 1].requests[r] == Closed(Issued)
    ensures var q := ss[k].requests[r];
            ss[j].now < q.expiresAt && !UsedUp(ss[j].pool.attempts, c.value) ==> Presentable(ss[j], c.value, q.owner)
  {
    StatementHappens(ss, key, ms, k, r, c);
    IssueAct(ss[k], key, r, c);
    RunKeepsGood(ss, key, ms, k + 1, j, c.value, Challenge(ss[k].requests[r].owner, ss[k].requests[r].expiresAt));
  }

  // ---------- resending, and a token's day ----------

  lemma ResendAct(s: System, key: string -> int, r: nat, c: Choice, app: string)
    requires r < |s.requests| && s.requests[r] == Resend(app)
    ensures Act(s, key, r, c) == At(s, r,
      if app in s.apps && !s.apps[app].emailVerified then SendToken(app, Accepted) else Closed(Accepted))
  {
  }

  /**
   A resend goes on to send a token iff the application exists and its email is unverified.
   It touches no token before that, and everybody else gets the same answer without one.
   */
  lemma ResendGoesOnIff(ss: seq<System>, key: string -> int, ms: seq<Move>, k: nat, r: nat, c: Choice, app: string)
    requires Runs(ss, key, ms, k, r, c) && ss[k].requests[r] == Resend(app)
    ensures r < |ss[k + 1].requests| && ss[k + 1].mail == ss[k].mail
    ensures ss[k + 1].requests[r] == SendToken(app, Accepted) <==> app in ss[k].apps && !ss[k].apps[app].emailVerified
    ensures ss[k + 1].requests[r] == Closed(Accepted) <==> app !in ss[k].apps || ss[k].apps[app].emailVerified
  {
    StatementHappens(ss, key, ms, k, r, c);
    ResendAct(ss[k], key, r, c, app);
  }

  lemma SendAct(s: System, key: string -> int, r: nat, c: Choice, app: string, reply: Reply)
    requires r < |s.requests| && s.requests[r] == SendToken(app, reply) && Enabled(s, key, s.requests[r], c)
    ensures var s' := Act(s, key, r, c);
            && s'.requests == s.requests[r := Closed(reply)]
            && (c.Fresh? ==>
                  && c.value !in s.mail.mailed
                  && s'.mail.rows == s.mail.rows[app := Token(c.value, s.now + 86_400_000)]
                  && s'.mail.mailed == s.mail.mailed[c.value := app])
            && (!c.Fresh? ==> s'.mail == s.mail)
  {
  }

  /**
   Sending stores one new token, good for a day, in place of the application's old one, or
   fails and leaves all as it was.
   */
  lemma SendStores(ss: seq<System>, key: string -> int, ms: seq<Move>, k: nat, r: nat, c: Choice, app: string,
                   reply: Reply)
    requires Runs(ss, key, ms, k, r, c) && ss[k].requests[r] == SendToken(app, reply)
    ensures r < |ss[k + 1].requests| && ss[k + 1].requests[r] == Closed(reply)
    ensures c.Fresh? ==> ss[k + 1].mail.rows == ss[k].mail.rows[app := Token(c.value, ss[k].now + 86_400_000)]
    ensures !c.Fresh? ==> ss[k + 1].mail.rows == ss[k].mail.rows
  {
    StatementHappens(ss, key, ms, k, r, c);
    SendAct(ss[k], key, r, c, app, reply);
  }

  lemma VerifyAct(s: System, key: string -> int, r: nat, c: Choice)
    requires r < |s.requests| && Verifying(s.requests[r]) && Enabled(s, key, s.requests[r], c)
    ensures VerifyStep(s, s.requests[r], r, c, Act(s, key, r, c))
  {
  }

  /** What a statement of a verification does, by where the request is. */
  ghost predicate VerifyStep(s: System, q: Request, r: nat, c: Choice, s': System) {
    && |s'.requests| == |s.requests| && r < |s.requests|
    && match q
       case Verify(token) =>
         && s'.mail == s.mail && s'.apps == s.apps
         && (NoSuchToken(s.mail.rows, token) ==> s'.requests[r] == Closed(InvalidToken))
         && (!NoSuchToken(s.mail.rows, token) ==>
               && c.Finds? && c.id in s.mail.rows && s.mail.rows[c.id].hash == token
               && s'.requests[r] == if s.mail.rows[c.id].expiresAt <= s.now then VerifyExpired(token, c.id)
                                    else VerifyFound(token, c.id))
       case VerifyExpired(token, app) =>
         && s'.requests[r] == Closed(InvalidToken) && s'.apps == s.apps
         && (forall a :: a in s'.mail.rows <==> a in s.mail.rows && !(a == app && s.mail.rows[a].hash == token))
       case VerifyFound(token, app) =>
         var there := app in s.mail.rows && s.mail.rows[app].hash == token && app in s.apps;
         && (s'.requests[r] == Closed(Verified) <==> there)
         && (s'.requests[r] == Closed(InvalidToken) <==> !there)
         && (there ==> app !in s'.mail.rows && app in s'.apps && s'.apps[app] == s.apps[app].(emailVerified := true))
         && (!there ==> s'.mail == s.mail && s'.apps == s.apps)
       case _ => true
  }

  /**
   A link is answered "invalid" at once iff no row holds its token. A found row decides by its
   expiry, and an expired one is deleted, and a live one verifies iff it is still there at the delete.
   */
  lemma VerificationAnswers(ss: seq<System>, key: string -> int, ms: seq<Move>, k: nat, r: nat, c: Choice)
    requires Runs(ss, key, ms, k, r, c) && Verifying(ss[k].requests[r])
    ensures VerifyStep(ss[k], ss[k].requests[r], r, c, ss[k + 1])
  {
    StatementHappens(ss, key, ms, k, r, c);
    VerifyAct(ss[k], key, r, c);
  }

  /** A request about to delete a row as expired has seen it expired. */
  ghost predicate ExpiredIsExpired(s: System) {
    forall r :: 0 <= r < |s.requests| && s.requests[r].VerifyExpired? ==> SawExpired(s, s.requests[r])
  }

  ghost predicate SawExpired(s: System, q: Request)
    requires q.VerifyExpired?
  {
    && q.token in s.mail.mailed
    && (q.foundApp in s.mail.rows && s.mail.rows[q.foundApp].hash == q.token ==>
          s.mail.rows[q.foundApp].expiresAt <= s.now)
  }

  /** The ways a statement touches the token table, and a request that is to delete a row. */
  ghost predicate TokenStep(s: System, r: nat, c: Choice, s': System)
    requires r < |s.requests| == |s'.requests|
  {
    && s'.now == s.now && OnlyMoves(s.requests, r, s'.requests)
    && s.mail.mailed.Keys <= s'.mail.mailed.Keys && s.mail.superseded <= s'.mail.superseded
    && s.mail.verifications <= s'.mail.verifications
    && (s'.requests[r].VerifyExpired? ==> s'.mail == s.mail && SawExpired(s, s'.requests[r]))
    && forall app <- s'.mail.rows ::
         (app in s.mail.rows && s'.mail.rows[app] == s.mail.rows[app]) || s'.mail.rows[app].hash !in s.mail.mailed
  }

  lemma VerifyTokenStep(s: System, key: string -> int, r: nat, c: Choice)
    requires r < |s.requests| && Enabled(s, key, s.requests[r], c) && TokensSpent(s.mail) && Verifying(s.requests[r])
    requires Shape(s, key, r, Act(s, key, r, c)) && |Act(s, key, r, c).requests| == |s.requests|
    ensures TokenStep(s, r, c, Act(s, key, r, c))
  {
    VerifyAct(s, key, r, c);
  }

  lemma OtherTokenStep(s: System, key: string -> int, r: nat, c: Choice)
    requires r < |s.requests| && Enabled(s, key, s.requests[r], c) && TokensSpent(s.mail) && !Verifying(s.requests[r])
    requires Shape(s, key, r, Act(s, key, r, c)) && |Act(s, key, r, c).requests| == |s.requests|
    ensures TokenStep(s, r, c, Act(s, key, r, c))
  {
    NotVerifyingNeverExpires(s, key, r, c);
    if s.requests[r].SendToken? {
      SendAct(s, key, r, c, s.requests[r].app, s.requests[r].reply);
    }
  }

  lemma ActTokenStep(s: System, key: string -> int, r: nat, c: Choice)
    requires r < |s.requests| && Enabled(s, key, s.requests[r], c) && TokensSpent(s.mail)
    requires |Act(s, key, r, c).requests| == |s.requests|
    ensures TokenStep(s, r, c, Act(s, key, r, c))
  {
    StatementShape(s, key, r, c);
    if Verifying(s.requests[r]) {
      VerifyTokenStep(s, key, r, c);
    } else {
      OtherTokenStep(s, key, r, c);
    }
  }

  lemma NotVerifyingNeverExpires(s: System, key: string -> int, r: nat, c: Choice)
    requires r < |s.requests| && Enabled(s, key, s.requests[r], c) && !Verifying(s.requests[r])
    ensures var s' := Act(s, key, r, c); r < |s'.requests| && !s'.requests[r].VerifyExpired?
  {
    var q := s.requests[r];
    if Issuing(q) {
      assert !ActIssue(s, r, c).requests[r].VerifyExpired?;
    } else if Submitting(q) {
      assert !ActSubmit(s, r, c).requests[r].VerifyExpired?;
    } else if PreCommit(q) {
      CreateNeverExpires(s, key, r, c);
    } else if Sending(q) {
      assert !ActSend(s, r, c).requests[r].VerifyExpired?;
    } else {
      assert Reviewing(q) && !ActReview(s, r).requests[r].VerifyExpired?;
    }
  }

  lemma CreateNeverExpires(s: System, key: string -> int, r: nat, c: Choice)
    requires r < |s.requests| && PreCommit(s.requests[r])
    ensures var s' := ActCreate(s, key, r, c); r < |s'.requests| && !s'.requests[r].VerifyExpired?
  {
  }

  lemma TokenStepKeepsExpired(s: System, r: nat, c: Choice, s': System)
    requires ExpiredIsExpired(s) && r < |s.requests| == |s'.requests| && TokenStep(s, r, c, s')
    ensures ExpiredIsExpired(s')
  {
  }

  lemma {:induction false} RunKeepsExpired(ss: seq<System>, key: string -> int, ms: seq<Move>, k: nat)
    requires IsRun(ss, key, ms) && k < |ss|
    ensures ExpiredIsExpired(ss[k])
  {
    if k > 0 {
      RunKeepsExpired(ss, key, ms, k - 1);
      TokensSpentAt(ss, key, ms, k - 1);
      StepKeepsExpired(ss, key, ms, k - 1);
    }
  }

  lemma TokensSpentAt(ss: seq<System>, key: string -> int, ms: seq<Move>, k: nat)
    requires IsRun(ss, key, ms) && k < |ss|
    ensures TokensSpent(ss[k].mail)
  {
    RunKeepsInv(ss, key, ms, k);
  }

  lemma StepKeepsExpired(ss: seq<System>, key: string -> int, ms: seq<Move>, k: nat)
    requires IsRun(ss, key, ms) && k < |ms| && ExpiredIsExpired(ss[k]) && TokensSpent(ss[k].mail)
    ensures ExpiredIsExpired(ss[k + 1])
  {
    assert Next(ss[k], key, ms[k], ss[k + 1]);
    if ms[k].Statement? {
      StatementShape(ss[k], key, ms[k].r, ms[k].choice);
      ActTokenStep(ss[k], key, ms[k].r, ms[k].choice);
      TokenStepKeepsExpired(ss[k], ms[k].r, ms[k].choice, ss[k + 1]);
    }
  }

  ghost predicate Redeemed(verifications: seq<Verification>, token: string) {
    exists i :: 0 <= i < |verifications| && verifications[i].token == token
  }

  /** The application's link works, or the day is over, or a later mail replaced it, or it was used. */
  ghost predicate LinkState(s: System, app: string, token: Token) {
    || (app in s.mail.rows && s.mail.rows[app] == token)
    || token.expiresAt <= s.now
    || token.hash in s.mail.superseded
    || Redeemed(s.mail.verifications, token.hash)
  }

  lemma ReplaceKeepsLink(mail: Mail, other: string, hash: string, expiresAt: int, mail': Mail, app: string,
                         token: Token)
    requires Replaces(mail, other, hash, expiresAt, mail') && app in mail.rows && mail.rows[app] == token
    ensures (app in mail'.rows && mail'.rows[app] == token) || token.hash in mail'.superseded
  {
  }

  lemma MailStepKeepsLink(s: System, key: string -> int, r: nat, c: Choice, app: string, token: Token)
    requires r < |s.requests| && Enabled(s, key, s.requests[r], c) && ExpiredIsExpired(s)
    requires app in s.mail.rows && s.mail.rows[app] == token
    ensures LinkState(Act(s, key, r, c), app, token)
  {
    var q, s' := s.requests[r], Act(s, key, r, c);
    StatementShape(s, key, r, c);
    if q.SendToken? && s'.mail != s.mail {
      var hash, expiresAt :| Replaces(s.mail, q.app, hash, expiresAt, s'.mail);
      ReplaceKeepsLink(s.mail, q.app, hash, expiresAt, s'.mail, app, token);
    } else if q.VerifyExpired? {
      VerifyAct(s, key, r, c);
      ExpiredDeletesOwn(s, r, s', app, token);
    } else if q.VerifyFound? && s'.mail != s.mail && q.foundApp == app {
      assert s'.mail.verifications[|s.mail.verifications|].token == token.hash;
    }
  }

  lemma ExpiredDeletesOwn(s: System, r: nat, s': System, app: string, token: Token)
    requires r < |s.requests| && s.requests[r].VerifyExpired? && ExpiredIsExpired(s) && s'.now == s.now
    requires app in s.mail.rows && s.mail.rows[app] == token
    requires s'.mail == s.mail || s'.mail == s.mail.(rows := s.mail.rows - {s.requests[r].foundApp})
    requires app in s'.mail.rows <==> !(app == s.requests[r].foundApp && token.hash == s.requests[r].token)
    ensures LinkState(s', app, token)
  {
    assert SawExpired(s, s.requests[r]);
  }

  lemma StepKeepsLink(ss: seq<System>, key: string -> int, ms: seq<Move>, k: nat, app: string, token: Token)
    requires IsRun(ss, key, ms) && k < |ms| && LinkState(ss[k], app, token)
    ensures LinkState(ss[k + 1], app, token)
  {
    assert Next(ss[k], key, ms[k], ss[k + 1]);
    if ms[k].Statement? {
      RunKeepsExpired(ss, key, ms, k);
      TokensSpentAt(ss, key, ms, k);
      StatementShape(ss[k], key, ms[k].r, ms[k].choice);
      ActTokenStep(ss[k], key, ms[k].r, ms[k].choice);
      if Redeemed(ss[k].mail.verifications, token.hash) {
        var i :| 0 <= i < |ss[k].mail.verifications| && ss[k].mail.verifications[i].token == token.hash;
        assert ss[k + 1].mail.verifications[i] == ss[k].mail.verifications[i];
      } else if app in ss[k].mail.rows && ss[k].mail.rows[app] == token {
        MailStepKeepsLink(ss[k], key, ms[k].r, ms[k].choice, app, token);
      }
    }
  }

  lemma {:induction false} RunKeepsLink(ss: seq<System>, key: string -> int, ms: seq<Move>, i: nat, j: nat, app: string,
                                        token: Token)
    requires IsRun(ss, key, ms) && i <= j < |ss| && LinkState(ss[i], app, token)
    ensures LinkState(ss[j], app, token)
  {
    if i < j {
      RunKeepsLink(ss, key, ms, i, j - 1, app, token);
      StepKeepsLink(ss, key, ms, j - 1, app, token);
    }
  }

  /** A stored token stays redeemable for a day, unless a later one replaced it or it was redeemed. */
  lemma TokenLivesADay(ss: seq<System>, key: string -> int, ms: seq<Move>, k: nat, r: nat, c: Choice, app: string,
                       reply: Reply, j: nat)
    requires Runs(ss, key, ms, k, r, c) && ss[k].requests[r] == SendToken(app, reply) && c.Fresh? && k < j < |ss|
    requires ss[j].now < ss[k].now + 86_400_000
    requires c.value !in ss[j].mail.superseded && !Redeemed(ss[j].mail.verifications, c.value)
    ensures app in ss[j].mail.rows && ss[j].mail.rows[app] == Token(c.value, ss[k].now + 86_400_000)
  {
    SendStores(ss, key, ms, k, r, c, app, reply);
    RunKeepsLink(ss, key, ms, k + 1, j, app, Token(c.value, ss[k].now + 86_400_000));
  }

  // ---------- reviews ----------

  lemma ReviewAct(s: System, key: string -> int, r: nat, c: Choice)
    requires r < |s.requests| && s.requests[r].Review?
    ensures Act(s, key, r, c) == ActReview(s, r)
  {
  }

  /** A review's lookup has four answers, and goes on exactly for a pending application with a verified email. */
  lemma ReviewAnswers(ss: seq<System>, key: string -> int, ms: seq<Move>, k: nat, r: nat, c: Choice)
    requires Runs(ss, key, ms, k, r, c) && ss[k].requests[r].Review?
    ensures r < |ss[k + 1].requests| && ss[k + 1].apps == ss[k].apps
    ensures var (q, apps, answer) := (ss[k].requests[r], ss[k].apps, ss[k + 1].requests[r]);
            && (answer == Closed(NotFound) <==> q.app !in apps)
            && (answer == Closed(AlreadyReviewed) <==> q.app in apps && !apps[q.app].status.Pending?)
            && (answer == Closed(EmailUnverified) <==>
                  q.app in apps && apps[q.app].status.Pending? && !apps[q.app].emailVerified)
            && (answer == ReviewLookedUp(q.app, q.verdict, q.reviewer, q.note) <==>
                  q.app in apps && apps[q.app].status.Pending? && apps[q.app].emailVerified)
  {
    StatementHappens(ss, key, ms, k, r, c);
    ReviewAct(ss[k], key, r, c);
  }
}
