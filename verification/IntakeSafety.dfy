/** What every interleaving of intake requests keeps. */
module IntakeSafety {
  import opened Wrappers
  import opened Intake

  /** One statement moves one request and leaves the others where they were. */
  ghost predicate OnlyMoves(before: seq<Request>, r: nat, after: seq<Request>) {
    r < |before| && |after| == |before| && forall k :: 0 <= k < |before| && k != r ==> after[k] == before[k]
  }

  // ---------- the advisory lock ----------

  /** Exactly the requests inside the create transaction hold a lock: their address's own. */
  ghost predicate LocksHeld(requests: seq<Request>, locks: map<int, nat>, key: string -> int) {
    && (forall k <- locks ::
      locks[k] < |requests| && InTransaction(requests[locks[k]]) && key(requests[locks[k]].owner) == k)
    && (forall r :: 0 <= r < |requests| && InTransaction(requests[r]) ==>
          key(requests[r].owner) in locks && locks[key(requests[r].owner)] == r)
  }

  /** The three ways a statement touches the lock table. */
  ghost predicate LockStep(q: Request, locks: map<int, nat>, key: string -> int, r: nat, q': Request,
                           locks': map<int, nat>) {
    || (locks' == locks && InTransaction(q) == InTransaction(q') && (InTransaction(q) ==> q'.owner == q.owner))
    || (!InTransaction(q) && InTransaction(q') && key(q'.owner) !in locks && locks' == locks[key(q'.owner) := r])
    || (InTransaction(q) && !InTransaction(q') && locks' == Unlock(locks, r))
  }

  lemma LockStepKeeps(qs: seq<Request>, locks: map<int, nat>, key: string -> int, r: nat, qs': seq<Request>,
                      locks': map<int, nat>)
    requires LocksHeld(qs, locks, key) && OnlyMoves(qs, r, qs') && LockStep(qs[r], locks, key, r, qs'[r], locks')
    ensures LocksHeld(qs', locks', key)
  {
    forall k | k in locks'
      ensures locks'[k] < |qs'| && InTransaction(qs'[locks'[k]]) && key(qs'[locks'[k]].owner) == k
    {
    }
  }

  // ---------- one live application per address ----------

  ghost predicate OneLive(apps: Apps) {
    forall i, j :: i in apps && j in apps && i != j && apps[i].owner == apps[j].owner ==>
      apps[i].status.Rejected? || apps[j].status.Rejected?
  }

  /** A transaction past its re-read still sees no blocking application when it inserts. */
  ghost predicate ClearMeansNone(requests: seq<Request>, apps: Apps) {
    forall r :: 0 <= r < |requests| && (requests[r].SubmitClear? || requests[r].SubmitInserted?) ==>
      NoneBlocking(apps, requests[r].owner)
  }

  ghost predicate InsertsAreNew(requests: seq<Request>, apps: Apps, ids: set<string>) {
    && apps.Keys <= ids
    && (forall r :: 0 <= r < |requests| && requests[r].SubmitInserted? ==>
          requests[r].inserted in ids && requests[r].inserted !in apps)
    && (forall q, r :: 0 <= q < r < |requests| && requests[q].SubmitInserted? && requests[r].SubmitInserted? ==>
          requests[q].inserted != requests[r].inserted)
  }

  /** The four ways a statement touches the application table. */
  ghost predicate AppStep(q: Request, apps: Apps, q': Request, apps': Apps) {
    || apps' == apps
    || (q.SubmitInserted? && apps' == apps[q.inserted := NewApplication(q.owner)])
    || (q.VerifyFound? && q.foundApp in apps && apps' == apps[q.foundApp := apps[q.foundApp].(emailVerified := true)])
    || (q.ReviewLookedUp? && q.app in apps && apps[q.app].status.Pending?
        && apps' == apps[q.app :=
          apps[q.app].(status := q.verdict, reviewNote := q.note, reviewedBy := Some(q.reviewer))])
  }

  lemma AppStepKeepsOneLive(q: Request, apps: Apps, q': Request, apps': Apps)
    requires OneLive(apps) && AppStep(q, apps, q', apps')
    requires q.SubmitInserted? ==> NoneBlocking(apps, q.owner)
    ensures OneLive(apps')
  {
    if q.SubmitInserted? {
      assert forall id <- apps :: !Blocking(apps, q.owner, id);
    }
  }

  /** Two requests in the create transaction are for addresses with different lock keys. */
  lemma TransactionsExclude(qs: seq<Request>, locks: map<int, nat>, key: string -> int, q: nat, r: nat)
    requires LocksHeld(qs, locks, key) && q < |qs| && r < |qs| && q != r
    requires InTransaction(qs[q]) && InTransaction(qs[r])
    ensures qs[q].owner != qs[r].owner
  {
  }

  /** Only the commit of an insert can make an application block an address it did not block. */
  lemma AppStepBlocksOnlyItsOwner(q: Request, apps: Apps, q': Request, apps': Apps, owner: string)
    requires AppStep(q, apps, q', apps') && NoneBlocking(apps, owner)
    requires q.SubmitInserted? ==> q.owner != owner
    ensures NoneBlocking(apps', owner)
  {
    forall id ensures !Blocking(apps', owner, id) {
      assert !Blocking(apps, owner, id);
    }
  }

  /** A transaction comes to hold "nothing blocks" only by its re-read under the lock. */
  ghost predicate ClearStep(q: Request, apps: Apps, q': Request, apps': Apps) {
    q'.SubmitClear? || q'.SubmitInserted? ==>
      && apps' == apps && InTransaction(q) && q'.owner == q.owner
      && (q.SubmitLocked? ==> NoneBlocking(apps, q.owner)) && (!q.SubmitLocked? ==> q.SubmitClear?)
  }

  lemma ClearStepKeeps(qs: seq<Request>, apps: Apps, locks: map<int, nat>, key: string -> int, r: nat,
                       qs': seq<Request>, apps': Apps)
    requires LocksHeld(qs, locks, key) && ClearMeansNone(qs, apps) && OnlyMoves(qs, r, qs')
    requires AppStep(qs[r], apps, qs'[r], apps') && ClearStep(qs[r], apps, qs'[r], apps')
    ensures ClearMeansNone(qs', apps')
  {
    forall k | 0 <= k < |qs'| && (qs'[k].SubmitClear? || qs'[k].SubmitInserted?)
      ensures NoneBlocking(apps', qs'[k].owner)
    {
      if k != r {
        if qs[r].SubmitInserted? {
          TransactionsExclude(qs, locks, key, k, r);
        }
        AppStepBlocksOnlyItsOwner(qs[r], apps, qs'[r], apps', qs[k].owner);
      }
    }
  }

  /** How identifiers are drawn and used up. */
  ghost predicate IdStep(q: Request, ids: set<string>, q': Request, ids': set<string>) {
    || (ids' == ids && !q'.SubmitInserted?)
    || (q.SubmitClear? && q'.SubmitInserted? && q'.inserted !in ids && ids' == ids + {q'.inserted})
  }

  lemma IdStepKeeps(qs: seq<Request>, apps: Apps, ids: set<string>, r: nat, qs': seq<Request>, apps': Apps,
                    ids': set<string>)
    requires InsertsAreNew(qs, apps, ids) && OnlyMoves(qs, r, qs')
    requires AppStep(qs[r], apps, qs'[r], apps') && IdStep(qs[r], ids, qs'[r], ids')
    ensures InsertsAreNew(qs', apps', ids')
  {
    assert apps'.Keys <= apps.Keys + if qs[r].SubmitInserted? then {qs[r].inserted} else {};
  }

  // ---------- reviews ----------

  /** A review only follows a read that saw the email verified, and verification is never undone. */
  ghost predicate ReviewedProperly(requests: seq<Request>, apps: Apps) {
    && (forall r :: 0 <= r < |requests| && (requests[r].Review? || requests[r].ReviewLookedUp?) ==>
      !requests[r].verdict.Pending?)
    && (forall r :: 0 <= r < |requests| && requests[r].ReviewLookedUp? ==>
          requests[r].app in apps && apps[requests[r].app].emailVerified)
    && (forall id <- apps :: !apps[id].status.Pending? ==> apps[id].emailVerified && apps[id].reviewedBy.Some?)
  }

  ghost predicate ReviewStep(q: Request, apps: Apps, q': Request, apps': Apps) {
    && !q'.Review?
    && (q'.ReviewLookedUp? ==>
          q.Review? && q.verdict == q'.verdict && apps' == apps && q'.app in apps && apps[q'.app].emailVerified)
  }

  lemma ReviewStepKeeps(qs: seq<Request>, apps: Apps, r: nat, qs': seq<Request>, apps': Apps)
    requires ReviewedProperly(qs, apps) && OnlyMoves(qs, r, qs')
    requires AppStep(qs[r], apps, qs'[r], apps') && ReviewStep(qs[r], apps, qs'[r], apps')
    requires qs[r].SubmitInserted? ==> qs[r].inserted !in apps
    ensures ReviewedProperly(qs', apps')
  {
  }

  /** Everything about an application that no later statement may change. */
  ghost predicate Follows(apps: Apps, apps': Apps) {
    forall id <- apps ::
      && id in apps' && apps'[id].owner == apps[id].owner
      && (apps[id].emailVerified ==> apps'[id].emailVerified)
      && (!apps[id].status.Pending? ==>
            && apps'[id].status == apps[id].status
            && apps'[id].reviewNote == apps[id].reviewNote
            && apps'[id].reviewedBy == apps[id].reviewedBy)
  }

  lemma AppStepFollows(q: Request, apps: Apps, q': Request, apps': Apps)
    requires AppStep(q, apps, q', apps') && (q.SubmitInserted? ==> q.inserted !in apps)
    ensures Follows(apps, apps')
  {
  }

  // ---------- challenges ----------

  ghost predicate AttemptFor(attempts: seq<Attempt>, challenge: string, owner: string) {
    exists k :: 0 <= k < |attempts| && attempts[k].challenge == challenge && attempts[k].owner == owner
  }

  /** A challenge is consumed at most once, by its owner, in time, and is gone from then on. */
  ghost predicate SpentOnce(pool: Pool) {
    && (forall c <- pool.rows :: c in pool.issued && pool.issued[c] == pool.rows[c])
    && (forall k :: 0 <= k < |pool.attempts| ==>
          var a := pool.attempts[k];
          && a.challenge in pool.issued && a.challenge !in pool.rows
          && pool.issued[a.challenge].owner == a.owner && a.time < pool.issued[a.challenge].expiresAt)
    && (forall j, k :: 0 <= j < k < |pool.attempts| ==> pool.attempts[j].challenge != pool.attempts[k].challenge)
  }

  ghost predicate Adds(pool: Pool, c: string, row: Challenge, pool': Pool) {
    c !in pool.issued && pool' == pool.(rows := pool.rows[c := row], issued := pool.issued[c := row])
  }

  /** The four ways a statement touches the challenge table. */
  ghost predicate PoolStep(q: Request, pool: Pool, q': Request, pool': Pool, now: int) {
    || pool' == pool
    || pool' == pool.(rows := Sweep(pool.rows, now))
    || (exists c, row :: Adds(pool, c, row, pool'))
    || (q.SubmitSigned? && Usable(pool.rows, q.challenge, q.owner, now)
      && pool' == Consume(pool, q.challenge, q.owner, now))
  }

  lemma PoolStepKeeps(q: Request, pool: Pool, q': Request, pool': Pool, now: int)
    requires SpentOnce(pool) && PoolStep(q, pool, q', pool', now)
    ensures SpentOnce(pool') && pool.attempts <= pool'.attempts
  {
  }

  /** Each open create attempt and each application belongs to a different consumed challenge. */
  ghost predicate Owed(requests: seq<Request>, apps: Apps, born: map<string, string>, attempts: seq<Attempt>) {
    && (forall r :: 0 <= r < |requests| && PreCommit(requests[r]) ==>
      AttemptFor(attempts, requests[r].challenge, requests[r].owner))
    && (forall q, r :: 0 <= q < r < |requests| && PreCommit(requests[q]) && PreCommit(requests[r]) ==>
          requests[q].challenge != requests[r].challenge)
    && born.Keys == apps.Keys
    && (forall id <- apps :: AttemptFor(attempts, born[id], apps[id].owner))
    && (forall i, j :: i in born && j in born && i != j ==> born[i] != born[j])
    && (forall id, r :: id in born && 0 <= r < |requests| && PreCommit(requests[r]) ==>
      born[id] != requests[r].challenge)
  }

  /** How a consumed challenge travels: opened by the consume, closed by a rollback, or settled by the insert. */
  ghost predicate OwedStep(q: Request, apps: Apps, born: map<string, string>, attempts: seq<Attempt>,
                           q': Request, apps': Apps, born': map<string, string>, attempts': seq<Attempt>)
  {
    || (q.SubmitSigned? && q'.SubmitConsumed? && q'.challenge == q.challenge && q'.owner == q.owner && apps' == apps
      && born' == born
        && |attempts'| == |attempts| + 1
          && attempts' == attempts + [Attempt(q.challenge, q.owner, attempts'[|attempts|].time)])
    || (q.SubmitInserted? && !PreCommit(q') && attempts' == attempts
        && apps' == apps[q.inserted := NewApplication(q.owner)] && born' == born[q.inserted := q.challenge])
    || (attempts' == attempts && born' == born && apps'.Keys == apps.Keys
      && (forall id <- apps :: apps'[id].owner == apps[id].owner)
        && (PreCommit(q') ==> PreCommit(q) && q'.challenge == q.challenge && q'.owner == q.owner))
  }

  lemma MoreAttempts(attempts: seq<Attempt>, attempts': seq<Attempt>, challenge: string, owner: string)
    requires attempts <= attempts' && AttemptFor(attempts, challenge, owner)
    ensures AttemptFor(attempts', challenge, owner)
  {
    var k :| 0 <= k < |attempts| && attempts[k].challenge == challenge && attempts[k].owner == owner;
    assert attempts'[k] == attempts[k];
  }

  lemma OwedStepKeeps(qs: seq<Request>, apps: Apps, born: map<string, string>, attempts: seq<Attempt>, r: nat,
                      qs': seq<Request>, apps': Apps, born': map<string, string>, attempts': seq<Attempt>,
                        ids: set<string>)
    requires Owed(qs, apps, born, attempts) && OnlyMoves(qs, r, qs') && InsertsAreNew(qs, apps, ids)
    requires OwedStep(qs[r], apps, born, attempts, qs'[r], apps', born', attempts')
    requires qs[r].SubmitSigned? && qs'[r].SubmitConsumed? ==>
      !exists k :: 0 <= k < |attempts| && attempts[k].challenge == qs[r].challenge
    ensures Owed(qs', apps', born', attempts')
  {
    if qs[r].SubmitSigned? && qs'[r].SubmitConsumed? {
      OpeningKeeps(qs, apps, born, attempts, r, qs', attempts');
    } else if qs[r].SubmitInserted? && !PreCommit(qs'[r]) && apps'.Keys != apps.Keys {
      assert AttemptFor(attempts, qs[r].challenge, qs[r].owner);
    }
  }

  lemma OpeningKeeps(qs: seq<Request>, apps: Apps, born: map<string, string>, attempts: seq<Attempt>, r: nat,
                     qs': seq<Request>, attempts': seq<Attempt>)
    requires Owed(qs, apps, born, attempts) && OnlyMoves(qs, r, qs')
    requires qs[r].SubmitSigned? && qs'[r].SubmitConsumed? && qs'[r].challenge == qs[r].challenge
      && qs'[r].owner == qs[r].owner
    requires attempts <= attempts' && |attempts'| == |attempts| + 1
      && attempts'[|attempts|].challenge == qs[r].challenge && attempts'[|attempts|].owner == qs[r].owner
    requires !exists k :: 0 <= k < |attempts| && attempts[k].challenge == qs[r].challenge
    ensures Owed(qs', apps, born, attempts')
  {
    forall k | 0 <= k < |qs'| && PreCommit(qs'[k])
      ensures AttemptFor(attempts', qs'[k].challenge, qs'[k].owner) && (k != r ==> qs'[k].challenge != qs[r].challenge)
    {
      if k != r {
        MoreAttempts(attempts, attempts', qs[k].challenge, qs[k].owner);
      }
    }
    forall id | id in apps
      ensures AttemptFor(attempts', born[id], apps[id].owner) && born[id] != qs[r].challenge
    {
      MoreAttempts(attempts, attempts', born[id], apps[id].owner);
    }
  }

  // ---------- email tokens ----------

  /** Tokens are fresh; a redeemed or replaced token is in no row, so no request can redeem it again. */
  ghost predicate TokensSpent(mail: Mail) {
    && (forall a <- mail.rows :: mail.rows[a].hash in mail.mailed && mail.mailed[mail.rows[a].hash] == a)
    && (forall t <- mail.superseded :: t in mail.mailed && NoSuchToken(mail.rows, t))
    && (forall k :: 0 <= k < |mail.verifications| ==>
          var v := mail.verifications[k];
          && v.token in mail.mailed && mail.mailed[v.token] == v.app
          && v.token !in mail.superseded && NoSuchToken(mail.rows, v.token))
    && (forall j, k :: 0 <= j < k < |mail.verifications| ==> mail.verifications[j].token != mail.verifications[k].token)
  }

  ghost predicate VerifiedFor(verifications: seq<Verification>, app: string) {
    exists k :: 0 <= k < |verifications| && verifications[k].app == app
  }

  ghost predicate Replaces(mail: Mail, app: string, hash: string, expiresAt: int, mail': Mail) {
    hash !in mail.mailed && mail' == Upsert(mail, app, hash, expiresAt)
  }

  ghost predicate Redeems(mail: Mail, app: string, token: string, mail': Mail) {
    && app in mail.rows && mail.rows[app].hash == token
    && mail' == mail.(rows := mail.rows - {app}, verifications := mail.verifications + [Verification(token, app)])
  }

  /** The four ways a statement touches the token table, and what it then does to the application. */
  ghost predicate MailStep(q: Request, apps: Apps, mail: Mail, apps': Apps, mail': Mail) {
    || (mail' == mail && !q.VerifyFound?)
    || (q.VerifyFound? && mail' == mail && apps' == apps)
    || (q.VerifyExpired? && q.foundApp in mail.rows && mail' == mail.(rows := mail.rows - {q.foundApp}))
    || (q.SendToken? && exists hash, expiresAt :: Replaces(mail, q.app, hash, expiresAt, mail'))
    || (q.VerifyFound? && q.foundApp in apps && Redeems(mail, q.foundApp, q.token, mail'))
  }

  lemma ReplaceKeeps(mail: Mail, app: string, hash: string, expiresAt: int, mail': Mail)
    requires TokensSpent(mail) && Replaces(mail, app, hash, expiresAt, mail')
    ensures TokensSpent(mail')
  {
  }

  lemma RedeemKeeps(mail: Mail, app: string, token: string, mail': Mail)
    requires TokensSpent(mail) && Redeems(mail, app, token, mail')
    ensures TokensSpent(mail')
  {
  }

  lemma MailStepKeeps(q: Request, apps: Apps, mail: Mail, apps': Apps, mail': Mail)
    requires TokensSpent(mail) && MailStep(q, apps, mail, apps', mail')
    ensures TokensSpent(mail') && mail.verifications <= mail'.verifications
  {
    if q.SendToken? && mail' != mail {
      var hash, expiresAt :| Replaces(mail, q.app, hash, expiresAt, mail');
      ReplaceKeeps(mail, q.app, hash, expiresAt, mail');
    } else if q.VerifyFound? && Redeems(mail, q.foundApp, q.token, mail') {
      RedeemKeeps(mail, q.foundApp, q.token, mail');
    }
  }

  // ---------- a statement at a time ----------

  ghost predicate Shape(s: System, key: string -> int, r: nat, s': System)
    requires r < |s.requests|
  {
    && OnlyMoves(s.requests, r, s'.requests) && s'.now == s.now
    && var q, q' := s.requests[r], s'.requests[r];
    && LockStep(q, s.locks, key, r, q', s'.locks)
    && AppStep(q, s.apps, q', s'.apps)
    && ClearStep(q, s.apps, q', s'.apps)
    && ReviewStep(q, s.apps, q', s'.apps)
    && IdStep(q, s.ids, q', s'.ids)
    && PoolStep(q, s.pool, q', s'.pool, s.now)
    && OwedStep(q, s.apps, s.born, s.pool.attempts, q', s'.apps, s'.born, s'.pool.attempts)
    && MailStep(q, s.apps, s.mail, s'.apps, s'.mail)
  }

  lemma IssueShape(s: System, key: string -> int, r: nat, c: Choice)
    requires r < |s.requests| && Issuing(s.requests[r]) && Enabled(s, key, s.requests[r], c)
    ensures Shape(s, key, r, ActIssue(s, r, c))
  {
    var q := s.requests[r];
    assert q.IssueSwept? ==> Adds(s.pool, c.value, Challenge(q.owner, q.expiresAt), ActIssue(s, r, c).pool);
  }

  lemma SubmitShape(s: System, key: string -> int, r: nat, c: Choice)
    requires r < |s.requests| && Submitting(s.requests[r]) && Enabled(s, key, s.requests[r], c)
    ensures Shape(s, key, r, ActSubmit(s, r, c))
  {
  }

  lemma CreateShape(s: System, key: string -> int, r: nat, c: Choice)
    requires r < |s.requests| && PreCommit(s.requests[r]) && Enabled(s, key, s.requests[r], c)
    ensures Shape(s, key, r, ActCreate(s, key, r, c))
  {
    var q, s' := s.requests[r], ActCreate(s, key, r, c);
    assert s' == s.(requests := s'.requests, locks := s'.locks, apps := s'.apps, ids := s'.ids, born := s'.born);
    assert !q.SubmitInserted? ==> s'.apps == s.apps && s'.born == s.born;
  }

  lemma SendShape(s: System, key: string -> int, r: nat, c: Choice)
    requires r < |s.requests| && Sending(s.requests[r]) && Enabled(s, key, s.requests[r], c)
    ensures Shape(s, key, r, ActSend(s, r, c))
  {
    var q := s.requests[r];
    assert q.SendToken? && c.Fresh? ==> Replaces(s.mail, q.app, c.value, s.now + TOKEN_TTL_MS, ActSend(s, r, c).mail);
  }

  lemma VerifyShape(s: System, key: string -> int, r: nat, c: Choice)
    requires r < |s.requests| && Verifying(s.requests[r]) && Enabled(s, key, s.requests[r], c)
    ensures Shape(s, key, r, ActVerify(s, r, c))
  {
    var q, s' := s.requests[r], ActVerify(s, r, c);
    assert s' == s.(requests := s'.requests, mail := s'.mail, apps := s'.apps);
    assert !q.VerifyFound? ==> s'.apps == s.apps;
  }

  lemma ReviewShape(s: System, key: string -> int, r: nat, c: Choice)
    requires r < |s.requests| && Reviewing(s.requests[r]) && Enabled(s, key, s.requests[r], c)
    ensures Shape(s, key, r, ActReview(s, r))
  {
  }

  lemma StatementShape(s: System, key: string -> int, r: nat, c: Choice)
    requires r < |s.requests| && Enabled(s, key, s.requests[r], c)
    ensures Shape(s, key, r, Act(s, key, r, c))
  {
    if Issuing(s.requests[r]) {
      IssueShape(s, key, r, c);
    } else if Submitting(s.requests[r]) {
      SubmitShape(s, key, r, c);
    } else if PreCommit(s.requests[r]) {
      CreateShape(s, key, r, c);
    } else if Sending(s.requests[r]) {
      SendShape(s, key, r, c);
    } else if Verifying(s.requests[r]) {
      VerifyShape(s, key, r, c);
    } else {
      ReviewShape(s, key, r, c);
    }
  }

  // ---------- every run ----------

  ghost predicate VerifiedByToken(apps: Apps, verifications: seq<Verification>) {
    forall id <- apps :: apps[id].emailVerified ==> VerifiedFor(verifications, id)
  }

  ghost predicate Inv(s: System, key: string -> int) {
    && LocksHeld(s.requests, s.locks, key)
    && OneLive(s.apps)
    && ClearMeansNone(s.requests, s.apps)
    && InsertsAreNew(s.requests, s.apps, s.ids)
    && ReviewedProperly(s.requests, s.apps)
    && SpentOnce(s.pool)
    && Owed(s.requests, s.apps, s.born, s.pool.attempts)
    && TokensSpent(s.mail)
    && VerifiedByToken(s.apps, s.mail.verifications)
  }

  lemma VerifiedStepKeeps(q: Request, apps: Apps, mail: Mail, q': Request, apps': Apps, mail': Mail)
    requires VerifiedByToken(apps, mail.verifications) && mail.verifications <= mail'.verifications
    requires AppStep(q, apps, q', apps') && MailStep(q, apps, mail, apps', mail')
    ensures VerifiedByToken(apps', mail'.verifications)
  {
    forall id | id in apps' && apps'[id].emailVerified
      ensures VerifiedFor(mail'.verifications, id)
    {
      if id in apps && apps[id].emailVerified {
        var k :| 0 <= k < |mail.verifications| && mail.verifications[k].app == id;
        assert mail'.verifications[k].app == id;
      } else {
        assert mail'.verifications[|mail.verifications|].app == id;
      }
    }
  }

  lemma ShapeKeepsInv(s: System, key: string -> int, r: nat, s': System)
    requires Inv(s, key) && r < |s.requests| && Shape(s, key, r, s')
    ensures Inv(s', key) && Follows(s.apps, s'.apps)
  {
    var q, q' := s.requests[r], s'.requests[r];
    LockStepKeeps(s.requests, s.locks, key, r, s'.requests, s'.locks);
    AppStepKeepsOneLive(q, s.apps, q', s'.apps);
    ClearStepKeeps(s.requests, s.apps, s.locks, key, r, s'.requests, s'.apps);
    IdStepKeeps(s.requests, s.apps, s.ids, r, s'.requests, s'.apps, s'.ids);
    ReviewStepKeeps(s.requests, s.apps, r, s'.requests, s'.apps);
    PoolStepKeeps(q, s.pool, q', s'.pool, s.now);
    OwedStepKeeps(s.requests, s.apps, s.born, s.pool.attempts, r, s'.requests, s'.apps, s'.born, s'.pool.attempts,
      s.ids);
    MailStepKeeps(q, s.apps, s.mail, s'.apps, s'.mail);
    VerifiedStepKeeps(q, s.apps, s.mail, q', s'.apps, s'.mail);
    AppStepFollows(q, s.apps, q', s'.apps);
  }

  lemma ArrivalKeepsLocks(qs: seq<Request>, locks: map<int, nat>, key: string -> int, q: Request)
    requires LocksHeld(qs, locks, key) && Arrives(q)
    ensures LocksHeld(qs + [q], locks, key)
  {
  }

  lemma ArrivalKeepsApps(qs: seq<Request>, apps: Apps, ids: set<string>, q: Request)
    requires ClearMeansNone(qs, apps) && InsertsAreNew(qs, apps, ids) && ReviewedProperly(qs, apps) && Arrives(q)
    ensures ClearMeansNone(qs + [q], apps) && InsertsAreNew(qs + [q], apps, ids) && ReviewedProperly(qs + [q], apps)
  {
  }

  lemma ArrivalKeepsOwed(qs: seq<Request>, apps: Apps, born: map<string, string>, attempts: seq<Attempt>, q: Request)
    requires Owed(qs, apps, born, attempts) && Arrives(q)
    ensures Owed(qs + [q], apps, born, attempts)
  {
  }

  lemma ArrivalKeepsInv(s: System, key: string -> int, q: Request)
    requires Inv(s, key) && Arrives(q)
    ensures Inv(s.(requests := s.requests + [q]), key)
  {
    ArrivalKeepsLocks(s.requests, s.locks, key, q);
    ArrivalKeepsApps(s.requests, s.apps, s.ids, q);
    ArrivalKeepsOwed(s.requests, s.apps, s.born, s.pool.attempts, q);
  }

  lemma NextKeepsInv(s: System, key: string -> int, m: Move, s': System)
    requires Inv(s, key) && Next(s, key, m, s')
    ensures Inv(s', key) && Follows(s.apps, s'.apps)
  {
    match m
    case Arrive(q) => ArrivalKeepsInv(s, key, q);
    case Tick(_) =>
    case Statement(r, c) =>
      StatementShape(s, key, r, c);
      ShapeKeepsInv(s, key, r, s');
  }

  lemma RunStep(ss: seq<System>, key: string -> int, ms: seq<Move>, k: nat)
    requires IsRun(ss, key, ms) && k < |ms| && Inv(ss[k], key)
    ensures Inv(ss[k + 1], key) && Follows(ss[k].apps, ss[k + 1].apps)
  {
    assert Next(ss[k], key, ms[k], ss[k + 1]);
    NextKeepsInv(ss[k], key, ms[k], ss[k + 1]);
  }

  lemma {:induction false} RunKeepsInv(ss: seq<System>, key: string -> int, ms: seq<Move>, k: nat)
    requires IsRun(ss, key, ms) && k < |ss|
    ensures Inv(ss[k], key)
  {
    if k > 0 {
      RunKeepsInv(ss, key, ms, k - 1);
      RunStep(ss, key, ms, k - 1);
    }
  }

  lemma StepFollows(ss: seq<System>, key: string -> int, ms: seq<Move>, k: nat)
    requires IsRun(ss, key, ms) && k < |ms|
    ensures Follows(ss[k].apps, ss[k + 1].apps)
  {
    RunKeepsInv(ss, key, ms, k);
    RunStep(ss, key, ms, k);
  }

  lemma FollowsIsTransitive(a: Apps, b: Apps, c: Apps)
    requires Follows(a, b) && Follows(b, c)
    ensures Follows(a, c)
  {
  }

  lemma {:induction false} RunFollows(ss: seq<System>, key: string -> int, ms: seq<Move>, i: nat, j: nat)
    requires IsRun(ss, key, ms) && i <= j < |ss|
    ensures Follows(ss[i].apps, ss[j].apps)
  {
    if i < j {
      RunFollows(ss, key, ms, i, j - 1);
      StepFollows(ss, key, ms, j - 1);
      FollowsIsTransitive(ss[i].apps, ss[j - 1].apps, ss[j].apps);
    }
  }

  // ---------- what the API promises ----------

  /** In every interleaving an address has at most one pending or approved application. */
  lemma AtMostOneLiveApplication(ss: seq<System>, key: string -> int, ms: seq<Move>, k: nat,
                                 owner: string, i: string, j: string)
    requires IsRun(ss, key, ms) && k < |ss|
    requires Blocking(ss[k].apps, owner, i) && Blocking(ss[k].apps, owner, j)
    ensures i == j
  {
    RunKeepsInv(ss, key, ms, k);
  }

  /** A challenge allows one create attempt, to the owner it was issued to, before it expires. */
  lemma ChallengeAllowsOneAttempt(ss: seq<System>, key: string -> int, ms: seq<Move>, k: nat, i: nat, j: nat)
    requires IsRun(ss, key, ms) && k < |ss|
    requires i < |ss[k].pool.attempts| && j < |ss[k].pool.attempts|
    ensures
      var a, b, issued := ss[k].pool.attempts[i], ss[k].pool.attempts[j], ss[k].pool.issued;
      && (a.challenge == b.challenge ==> i == j)
      && a.challenge in issued && a.owner == issued[a.challenge].owner && a.time < issued[a.challenge].expiresAt
  {
    RunKeepsInv(ss, key, ms, k);
  }

  /** Every application was made by one challenge of its owner, and no challenge made two. */
  lemma ApplicationsHaveTheirOwnChallenge(ss: seq<System>, key: string -> int, ms: seq<Move>, k: nat, i: string,
                                          j: string)
    requires IsRun(ss, key, ms) && k < |ss| && i in ss[k].apps && j in ss[k].apps
    ensures i in ss[k].born && j in ss[k].born && (ss[k].born[i] == ss[k].born[j] ==> i == j)
    ensures AttemptFor(ss[k].pool.attempts, ss[k].born[i], ss[k].apps[i].owner)
  {
    RunKeepsInv(ss, key, ms, k);
  }

  /** A token verifies at most once, its own application, and never once a later mail replaced it. */
  lemma TokenVerifiesOnce(ss: seq<System>, key: string -> int, ms: seq<Move>, k: nat, i: nat, j: nat)
    requires IsRun(ss, key, ms) && k < |ss|
    requires i < |ss[k].mail.verifications| && j < |ss[k].mail.verifications|
    ensures
      var v, w := ss[k].mail.verifications[i], ss[k].mail.verifications[j];
      && (v.token == w.token ==> i == j)
      && v.token in ss[k].mail.mailed && ss[k].mail.mailed[v.token] == v.app
      && v.token !in ss[k].mail.superseded
  {
    RunKeepsInv(ss, key, ms, k);
  }

  /** A reviewed application had its email verified by a token and names its reviewer. */
  lemma ReviewedMeansVerified(ss: seq<System>, key: string -> int, ms: seq<Move>, k: nat, id: string)
    requires IsRun(ss, key, ms) && k < |ss| && id in ss[k].apps && !ss[k].apps[id].status.Pending?
    ensures ss[k].apps[id].emailVerified && ss[k].apps[id].reviewedBy.Some?
    ensures VerifiedFor(ss[k].mail.verifications, id)
  {
    RunKeepsInv(ss, key, ms, k);
  }

  /** A review is final: status, note and reviewer stay as they are in every later state. */
  lemma ReviewIsTerminal(ss: seq<System>, key: string -> int, ms: seq<Move>, i: nat, j: nat, id: string)
    requires IsRun(ss, key, ms) && i <= j < |ss| && id in ss[i].apps && !ss[i].apps[id].status.Pending?
    ensures id in ss[j].apps && ss[j].apps[id] == ss[i].apps[id]
  {
    RunFollows(ss, key, ms, i, j);
    RunKeepsInv(ss, key, ms, i);
  }

  lemma ActOfReview(s: System, key: string -> int, r: nat, c: Choice)
    requires r < |s.requests| && s.requests[r].ReviewLookedUp?
    ensures Act(s, key, r, c) == ActReview(s, r)
  {
  }

  /** A review that loses the race says "not found", although the application exists and is reviewed. */
  lemma LostRaceSaysNotFound(ss: seq<System>, key: string -> int, ms: seq<Move>, k: nat, r: nat, c: Choice)
    requires IsRun(ss, key, ms) && k < |ms| && ms[k] == Statement(r, c)
    requires r < |ss[k].requests| && ss[k].requests[r].ReviewLookedUp?
    ensures r < |ss[k + 1].requests|
    ensures
      var app := ss[k].requests[r].app;
      && app in ss[k].apps
      && (ss[k + 1].requests[r] == Closed(NotFound) <==> !ss[k].apps[app].status.Pending?)
  {
    RunKeepsInv(ss, key, ms, k);
    ActOfReview(ss[k], key, r, c);
  }

  /** No lock outlives its request: whatever ends a create attempt also frees the address. */
  lemma EndedRequestsHoldNoLock(ss: seq<System>, key: string -> int, ms: seq<Move>, k: nat, r: nat)
    requires IsRun(ss, key, ms) && k < |ss| && r < |ss[k].requests| && !InTransaction(ss[k].requests[r])
    ensures forall lock <- ss[k].locks :: ss[k].locks[lock] != r
  {
    RunKeepsInv(ss, key, ms, k);
  }

  // ---------- what the answers mean ----------

  lemma StatementHappens(ss: seq<System>, key: string -> int, ms: seq<Move>, k: nat, r: nat, c: Choice)
    requires IsRun(ss, key, ms) && k < |ms| && ms[k] == Statement(r, c)
    ensures r < |ss[k].requests| && Enabled(ss[k], key, ss[k].requests[r], c) && ss[k + 1] == Act(ss[k], key, r, c)
  {
    assert Next(ss[k], key, ms[k], ss[k + 1]);
  }

  lemma ReReadIsDetermined(s: System, key: string -> int, r: nat, c: Choice, id: string)
    requires OneLive(s.apps) && r < |s.requests| && s.requests[r].SubmitLocked? && !c.Abort?
    requires Enabled(s, key, s.requests[r], c) && Blocking(s.apps, s.requests[r].owner, id)
    ensures c == Finds(id)
    ensures ActCreate(s, key, r, c).requests[r]
      == Closed(if s.apps[id].status.Approved? then AlreadyApproved else AlreadyPending)
  {
  }

  lemma ActOfCreate(s: System, key: string -> int, r: nat, c: Choice)
    requires r < |s.requests| && PreCommit(s.requests[r])
    ensures Act(s, key, r, c) == ActCreate(s, key, r, c)
  {
  }

  /** As an address has one live application, "find first" has one answer, and so has the applicant. */
  lemma ConflictAnswerIsDetermined(ss: seq<System>, key: string -> int, ms: seq<Move>, k: nat, r: nat, c: Choice,
                                   id: string)
    requires IsRun(ss, key, ms) && k < |ms| && ms[k] == Statement(r, c) && !c.Abort?
    requires r < |ss[k].requests| && ss[k].requests[r].SubmitLocked?
      && Blocking(ss[k].apps, ss[k].requests[r].owner, id)
    ensures r < |ss[k + 1].requests|
    ensures ss[k + 1].requests[r] == Closed(if ss[k].apps[id].status.Approved? then AlreadyApproved else AlreadyPending)
  {
    RunKeepsInv(ss, key, ms, k);
    StatementHappens(ss, key, ms, k, r, c);
    ActOfCreate(ss[k], key, r, c);
    ReReadIsDetermined(ss[k], key, r, c, id);
  }

  lemma CommitInserts(s: System, key: string -> int, r: nat)
    requires r < |s.requests| && s.requests[r].SubmitInserted?
    ensures var q, s' := s.requests[r], ActCreate(s, key, r, Go);
            q.inserted in s'.apps && s'.apps[q.inserted] == NewApplication(q.owner)
  {
  }

  /** A committed application is there from then on, for its owner, unverified and pending at first. */
  lemma CreatedStays(ss: seq<System>, key: string -> int, ms: seq<Move>, k: nat, r: nat, j: nat)
    requires IsRun(ss, key, ms) && k < |ms| && ms[k] == Statement(r, Go) && k < j < |ss|
    requires r < |ss[k].requests| && ss[k].requests[r].SubmitInserted?
    ensures var q := ss[k].requests[r];
            && q.inserted !in ss[k].apps
            && q.inserted in ss[k + 1].apps && ss[k + 1].apps[q.inserted] == NewApplication(q.owner)
            && q.inserted in ss[j].apps && ss[j].apps[q.inserted].owner == q.owner
  {
    RunKeepsInv(ss, key, ms, k);
    StatementHappens(ss, key, ms, k, r, Go);
    ActOfCreate(ss[k], key, r, Go);
    CommitInserts(ss[k], key, r);
    RunFollows(ss, key, ms, k + 1, j);
  }

  lemma ReviewWrites(s: System, r: nat)
    requires r < |s.requests| && s.requests[r].ReviewLookedUp? && ActReview(s, r).requests[r] == Closed(Reviewed)
    ensures var q, s' := s.requests[r], ActReview(s, r);
            && q.app in s.apps && q.app in s'.apps
            && s'.apps[q.app] == s.apps[q.app].(status := q.verdict, reviewNote := q.note,
              reviewedBy := Some(q.reviewer))
  {
  }

  /** A review that was answered with success is the one on record, for good. */
  lemma SuccessfulReviewStays(ss: seq<System>, key: string -> int, ms: seq<Move>, k: nat, r: nat, c: Choice, j: nat)
    requires IsRun(ss, key, ms) && k < |ms| && ms[k] == Statement(r, c) && k < j < |ss|
    requires r < |ss[k].requests| && ss[k].requests[r].ReviewLookedUp?
    requires r < |ss[k + 1].requests| && ss[k + 1].requests[r] == Closed(Reviewed)
    ensures var q := ss[k].requests[r];
            && q.app in ss[k].apps && q.app in ss[j].apps
            && ss[j].apps[q.app]
              == ss[k].apps[q.app].(status := q.verdict, reviewNote := q.note, reviewedBy := Some(q.reviewer))
  {
    RunKeepsInv(ss, key, ms, k);
    StatementHappens(ss, key, ms, k, r, c);
    ActOfReview(ss[k], key, r, c);
    ReviewWrites(ss[k], r);
    ReviewIsTerminal(ss, key, ms, k + 1, j, ss[k].requests[r].app);
  }

  lemma ActOfVerify(s: System, key: string -> int, r: nat, c: Choice)
    requires r < |s.requests| && Verifying(s.requests[r])
    ensures Act(s, key, r, c) == ActVerify(s, r, c)
  {
  }

  lemma RedeemVerifies(s: System, r: nat, c: Choice)
    requires r < |s.requests| && s.requests[r].VerifyFound? && ActVerify(s, r, c).requests[r] == Closed(Verified)
    ensures var q, s' := s.requests[r], ActVerify(s, r, c);
            && q.foundApp in s'.apps && s'.apps[q.foundApp].emailVerified
            && s'.mail.verifications == s.mail.verifications + [Verification(q.token, q.foundApp)]
  {
  }

  /** An answer "verified" is true of the token's application, for good. */
  lemma VerifiedStays(ss: seq<System>, key: string -> int, ms: seq<Move>, k: nat, r: nat, c: Choice, j: nat)
    requires IsRun(ss, key, ms) && k < |ms| && ms[k] == Statement(r, c) && k < j < |ss|
    requires r < |ss[k].requests| && ss[k].requests[r].VerifyFound?
    requires r < |ss[k + 1].requests| && ss[k + 1].requests[r] == Closed(Verified)
    ensures var q := ss[k].requests[r];
            && q.foundApp in ss[j].apps && ss[j].apps[q.foundApp].emailVerified
            && q.token in ss[k + 1].mail.mailed && ss[k + 1].mail.mailed[q.token] == q.foundApp
  {
    StatementHappens(ss, key, ms, k, r, c);
    ActOfVerify(ss[k], key, r, c);
    RedeemVerifies(ss[k], r, c);
    RunFollows(ss, key, ms, k + 1, j);
    TokenVerifiesOnce(ss, key, ms, k + 1, |ss[k].mail.verifications|, |ss[k].mail.verifications|);
  }

  /** An expired token is refused, and a live one is not, when it is looked up. */
  lemma ExpiredTokenIsRefused(s: System, key: string -> int, r: nat, c: Choice, app: string)
    requires TokensSpent(s.mail) && r < |s.requests| && s.requests[r].Verify? && Enabled(s, key, s.requests[r], c)
    requires app in s.mail.rows && s.mail.rows[app].hash == s.requests[r].token
    ensures ActVerify(s, r, c).requests[r].VerifyFound? <==> s.now < s.mail.rows[app].expiresAt
    ensures ActVerify(s, r, c).requests[r].VerifyFound? ==> ActVerify(s, r, c).requests[r].foundApp == app
  {
    assert c.Finds? ==> s.mail.mailed[s.requests[r].token] == c.id;
  }

  /** Sweeping expired challenges changes no later answer. */
  lemma SweepKeepsUsable(rows: map<string, Challenge>, swept: int, challenge: string, owner: string, later: int)
    requires swept <= later
    ensures Usable(Sweep(rows, swept), challenge, owner, later) <==> Usable(rows, challenge, owner, later)
  {
  }
}
