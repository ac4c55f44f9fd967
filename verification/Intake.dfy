/**
 NGO application intake with any number of requests in flight. Each database statement of
 a request is one step, and steps of different requests interleave freely. A statement
 inside a transaction shows to others at the commit; the row lock taken by the delete of a
 contact token makes that delete, the update after it and their commit one step.
 */
module Intake {
  import opened Wrappers

  const CHALLENGE_TTL_MS := 300_000
  const TOKEN_TTL_MS := 86_400_000

  datatype Status = Pending | Approved | Rejected

  datatype Application = Application(
    owner: string,
    status: Status,
    reviewNote: Option<string>,
    reviewedBy: Option<string>,
    emailVerified: bool)

  type Apps = map<string, Application>

  datatype Challenge = Challenge(owner: string, expiresAt: int)

  datatype Token = Token(hash: string, expiresAt: int)

  datatype Reply = Created | InvalidChallenge | InvalidSignature | AlreadyApproved | AlreadyPending
    | Issued | Accepted | Verified | InvalidToken | NotFound | AlreadyReviewed | EmailUnverified | Reviewed
    | ServerError

  /** Where a request is. The names say which statement has just run. */
  datatype Request =
    | Issue(owner: string)
    | IssueSwept(owner: string, expiresAt: int)
    | Submit(owner: string, challenge: string)
    | SubmitLookedUp(owner: string, challenge: string)
    | SubmitSigned(owner: string, challenge: string)
    | SubmitConsumed(owner: string, challenge: string)
    | SubmitLocked(owner: string, challenge: string)
    | SubmitClear(owner: string, challenge: string)
    | SubmitInserted(owner: string, challenge: string, inserted: string)
    | Resend(app: string)
    | SendToken(app: string, reply: Reply)
    | Verify(token: string)
    | VerifyFound(token: string, foundApp: string)
    | VerifyExpired(token: string, foundApp: string)
    | Review(app: string, verdict: Status, reviewer: string, note: Option<string>)
    | ReviewLookedUp(app: string, verdict: Status, reviewer: string, note: Option<string>)
    | Closed(reply: Reply)

  /** One consumption of a challenge: the one create attempt it allows. */
  datatype Attempt = Attempt(challenge: string, owner: string, time: int)

  /** The challenge table. `issued` and `attempts` record what happened; no request reads them. */
  datatype Pool = Pool(rows: map<string, Challenge>, issued: map<string, Challenge>, attempts: seq<Attempt>)

  datatype Verification = Verification(token: string, app: string)

  /** The contact token table by application. The other fields record what happened. */
  datatype Mail = Mail(
    rows: map<string, Token>,
    mailed: map<string, string>,
    superseded: set<string>,
    verifications: seq<Verification>)

  /** `locks` maps a lock key to its holder; `born` says which challenge made an application. */
  datatype System = System(
    requests: seq<Request>,
    locks: map<int, nat>,
    apps: Apps,
    ids: set<string>,
    born: map<string, string>,
    pool: Pool,
    mail: Mail,
    now: int)

  const EMPTY := System([], map[], map[], {}, map[], Pool(map[], map[], []), Mail(map[], map[], {}, []), 0)

  /** `findFirst` for a pending or approved application of an owner. */
  predicate Blocking(apps: Apps, owner: string, id: string) {
    id in apps && apps[id].owner == owner && !apps[id].status.Rejected?
  }

  ghost predicate NoneBlocking(apps: Apps, owner: string) {
    forall id :: !Blocking(apps, owner, id)
  }

  ghost predicate NoSuchToken(rows: map<string, Token>, token: string) {
    forall a <- rows :: rows[a].hash != token
  }

  function NewApplication(owner: string): Application { Application(owner, Pending, None, None, false) }

  /** What the environment chooses: fresh random values, oracles, and failures. */
  datatype Choice =
    | Go
    | Fresh(value: string)
    | SignatureIs(valid: bool)
    | Finds(id: string)
    | Abort

  predicate InTransaction(q: Request) { q.SubmitLocked? || q.SubmitClear? || q.SubmitInserted? }

  /** The challenge is consumed and the create attempt is still open. */
  predicate PreCommit(q: Request) { q.SubmitConsumed? || InTransaction(q) }

  function At(s: System, r: nat, q: Request): System
    requires r < |s.requests|
  {
    s.(requests := s.requests[r := q])
  }

  function Unlock(locks: map<int, nat>, r: nat): map<int, nat> {
    map k | k in locks && locks[k] != r :: locks[k]
  }

  function Rollback(s: System, r: nat, reply: Reply): System
    requires r < |s.requests|
  {
    At(s, r, Closed(reply)).(locks := Unlock(s.locks, r))
  }

  /** A challenge row that this owner can still use. */
  predicate Usable(rows: map<string, Challenge>, challenge: string, owner: string, now: int) {
    challenge in rows && rows[challenge].owner == owner && now < rows[challenge].expiresAt
  }

  /** Whether this step can happen. `key` is the hash of an address; collisions are allowed. */
  ghost predicate Enabled(s: System, key: string -> int, q: Request, c: Choice) {
    match q
    case IssueSwept(_, _) => c.Fresh? && c.value !in s.pool.issued
    case SubmitLookedUp(_, _) => c.SignatureIs?
    case SubmitConsumed(owner, _) => (c.Go? && key(owner) !in s.locks) || c.Abort?
    case SubmitLocked(owner, _) =>
      c.Abort? || (c.Finds? && Blocking(s.apps, owner, c.id)) || (c.Go? && NoneBlocking(s.apps, owner))
    case SubmitClear(_, _) => c.Abort? || (c.Fresh? && c.value !in s.ids)
    case SubmitInserted(_, _, _) => c.Abort? || c.Go?
    case SendToken(_, _) => c.Abort? || (c.Fresh? && c.value !in s.mail.mailed)
    case Verify(token) =>
      || (c.Finds? && c.id in s.mail.rows && s.mail.rows[c.id].hash == token)
      || (c.Go? && NoSuchToken(s.mail.rows, token))
    case Closed(_) => false
    case _ => c.Go?
  }

  function Sweep(rows: map<string, Challenge>, now: int): map<string, Challenge> {
    map x | x in rows && now < rows[x].expiresAt :: rows[x]
  }

  function Consume(pool: Pool, challenge: string, owner: string, now: int): Pool {
    pool.(rows := pool.rows - {challenge}, attempts := pool.attempts + [Attempt(challenge, owner, now)])
  }

  /** The upsert that replaces an application's token. */
  function Upsert(mail: Mail, app: string, hash: string, expiresAt: int): Mail {
    mail.(rows := mail.rows[app := Token(hash, expiresAt)],
          mailed := mail.mailed[hash := app],
          superseded := mail.superseded + if app in mail.rows then {mail.rows[app].hash} else {})
  }

  /** A challenge request: sweep the expired rows, then insert the new one. */
  function ActIssue(s: System, r: nat, c: Choice): System
    requires r < |s.requests| && Issuing(s.requests[r])
  {
    match s.requests[r]
    case Issue(owner) =>
      At(s, r, IssueSwept(owner, s.now + CHALLENGE_TTL_MS)).(pool := s.pool.(rows := Sweep(s.pool.rows, s.now)))
    case IssueSwept(owner, expiresAt) =>
      if !c.Fresh? then s
      else
        var row := Challenge(owner, expiresAt);
        At(s, r, Closed(Issued))
          .(pool := s.pool.(rows := s.pool.rows[c.value := row], issued := s.pool.issued[c.value := row]))
  }

  predicate Submitting(q: Request) { q.Submit? || q.SubmitLookedUp? || q.SubmitSigned? }

  /** A submission up to its create transaction: lookup, signature check, conditional delete. */
  function ActSubmit(s: System, r: nat, c: Choice): System
    requires r < |s.requests| && Submitting(s.requests[r])
  {
    match s.requests[r]
    case Submit(owner, challenge) =>
      At(s, r, if Usable(s.pool.rows, challenge, owner, s.now) then SubmitLookedUp(owner, challenge)
        else Closed(InvalidChallenge))
    case SubmitLookedUp(owner, challenge) =>
      At(s, r, if c == SignatureIs(true) then SubmitSigned(owner, challenge) else Closed(InvalidSignature))
    case SubmitSigned(owner, challenge) =>
      if Usable(s.pool.rows, challenge, owner, s.now)
      then At(s, r, SubmitConsumed(owner, challenge)).(pool := Consume(s.pool, challenge, owner, s.now))
      else At(s, r, Closed(InvalidChallenge))
  }

  /** The create transaction: take the address's lock, re-read, insert, commit. */
  function ActCreate(s: System, key: string -> int, r: nat, c: Choice): System
    requires r < |s.requests| && PreCommit(s.requests[r])
  {
    match s.requests[r]
    case SubmitConsumed(owner, challenge) =>
      if c.Abort? then At(s, r, Closed(ServerError))
      else At(s, r, SubmitLocked(owner, challenge)).(locks := s.locks[key(owner) := r])
    case SubmitLocked(owner, challenge) =>
      if c.Finds? && c.id in s.apps
      then Rollback(s, r, if s.apps[c.id].status.Approved? then AlreadyApproved else AlreadyPending)
      else if c.Go? then At(s, r, SubmitClear(owner, challenge))
      else Rollback(s, r, ServerError)
    case SubmitClear(owner, challenge) =>
      if c.Fresh? then At(s, r, SubmitInserted(owner, challenge, c.value)).(ids := s.ids + {c.value})
      else Rollback(s, r, ServerError)
    case SubmitInserted(owner, challenge, id) =>
      if c.Go?
      then At(s, r, SendToken(id, Created))
             .(apps := s.apps[id := NewApplication(owner)], born := s.born[id := challenge],
               locks := Unlock(s.locks, r))
      else Rollback(s, r, ServerError)
  }

  predicate Issuing(q: Request) { q.Issue? || q.IssueSwept? }

  predicate Reviewing(q: Request) { q.Review? || q.ReviewLookedUp? }

  predicate Sending(q: Request) { q.Resend? || q.SendToken? }

  /** Sending a token: the lookup of a resend request, then the upsert. */
  function ActSend(s: System, r: nat, c: Choice): System
    requires r < |s.requests| && Sending(s.requests[r])
  {
    match s.requests[r]
    case Resend(app) =>
      At(s, r, if app in s.apps && !s.apps[app].emailVerified then SendToken(app, Accepted) else Closed(Accepted))
    case SendToken(app, reply) =>
      if c.Fresh? then At(s, r, Closed(reply)).(mail := Upsert(s.mail, app, c.value, s.now + TOKEN_TTL_MS))
      else At(s, r, Closed(reply))
  }

  predicate Verifying(q: Request) { q.Verify? || q.VerifyFound? || q.VerifyExpired? }

  /** Redeeming a token: the lookup, then the delete that decides, and the update with it. */
  function ActVerify(s: System, r: nat, c: Choice): System
    requires r < |s.requests| && Verifying(s.requests[r])
  {
    match s.requests[r]
    case Verify(token) =>
      if !c.Finds? || c.id !in s.mail.rows then At(s, r, Closed(InvalidToken))
      else if s.mail.rows[c.id].expiresAt <= s.now then At(s, r, VerifyExpired(token, c.id))
      else At(s, r, VerifyFound(token, c.id))
    case VerifyExpired(token, app) =>
      At(s, r, Closed(InvalidToken))
        .(mail := if app in s.mail.rows && s.mail.rows[app].hash == token then s.mail.(rows := s.mail.rows - {app})
          else s.mail)
    case VerifyFound(token, app) =>
      if app in s.mail.rows && s.mail.rows[app].hash == token && app in s.apps
      then At(s, r, Closed(Verified))
             .(mail := s.mail.(rows := s.mail.rows - {app}, verifications := s.mail.verifications
               + [Verification(token, app)]),
               apps := s.apps[app := s.apps[app].(emailVerified := true)])
      else At(s, r, Closed(InvalidToken))
  }

  /** Approve and reject: a lookup, then an update conditional on the row still being pending. */
  function ActReview(s: System, r: nat): System
    requires r < |s.requests| && Reviewing(s.requests[r])
  {
    match s.requests[r]
    case Review(app, verdict, reviewer, note) =>
      At(s, r,
        if app !in s.apps then Closed(NotFound)
        else if !s.apps[app].status.Pending? then Closed(AlreadyReviewed)
        else if !s.apps[app].emailVerified then Closed(EmailUnverified)
        else ReviewLookedUp(app, verdict, reviewer, note))
    case ReviewLookedUp(app, verdict, reviewer, note) =>
      if app in s.apps && s.apps[app].status.Pending?
      then At(s, r, Closed(Reviewed))
             .(apps := s.apps[app := s.apps[app].(status := verdict, reviewNote := note, reviewedBy := Some(reviewer))])
      else At(s, r, Closed(NotFound))
  }

  /** One statement of one request. */
  function Act(s: System, key: string -> int, r: nat, c: Choice): System
    requires r < |s.requests|
  {
    var q := s.requests[r];
    if Issuing(q) then ActIssue(s, r, c)
    else if Submitting(q) then ActSubmit(s, r, c)
    else if PreCommit(q) then ActCreate(s, key, r, c)
    else if Sending(q) then ActSend(s, r, c)
    else if Verifying(q) then ActVerify(s, r, c)
    else if Reviewing(q) then ActReview(s, r)
    else s
  }

  /** A request as it arrives, before any statement. Reviews are approvals or rejections. */
  predicate Arrives(q: Request) {
    q.Issue? || q.Submit? || q.Resend? || q.Verify? || (q.Review? && !q.verdict.Pending?)
  }

  datatype Move = Arrive(request: Request) | Tick(later: int) | Statement(r: nat, choice: Choice)

  ghost predicate Next(s: System, key: string -> int, m: Move, s': System) {
    match m
    case Arrive(q) => Arrives(q) && s' == s.(requests := s.requests + [q])
    case Tick(later) => s.now <= later && s' == s.(now := later)
    case Statement(r, c) => r < |s.requests| && Enabled(s, key, s.requests[r], c) && s' == Act(s, key, r, c)
  }

  ghost predicate IsRun(ss: seq<System>, key: string -> int, ms: seq<Move>) {
    && |ss| == |ms| + 1 && ss[0] == EMPTY
    && forall k {:trigger ms[k]} :: 0 <= k < |ms| ==> Next(ss[k], key, ms[k], ss[k + 1])
  }
}
