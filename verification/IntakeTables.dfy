/** The intake statements as they run: each reads and updates the tables in place. */
module IntakeTables {
  import opened Wrappers
  import opened Intake

  /** The ghost fields record what happened, for the claims about runs; no statement reads them. */
  class Tables {
    var requests: seq<Request>
    var locks: map<int, nat>
    var apps: Apps
    var challenges: map<string, Challenge>
    var tokens: map<string, Token>
    var now: int
    ghost var ids: set<string>
    ghost var born: map<string, string>
    ghost var issued: map<string, Challenge>
    ghost var attempts: seq<Attempt>
    ghost var mailed: map<string, string>
    ghost var superseded: set<string>
    ghost var verifications: seq<Verification>

    ghost function View(): System
      reads this
    {
      System(requests, locks, apps, ids, born, Pool(challenges, issued, attempts),
             Mail(tokens, mailed, superseded, verifications), now)
    }

    constructor ()
      ensures View() == EMPTY
    {
      requests, locks, apps, challenges, tokens, now := [], map[], map[], map[], map[], 0;
      ids, born, issued, attempts := {}, map[], map[], [];
      mailed, superseded, verifications := map[], {}, [];
    }

    method IssueChallenge(r: nat, c: Choice)
      requires r < |requests| && Issuing(requests[r])
      modifies this
      ensures View() == ActIssue(old(View()), r, c)
    {
      match requests[r]
      case Issue(owner) =>
        challenges := map x | x in challenges && now < challenges[x].expiresAt :: challenges[x];
        requests := requests[r := IssueSwept(owner, now + CHALLENGE_TTL_MS)];
      case IssueSwept(owner, expiresAt) =>
        if c.Fresh? {
          var row := Challenge(owner, expiresAt);
          challenges := challenges[c.value := row];
          issued := issued[c.value := row];
          requests := requests[r := Closed(Issued)];
        }
    }

    method SubmitApplication(r: nat, c: Choice)
      requires r < |requests| && Submitting(requests[r])
      modifies this
      ensures View() == ActSubmit(old(View()), r, c)
    {
      match requests[r]
      case Submit(owner, challenge) =>
        if challenge !in challenges || challenges[challenge].owner != owner || challenges[challenge].expiresAt <= now {
          requests := requests[r := Closed(InvalidChallenge)];
        } else {
          requests := requests[r := SubmitLookedUp(owner, challenge)];
        }
      case SubmitLookedUp(owner, challenge) =>
        requests := requests[r := if c == SignatureIs(true) then SubmitSigned(owner, challenge)
          else Closed(InvalidSignature)];
      case SubmitSigned(owner, challenge) =>
        if Usable(challenges, challenge, owner, now) {
          challenges := challenges - {challenge};
          attempts := attempts + [Attempt(challenge, owner, now)];
          requests := requests[r := SubmitConsumed(owner, challenge)];
        } else {
          requests := requests[r := Closed(InvalidChallenge)];
        }
    }

    method EndTransaction(r: nat, q: Request)
      requires r < |requests|
      modifies this`locks, this`requests
      ensures requests == old(requests)[r := q] && locks == Unlock(old(locks), r)
    {
      locks := map k | k in locks && locks[k] != r :: locks[k];
      requests := requests[r := q];
    }

    method CreateUnlessBlocked(key: string -> int, r: nat, c: Choice)
      requires r < |requests| && PreCommit(requests[r])
      modifies this
      ensures View() == ActCreate(old(View()), key, r, c)
    {
      match requests[r]
      case SubmitConsumed(owner, challenge) =>
        if c.Abort? {
          requests := requests[r := Closed(ServerError)];
        } else {
          locks := locks[key(owner) := r];
          requests := requests[r := SubmitLocked(owner, challenge)];
        }
      case SubmitLocked(owner, challenge) =>
        if c.Finds? && c.id in apps {
          EndTransaction(r, Closed(if apps[c.id].status.Approved? then AlreadyApproved else AlreadyPending));
        } else if c.Go? {
          requests := requests[r := SubmitClear(owner, challenge)];
        } else {
          EndTransaction(r, Closed(ServerError));
        }
      case SubmitClear(owner, challenge) =>
        if c.Fresh? {
          ids := ids + {c.value};
          requests := requests[r := SubmitInserted(owner, challenge, c.value)];
        } else {
          EndTransaction(r, Closed(ServerError));
        }
      case SubmitInserted(owner, challenge, id) =>
        if c.Go? {
          apps := apps[id := NewApplication(owner)];
          born := born[id := challenge];
          EndTransaction(r, SendToken(id, Created));
        } else {
          EndTransaction(r, Closed(ServerError));
        }
    }

    method SendContactVerification(r: nat, c: Choice)
      requires r < |requests| && Sending(requests[r])
      modifies this
      ensures View() == ActSend(old(View()), r, c)
    {
      match requests[r]
      case Resend(app) =>
        requests := requests[r := if app in apps && !apps[app].emailVerified then SendToken(app, Accepted)
          else Closed(Accepted)];
      case SendToken(app, reply) =>
        if c.Fresh? {
          superseded := superseded + if app in tokens then {tokens[app].hash} else {};
          mailed := mailed[c.value := app];
          tokens := tokens[app := Token(c.value, now + TOKEN_TTL_MS)];
        }
        requests := requests[r := Closed(reply)];
    }

    method VerifyContactToken(r: nat, c: Choice)
      requires r < |requests| && Verifying(requests[r])
      modifies this
      ensures View() == ActVerify(old(View()), r, c)
    {
      match requests[r]
      case Verify(token) =>
        if !c.Finds? || c.id !in tokens {
          requests := requests[r := Closed(InvalidToken)];
        } else if tokens[c.id].expiresAt <= now {
          requests := requests[r := VerifyExpired(token, c.id)];
        } else {
          requests := requests[r := VerifyFound(token, c.id)];
        }
      case VerifyExpired(token, app) =>
        if app in tokens && tokens[app].hash == token {
          tokens := tokens - {app};
        }
        requests := requests[r := Closed(InvalidToken)];
      case VerifyFound(token, app) =>
        if app in tokens && tokens[app].hash == token && app in apps {
          tokens := tokens - {app};
          apps := apps[app := apps[app].(emailVerified := true)];
          verifications := verifications + [Verification(token, app)];
          requests := requests[r := Closed(Verified)];
        } else {
          requests := requests[r := Closed(InvalidToken)];
        }
    }

    method ReviewApplication(r: nat)
      requires r < |requests| && Reviewing(requests[r])
      modifies this
      ensures View() == ActReview(old(View()), r)
    {
      match requests[r]
      case Review(app, verdict, reviewer, note) =>
        if app !in apps {
          requests := requests[r := Closed(NotFound)];
        } else if !apps[app].status.Pending? {
          requests := requests[r := Closed(AlreadyReviewed)];
        } else if !apps[app].emailVerified {
          requests := requests[r := Closed(EmailUnverified)];
        } else {
          requests := requests[r := ReviewLookedUp(app, verdict, reviewer, note)];
        }
      case ReviewLookedUp(app, verdict, reviewer, note) =>
        if app in apps && apps[app].status.Pending? {
          apps := apps[app := apps[app].(status := verdict, reviewNote := note, reviewedBy := Some(reviewer))];
          requests := requests[r := Closed(Reviewed)];
        } else {
          requests := requests[r := Closed(NotFound)];
        }
    }
  }
}
