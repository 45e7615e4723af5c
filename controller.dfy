/**
 * The decision UserController.getUnconfirmedUser makes about the HTTP status
 * of a confirmation-page request: read the user, then refuse it unless it is
 * still UNCONFIRMED, still ACTIVE at the provider, holds the request's nonce
 * and is inside its confirmation window.
 */
module Controller {
  import opened Types
  import opened Snapshots
  import opened Repository

  const StatusOk := 200
  const StatusNotFound := 404
  const StatusConflict := 409
  const StatusInternalServerError := 500

  /** What the controller's call to `getUser` can come back with. */
  datatype Fetch =
    | IoFailure              // an IOException, caught
    | NullUser               // a null user
    | Fetched(user: User)
    | Thrown(error: Failure) // any other exception, not caught

  /** The controller's answer: a status with an optional body, or an exception it lets through. */
  datatype Response = Respond(status: int, body: Option<User>) | Propagate(error: Failure)

  /** How the repository's read arrives at the controller. */
  function ReadUser(snaps: seq<SnapshotDoc>, evs: seq<StoredEvent>, id: Id): (f: Fetch)
    ensures f.Fetched? <==> UserView(snaps, evs, id).Success?
    ensures f.Thrown? <==> UserView(snaps, evs, id).Failure?
    ensures f.Fetched? ==> f.user == UserView(snaps, evs, id).value
    ensures f.Thrown? ==> f.error == UserView(snaps, evs, id).error
  {
    match UserView(snaps, evs, id)
    case Success(u) => Fetched(u)
    case Failure(e) => Thrown(e)
  }

  /** The two kinds of Java object the nonce check compares. */
  datatype JavaObject = UuidObject(uuid: Uuid) | StringObject(text: string)

  /** `Object.equals`: objects of different classes are never equal. */
  function ObjectEquals(a: JavaObject, b: JavaObject): (eq: bool)
    ensures eq ==> a == b
    ensures a.UuidObject? != b.UuidObject? ==> !eq
  {
    match (a, b)
    case (UuidObject(x), UuidObject(y)) => x == y
    case (StringObject(x), StringObject(y)) => x == y
    case _ => false
  }

  /**
   * The status decision, parameterised by the nonce check: tenant status
   * first, then provider status, then the nonce, then the expiry (a request
   * at exactly the expiry instant is still in time). Only a user read and
   * passing all four guards is served; a read user failing one gets 409.
   */
  function Decide(fetch: Fetch, nonceMatches: User -> bool, now: Instant): (r: Response)
    ensures r.Respond? && r.status == StatusOk <==>
      && fetch.Fetched? && fetch.user.tenantStatus == Unconfirmed && fetch.user.providerStatus == Active
      && nonceMatches(fetch.user) && now <= fetch.user.expiryTime
    ensures r.Respond? && r.status == StatusOk ==> r.body == Some(fetch.user)
    ensures fetch.Fetched? && !(r.Respond? && r.status == StatusOk) ==> r == Respond(StatusConflict, None)
    ensures !fetch.Fetched? ==> r.Propagate? == fetch.Thrown? && r != Respond(StatusConflict, None)
  {
    match fetch
    case IoFailure => Respond(StatusInternalServerError, None)
    case NullUser => Respond(StatusNotFound, None)
    case Thrown(e) => Propagate(e)
    case Fetched(u) =>
      if u.tenantStatus != Unconfirmed then Respond(StatusConflict, None)
      else if u.providerStatus != Active then Respond(StatusConflict, None)
      else if !nonceMatches(u) then Respond(StatusConflict, None)
      else if now > u.expiryTime then Respond(StatusConflict, None)
      else Respond(StatusOk, Some(u))
  }

  /** The nonce check as written: the user's UUID object against the request's string. */
  function NonceMatchesAsWritten(u: User, confirmUuid: string): (eq: bool)
    ensures !eq
  {
    ObjectEquals(UuidObject(u.confirmUuid), StringObject(confirmUuid))
  }

  /**
   * getUnconfirmedUser as written. No request ever gets the confirmation
   * page: even a pending, active, unexpired user asked for with its own
   * nonce is refused.
   */
  function GetUnconfirmedUserAsWritten(fetch: Fetch, confirmUuid: string, now: Instant): (r: Response)
    ensures r.Respond? ==> r.status != StatusOk
  {
    Decide(fetch, u => NonceMatchesAsWritten(u, confirmUuid), now)
  }

  /** The counterexample: the user's own nonce, well inside the window, gets 409. */
  lemma OwnNonceIsRefusedAsWritten(u: User, now: Instant)
    requires u.tenantStatus == Unconfirmed && u.providerStatus == Active && now <= u.expiryTime
    ensures GetUnconfirmedUserAsWritten(Fetched(u), u.confirmUuid.text, now) == Respond(StatusConflict, None)
  {
    assert !NonceMatchesAsWritten(u, u.confirmUuid.text);
  }

  /** The nonce check as intended: the UUID's text against the request's string. */
  function NonceMatches(u: User, confirmUuid: string): (eq: bool)
    ensures eq <==> u.confirmUuid.text == confirmUuid
  {
    ObjectEquals(StringObject(u.confirmUuid.text), StringObject(confirmUuid))
  }

  /**
   * getUnconfirmedUser with the nonce compared as intended. The page (200,
   * with the user as read) is served exactly for a read user that is
   * UNCONFIRMED and ACTIVE, holds the request's nonce and whose window has
   * not passed; a user read but failing any of these gets 409.
   */
  function GetUnconfirmedUser(fetch: Fetch, confirmUuid: string, now: Instant): (r: Response)
    ensures r.Respond? && r.status == StatusOk <==>
      && fetch.Fetched? && fetch.user.tenantStatus == Unconfirmed && fetch.user.providerStatus == Active
      && fetch.user.confirmUuid.text == confirmUuid && now <= fetch.user.expiryTime
    ensures r.Respond? && r.status == StatusOk ==> r.body == Some(fetch.user)
    ensures fetch.Fetched? && !(r.Respond? && r.status == StatusOk) ==> r == Respond(StatusConflict, None)
  {
    Decide(fetch, u => NonceMatches(u, confirmUuid), now)
  }

  /** Read failures: IOException gives 500, null gives 404, anything else escapes. */
  lemma ReadFailuresAreReported(fetch: Fetch, confirmUuid: string, now: Instant)
    ensures var r := GetUnconfirmedUser(fetch, confirmUuid, now);
      && (fetch == IoFailure <==> r == Respond(StatusInternalServerError, None))
      && (fetch == NullUser <==> r == Respond(StatusNotFound, None))
      && (fetch.Thrown? <==> r.Propagate?)
      && (fetch.Thrown? ==> r.error == fetch.error)
  {
  }

  /**
   * Through this repository an unknown user is never answered 404: the read
   * throws a NullPointerException, which the controller lets through.
   */
  lemma UnknownUserEscapes(snaps: seq<SnapshotDoc>, evs: seq<StoredEvent>, id: Id, confirmUuid: string, now: Instant)
    requires forall i :: 0 <= i < |snaps| ==> snaps[i].userId != id
    ensures GetUnconfirmedUser(ReadUser(snaps, evs, id), confirmUuid, now) == Propagate(NullPointer)
  {
    LatestSnapshotIsLatest(snaps, id);
  }

  /**
   * A user just added under a fresh identity gets its confirmation page when
   * asked for with its own nonce before its window closes.
   */
  lemma NewUserGetsConfirmationPage(snaps: seq<SnapshotDoc>, evs: seq<StoredEvent>, d: SnapshotDoc, now: Instant)
    requires forall i :: 0 <= i < |snaps| ==> snaps[i].userId != d.userId
    requires forall i :: 0 <= i < |evs| ==> evs[i].userId != d.userId
    requires d.tenantStatus == Unconfirmed && d.providerStatus == Active && now <= d.expiryTime
    ensures GetUnconfirmedUser(ReadUser(snaps + [d], evs, d.userId), d.confirmUuid.text, now)
      == Respond(StatusOk, Some(Project(d)))
  {
    AddedUserReadsBack(snaps, evs, d);
  }
}
