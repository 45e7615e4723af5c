/**
 * The orchestration of one command (UserService.applyCommand): fetch the
 * user, check the command's preconditions against it, perform the command's
 * side effect, store exactly one event and publish exactly one message.
 */
module Service {
  import opened Types
  import opened Events
  import opened Commands
  import opened Snapshots
  import opened Repository

  /** The exchange every user message is published on (JacksonUserService). */
  const TopicExchangeName: string := "encity-exchange"

  /** The outbound message body: the user as fetched and the generated event. */
  datatype UserMessage = UserMessage(user: User, event: UserEvent)

  /** One `convertAndSend(exchange, routingKey, json)` call. */
  datatype Message = Message(exchange: string, routingKey: string, body: UserMessage)

  /** The sequence holding the value of an option, if any. */
  function Emitted<T>(o: Option<T>): seq<T> {
    if o.Some? then [o.value] else []
  }

  /**
   * What one applyCommand does to the outside world: the identity-provider
   * call, the stored event and the published message it makes (each at most
   * one), and what it returns or throws.
   */
  datatype Effects = Effects(
    iamRequest: Option<IamRequest>,
    stored: Option<StoredEvent>,
    published: Option<Message>,
    result: Result<User, Failure>)

  /** Nothing happened but the failure. */
  function Aborted(f: Failure): Effects {
    Effects(None, None, None, Failure(f))
  }

  /**
   * The effects of applyCommand, given what `getUser` returned, the admin
   * count query, whether the identity provider accepts the new user, whether
   * the event store accepts the event, whether publishing succeeds, and the
   * fresh identities and clock readings of the generated and the stored
   * event. The effects happen in order: the provider is called only for a
   * fetched user that passed its checks, an event is stored only after the
   * provider accepted (or was not needed), and a message is published only
   * after its event was stored.
   */
  function ApplyEffects(
    fetched: Result<User, Failure>, cmd: UserCommand, adminCount: Id -> int,
    providerAccepts: bool, storeOk: bool, publishOk: bool, eventStamp: Stamp, storedStamp: Stamp): (fx: Effects)
    ensures fx.iamRequest.Some? ==>
      fetched.Success? && CheckPreConditions(cmd, fetched.value, adminCount).Pass? && cmd.kind.ConfirmCommand?
    ensures fx.stored.Some? ==>
      && fetched.Success? && CheckPreConditions(cmd, fetched.value, adminCount).Pass? && IsPatchCommand(cmd)
      && (cmd.kind.ConfirmCommand? ==> fx.iamRequest.Some? && providerAccepts) && storeOk
    ensures fx.published.Some? ==> fx.stored.Some? && publishOk
    ensures fx.result.Success? <==> fx.published.Some?
  {
    if fetched.Failure? then Aborted(fetched.error)
    else
      var u := fetched.value;
      var check := CheckPreConditions(cmd, u, adminCount);
      if check.Fail? then Aborted(check.error)
      else match CmdType(cmd)
        case ConfirmUser =>
          var request := IamRequest(u, InitialPasswordOf(cmd));
          if !providerAccepts then Effects(Some(request), None, None, Failure(IamProviderFailed))
          else StoreAndPublish(Some(request), u, cmd, storeOk, publishOk, eventStamp, storedStamp)
        case RejectUser => StoreAndPublish(None, u, cmd, storeOk, publishOk, eventStamp, storedStamp)
        case _ => Aborted(UnsupportedOperation)
  }

  /**
   * The tail of applyCommand: store the command's event, one version above
   * the user, then publish it under its own routing key. A failed insert
   * stops before the publication; a failed publication leaves the event
   * stored. Either way the provider call already made stays made.
   */
  function StoreAndPublish(
    iam: Option<IamRequest>, u: User, cmd: UserCommand, storeOk: bool, publishOk: bool,
    eventStamp: Stamp, storedStamp: Stamp): (fx: Effects)
    requires IsPatchCommand(cmd)
    ensures fx.iamRequest == iam
    ensures fx.stored.Some? <==> storeOk
    ensures fx.stored.Some? ==>
      && fx.stored.value.userId == u.userId && fx.stored.value.commandId == cmd.commandId
      && fx.stored.value.userVersionNumber == u.version + 1 && StatusAfter(fx.stored.value.kind) == TargetStatus(cmd)
    ensures fx.published.Some? ==>
      && fx.stored.Some? && fx.published.value.exchange == TopicExchangeName
      && fx.published.value.routingKey == RoutingKey(fx.stored.value.kind)
      && fx.published.value.body == UserMessage(u, CreateUserEvent(cmd, u, eventStamp).value)
    ensures fx.result == if storeOk && publishOk then Success(u)
                         else Failure(if storeOk then PublishFailed else StoreFailed)
    ensures fx.published.Some? <==> fx.result.Success?
  {
    var evt := CreateUserEvent(cmd, u, eventStamp).value;
    var stored := NewStoredEvent(cmd.commandId, TypeOf(evt.kind), u, storedStamp).value;
    var message := Message(TopicExchangeName, RoutingKey(evt.kind), UserMessage(u, evt));
    if !storeOk then Effects(iam, None, None, Failure(StoreFailed))
    else if publishOk then Effects(iam, Some(stored), Some(message), Success(u))
    else Effects(iam, Some(stored), None, Failure(PublishFailed))
  }

  /** The tenant status a successful command of this kind leads to. */
  function TargetStatus(c: UserCommand): TenantStatus
    requires IsPatchCommand(c)
  {
    if c.kind.ConfirmCommand? then Confirmed else Rejected
  }

  // ----- properties of the orchestration -----

  /**
   * A command that succeeds stored exactly one event, of its own kind and
   * carrying its id, one version above the fetched user, published exactly
   * one message on the service's exchange under that event's routing key,
   * and returned the user as fetched.
   */
  lemma SuccessStoresOneEventAndPublishesOneMessage(
    fetched: Result<User, Failure>, cmd: UserCommand, adminCount: Id -> int,
    providerAccepts: bool, storeOk: bool, publishOk: bool, eventStamp: Stamp, storedStamp: Stamp)
    requires ApplyEffects(fetched, cmd, adminCount, providerAccepts, storeOk, publishOk, eventStamp, storedStamp).result.Success?
    ensures var fx := ApplyEffects(fetched, cmd, adminCount, providerAccepts, storeOk, publishOk, eventStamp, storedStamp);
      && fetched.Success? && fx.result == fetched && IsPatchCommand(cmd)
      && fx.stored.Some? && fx.published.Some?
      && fx.stored.value.commandId == cmd.commandId
      && fx.stored.value.userId == fetched.value.userId
      && fx.stored.value.userVersionNumber == fetched.value.version + 1
      && StatusAfter(fx.stored.value.kind) == TargetStatus(cmd)
      && fx.published.value.exchange == TopicExchangeName
      && fx.published.value.routingKey == RoutingKey(fx.stored.value.kind)
      && fx.published.value.body.event.commandId == cmd.commandId
  {
  }

  /**
   * A command that fails publishes nothing, and stores nothing unless it was
   * the publication itself that failed.
   */
  lemma FailurePublishesNothing(
    fetched: Result<User, Failure>, cmd: UserCommand, adminCount: Id -> int,
    providerAccepts: bool, storeOk: bool, publishOk: bool, eventStamp: Stamp, storedStamp: Stamp)
    requires ApplyEffects(fetched, cmd, adminCount, providerAccepts, storeOk, publishOk, eventStamp, storedStamp).result.Failure?
    ensures var fx := ApplyEffects(fetched, cmd, adminCount, providerAccepts, storeOk, publishOk, eventStamp, storedStamp);
      && fx.published.None?
      && (fx.stored.Some? ==> fx.result.error == PublishFailed && !publishOk)
  {
  }

  /**
   * A missing user or a failed precondition stops the command before any
   * side effect: no provider call, no event, no message.
   */
  lemma FailedFetchOrCheckHasNoEffects(
    fetched: Result<User, Failure>, cmd: UserCommand, adminCount: Id -> int,
    providerAccepts: bool, storeOk: bool, publishOk: bool, eventStamp: Stamp, storedStamp: Stamp)
    requires fetched.Failure? || CheckPreConditions(cmd, fetched.value, adminCount).Fail?
    ensures var fx := ApplyEffects(fetched, cmd, adminCount, providerAccepts, storeOk, publishOk, eventStamp, storedStamp);
      && fx.iamRequest.None? && fx.stored.None? && fx.published.None?
      && fx.result == Failure(if fetched.Failure? then fetched.error
                              else CheckPreConditions(cmd, fetched.value, adminCount).error)
  {
  }

  /**
   * Once the checks pass, a confirm command calls the identity provider once
   * with its initial password, and if the provider fails nothing is stored;
   * a reject command calls nothing; any other command is unsupported and
   * stores nothing. When the event store then refuses the insert, the
   * provider call stays made while nothing is stored or published.
   */
  lemma SideEffectByCommandType(
    fetched: Result<User, Failure>, cmd: UserCommand, adminCount: Id -> int,
    providerAccepts: bool, storeOk: bool, publishOk: bool, eventStamp: Stamp, storedStamp: Stamp)
    requires fetched.Success? && CheckPreConditions(cmd, fetched.value, adminCount).Pass?
    ensures var fx := ApplyEffects(fetched, cmd, adminCount, providerAccepts, storeOk, publishOk, eventStamp, storedStamp);
      && (cmd.kind.ConfirmCommand? ==> fx.iamRequest == Some(IamRequest(fetched.value, cmd.kind.initialPassword)))
      && (cmd.kind.ConfirmCommand? && !providerAccepts ==>
            fx.stored.None? && fx.published.None? && fx.result == Failure(IamProviderFailed))
      && (cmd.kind.RejectCommand? ==> fx.iamRequest.None? && (fx.stored.Some? <==> storeOk))
      && (!IsPatchCommand(cmd) ==> fx == Aborted(UnsupportedOperation))
      && (IsPatchCommand(cmd) && (cmd.kind.ConfirmCommand? ==> providerAccepts) && !storeOk ==>
            fx.stored.None? && fx.published.None? && fx.result == Failure(StoreFailed))
  {
  }

  /**
   * After a command stores its event, the next read of the user sees it
   * moved to the command's target status, one version up, updated at the
   * stored event's time, and otherwise as fetched.
   */
  lemma StoredCommandIsSeenByNextRead(
    snaps: seq<SnapshotDoc>, evs: seq<StoredEvent>, cmd: UserCommand, adminCount: Id -> int,
    providerAccepts: bool, storeOk: bool, publishOk: bool, eventStamp: Stamp, storedStamp: Stamp)
    requires ApplyEffects(UserView(snaps, evs, cmd.userId), cmd, adminCount, providerAccepts,
                          storeOk, publishOk, eventStamp, storedStamp).stored.Some?
    ensures IsPatchCommand(cmd) && UserView(snaps, evs, cmd.userId).Success?
    ensures var u := UserView(snaps, evs, cmd.userId).value;
      var fx := ApplyEffects(UserView(snaps, evs, cmd.userId), cmd, adminCount, providerAccepts,
                             storeOk, publishOk, eventStamp, storedStamp);
      UserView(snaps, evs + Emitted(fx.stored), cmd.userId) ==
        Success(u.(tenantStatus := TargetStatus(cmd), version := u.version + 1, lastUpdate := storedStamp.time))
  {
    var fetched := UserView(snaps, evs, cmd.userId);
    var fx := ApplyEffects(fetched, cmd, adminCount, providerAccepts, storeOk, publishOk, eventStamp, storedStamp);
    UserViewFindsTheUser(snaps, evs, cmd.userId);
    StoredEventIsSeenByNextRead(snaps, evs, cmd.userId, fx.stored.value);
  }

  /**
   * Rejecting twice: once a reject has stored its event, a second reject of
   * the same user fails its precondition and has no effect at all.
   */
  lemma SecondRejectIsRefused(
    snaps: seq<SnapshotDoc>, evs: seq<StoredEvent>, first: UserCommand, second: UserCommand,
    adminCount: Id -> int, storeOk: bool, publishOk: bool, storeOk2: bool, publishOk2: bool,
    eventStamp: Stamp, storedStamp: Stamp, eventStamp2: Stamp, storedStamp2: Stamp)
    requires first.kind.RejectCommand? && second.kind.RejectCommand? && second.userId == first.userId
    requires ApplyEffects(UserView(snaps, evs, first.userId), first, adminCount, true,
                          storeOk, publishOk, eventStamp, storedStamp).stored.Some?
    ensures var fx := ApplyEffects(UserView(snaps, evs, first.userId), first, adminCount, true,
                                   storeOk, publishOk, eventStamp, storedStamp);
      var after := evs + Emitted(fx.stored);
      ApplyEffects(UserView(snaps, after, second.userId), second, adminCount, true,
                   storeOk2, publishOk2, eventStamp2, storedStamp2)
        == Aborted(PreConditionFailed(CannotReject(first.userId)))
  {
    StoredCommandIsSeenByNextRead(snaps, evs, first, adminCount, true, storeOk, publishOk, eventStamp, storedStamp);
    UserViewFindsTheUser(snaps, evs, first.userId);
  }

  /**
   * The lifecycle scenario: a user just added under a fresh identity, then
   * confirmed with the provider and the event store accepting, reads back
   * CONFIRMED at version 2.
   */
  lemma ConfirmAfterAddUser(
    snaps: seq<SnapshotDoc>, evs: seq<StoredEvent>, d: SnapshotDoc, cmd: UserCommand,
    adminCount: Id -> int, publishOk: bool, eventStamp: Stamp, storedStamp: Stamp)
    requires forall i :: 0 <= i < |snaps| ==> snaps[i].userId != d.userId
    requires forall i :: 0 <= i < |evs| ==> evs[i].userId != d.userId
    requires d.tenantStatus == Unconfirmed && d.providerStatus == Active && d.toVersion == 1
    requires cmd.kind.ConfirmCommand? && cmd.userId == d.userId
    ensures var fx := ApplyEffects(UserView(snaps + [d], evs, cmd.userId), cmd, adminCount, true,
                                   true, publishOk, eventStamp, storedStamp);
      && fx.stored.Some?
      && var u := UserView(snaps + [d], evs + Emitted(fx.stored), d.userId);
         u.Success? && u.value.tenantStatus == Confirmed && u.value.version == 2
  {
    AddedUserReadsBack(snaps, evs, d);
    StoredCommandIsSeenByNextRead(snaps + [d], evs, cmd, adminCount, true, true, publishOk, eventStamp, storedStamp);
  }

  /** The service: a repository and the messages published so far. */
  class UserService {
    const repo: UserRepository
    var published: seq<Message>

    constructor(repo: UserRepository)
      ensures this.repo == repo && published == []
    {
      this.repo := repo;
      published := [];
    }

    /**
     * applyCommand(command). `adminCount`, `providerAccepts`, `storeOk` and
     * `publishOk` stand for the admin-count query, the identity provider, the
     * event collection's insert and the message broker; the stamps are the
     * fresh identities and clock readings of the generated event, the stored
     * event and the event addUserEvent returns.
     */
    method ApplyCommand(
      cmd: UserCommand, adminCount: Id -> int, providerAccepts: bool, storeOk: bool, publishOk: bool,
      eventStamp: Stamp, storedStamp: Stamp, echoStamp: Stamp) returns (r: Result<User, Failure>)
      modifies this`published, repo`iamRequests, repo`events
      ensures var fx := ApplyEffects(old(UserView(repo.snapshots, repo.events, cmd.userId)), cmd, adminCount,
                                     providerAccepts, storeOk, publishOk, eventStamp, storedStamp);
        && r == fx.result
        && repo.iamRequests == old(repo.iamRequests) + Emitted(fx.iamRequest)
        && repo.events == old(repo.events) + Emitted(fx.stored)
        && published == old(published) + Emitted(fx.published)
    {
      // Fetch the user.
      var fetched := repo.GetUser(cmd.userId);
      if fetched.Failure? {
        r := Failure(fetched.error);
        return;
      }
      var theUser := fetched.value;

      // Check the command's preconditions against it.
      var check := CheckPreConditions(cmd, theUser, adminCount);
      if check.Fail? {
        r := Failure(check.error);
        return;
      }

      // Perform the command's side effect.
      match CmdType(cmd) {
        case ConfirmUser =>
          var confirmed := repo.ConfirmUser(theUser, InitialPasswordOf(cmd), providerAccepts);
          if confirmed.Failure? {
            r := Failure(confirmed.error);
            return;
          }
        case RejectUser =>
        case _ =>
          r := Failure(UnsupportedOperation);
          return;
      }

      // Store the event.
      var evt := CreateUserEvent(cmd, theUser, eventStamp).value;
      var echoed := repo.AddUserEvent(cmd.commandId, TypeOf(evt.kind), theUser, storedStamp, echoStamp, storeOk);
      if echoed.Failure? {
        r := Failure(echoed.error);
        return;
      }

      // Publish it.
      var message := Message(TopicExchangeName, RoutingKey(evt.kind), UserMessage(theUser, evt));
      if !publishOk {
        r := Failure(PublishFailed);
        return;
      }
      published := published + [message];
      r := Success(theUser);
    }
  }
}
