/**
 * Stored messages (models.py, class Message) and the throttle "confirm"
 * closure built by match_access, here an explicit value: the service, the
 * caller's identifier and the time threshold it captured.
 */
module Messages {
  import opened Outcomes
  import opened Addresses

  /**
   * One row of the message table. `id` is the primary key; `service` is the
   * owning service's slug; `published` is the flag the publish view sets on
   * the instance before saving.
   */
  datatype MessageRow = MessageRow(
    id: nat,
    service: string,
    timestamp: int,
    identifier: Address,
    text: string,
    closed: bool,
    approved: Option<bool>,
    published: bool,
    backend: Option<nat>,
    backendData: string)

  predicate InWindow(m: MessageRow, service: string, ident: Address, threshold: int) {
    m.service == service && m.identifier == ident && m.timestamp > threshold
  }

  /**
   * `Message.filter_service(service)` narrowed to `user_identifier=ident,
   * timestamp__gt=threshold`, in store order.
   */
  function Recent(ms: seq<MessageRow>, service: string, ident: Address, threshold: int): (r: seq<MessageRow>)
    ensures |r| <= |ms|
    ensures forall m :: m in r <==> m in ms && InWindow(m, service, ident, threshold)
  {
    if ms == [] then []
    else
      (if InWindow(ms[0], service, ident, threshold) then [ms[0]] else [])
      + Recent(ms[1..], service, ident, threshold)
  }

  lemma {:induction false} RecentAppend(ms: seq<MessageRow>, m: MessageRow, service: string, ident: Address, threshold: int)
    ensures Recent(ms + [m], service, ident, threshold)
         == Recent(ms, service, ident, threshold) + (if InWindow(m, service, ident, threshold) then [m] else [])
  {
    if ms == [] {
      assert ms + [m] == [m];
    } else {
      assert (ms + [m])[1..] == ms[1..] + [m];
      RecentAppend(ms[1..], m, service, ident, threshold);
    }
  }

  /**
   * The confirm function returned with an access decision: either the trivial
   * `lambda obj: True`, or the throttle re-check bound to a service, an
   * identifier and the threshold `now - throttle`.
   */
  datatype Confirm =
    | AlwaysConfirm
    | ThrottleCheck(service: string, ident: Address, threshold: int)

  /**
   * Calls a confirm function against the current store, optionally with the
   * primary key of the message just placed. The `.get()` query returns the
   * single match, raises MultipleObjectsReturned (answer False) or
   * ObjectDoesNotExist (an anomaly when a message was given). For the
   * throttle check `obj == None` is a call without argument (its default);
   * the trivial `lambda obj: True` has no default, so there `obj == None`
   * stands for passing None explicitly (calling it with no argument would
   * raise TypeError, which nothing in the core does).
   */
  function RunConfirm(c: Confirm, ms: seq<MessageRow>, obj: Option<nat>): (r: Result<bool>)
    ensures c.AlwaysConfirm? ==> r == Ok(true)
    ensures obj.None? ==> r.Ok?
    ensures c.ThrottleCheck? ==>
      var found := Recent(ms, c.service, c.ident, c.threshold);
      && (r == Ok(false) <==> |found| >= 2)
      && (r == Ok(true) <==> |found| <= 1 && (obj.Some? ==> |found| == 1 && found[0].id == obj.value))
  {
    match c
    case AlwaysConfirm => Ok(true)
    case ThrottleCheck(service, ident, threshold) =>
      var found := Recent(ms, service, ident, threshold);
      if |found| >= 2 then Ok(false)
      else if |found| == 0 then
        if obj.Some? then Err(ThrottleMissingExpected) else Ok(true)
      else if obj.Some? && found[0].id != obj.value then Err(ThrottleUnexpectedReturned)
      else Ok(true)
  }

  /** Without a candidate message, confirm never raises and answers "at most one match". */
  lemma ConfirmWithoutCandidate(c: Confirm, ms: seq<MessageRow>)
    requires c.ThrottleCheck?
    ensures RunConfirm(c, ms, None) == Ok(|Recent(ms, c.service, c.ident, c.threshold)| <= 1)
  {
  }

  /** With two or more matches confirm answers False, whatever candidate it is given. */
  lemma ConfirmTwoMatchesRejects(c: Confirm, ms: seq<MessageRow>, obj: Option<nat>)
    requires c.ThrottleCheck?
    requires |Recent(ms, c.service, c.ident, c.threshold)| >= 2
    ensures RunConfirm(c, ms, obj) == Ok(false)
  {
  }

  /**
   * Confirm raises exactly when a candidate is given and the window holds no
   * message, or holds one message that is not the candidate.
   */
  lemma ConfirmAnomaly(c: Confirm, ms: seq<MessageRow>, obj: Option<nat>)
    requires c.ThrottleCheck?
    ensures RunConfirm(c, ms, obj).Err? <==>
      var found := Recent(ms, c.service, c.ident, c.threshold);
      obj.Some? && (|found| == 0 || (|found| == 1 && found[0].id != obj.value))
  {
  }

  /**
   * The intended use: with no earlier message in the window, placing a
   * message `m` that falls in the window and then confirming with `m`
   * answers True.
   */
  lemma {:induction false} ConfirmAfterPlacing(c: Confirm, ms: seq<MessageRow>, m: MessageRow)
    requires c.ThrottleCheck?
    requires Recent(ms, c.service, c.ident, c.threshold) == []
    requires InWindow(m, c.service, c.ident, c.threshold)
    ensures RunConfirm(c, ms + [m], Some(m.id)) == Ok(true)
  {
    RecentAppend(ms, m, c.service, c.ident, c.threshold);
  }

  /**
   * Placing a second message in the window of an identifier that already has
   * one makes confirm answer False: the race confirm is meant to catch.
   */
  lemma {:induction false} ConfirmCatchesSecondMessage(c: Confirm, ms: seq<MessageRow>, m: MessageRow)
    requires c.ThrottleCheck?
    requires |Recent(ms, c.service, c.ident, c.threshold)| == 1
    requires InWindow(m, c.service, c.ident, c.threshold)
    ensures RunConfirm(c, ms + [m], Some(m.id)) == Ok(false)
  {
    RecentAppend(ms, m, c.service, c.ident, c.threshold);
  }
}
