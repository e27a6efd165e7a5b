/**
 * The tenant's access policy (models.py: Service.check_access, match_access,
 * extract_user_identifier). A service's `access` parameter is an ordered list
 * of rules; the first rule whose network contains the caller decides, first by
 * the throttle window, then by the reject and moderate text patterns.
 */
module Access {
  import opened Outcomes
  import opened Addresses
  import opened Messages

  datatype Level = Accept | Moderate | Throttle | Reject

  /**
   * One entry of the `access` list. `network` is None when the key is missing or
   * ipaddr cannot parse it; `throttle` is 0 when the key is missing or falsy;
   * `suffixlen` defaults to 0; `reject` and `moderate` are the patterns, when
   * present.
   */
  datatype AccessRule = AccessRule(
    network: Option<Network>,
    suffixlen: int,
    throttle: int,
    reject: Option<string>,
    moderate: Option<string>)

  /** What one request is judged against: the service, the caller's address, the message store and the clock. */
  datatype Query = Query(service: string, addr: Address, messages: seq<MessageRow>, now: int)

  /** The three values check_access returns: access level, user identifier and confirm function. */
  datatype Decision = Decision(level: Level, ident: Option<Address>, confirm: Confirm)

  const NoMatch := Decision(Reject, None, AlwaysConfirm)

  predicate InNetwork(rule: AccessRule, addr: Address) {
    rule.network.Some? && Contains(rule.network.value, addr)
  }

  /**
   * extract_user_identifier: no identifier unless the rule's network parsed and
   * contains the address; otherwise the address with its low `suffixlen` bits
   * cleared (ipaddr raises for a suffixlen outside 0..width).
   */
  function ExtractUserIdentifier(rule: AccessRule, addr: Address): (r: Result<Option<Address>>)
    ensures r == Ok(None) <==> !InNetwork(rule, addr)
    ensures r.Err? <==> InNetwork(rule, addr) && !(0 <= rule.suffixlen <= Width(addr.version))
    ensures r.Ok? && r.value.Some? ==> Supernet(addr, rule.suffixlen) == Ok(r.value.value)
    ensures InNetwork(rule, addr) && rule.suffixlen == 0 ==> r == Ok(Some(addr))
  {
    if InNetwork(rule, addr) then
      var subnet :- Supernet(addr, rule.suffixlen);
      Ok(Some(subnet))
    else
      Ok(None)
  }

  /**
   * match_access: 'reject' without an identifier; 'throttle' when the rule
   * throttles and the pre-check confirm() (no candidate) answers False, i.e.
   * the window already holds two or more messages of this identifier;
   * 'accept' otherwise.
   */
  function MatchAccess(q: Query, rule: AccessRule): (r: Result<Decision>)
    ensures r.Err? <==> ExtractUserIdentifier(rule, q.addr).Err?
    ensures r.Ok? ==> r.value.ident == ExtractUserIdentifier(rule, q.addr).value
    ensures r.Ok? ==> r.value.level != Moderate
    ensures r.Ok? ==> (r.value.level == Reject <==> r.value.ident.None?)
    ensures r.Ok? ==>
      (r.value.level == Throttle <==>
        r.value.ident.Some? && rule.throttle != 0 &&
        |Recent(q.messages, q.service, r.value.ident.value, q.now - rule.throttle)| >= 2)
    ensures r.Ok? ==>
      r.value.confirm ==
        if r.value.ident.Some? && rule.throttle != 0
        then ThrottleCheck(q.service, r.value.ident.value, q.now - rule.throttle)
        else AlwaysConfirm
  {
    var ident :- ExtractUserIdentifier(rule, q.addr);
    if ident.Some? then
      if rule.throttle != 0 then
        var confirm := ThrottleCheck(q.service, ident.value, q.now - rule.throttle);
        if RunConfirm(confirm, q.messages, None) == Ok(false) then Ok(Decision(Throttle, ident, confirm))
        else Ok(Decision(Accept, ident, confirm))
      else
        Ok(Decision(Accept, ident, AlwaysConfirm))
    else
      Ok(Decision(Reject, None, AlwaysConfirm))
  }

  /**
   * The text stage of check_access for the deciding rule: skipped without text
   * or when throttled; otherwise the reject pattern is searched first, then the
   * moderate pattern. `search` stands for `re.compile(p).search(text)`.
   */
  function ApplyPatterns(rule: AccessRule, d: Decision, text: Option<string>, search: (string, string) -> bool): (r: Decision)
    ensures r.ident == d.ident && r.confirm == d.confirm
    ensures text.None? || d.level == Throttle ==> r == d
  {
    if text.None? || d.level == Throttle then d
    else if rule.reject.Some? && search(rule.reject.value, text.value) then d.(level := Reject)
    else if rule.moderate.Some? && search(rule.moderate.value, text.value) then d.(level := Moderate)
    else d
  }

  /** The value Service.check_access computes over a list of rules: the first non-reject match decides. */
  function Decide(q: Query, rules: seq<AccessRule>, text: Option<string>, search: (string, string) -> bool): Result<Decision>
  {
    if rules == [] then Ok(NoMatch)
    else
      match MatchAccess(q, rules[0])
      case Err(e) => Err(e)
      case Ok(d) =>
        if d.level != Reject then Ok(ApplyPatterns(rules[0], d, text, search))
        else Decide(q, rules[1..], text, search)
  }

  /** A rule the loop passes over: match_access ran and answered 'reject'. */
  predicate PassedOver(q: Query, rule: AccessRule) {
    var m := MatchAccess(q, rule);
    m.Ok? && m.value.level == Reject
  }

  /** The index of the first rule the loop does not pass over, or |rules|. */
  function FirstDecisive(q: Query, rules: seq<AccessRule>): (i: nat)
    ensures i <= |rules|
    ensures forall j :: 0 <= j < i ==> PassedOver(q, rules[j])
    ensures i < |rules| ==> !PassedOver(q, rules[i])
  {
    if rules == [] || !PassedOver(q, rules[0]) then 0
    else 1 + FirstDecisive(q, rules[1..])
  }

  /**
   * check_access is decided by the first rule the loop does not pass over:
   * its error propagates, or its match refined by the text patterns is
   * returned; with no such rule the answer is ('reject', None, always-True).
   */
  lemma {:induction false} DecideIsFirstMatch(q: Query, rules: seq<AccessRule>, text: Option<string>, search: (string, string) -> bool)
    ensures var i := FirstDecisive(q, rules);
      Decide(q, rules, text, search) ==
        if i == |rules| then Ok(NoMatch)
        else match MatchAccess(q, rules[i])
          case Err(e) => Err(e)
          case Ok(d) => Ok(ApplyPatterns(rules[i], d, text, search))
  {
    if rules != [] && PassedOver(q, rules[0]) {
      DecideIsFirstMatch(q, rules[1..], text, search);
    }
  }

  /**
   * With no rule matching the caller the answer is reject with no identifier
   * and a confirm that always answers True; and that answer comes only from
   * there being no matching rule.
   */
  lemma NoMatchIffAnonymousReject(q: Query, rules: seq<AccessRule>, text: Option<string>, search: (string, string) -> bool)
    ensures Decide(q, rules, text, search) == Ok(NoMatch) <==> forall j :: 0 <= j < |rules| ==> PassedOver(q, rules[j])
    ensures (forall j :: 0 <= j < |rules| ==> PassedOver(q, rules[j])) ==>
      forall ms, obj :: RunConfirm(Decide(q, rules, text, search).value.confirm, ms, obj) == Ok(true)
  {
    DecideIsFirstMatch(q, rules, text, search);
  }

  /** Rules after the deciding one are never consulted. */
  lemma {:induction false} LaterRulesIgnored(q: Query, rules: seq<AccessRule>, more: seq<AccessRule>, text: Option<string>, search: (string, string) -> bool)
    requires FirstDecisive(q, rules) < |rules|
    ensures Decide(q, rules + more, text, search) == Decide(q, rules, text, search)
  {
    assert (rules + more)[0] == rules[0];
    if PassedOver(q, rules[0]) {
      assert (rules + more)[1..] == rules[1..] + more;
      LaterRulesIgnored(q, rules[1..], more, text, search);
    }
  }

  /** Any non-reject answer carries the caller's identifier. */
  lemma NonRejectHasIdentifier(q: Query, rules: seq<AccessRule>, text: Option<string>, search: (string, string) -> bool)
    ensures var r := Decide(q, rules, text, search);
      r.Ok? && r.value.level != Reject ==> r.value.ident.Some?
  {
    DecideIsFirstMatch(q, rules, text, search);
  }

  /** Without text the answer is never 'moderate'. */
  lemma NoTextNeverModerate(q: Query, rules: seq<AccessRule>, search: (string, string) -> bool)
    ensures var r := Decide(q, rules, None, search);
      r.Ok? ==> r.value.level != Moderate
  {
    DecideIsFirstMatch(q, rules, None, search);
  }

  /** A throttle answer is returned as soon as it is found, whether or not text was given. */
  lemma ThrottleIgnoresText(q: Query, rules: seq<AccessRule>, text: Option<string>, search: (string, string) -> bool)
    requires Decide(q, rules, None, search).Ok? && Decide(q, rules, None, search).value.level == Throttle
    ensures Decide(q, rules, text, search) == Decide(q, rules, None, search)
  {
    DecideIsFirstMatch(q, rules, None, search);
    DecideIsFirstMatch(q, rules, text, search);
  }

  /**
   * With text and an accepting rule, a matching reject pattern wins over a
   * matching moderate pattern; a moderate pattern applies only when the reject
   * pattern is absent or does not match; with neither the level stays 'accept'.
   */
  lemma PatternOrder(rule: AccessRule, d: Decision, text: string, search: (string, string) -> bool)
    requires d.level == Accept
    ensures var r := ApplyPatterns(rule, d, Some(text), search);
      var rejects := rule.reject.Some? && search(rule.reject.value, text);
      var moderates := rule.moderate.Some? && search(rule.moderate.value, text);
      && (r.level == Reject <==> rejects)
      && (r.level == Moderate <==> !rejects && moderates)
      && (r.level == Accept <==> !rejects && !moderates)
  {
  }

  /**
   * The throttle pre-check lets a second message through: with exactly one
   * message of the identifier in the window, a matching throttling rule still
   * answers 'accept'.
   */
  lemma OneRecentMessageStillAccepted(q: Query, rule: AccessRule)
    requires InNetwork(rule, q.addr) && rule.suffixlen == 0 && rule.throttle != 0
    requires |Recent(q.messages, q.service, q.addr, q.now - rule.throttle)| == 1
    ensures MatchAccess(q, rule).Ok? && MatchAccess(q, rule).value.level == Accept
  {
  }
}
