/**
 * The Service model (models.py, class Service): the persisted row and the
 * in-memory instance, whose get_params memoises the parsed JSON parameters and
 * whose check_access walks the parsed access rules.
 */
module Services {
  import opened Outcomes
  import opened Addresses
  import opened Messages
  import opened Access

  /** The parsed `params` JSON: its `access` list (empty when the key is missing). */
  datatype ServiceParams = ServiceParams(access: seq<AccessRule>)

  /** One row of the service table. `backend` is the primary key of the backend row, None for the meta service. */
  datatype ServiceRow = ServiceRow(slug: string, labelText: string, backend: Option<nat>, params: string, owners: set<nat>)

  /** What get_params answers, given the memoised value and the raw text. `parse` stands for json.loads. */
  function ParamsFor(cached: Option<ServiceParams>, params: string, parse: string -> Result<ServiceParams>): Result<ServiceParams> {
    if cached.Some? then Ok(cached.value) else parse(params)
  }

  /** The params_data memo after get_params: kept once set, else filled exactly when parsing succeeds. */
  function MemoAfter(cached: Option<ServiceParams>, params: string, parse: string -> Result<ServiceParams>): (m: Option<ServiceParams>)
    ensures ParamsFor(cached, params, parse).Ok? <==> m.Some?
    ensures m.Some? ==> ParamsFor(cached, params, parse) == Ok(m.value)
    ensures cached.Some? ==> m == cached
  {
    if cached.Some? then cached
    else if parse(params).Ok? then Some(parse(params).value)
    else None
  }

  /** What check_access answers for a service in a given memo state. */
  function AccessFor(
    cached: Option<ServiceParams>, params: string, parse: string -> Result<ServiceParams>,
    q: Query, text: Option<string>, search: (string, string) -> bool): Result<Decision>
  {
    var p := ParamsFor(cached, params, parse);
    if p.Err? then Err(p.error) else Decide(q, p.value.access, text, search)
  }

  class Service {
    var slug: string
    var labelText: string
    var backend: Option<nat>
    var params: string
    var owners: set<nat>
    /** `self.params_data`, absent until get_params first succeeds. */
    var paramsData: Option<ServiceParams>

    function Row(): ServiceRow
      reads this
    {
      ServiceRow(slug, labelText, backend, params, owners)
    }

    /** An instance freshly loaded from a row: nothing memoised yet. */
    constructor FromRow(row: ServiceRow)
      ensures Row() == row && paramsData.None?
    {
      slug, labelText, backend, params, owners := row.slug, row.labelText, row.backend, row.params, row.owners;
      paramsData := None;
    }

    /** Service.get_params: parse once, then answer from the memo even if `params` changed since. */
    method GetParams(parse: string -> Result<ServiceParams>) returns (r: Result<ServiceParams>)
      modifies this`paramsData
      ensures old(paramsData).Some? ==> r == Ok(old(paramsData).value) && paramsData == old(paramsData)
      ensures old(paramsData).None? ==> r == parse(params) && paramsData == (if r.Ok? then Some(r.value) else None)
      ensures paramsData == MemoAfter(old(paramsData), params, parse)
    {
      if paramsData.None? {
        var parsed := parse(params);
        if parsed.Err? {
          return parsed;
        }
        paramsData := Some(parsed.value);
      }
      return Ok(paramsData.value);
    }

    /**
     * Service.check_access: the first rule whose match_access is not 'reject'
     * decides; without text, or when throttled, its level is returned as is;
     * otherwise the reject pattern, then the moderate pattern, may override
     * 'accept'. No deciding rule: ('reject', None, always-True).
     */
    method CheckAccess(
      addr: Address, text: Option<string>, messages: seq<MessageRow>, now: int,
      parse: string -> Result<ServiceParams>, search: (string, string) -> bool)
      returns (r: Result<Decision>)
      modifies this`paramsData
      ensures r == AccessFor(old(paramsData), params, parse, Query(slug, addr, messages, now), text, search)
      ensures paramsData == old(paramsData) || (old(paramsData).None? && parse(params).Ok? && paramsData == Some(parse(params).value))
      ensures old(paramsData).None? && parse(params).Ok? ==> paramsData == Some(parse(params).value)
      ensures paramsData == MemoAfter(old(paramsData), params, parse)
    {
      var q := Query(slug, addr, messages, now);
      var p :- GetParams(parse);
      var rules := p.access;
      for i := 0 to |rules|
        invariant Decide(q, rules, text, search) == Decide(q, rules[i..], text, search)
      {
        assert rules[i..][1..] == rules[i + 1..];
        var d :- MatchAccess(q, rules[i]);
        if d.level != Reject {
          return Ok(ApplyPatterns(rules[i], d, text, search));
        }
      }
      return Ok(NoMatch);
    }
  }

  /** A non-reject answer of check_access always carries the caller's identifier. */
  lemma AccessNonRejectHasIdentifier(
    cached: Option<ServiceParams>, params: string, parse: string -> Result<ServiceParams>,
    q: Query, text: Option<string>, search: (string, string) -> bool)
    ensures var r := AccessFor(cached, params, parse, q, text, search);
      r.Ok? && r.value.level != Reject ==> r.value.ident.Some?
  {
    var p := ParamsFor(cached, params, parse);
    if p.Ok? {
      NonRejectHasIdentifier(q, p.value.access, text, search);
    }
  }

  /** Without text check_access never answers 'moderate'. */
  lemma AccessWithoutTextNeverModerates(
    cached: Option<ServiceParams>, params: string, parse: string -> Result<ServiceParams>,
    q: Query, search: (string, string) -> bool)
    ensures var r := AccessFor(cached, params, parse, q, None, search);
      r.Ok? ==> r.value.level != Moderate
  {
    var p := ParamsFor(cached, params, parse);
    if p.Ok? {
      NoTextNeverModerate(q, p.value.access, search);
    }
  }

  /**
   * A service whose parameters parse to an empty rule list still answers with
   * a full decision (reject, no identifier, trivial confirm).
   */
  lemma NoRulesStillDecides(params: string, parse: string -> Result<ServiceParams>, q: Query, text: Option<string>, search: (string, string) -> bool)
    requires parse(params) == Ok(ServiceParams([]))
    ensures AccessFor(None, params, parse, q, text, search) == Ok(NoMatch)
  {
  }
}
