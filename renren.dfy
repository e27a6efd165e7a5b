/**
 * The renren backend (backends/renren.py). A client keeps the logged-in
 * profile url, shared through the process cache under one fixed key; logging
 * in needs a captcha. Publishing submits the text once and, if that fails, logs
 * in again by force and submits one more time.
 *
 * Browser sessions are oracles: `login(k)` is what a login attempt made by the
 * k-th get_url call of a publish would yield (None: an exception), and
 * `submitOk(k)` whether the k-th submission reached the success page.
 */
module Renren {
  import opened Outcomes
  import opened BackendStatus

  const UrlCacheKey: string := "multitreehole_backend_renren_url"
  const LoginErrorText: string := "Renren login error. Incorrect captcha?"
  const PublishErrorText: string := "Renren publishing error. Message rejected there?"

  /** Django's cache: one map for the whole process; entry expiry is not modelled. */
  class Cache {
    var entries: map<string, Option<string>>

    constructor ()
      ensures entries == map[]
    {
      entries := map[];
    }

    /** cache.get(key): None when the key is absent. */
    function Get(key: string): Option<string>
      reads this
    {
      if key in entries then entries[key] else None
    }

    method Set(key: string, value: Option<string>)
      modifies this
      ensures entries == old(entries)[key := value]
    {
      entries := entries[key := value];
    }
  }

  /** The `username`, `password` and `base-url` keys of a renren backend's parameters. */
  datatype Credentials = Credentials(username: string, password: string, baseUrl: string)

  /** RenrenBackend.make_client's parameter extraction; a missing key raises KeyError, checked in this order. */
  function ClientParams(params: map<string, string>): (r: Result<Credentials>)
    ensures r.Ok? <==> "username" in params && "password" in params && "base-url" in params
    ensures r.Ok? ==>
      r.value.username == params["username"] && r.value.password == params["password"]
      && r.value.baseUrl == params["base-url"]
    ensures r.Err? ==> r.error.KeyMissing? && r.error.key !in params
  {
    if "username" !in params then Err(KeyMissing("username"))
    else if "password" !in params then Err(KeyMissing("password"))
    else if "base-url" !in params then Err(KeyMissing("base-url"))
    else Ok(Credentials(params["username"], params["password"], params["base-url"]))
  }

  /** One get_url call as a value: the url it returns, the cached url afterwards, and whether it logged in. */
  datatype Lookup = Lookup(result: Option<string>, cached: Option<string>, attempted: bool)

  /**
   * RenrenClient.get_url over the cached url: log in only when nothing is
   * cached (or `force`) and both captcha fields are non-empty.
   */
  function GetUrlStep(cached: Option<string>, force: bool, captchaKey: string, captcha: string, login: Option<string>): (r: Lookup)
    ensures r.result == r.cached || (r.attempted && r.result.None? && r.cached == cached)
    ensures r.cached != cached ==> r.attempted && r.cached == login && login.Some?
  {
    if (cached.None? || force) && captchaKey != "" && captcha != "" then
      if login.Some? then Lookup(login, login, true) else Lookup(None, cached, true)
    else
      Lookup(cached, cached, false)
  }

  /** Without a login attempt get_url returns the cached url and leaves the cache alone. */
  lemma NoAttemptReturnsCache(cached: Option<string>, force: bool, captchaKey: string, captcha: string, login: Option<string>)
    ensures var s := GetUrlStep(cached, force, captchaKey, captcha, login);
      && (s.attempted <==> (cached.None? || force) && captchaKey != "" && captcha != "")
      && (!s.attempted ==> s.result == cached && s.cached == cached)
  {
  }

  /** A failed login returns None and does not write the cache; a successful one caches and returns the new url. */
  lemma LoginOutcome(cached: Option<string>, force: bool, captchaKey: string, captcha: string, login: Option<string>)
    requires (cached.None? || force) && captchaKey != "" && captcha != ""
    ensures login.None? ==> GetUrlStep(cached, force, captchaKey, captcha, login) == Lookup(None, cached, true)
    ensures login.Some? ==> GetUrlStep(cached, force, captchaKey, captcha, login) == Lookup(login, login, true)
  {
  }

  class RenrenClient {
    const pk: nat
    const username: string
    const password: string
    const baseUrl: string
    /** The process-wide cache every client reads and writes under UrlCacheKey. */
    const cache: Cache
    var url: Option<string>

    constructor (pk: nat, creds: Credentials, cache: Cache)
      ensures this.pk == pk && username == creds.username && password == creds.password
      ensures baseUrl == creds.baseUrl && this.cache == cache && url.None?
    {
      this.pk := pk;
      username, password, baseUrl := creds.username, creds.password, creds.baseUrl;
      this.cache := cache;
      url := None;
    }

    method LoadCache()
      modifies this`url
      ensures url == cache.Get(UrlCacheKey)
    {
      url := cache.Get(UrlCacheKey);
    }

    method SaveCache()
      modifies cache
      ensures cache.entries == old(cache.entries)[UrlCacheKey := url]
    {
      cache.Set(UrlCacheKey, url);
    }

    /** RenrenClient.get_url; `login` is what the browser login would yield if attempted. */
    method GetUrl(force: bool, captchaKey: string, captcha: string, login: Option<string>) returns (r: Option<string>)
      modifies this`url, cache
      ensures var s := GetUrlStep(old(cache.Get(UrlCacheKey)), force, captchaKey, captcha, login);
        && r == s.result
        && url == s.cached
        && cache.entries == if s.attempted && login.Some? then old(cache.entries)[UrlCacheKey := login] else old(cache.entries)
    {
      LoadCache();
      if (url.None? || force) && captchaKey != "" && captcha != "" {
        if login.None? {
          return None;
        }
        url := login;
        SaveCache();
      }
      return url;
    }
  }

  /**
   * RenrenBackend.make_client: decode the JSON parameters (`decode` stands for
   * json.loads) and build a client over the shared cache.
   */
  method MakeClient(pk: nat, params: string, decode: string -> Result<map<string, string>>, cache: Cache)
    returns (r: Result<RenrenClient>)
    ensures decode(params).Err? ==> r == Err(decode(params).error)
    ensures decode(params).Ok? ==>
      && (r.Ok? <==> ClientParams(decode(params).value).Ok?)
      && (r.Err? ==> r.error == ClientParams(decode(params).value).error)
      && (r.Ok? ==> Credentials(r.value.username, r.value.password, r.value.baseUrl) == ClientParams(decode(params).value).value)
    ensures r.Ok? ==> fresh(r.value) && r.value.pk == pk && r.value.cache == cache && r.value.url.None?
  {
    var obj :- decode(params);
    var creds :- ClientParams(obj);
    var client := new RenrenClient(pk, creds, cache);
    return Ok(client);
  }

  /** One get_url call made by publish: whether it was forced, and what it returned. */
  datatype UrlCall = UrlCall(force: bool, result: Option<string>)

  /** One submission of the status text to a profile url, and whether the success page was reached. */
  datatype Submission = Submission(url: string, ok: bool)

  /** The outcome of RenrenMessage.publish: the status dict, the calls made in order, and the cached url left behind. */
  datatype PublishRun = PublishRun(status: Status, lookups: seq<UrlCall>, submits: seq<Submission>, cached: Option<string>)

  function FormsStatus(form: CaptchaForm, captchaError: bool): Status {
    Status(Some([LoginCaptchaForm(form, captchaError)]), None, None)
  }

  const DataStatus: Status := Status(None, None, Some(""))
  const ErrorStatus: Status := Status(None, Some(PublishErrorText), None)

  /**
   * The part of publish once a url is known: submit; on failure validate the
   * login form, force a fresh login (the `call`-th get_url call) and submit a
   * second and last time.
   */
  function SubmitPhase(url: string, form: CaptchaForm, lookups: seq<UrlCall>, cached: Option<string>,
                       call: nat, login: nat -> Option<string>, submitOk: nat -> bool): (r: PublishRun)
    ensures 1 <= |r.submits| <= 2 && r.submits[0].url == url
    ensures |lookups| <= |r.lookups| <= |lookups| + 1 && r.lookups[..|lookups|] == lookups
    ensures r.cached == cached || (r.cached == login(call) && r.cached.Some?)
  {
    if submitOk(0) then PublishRun(DataStatus, lookups, [Submission(url, true)], cached)
    else
      var failed := [Submission(url, false)];
      if form.InvalidCaptchaForm? then PublishRun(FormsStatus(form, false), lookups, failed, cached)
      else
        var l := GetUrlStep(cached, true, form.captchaKey, form.captcha, login(call));
        var looked := lookups + [UrlCall(true, l.result)];
        if l.result.None? then PublishRun(FormsStatus(form, true), looked, failed, l.cached)
        else PublishRun(if submitOk(1) then DataStatus else ErrorStatus, looked, failed + [Submission(l.result.value, submitOk(1))], l.cached)
  }

  /**
   * RenrenMessage.publish from a given cached url and the login form bound to
   * the POST data (every make_form() of one request binds the same data).
   */
  function PublishSpec(cached: Option<string>, form: CaptchaForm, login: nat -> Option<string>, submitOk: nat -> bool): (r: PublishRun)
    ensures r.cached == cached || (r.cached in {login(1), login(2)} && r.cached.Some?)
  {
    var l0 := GetUrlStep(cached, false, "", "", login(0));
    var lookups := [UrlCall(false, l0.result)];
    if l0.result.Some? then SubmitPhase(l0.result.value, form, lookups, l0.cached, 1, login, submitOk)
    else if form.InvalidCaptchaForm? then PublishRun(FormsStatus(form, false), lookups, [], l0.cached)
    else
      var l1 := GetUrlStep(l0.cached, false, form.captchaKey, form.captcha, login(1));
      var lookups1 := lookups + [UrlCall(false, l1.result)];
      if l1.result.None? then PublishRun(FormsStatus(form, true), lookups1, [], l1.cached)
      else SubmitPhase(l1.result.value, form, lookups1, l1.cached, 2, login, submitOk)
  }

  /** The first get_url call carries no captcha, so it never logs in: it answers the cached url. */
  lemma FirstLookupIsCache(cached: Option<string>, form: CaptchaForm, login: nat -> Option<string>, submitOk: nat -> bool)
    ensures var run := PublishSpec(cached, form, login, submitOk);
      1 <= |run.lookups| <= 3 && run.lookups[0] == UrlCall(false, cached)
  {
  }

  /**
   * Publish submits at most twice. A second submission follows a failed first
   * one and a forced get_url that returned the url submitted to; a forced
   * get_url is made only after a failed submission.
   */
  lemma AtMostOneRetry(cached: Option<string>, form: CaptchaForm, login: nat -> Option<string>, submitOk: nat -> bool)
    ensures var run := PublishSpec(cached, form, login, submitOk);
      && |run.submits| <= 2
      && (|run.submits| == 2 ==>
            !run.submits[0].ok && run.lookups[|run.lookups| - 1] == UrlCall(true, Some(run.submits[1].url)))
      && (forall k :: 0 <= k < |run.lookups| && run.lookups[k].force ==>
            k == |run.lookups| - 1 && |run.submits| >= 1 && !run.submits[0].ok)
  {
  }

  /**
   * 'data' is returned exactly when some submission succeeded, 'error' exactly
   * when two submissions were made and both failed, and 'forms' otherwise.
   */
  lemma PublishOutcomes(cached: Option<string>, form: CaptchaForm, login: nat -> Option<string>, submitOk: nat -> bool)
    ensures var run := PublishSpec(cached, form, login, submitOk);
      && (run.status == DataStatus <==> exists k :: 0 <= k < |run.submits| && run.submits[k].ok)
      && (run.status == ErrorStatus <==> |run.submits| == 2 && !run.submits[0].ok && !run.submits[1].ok)
      && (run.status.forms.Some? <==> run.status != DataStatus && run.status != ErrorStatus)
  {
    var run := PublishSpec(cached, form, login, submitOk);
    if run.status == DataStatus {
      assert run.submits[|run.submits| - 1].ok;
    }
  }

  /**
   * The form comes back with the captcha error marked exactly when a get_url
   * call that could log in (any after the first) returned None; it comes back
   * unmarked only when the form itself is invalid.
   */
  lemma LoginFailureMarksForm(cached: Option<string>, form: CaptchaForm, login: nat -> Option<string>, submitOk: nat -> bool)
    ensures var run := PublishSpec(cached, form, login, submitOk);
      && (run.status == FormsStatus(form, true) <==>
            exists k :: 1 <= k < |run.lookups| && run.lookups[k].result.None?)
      && (run.status == FormsStatus(form, false) ==> form.InvalidCaptchaForm?)
  {
    var run := PublishSpec(cached, form, login, submitOk);
    if run.status == FormsStatus(form, true) {
      assert |run.lookups| >= 2 && run.lookups[|run.lookups| - 1].result.None?;
    }
  }

  /** Nothing cached and an invalid login form: the form is handed back and nothing is submitted. */
  lemma NoCacheInvalidFormAsksForForm(form: CaptchaForm, login: nat -> Option<string>, submitOk: nat -> bool)
    requires form.InvalidCaptchaForm?
    ensures PublishSpec(None, form, login, submitOk) == PublishRun(FormsStatus(form, false), [UrlCall(false, None)], [], None)
  {
  }

  /** With a url cached and a first submission that succeeds, no login form is consulted and the cache is kept. */
  lemma CachedUrlPublishesDirectly(url: string, form: CaptchaForm, login: nat -> Option<string>, submitOk: nat -> bool)
    requires submitOk(0)
    ensures PublishSpec(Some(url), form, login, submitOk) ==
      PublishRun(DataStatus, [UrlCall(false, Some(url))], [Submission(url, true)], Some(url))
  {
  }

  class RenrenMessage {
    const client: RenrenClient
    const text: string

    /** RenrenClient.make_message. */
    constructor (client: RenrenClient, text: string)
      ensures this.client == client && this.text == text
    {
      this.client := client;
      this.text := text;
    }

    /**
     * RenrenMessage.publish: `form` is the login form bound to the request's
     * POST data. Runs as PublishSpec from the cached url says and leaves the
     * cache, and the client's own url, holding the url that run cached, every
     * other cache entry untouched.
     */
    method Publish(form: CaptchaForm, login: nat -> Option<string>, submitOk: nat -> bool)
      returns (status: Status, lookups: seq<UrlCall>, submits: seq<Submission>)
      modifies client, client.cache
      ensures var run := PublishSpec(old(client.cache.Get(UrlCacheKey)), form, login, submitOk);
        && status == run.status && lookups == run.lookups && submits == run.submits
        && client.cache.Get(UrlCacheKey) == run.cached && client.url == run.cached
        && (forall k :: k != UrlCacheKey && k in old(client.cache.entries) ==>
              k in client.cache.entries && client.cache.entries[k] == old(client.cache.entries)[k])
        && client.cache.entries.Keys <= old(client.cache.entries).Keys + {UrlCacheKey}
    {
      var url := client.GetUrl(false, "", "", login(0));
      lookups, submits := [UrlCall(false, url)], [];
      var calls := 1;
      var made := false;
      if url.None? {
        made := true;
        if form.InvalidCaptchaForm? {
          return FormsStatus(form, false), lookups, submits;
        }
        url := client.GetUrl(false, form.captchaKey, form.captcha, login(calls));
        lookups := lookups + [UrlCall(false, url)];
        calls := calls + 1;
        if url.None? {
          return FormsStatus(form, true), lookups, submits;
        }
      }
      if submitOk(0) {
        submits := submits + [Submission(url.value, true)];
        return DataStatus, lookups, submits;
      }
      submits := submits + [Submission(url.value, false)];
      if !made {
        made := true;
        if form.InvalidCaptchaForm? {
          return FormsStatus(form, false), lookups, submits;
        }
      }
      url := client.GetUrl(true, form.captchaKey, form.captcha, login(calls));
      lookups := lookups + [UrlCall(true, url)];
      if url.None? {
        return FormsStatus(form, true), lookups, submits;
      }
      submits := submits + [Submission(url.value, submitOk(1))];
      status := if submitOk(1) then DataStatus else ErrorStatus;
    }
  }
}
