# multitreehole in Dafny

A model of the core of multitreehole: a multi-tenant anonymous message board. Each tenant, a *service*, is addressed by the first label of the request's host. It judges every submitter by an ordered list of access rules (accept, moderate, throttle or reject). It republishes accepted messages through a pluggable *backend*. One service without a backend, the *meta* service, lists the others.

The model covers the following parts, with these properties proved:

- **Hosts** (`hosts.dfy`): the slug pattern and `split_request_host` / `build_host`. The split is unique, and so is the host round trip.
- **Addresses** (`addresses.dfy`): IPv4/IPv6 addresses as naturals of width 32/128. Network membership and
  `supernet` masking are defined by repeated halving. Masking lands in the block below the address, and it is idempotent.
- **Messages** (`messages.dfy`): the message rows. The throttle `confirm` closure becomes a value (service, identifier, threshold). Its three outcomes are True, False, and the two anomaly errors.
- **Access** (`access.dfy`): `extract_user_identifier`, `match_access` and the first-match rule walk of
  `check_access` as a recursive specification. Lemmas cover first match, later rules ignored, the anonymous reject, throttle short-circuit and pattern order.
- **Services** (`services.dfy`): the `Service` instance as a class. Its `params_data` memo is updated in place by `GetParams`. `CheckAccess` runs the `for` loop with early returns and is proved equal to the specification.
- **Registry** (`registry.dfy`): `load_backend`'s split at the last dot, including Python's `rfind == -1` slicing. It also has the ordered `get_backends` loop and the first-match `get_backend_or_404` loop.
- **Renren** (`renren.dfy`, `backend_status.dfy`): the process-wide cache, the client's `url` state machine and `make_client`. `publish` is modelled in two forms:
  - a method updating the client and cache;
  - a specification function recording the get_url calls and the submissions.

  Lemmas about the specification function prove at most one retry and when data, error or forms are returned.
- **Views** (`views.dfy`): a `Site` class holding the service, backend and message tables. Each view is a method over it:
  - `create`, `CreateServiceView.post`, `ConfigView.post` and `ConfigBackendView.post`, proved to keep the store invariant. The invariant is: unique slugs, at most one meta service, and only backend references that exist.
  - the corrected `PublishView` methods and the `main` that routes to them, proved equal to `GetSpec` / `PostSpec`. Lemmas about those two functions prove which message, if any, is saved. `main` and the publish methods as written are modelled beside them (see Findings).
  - the `owner_expected` gate, `go_service` and `go`.

Oracles stand in for I/O:
- `json.loads` is a `parse`/`decode` function parameter.
- `re.search` is a `search` predicate.
- The clock is `now`, an integer number of seconds.
- The caller's address is an `Address` value.
- The backend's answer to the publish view is a `Result<Status>` input.
- The renren browser's login and submission results are the functions `login(k)` and `submitOk(k)`, indexed by the call's position within one publish.

### Where the code and its own documentation differ (the model follows the code)
- The throttle pre-check in `match_access` calls `confirm()` without a message. With exactly one earlier message of the identifier in the window, that call answers True, so the second message in the window is accepted. Only a third message is throttled. The docstring of `check_access` (models.py:78-79) says to call `confirm` after a message is placed, to confirm access for throttling. Used that way, one earlier message in the window plus the new one makes two, and `confirm` answers False (`Messages.ConfirmCatchesSecondMessage`). `Access.OneRecentMessageStillAccepted` records the pre-check's behaviour.
- The views never call `confirm` after saving a message, so the model has no confirm-after-placing step. `Messages.ConfirmAfterPlacing` states what the closure would answer if it were called.
- The views set `published` on a `Message`, but the model class does not declare that field. Here `published` is a column of `MessageRow`. In the code it is a plain attribute on the instance, so Django's `save()` never stores it; the column records what the views evidently mean to keep.
- The renren login cache uses one global key for every tenant (`Renren.UrlCacheKey`). All clients share one `Cache`.
- The slug pattern ends in Python's `$`, which also matches before a final newline. `Hosts.IsSlug` accepts one trailing `\n`.
- `load_backend` on a path without a dot slices with index -1. The module then loses its last character, and the attribute is the whole path (`Registry.SplitPath`). An empty module name makes `import_module` raise ValueError, reported as the backend-list error. A module name starting with '.' makes `import_module` raise TypeError, which `load_backend` does not catch.

## Model

| member | source | states |
|---|---|---|
| Hosts.IsSlug | models.py:26 | SLUG_RE.match: one alphanumeric, or alphanumerics and dashes between alphanumeric ends, with one optional trailing newline; a slug is non-empty, starts alphanumeric and holds no '.' or '/' |
| Hosts.SplitOnce | models.py:38 | `split('.', 1)` gives one or two pieces; the first has no dot; they join back to the input |
| Hosts.SplitRequestHost | models.py:36-45 | Http404 exactly when the first label is not a slug; otherwise slug + suffix == host, the slug has no dot, and the suffix is empty or starts with a dot |
| Hosts.DecompositionIsUnique | models.py:38-45 | any dot-free label with an empty or dot-led suffix that concatenates to the host is the (Label, Suffix) split, so the split is unique |
| Hosts.BuildHost | models.py:56-57 | Http404 exactly when the request host's label is not a slug; otherwise slug + the host's suffix, which is the host itself for its own slug |
| Addresses.ClearLowBounds | models.py:140 | clearing the low k bits gives the start of the aligned block holding the address: start <= a < start + 2^k |
| Addresses.ClearLowIdempotent | models.py:140 | masking an already masked address changes nothing |
| Addresses.Supernet | models.py:140 | ValueError exactly when suffixlen is outside 0..width; otherwise the same version, the block start at or below the address within 2^suffixlen, aligned, a valid address, and the address itself for suffixlen 0 |
| Addresses.Contains | models.py:139 | `address in network` exactly when the versions agree and the address lies between the network address and the broadcast address: start <= a < start + 2^(width - prefixlen) |
| Addresses.AlignedBlock | models.py:139 | an address lies in ip's aligned 2^k block exactly when clearing its low k bits gives the block's start |
| Messages.Recent | models.py:114-117 | the window query keeps exactly the store's messages of this service and identifier newer than the threshold |
| Messages.RecentAppend | models.py:114-117 | the window of a store with one more message is the old window plus that message when it falls in the window |
| Messages.RunConfirm | models.py:112-126 | the trivial confirm answers True; the throttle confirm answers False exactly with two or more matches, and True exactly with at most one match that, when a message is given, is that message; without a message it never raises |
| Messages.ConfirmWithoutCandidate | models.py:112-127 | confirm() with no message answers whether the window holds at most one message |
| Messages.ConfirmTwoMatchesRejects | models.py:122-123 | two or more matches answer False whatever message is given |
| Messages.ConfirmAnomaly | models.py:118-125 | confirm raises exactly when a message is given and the window is empty or holds one other message |
| Messages.ConfirmAfterPlacing | models.py:112-126 | with an empty window, placing a message in it and confirming with it answers True |
| Messages.ConfirmCatchesSecondMessage | models.py:112-126 | with one message already in the window, placing a second and confirming answers False |
| Access.ExtractUserIdentifier | models.py:132-142 | None exactly when the rule's network is missing or unparsable or does not contain the address; an error exactly for an out-of-range suffixlen; otherwise the supernet of the address, the address itself for suffixlen 0 |
| Access.MatchAccess | models.py:99-130 | errors exactly when extraction does; never moderate; reject exactly without identifier; throttle exactly with an identifier and non-zero throttle when two or more messages are in the window; the confirm returned is bound to the window |
| Access.ApplyPatterns | models.py:84-96 | keeps the identifier and confirm; no text or a throttle level leaves the answer unchanged |
| Access.Decide | models.py:81-97 | specification of the rule walk: the first rule with a non-reject match decides (its error, or its match refined by the patterns), else (reject, None, trivial confirm); its properties are the lemmas below |
| Access.FirstDecisive | models.py:81-83 | the index of the first rule not passed over; every earlier rule was passed over |
| Access.DecideIsFirstMatch | models.py:81-97 | check_access is decided by the first non-reject rule (its error, or its match refined by the patterns), else reject with no identifier |
| Access.NoMatchIffAnonymousReject | models.py:81-97 | the answer is (reject, None, trivial confirm) exactly when every rule was passed over, and that confirm answers True on every store and message |
| Access.LaterRulesIgnored | models.py:81-96 | rules after the deciding one never change the answer |
| Access.NonRejectHasIdentifier | models.py:81-97 | every non-reject answer carries an identifier |
| Access.NoTextNeverModerate | models.py:84-85 | without text the answer is never moderate |
| Access.ThrottleIgnoresText | models.py:84-85 | a throttle answer is the same with or without text |
| Access.PatternOrder | models.py:87-96 | for an accepting rule: reject exactly when the reject pattern matches; moderate exactly when it does not and the moderate pattern does; accept exactly when neither matches |
| Access.OneRecentMessageStillAccepted | models.py:127-129 | with exactly one message of the caller in the window, a throttling rule still answers accept |
| Services.Service.GetParams | models.py:62-65 | answers from the memo once set, even if params changed; otherwise parses and memoises on success only |
| Services.MemoAfter | models.py:62-65 | the memo after get_params: kept once set, otherwise filled exactly when parsing succeeds, holding the rules get_params answers |
| Services.Service.CheckAccess | models.py:81-97 | the loop's answer is the first-match specification over the memoised or freshly parsed rules; the memo is kept once set and filled exactly when parsing succeeds, as get_params does |
| Services.AccessNonRejectHasIdentifier | models.py:67-97 | any non-reject access answer carries an identifier |
| Services.AccessWithoutTextNeverModerates | models.py:72-73 | without text check_access never answers moderate |
| Services.NoRulesStillDecides | models.py:97 | a service whose params have no rules still answers the full three-value reject |
| Registry.RFind | utils.py:8 | the index of the last dot, or -1 when there is none |
| Registry.SplitPath | utils.py:8-9 | the attribute never holds a dot; a dotted path is module + '.' + attr; a dot-free path loses its last character as the module and is itself the attribute |
| Registry.BackendPath | views.py:92 | the stored path module + '.' + ClassName splits back into (module, ClassName) when the class name has no dot |
| Registry.LoadBackend | utils.py:7-20 | succeeds exactly when the module name is non-empty, not relative, importable and defines the attribute, and loads that class; a relative module name raises TypeError; every other failure is ImproperlyConfigured |
| Registry.LoadStoredBackend | utils.py:7-20 | the path stored for a registered class loads that class back |
| Registry.GetBackends | utils.py:22-26 | one loaded backend per configured path in configuration order, or the error of the first failing path |
| Registry.LookupBackend | utils.py:28-33 | specification of get_backend_or_404 over a list of paths: a found backend has the slug and is what some path loads; an error other than Http404 is what some path's load raised |
| Registry.GetBackendOr404 | utils.py:28-33 | the first configured backend whose slug matches, loading paths in order; a load error on the way propagates; Http404 exactly when every path loads with another slug |
| Renren.ClientParams | backends/renren.py:22 | a client's credentials exactly when username, password and base-url are all present; otherwise a KeyError naming a missing key |
| Renren.MakeClient | backends/renren.py:20-23 | a decoding error propagates; otherwise a fresh client with the pk, the shared cache, no url and the three credentials, or the KeyError |
| Renren.RenrenClient.LoadCache | backends/renren.py:35-36 | url becomes the cached value under the global key |
| Renren.RenrenClient.SaveCache | backends/renren.py:38-41 | the global key now holds url; other entries are kept |
| Renren.RenrenClient.GetUrl | backends/renren.py:48-67 | returns what GetUrlStep says for the cached url; the cache is written only by a successful login |
| Renren.GetUrlStep | backends/renren.py:48-67 | one get_url call: it returns the url it leaves cached, except a failed login, which returns None and keeps the cache; the cache changes only to a url a login returned |
| Renren.NoAttemptReturnsCache | backends/renren.py:49-50 | a login is attempted exactly when (nothing cached or forced) and both captcha fields are non-empty; otherwise the cached url is returned unchanged |
| Renren.LoginOutcome | backends/renren.py:51-67 | a failed login returns None and keeps the cache; a successful one caches and returns the new url |
| Renren.SubmitPhase | backends/renren.py:123-143 | once a url is known: one or two submissions, the first to that url; at most one more get_url call; the cache is kept or set to that call's successful login |
| Renren.PublishSpec | backends/renren.py:89-143 | specification of publish: the cache is left as it was or set to the url a captcha login (the second or third get_url call) returned |
| Renren.FirstLookupIsCache | backends/renren.py:90 | publish's first get_url never logs in and answers the cached url; at most three get_url calls are made |
| Renren.AtMostOneRetry | backends/renren.py:123-141 | at most two submissions; a second one follows a failed first and a forced get_url that returned its url; a forced get_url happens only after a failed submission and is the last one |
| Renren.PublishOutcomes | backends/renren.py:138-143 | data exactly when some submission succeeded; error exactly when two submissions both failed; forms otherwise |
| Renren.LoginFailureMarksForm | backends/renren.py:101-137 | the form comes back with the captcha error marked exactly when a login-capable get_url returned None; unmarked only for an invalid form |
| Renren.NoCacheInvalidFormAsksForForm | backends/renren.py:101-104 | nothing cached and an invalid form: the form is returned with no submission |
| Renren.CachedUrlPublishesDirectly | backends/renren.py:90-143 | a cached url and a successful first submission give data after one lookup, keeping the cache |
| Renren.RenrenMessage.Publish | backends/renren.py:89-143 | the method's status, calls, cache entry and the client's url are those of the publish specification from the cached url; other cache entries are untouched and no key is added |
| Views.FindService | models.py:49 | the row with the slug, or None when no row has it |
| Views.RequestService | models.py:47-49 | Http404 exactly when the host's label is not a slug; otherwise the row addressed by that label, if any |
| Views.OwnerGate | views.py:34-43 | no service: redirect to create; anonymous: redirect to login; the view runs exactly when the user's pk is an owner or the user is a superuser; otherwise the not-owner page |
| Views.WithBackend | views.py:189-190 | the listed services are exactly those with a backend |
| Views.GetBackendTuples | views.py:45-49 | one (slug, label) pair per configured backend in order, or the first failing path's error |
| Views.GetSpec | views.py:122-135 | specification of the corrected GET: check_access's error, the denial page for any level but accept, else the empty form; its properties are in GetDeniesUnlessAccept and EmptyPolicyRendersReject |
| Views.PostSpec | views.py:137-183 | specification of the corrected POST: page, message store and whether make_client was reached; its properties are the lemmas below |
| Views.GetDeniesUnlessAccept | views.py:122-135 | on GET every level but accept renders its denial page, and that level is throttle or reject; accept renders the empty form |
| Views.PostSavesAtMostOne | views.py:137-183 | a POST saves at most one message, exactly for moderate or for accept with data: the submitted text, for this service, stamped now, under the decision's identifier, with the next id |
| Views.ModerateSavesUnpublished | views.py:148-155 | moderate saves one unpublished message without backend and makes no backend call |
| Views.AcceptWithDataSavesPublished | views.py:156-175 | accept with data saves one published message with the service's backend and the data |
| Views.AcceptWithoutDataSurfacesStatus | views.py:156-183 | accept without data saves nothing and shows the status's error and sub-forms |
| Views.RefusedOrInvalidSavesNothing | views.py:140-183 | an invalid form, reject or throttle saves nothing, calls no backend and re-renders the empty form with the level |
| Views.BackendCalledOnlyOnAccept | views.py:156-161 | make_client is reached (and, unless it raises, the backend's publish) exactly on a valid form judged accept |
| Views.EmptyPolicyRendersReject | views.py:123-129 | a service with no rules renders the reject page on GET once check_access's three values are unpacked |
| Views.AddServiceKeepsStoreValid | views.py:61-69 | adding a new slug keeps at most one meta service when the added one is the first without a backend |
| Views.Site.GetFromRequest | models.py:47-49 | the split-based lookup answers what RequestService says |
| Views.Site.Create | views.py:59-69 | an existing service redirects to main; with a meta service present the create page lists the backends; otherwise exactly one meta service for this slug is added; the store invariant is kept |
| Views.Site.CreateServicePost | views.py:75-103 | backend lookup, then service_refused, then login; with both forms valid one backend row with the class's path and one service owned by the user are added; otherwise nothing changes |
| Views.Site.ConfigPost | views.py:216-232 | behind the owner gate a valid form updates only label and params; otherwise the page needs the service's backend (the meta service fails) and the backend list |
| Views.Site.ConfigBackendPost | views.py:237-261 | backend lookup, then the owner gate; a valid form adds one backend row and points the service at it; otherwise nothing changes |
| Views.Site.PublishGet | views.py:122-135 | the page is GetSpec for the service's memo state; the memo is left as get_params leaves it |
| Views.Site.PublishGetAsWritten | views.py:122-123 | as written: check_access's error, or else a ValueError from unpacking three values into two names; the memo is left as get_params leaves it |
| Views.Site.PublishPost | views.py:137-183 | the page, the message store and the backend call are PostSpec's; the memo is left as get_params leaves it |
| Views.Site.PublishPostAsWritten | views.py:137-177 | as written: check_access's error, or else the unpacking ValueError; nothing is saved; the memo is left as get_params leaves it |
| Views.Site.MainPage | views.py:51-57 | corrected main: Http404 for a bad host; redirect to create without a service; the meta service lists services with a backend; otherwise the backend is loaded and the corrected publish view runs as GetSpec / PostSpec on a fresh instance |
| Views.Site.MainPageAsWritten | views.py:51-57 | main as written: the same routing, but a service whose backend loads answers only check_access's error or the unpacking ValueError |
| Views.GoService | views.py:192-195 | a redirect exactly when the slug and the request host's label are slugs, to '//' + slug + the host's suffix (the host itself for its own slug); Http404 otherwise |
| Views.Go | views.py:197-200 | without a `service` parameter Http404; with one, go_service on it |

## Left out
- Rendering and routing: templates, `render_to_response`, `reverse`, the login redirect and the request objects are out. A view answers with a `Page` or a named redirect `Target`.
- `wait` (views.py:110-116): a redirect with a random cache-buster and no state.
- The GET handlers that only render a form: `CreateServiceView.get` and `ConfigBackendView.get`. `ConfigView.get` renders what `Views.Site.ConfigPost` renders for an invalid form.
- `Service.get_host` (models.py:59-60) is `build_host` on the service's own slug. It is not modelled separately.
- `Service.__unicode__` and the `Message` helpers `set_service`, `filter_service`, `from_service_id` and `get_id` are storage plumbing. The App Engine ancestor keys behind them are storage internals.
- Parsing: a `REMOTE_ADDR` that ipaddr cannot parse (models.py:138) is out, because the caller's address comes in as a parsed `Address`. The textual form of an identifier is out too: the masked address itself stands for `str(subnet.network)`, which is an injective rendering.
- Regular expressions: `search` is an abstract predicate. A pattern that fails to compile is not modelled.
- JSON: decoding is a function parameter, so `ServiceParams` and `AccessRule` hold the rule fields already defaulted. A throttle that is not an integer number of seconds is not modelled.
- Forms: validation is abstracted to an `Option` holding the cleaned data (`PublishForm`, `ServiceForm`, the backend forms, the renren captcha form).
- Renren browser automation: mechanize, `get_captcha_info` and the captcha widget are network I/O. Their results enter as the oracles `login` and `submitOk`.
- `Renren.RenrenClient.GetUrl`: does not model the cache timeout. Nor does it model the AttributeError that `save_cache` raises when the timeout setting is missing.
- `Views.Site.MainPage`: routes to the corrected publish view. As written, `main` raises ValueError wherever the publish view is reached with a successful check_access; that is `Views.Site.MainPageAsWritten`.
- `Registry.LoadBackend`: importing is a table lookup, so a module name with an empty component (`a..b`), which Python's import rejects with ValueError, is reported as an import failure.
- `Views.Site.PublishPost`: the backend is abstract, so its answer comes in as `outcome`. No lemma ties a renren backend's `outcome` to `Renren.PublishSpec`.
- A saved message is stored with `closed` false and `approved` unset, the field defaults. The closed/approved lifecycle, moderation batches, rollback and races between check and save are not implemented by the code, so they are not modelled.
- The local-file backends, `filters.py` and the forms' default rule list.

## Findings

| source | as written | input that shows it | evidently intended | confidence | as-written member | corrected member |
|---|---|---|---|---|---|---|
| views.py:123 | the GET, POST and invalid-form paths of the publish view (views.py:123, 142, 177) unpack `check_access` into two names, but `check_access` always returns three values (models.py:85-97), which raises ValueError | a GET of the publish page of any service whose params parse to no rules (`{}`): check_access answers (reject, None, confirm) (`Services.NoRulesStillDecides`) and the unpacking fails | unpack the level and identifier and drop the confirm function, so that the reject page renders (`Views.EmptyPolicyRendersReject`) | not executed | Views.Site.PublishGetAsWritten | Views.Site.PublishGet |
| views.py:142 | the POST path's unpacking fails the same way, so no message can ever be saved | a valid POST to any service whose check_access succeeds | unpack the first two values; the message is then saved as `Views.PostSavesAtMostOne` states | not executed | Views.Site.PublishPostAsWritten | Views.Site.PublishPost |
| views.py:55 | `main` hands every request for a service with a backend to the publish view, so it raises the same ValueError | a GET of the main page of any service whose backend loads and whose check_access succeeds | route to the publish view that unpacks three values | not executed | Views.Site.MainPageAsWritten | Views.Site.MainPage |
