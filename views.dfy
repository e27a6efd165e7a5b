/**
 * The request handlers (views.py) over an abstract store of service, backend
 * and message rows. Rendering is abstracted to the Page a handler chooses;
 * redirects name their target.
 */
module Views {
  import opened Outcomes
  import opened Hosts
  import opened Addresses
  import opened Messages
  import opened Access
  import opened Services
  import opened Registry
  import opened BackendStatus

  datatype User = Anonymous | SignedIn(pk: nat, isSuperuser: bool)

  /** One row of the backend table: the class path and its JSON parameters. */
  datatype BackendRow = BackendRow(path: string, params: string)

  /** The cleaned data of a valid ServiceForm. */
  datatype ServiceFormData = ServiceFormData(labelText: string, params: string)

  datatype Target = ToCreate | ToMain | ToWait | ToLogin | ToSaved | ToConfig | ToUrl(url: string)

  /** What a handler answers with: a redirect or the template it renders, with the context that matters. */
  datatype Page =
    | Redirect(target: Target)
    | NotOwnerPage
    | CreatePage(choices: seq<(string, string)>)
    | CreateServiceFormPage(backend: BackendClass)
    | ConfigFormPage(backend: BackendClass, choices: seq<(string, string)>)
    | ConfigBackendFormPage(backend: BackendClass)
    | ServiceListPage(services: seq<ServiceRow>)
    | PublishDenied(level: Level, ident: Option<Address>)
    | PublishFormPage(textError: Option<string>, backendForms: seq<BackendForm>, level: Level, ident: Option<Address>)
    | PublishDone(level: Level, ident: Option<Address>, message: nat)

  /** The outcome of the owner_expected decorators: run the view on a service, or answer without it. */
  datatype Gate = Proceed(service: nat) | Refuse(page: Page)

  /** What a request to the publish view carries besides the host: the caller, the clock, json.loads and re.search. */
  datatype Context = Context(
    addr: Address,
    now: int,
    parse: string -> Result<ServiceParams>,
    search: (string, string) -> bool)

  /** `Service.objects.get(slug=…)`: the row with that slug (ObjectDoesNotExist: None). */
  function FindService(services: seq<ServiceRow>, slug: string): (r: Option<nat>)
    ensures r.Some? ==> r.value < |services| && services[r.value].slug == slug
    ensures r.None? ==> forall i :: 0 <= i < |services| ==> services[i].slug != slug
  {
    if services == [] then None
    else if services[0].slug == slug then Some(0)
    else match FindService(services[1..], slug)
      case None => None
      case Some(i) => Some(i + 1)
  }

  /** What get_from_request answers: Http404 for a host whose label is not a slug, else the addressed row if any. */
  function RequestService(services: seq<ServiceRow>, host: string): (r: Result<Option<nat>>)
    ensures r.Err? <==> !IsSlug(Label(host))
    ensures r.Err? ==> r.error == NotFound
    ensures r.Ok? && r.value.Some? ==> r.value.value < |services| && services[r.value.value].slug == Label(host)
    ensures r.Ok? && r.value.None? ==> forall i :: 0 <= i < |services| ==> services[i].slug != Label(host)
  {
    if IsSlug(Label(host)) then Ok(FindService(services, Label(host))) else Err(NotFound)
  }

  /**
   * owner_expected: service_required (no service: redirect to create), then
   * login_required, then the view runs iff the user owns the service or is a
   * superuser; otherwise the not-owner page.
   */
  function OwnerGate(services: seq<ServiceRow>, host: string, user: User): (r: Result<Gate>)
    ensures r.Err? <==> !IsSlug(Label(host))
    ensures r.Err? ==> r.error == NotFound
    ensures r.Ok? && RequestService(services, host).value.None? ==> r.value == Refuse(Redirect(ToCreate))
    ensures r.Ok? && RequestService(services, host).value.Some? && user.Anonymous? ==> r.value == Refuse(Redirect(ToLogin))
    ensures r.Ok? ==>
      (r.value.Proceed? <==>
        var found := RequestService(services, host).value;
        found.Some? && user.SignedIn? && (user.pk in services[found.value].owners || user.isSuperuser))
    ensures r.Ok? && r.value.Proceed? ==> RequestService(services, host).value == Some(r.value.service)
    ensures r.Ok? && RequestService(services, host).value.Some? && user.SignedIn? && !r.value.Proceed? ==>
      r.value == Refuse(NotOwnerPage)
  {
    var found :- RequestService(services, host);
    if found.None? then Ok(Refuse(Redirect(ToCreate)))
    else if user.Anonymous? then Ok(Refuse(Redirect(ToLogin)))
    else if user.pk in services[found.value].owners || user.isSuperuser then Ok(Proceed(found.value))
    else Ok(Refuse(NotOwnerPage))
  }

  /** ListServicesView's queryset: the services that have a backend, in store order. */
  function WithBackend(services: seq<ServiceRow>): (r: seq<ServiceRow>)
    ensures |r| <= |services|
    ensures forall s :: s in r <==> s in services && s.backend.Some?
  {
    if services == [] then []
    else (if services[0].backend.Some? then [services[0]] else []) + WithBackend(services[1..])
  }

  predicate HasMetaService(services: seq<ServiceRow>) {
    exists i :: 0 <= i < |services| && services[i].backend.None?
  }

  /** The (slug, label) pairs get_backend_tuples builds, one per configured path, in order. */
  predicate IsChoiceList(settings: Settings, choices: seq<(string, string)>) {
    && |choices| == |settings.backendPaths|
    && forall i :: 0 <= i < |choices| ==>
         var b := LoadBackend(settings, settings.backendPaths[i]);
         b.Ok? && choices[i] == (b.value.slug, b.value.labelText)
  }

  /** The error the first configured path that fails to load raises, every earlier path loading. */
  predicate IsLoadError(settings: Settings, e: Fault) {
    exists i :: 0 <= i < |settings.backendPaths| && LoadBackend(settings, settings.backendPaths[i]) == Err(e)
      && forall j :: 0 <= j < i ==> LoadBackend(settings, settings.backendPaths[j]).Ok?
  }

  /** get_backend_tuples. */
  method GetBackendTuples(settings: Settings) returns (r: Result<seq<(string, string)>>)
    ensures r.Ok? <==> forall i :: 0 <= i < |settings.backendPaths| ==> LoadBackend(settings, settings.backendPaths[i]).Ok?
    ensures r.Ok? ==> IsChoiceList(settings, r.value)
    ensures r.Err? ==> IsLoadError(settings, r.error)
  {
    var backends :- GetBackends(settings);
    var choices: seq<(string, string)> := [];
    for i := 0 to |backends|
      invariant |choices| == i
      invariant forall j :: 0 <= j < i ==> choices[j] == (backends[j].slug, backends[j].labelText)
    {
      choices := choices + [(backends[i].slug, backends[i].labelText)];
    }
    return Ok(choices);
  }

  /** The check_access answer the publish view acts on, for a service row in a given memo state. */
  function Judgement(cached: Option<ServiceParams>, row: ServiceRow, messages: seq<MessageRow>, ctx: Context, text: Option<string>): Result<Decision> {
    AccessFor(cached, row.params, ctx.parse, Query(row.slug, ctx.addr, messages, ctx.now), text, ctx.search)
  }

  /** PublishView.get with check_access's three values unpacked. */
  function GetSpec(cached: Option<ServiceParams>, row: ServiceRow, messages: seq<MessageRow>, ctx: Context): Result<Page> {
    var d :- Judgement(cached, row, messages, ctx, None);
    if d.level != Accept then Ok(PublishDenied(d.level, d.ident))
    else Ok(PublishFormPage(None, [], Accept, d.ident))
  }

  /** What PublishView.post leaves behind: its page, the message store, and whether the backend was asked to publish. */
  datatype PostResult = PostResult(page: Result<Page>, messages: seq<MessageRow>, backendCalled: bool)

  /**
   * PublishView.post with check_access's three values unpacked. `text` is the
   * cleaned text of a valid PublishForm (None: invalid form); `outcome` is what
   * make_client and the backend message's publish yield, if called.
   * `backendCalled` records that the view reached make_client, including when
   * make_client itself raises (`outcome` an Err).
   */
  function PostSpec(cached: Option<ServiceParams>, row: ServiceRow, messages: seq<MessageRow>, ctx: Context,
                    text: Option<string>, outcome: Result<Status>): PostResult
  {
    var acc := Judgement(cached, row, messages, ctx, text);
    if acc.Err? then PostResult(Err(acc.error), messages, false)
    else
      var d := acc.value;
      if text.None? || d.level == Reject || d.level == Throttle then
        PostResult(Ok(PublishFormPage(None, [], d.level, d.ident)), messages, false)
      else
        AccessNonRejectHasIdentifier(cached, row.params, ctx.parse, Query(row.slug, ctx.addr, messages, ctx.now), text, ctx.search);
        var id := |messages|;
        if d.level == Moderate then
          var m := MessageRow(id, row.slug, ctx.now, d.ident.value, text.value, false, None, false, None, "");
          PostResult(Ok(PublishDone(Moderate, d.ident, id)), messages + [m], false)
        else if outcome.Err? then PostResult(Err(outcome.error), messages, true)
        else
          var status := outcome.value;
          if status.data.Some? then
            var m := MessageRow(id, row.slug, ctx.now, d.ident.value, text.value, false, None, true, row.backend, status.data.value);
            PostResult(Ok(PublishDone(Accept, d.ident, id)), messages + [m], true)
          else
            var forms := if status.forms.Some? then status.forms.value else [];
            PostResult(Ok(PublishFormPage(status.error, forms, Accept, d.ident)), messages, true)
  }

  /**
   * On GET only 'accept' shows the form; any other level renders its denial
   * page, and that level is 'throttle' or 'reject' (never 'moderate').
   */
  lemma GetDeniesUnlessAccept(cached: Option<ServiceParams>, row: ServiceRow, messages: seq<MessageRow>, ctx: Context)
    ensures var acc := Judgement(cached, row, messages, ctx, None);
      var r := GetSpec(cached, row, messages, ctx);
      && (acc.Err? ==> r == Err(acc.error))
      && (acc.Ok? ==> (r.Ok? && r.value.PublishDenied? <==> acc.value.level != Accept))
      && (r.Ok? && r.value.PublishDenied? ==> r.value.level == Throttle || r.value.level == Reject)
      && (r.Ok? && !r.value.PublishDenied? ==> r.value == PublishFormPage(None, [], Accept, acc.value.ident))
  {
    AccessWithoutTextNeverModerates(cached, row.params, ctx.parse, Query(row.slug, ctx.addr, messages, ctx.now), ctx.search);
  }

  /**
   * A POST saves at most one message: the submitted text, for this service,
   * stamped now, under the decision's identifier, open and unreviewed, with the
   * next id; and it saves one exactly for 'moderate', and for 'accept' when the
   * backend's status has 'data'.
   */
  lemma PostSavesAtMostOne(cached: Option<ServiceParams>, row: ServiceRow, messages: seq<MessageRow>, ctx: Context,
                           text: Option<string>, outcome: Result<Status>)
    ensures var p := PostSpec(cached, row, messages, ctx, text, outcome);
      var acc := Judgement(cached, row, messages, ctx, text);
      && (p.messages == messages || |p.messages| == |messages| + 1)
      && (p.messages != messages <==>
            text.Some? && acc.Ok? &&
            (acc.value.level == Moderate || (acc.value.level == Accept && outcome.Ok? && outcome.value.data.Some?)))
      && (p.messages != messages ==>
            && p.messages[..|messages|] == messages
            && var m := p.messages[|messages|];
               && m.id == |messages| && m.service == row.slug && m.timestamp == ctx.now
               && text == Some(m.text) && acc.value.ident == Some(m.identifier)
               && !m.closed && m.approved.None?
               && p.page == Ok(PublishDone(acc.value.level, acc.value.ident, m.id)))
  {
    var p := PostSpec(cached, row, messages, ctx, text, outcome);
    AccessNonRejectHasIdentifier(cached, row.params, ctx.parse, Query(row.slug, ctx.addr, messages, ctx.now), text, ctx.search);
    if p.messages != messages {
      assert p.messages[..|messages|] == messages;
    }
  }

  /** 'moderate': one unpublished message without backend is saved, and no backend client is made. */
  lemma ModerateSavesUnpublished(cached: Option<ServiceParams>, row: ServiceRow, messages: seq<MessageRow>, ctx: Context,
                                 text: string, outcome: Result<Status>)
    requires Judgement(cached, row, messages, ctx, Some(text)).Ok?
    requires Judgement(cached, row, messages, ctx, Some(text)).value.level == Moderate
    ensures var p := PostSpec(cached, row, messages, ctx, Some(text), outcome);
      && !p.backendCalled
      && |p.messages| == |messages| + 1
      && !p.messages[|messages|].published && p.messages[|messages|].backend.None?
  {
  }

  /** 'accept' with 'data' in the status: one published message is saved, with the service's backend and the data. */
  lemma AcceptWithDataSavesPublished(cached: Option<ServiceParams>, row: ServiceRow, messages: seq<MessageRow>, ctx: Context,
                                     text: string, status: Status)
    requires Judgement(cached, row, messages, ctx, Some(text)).Ok?
    requires Judgement(cached, row, messages, ctx, Some(text)).value.level == Accept
    requires status.data.Some?
    ensures var p := PostSpec(cached, row, messages, ctx, Some(text), Ok(status));
      && p.backendCalled
      && |p.messages| == |messages| + 1
      && p.messages[|messages|].published
      && p.messages[|messages|].backend == row.backend
      && p.messages[|messages|].backendData == status.data.value
  {
  }

  /**
   * 'accept' without 'data': nothing is saved; the status's sub-forms and its
   * error are shown with the re-rendered form.
   */
  lemma AcceptWithoutDataSurfacesStatus(cached: Option<ServiceParams>, row: ServiceRow, messages: seq<MessageRow>, ctx: Context,
                                        text: string, status: Status)
    requires Judgement(cached, row, messages, ctx, Some(text)).Ok?
    requires Judgement(cached, row, messages, ctx, Some(text)).value.level == Accept
    requires status.data.None?
    ensures var p := PostSpec(cached, row, messages, ctx, Some(text), Ok(status));
      && p.backendCalled && p.messages == messages
      && p.page.Ok? && p.page.value.PublishFormPage?
      && p.page.value.textError == status.error
      && p.page.value.backendForms == (if status.forms.Some? then status.forms.value else [])
  {
  }

  /**
   * An invalid form, or a 'reject' or 'throttle' answer: nothing is saved, no
   * backend is asked, and the plain form comes back with the level.
   */
  lemma RefusedOrInvalidSavesNothing(cached: Option<ServiceParams>, row: ServiceRow, messages: seq<MessageRow>, ctx: Context,
                                     text: Option<string>, outcome: Result<Status>)
    requires Judgement(cached, row, messages, ctx, text).Ok?
    requires var level := Judgement(cached, row, messages, ctx, text).value.level;
      text.None? || level == Reject || level == Throttle
    ensures var p := PostSpec(cached, row, messages, ctx, text, outcome);
      var d := Judgement(cached, row, messages, ctx, text).value;
      && p.messages == messages && !p.backendCalled
      && p.page == Ok(PublishFormPage(None, [], d.level, d.ident))
  {
  }

  /** The view reaches make_client (and, unless that raises, the backend's publish) exactly on a valid form judged 'accept'. */
  lemma BackendCalledOnlyOnAccept(cached: Option<ServiceParams>, row: ServiceRow, messages: seq<MessageRow>, ctx: Context,
                                  text: Option<string>, outcome: Result<Status>)
    ensures var acc := Judgement(cached, row, messages, ctx, text);
      PostSpec(cached, row, messages, ctx, text, outcome).backendCalled <==>
        text.Some? && acc.Ok? && acc.value.level == Accept
  {
  }

  /**
   * A service whose parameters hold no rules renders the reject page on GET:
   * check_access returns a full three-value answer for it, which the views as
   * written cannot unpack into two names.
   */
  lemma EmptyPolicyRendersReject(row: ServiceRow, messages: seq<MessageRow>, ctx: Context)
    requires ctx.parse(row.params) == Ok(ServiceParams([]))
    ensures GetSpec(None, row, messages, ctx) == Ok(PublishDenied(Reject, None))
  {
    NoRulesStillDecides(row.params, ctx.parse, Query(row.slug, ctx.addr, messages, ctx.now), None, ctx.search);
  }

  /**
   * The store's invariant: slugs are unique slugs, at most one service has no
   * backend (the meta service), backend references resolve, and message ids
   * are their indices.
   */
  predicate StoreValid(services: seq<ServiceRow>, backends: seq<BackendRow>, messages: seq<MessageRow>) {
    && (forall i :: 0 <= i < |services| ==> IsSlug(services[i].slug))
    && (forall i, j :: 0 <= i < j < |services| ==> services[i].slug != services[j].slug)
    && (forall i, j :: 0 <= i < |services| && 0 <= j < |services| && services[i].backend.None? && services[j].backend.None? ==> i == j)
    && (forall i :: 0 <= i < |services| && services[i].backend.Some? ==> services[i].backend.value < |backends|)
    && (forall k :: 0 <= k < |messages| ==> messages[k].id == k)
  }

  /**
   * Adding a service keeps the store valid when its slug is a slug not yet
   * taken, its backend exists, and it is the first meta service if it has none.
   */
  lemma AddServiceKeepsStoreValid(services: seq<ServiceRow>, backends: seq<BackendRow>, messages: seq<MessageRow>, row: ServiceRow)
    requires StoreValid(services, backends, messages)
    requires IsSlug(row.slug) && FindService(services, row.slug).None?
    requires row.backend.None? ==> !HasMetaService(services)
    requires row.backend.Some? ==> row.backend.value < |backends|
    ensures StoreValid(services + [row], backends, messages)
  {
    var s := services + [row];
    assert forall i :: 0 <= i < |services| ==> s[i] == services[i];
  }

  /** Adding a backend row keeps the store valid. */
  lemma AddBackendKeepsStoreValid(services: seq<ServiceRow>, backends: seq<BackendRow>, messages: seq<MessageRow>, extra: BackendRow)
    requires StoreValid(services, backends, messages)
    ensures StoreValid(services, backends + [extra], messages)
  {
  }

  /** A request to main: GET, or POST with the PublishForm's text (None: invalid) and the backend's answer. */
  datatype PublishRequest = GetRequest | PostRequest(text: Option<string>, outcome: Result<Status>)

  /** The store: service, backend and message rows; a backend's or message's primary key is its index. */
  class Site {
    var services: seq<ServiceRow>
    var backends: seq<BackendRow>
    var messages: seq<MessageRow>

    /**
     * Slugs are unique slugs, at most one service has no backend (the meta
     * service), backend references resolve, and message ids are their indices.
     */
    predicate Valid()
      reads this
    {
      StoreValid(services, backends, messages)
    }

    constructor ()
      ensures services == [] && backends == [] && messages == []
      ensures Valid()
    {
      services, backends, messages := [], [], [];
    }

    /** Service.get_from_request. */
    method GetFromRequest(host: string) returns (r: Result<Option<nat>>)
      ensures r == RequestService(services, host)
    {
      var pieces :- SplitRequestHost(host);
      DecompositionIsUnique(host, pieces.slug, pieces.suffix);
      return Ok(FindService(services, pieces.slug));
    }

    /**
     * create (behind service_refused): with a service already at this host,
     * redirect to main; when a service without backend exists, render the
     * create page; otherwise save the meta service for this host's slug.
     */
    method Create(host: string, settings: Settings) returns (r: Result<Page>)
      requires Valid()
      modifies this`services
      ensures Valid()
      ensures !IsSlug(Label(host)) ==> r == Err(NotFound) && services == old(services)
      ensures IsSlug(Label(host)) && FindService(old(services), Label(host)).Some? ==>
        r == Ok(Redirect(ToMain)) && services == old(services)
      ensures IsSlug(Label(host)) && FindService(old(services), Label(host)).None? && HasMetaService(old(services)) ==>
        && services == old(services)
        && (r.Ok? ==> r.value.CreatePage? && IsChoiceList(settings, r.value.choices))
        && (r.Err? ==> IsLoadError(settings, r.error))
      ensures IsSlug(Label(host)) && FindService(old(services), Label(host)).None? && !HasMetaService(old(services)) ==>
        r == Ok(Redirect(ToWait)) && services == old(services) + [ServiceRow(Label(host), "", None, "", {})]
    {
      var found :- GetFromRequest(host);
      if found.Some? {
        return Ok(Redirect(ToMain));
      }
      if HasMetaService(services) {
        var choices :- GetBackendTuples(settings);
        return Ok(CreatePage(choices));
      }
      var pieces := SplitRequestHost(host);
      DecompositionIsUnique(host, pieces.value.slug, pieces.value.suffix);
      var row := ServiceRow(pieces.value.slug, "", None, "", {});
      AddServiceKeepsStoreValid(services, backends, messages, row);
      services := services + [row];
      return Ok(Redirect(ToWait));
    }

    /**
     * CreateServiceView.post: get_backend_or_404, then service_refused and
     * login_required; with both forms valid, save the backend row with the
     * class's path and a service for this host owned by the user.
     */
    method CreateServicePost(backendSlug: string, host: string, user: User, settings: Settings,
                             form: Option<ServiceFormData>, backendForm: Option<string>) returns (r: Result<Page>)
      requires Valid()
      modifies this`services, this`backends
      ensures Valid()
      ensures var lb := LookupBackend(settings, settings.backendPaths, backendSlug);
        var created := lb.Ok? && IsSlug(Label(host)) && FindService(old(services), Label(host)).None?
          && user.SignedIn? && form.Some? && backendForm.Some?;
        && (!created ==> services == old(services) && backends == old(backends))
        && (lb.Err? ==> r == Err(lb.error))
        && (lb.Ok? && !IsSlug(Label(host)) ==> r == Err(NotFound))
        && (lb.Ok? && IsSlug(Label(host)) && FindService(old(services), Label(host)).Some? ==> r == Ok(Redirect(ToMain)))
        && (lb.Ok? && IsSlug(Label(host)) && FindService(old(services), Label(host)).None? ==>
              && (user.Anonymous? ==> r == Ok(Redirect(ToLogin)))
              && (user.SignedIn? && (form.None? || backendForm.None?) ==> r == Ok(CreateServiceFormPage(lb.value))))
        && (created ==>
              && r == Ok(Redirect(ToWait))
              && backends == old(backends) + [BackendRow(BackendPath(lb.value), backendForm.value)]
              && services == old(services) +
                   [ServiceRow(Label(host), form.value.labelText, Some(|old(backends)|), form.value.params, {user.pk})])
    {
      var b :- GetBackendOr404(settings, backendSlug);
      var found :- GetFromRequest(host);
      if found.Some? {
        return Ok(Redirect(ToMain));
      }
      if user.Anonymous? {
        return Ok(Redirect(ToLogin));
      }
      if form.None? || backendForm.None? {
        return Ok(CreateServiceFormPage(b));
      }
      var pk := |backends|;
      var pieces := SplitRequestHost(host);
      DecompositionIsUnique(host, pieces.value.slug, pieces.value.suffix);
      var row := ServiceRow(pieces.value.slug, form.value.labelText, Some(pk), form.value.params, {user.pk});
      var extra := BackendRow(BackendPath(b), backendForm.value);
      AddBackendKeepsStoreValid(services, backends, messages, extra);
      AddServiceKeepsStoreValid(services, backends + [extra], messages, row);
      backends := backends + [extra];
      services := services + [row];
      return Ok(Redirect(ToWait));
    }

    /**
     * ConfigView.post behind owner_expected: a valid form updates the service's
     * label and params; otherwise the page is rendered with its backend and the
     * backend list (render_to_response_with_backends), which fails for the
     * meta service. ConfigView.get renders the same page.
     */
    method ConfigPost(host: string, user: User, settings: Settings, form: Option<ServiceFormData>) returns (r: Result<Page>)
      requires Valid()
      modifies this`services
      ensures Valid()
      ensures var g := OwnerGate(old(services), host, user);
        && (g.Err? ==> r == Err(g.error) && services == old(services))
        && (g.Ok? && g.value.Refuse? ==> r == Ok(g.value.page) && services == old(services))
        && (g.Ok? && g.value.Proceed? && form.Some? ==>
              var i := g.value.service;
              && r == Ok(Redirect(ToSaved))
              && services == old(services)[i := old(services)[i].(labelText := form.value.labelText, params := form.value.params)])
        && (g.Ok? && g.value.Proceed? && form.None? ==>
              && services == old(services)
              && var row := services[g.value.service];
                 && (row.backend.None? ==> r == Err(NoBackend))
                 && (row.backend.Some? ==>
                       var lb := LoadBackend(settings, backends[row.backend.value].path);
                       && (lb.Err? ==> r == Err(lb.error))
                       && (lb.Ok? && r.Ok? ==> r.value.ConfigFormPage? && r.value.backend == lb.value && IsChoiceList(settings, r.value.choices))
                       && (lb.Ok? && r.Err? ==> IsLoadError(settings, r.error))))
    {
      var gate :- OwnerGate(services, host, user);
      if gate.Refuse? {
        return Ok(gate.page);
      }
      var i := gate.service;
      if form.Some? {
        services := services[i := services[i].(labelText := form.value.labelText, params := form.value.params)];
        return Ok(Redirect(ToSaved));
      }
      var row := services[i];
      if row.backend.None? {
        return Err(NoBackend);
      }
      var b :- LoadBackend(settings, backends[row.backend.value].path);
      var choices :- GetBackendTuples(settings);
      return Ok(ConfigFormPage(b, choices));
    }

    /**
     * ConfigBackendView.post: get_backend_or_404, then owner_expected; a valid
     * form saves a new backend row and points the service at it.
     */
    method ConfigBackendPost(backendSlug: string, host: string, user: User, settings: Settings, form: Option<string>)
      returns (r: Result<Page>)
      requires Valid()
      modifies this`services, this`backends
      ensures Valid()
      ensures var lb := LookupBackend(settings, settings.backendPaths, backendSlug);
        var g := OwnerGate(old(services), host, user);
        var changed := lb.Ok? && g.Ok? && g.value.Proceed? && form.Some?;
        && (!changed ==> services == old(services) && backends == old(backends))
        && (lb.Err? ==> r == Err(lb.error))
        && (lb.Ok? && g.Err? ==> r == Err(g.error))
        && (lb.Ok? && g.Ok? && g.value.Refuse? ==> r == Ok(g.value.page))
        && (lb.Ok? && g.Ok? && g.value.Proceed? && form.None? ==> r == Ok(ConfigBackendFormPage(lb.value)))
        && (changed ==>
              var i := g.value.service;
              && r == Ok(Redirect(ToConfig))
              && backends == old(backends) + [BackendRow(BackendPath(lb.value), form.value)]
              && services == old(services)[i := old(services)[i].(backend := Some(|old(backends)|))])
    {
      var b :- GetBackendOr404(settings, backendSlug);
      var gate :- OwnerGate(services, host, user);
      if gate.Refuse? {
        return Ok(gate.page);
      }
      if form.None? {
        return Ok(ConfigBackendFormPage(b));
      }
      var i := gate.service;
      var pk := |backends|;
      backends := backends + [BackendRow(BackendPath(b), form.value)];
      services := services[i := services[i].(backend := Some(pk))];
      return Ok(Redirect(ToConfig));
    }

    /** PublishView.get, check_access's three values unpacked. */
    method PublishGet(svc: Service, ctx: Context) returns (r: Result<Page>)
      modifies svc`paramsData
      ensures svc.paramsData == MemoAfter(old(svc.paramsData), svc.params, ctx.parse)
      ensures r == GetSpec(old(svc.paramsData), svc.Row(), messages, ctx)
    {
      var d :- svc.CheckAccess(ctx.addr, None, messages, ctx.now, ctx.parse, ctx.search);
      if d.level != Accept {
        return Ok(PublishDenied(d.level, d.ident));
      }
      return Ok(PublishFormPage(None, [], Accept, d.ident));
    }

    /** PublishView.get as written: it unpacks check_access's three values into two names. */
    method PublishGetAsWritten(svc: Service, ctx: Context) returns (r: Result<Page>)
      modifies svc`paramsData
      ensures svc.paramsData == MemoAfter(old(svc.paramsData), svc.params, ctx.parse)
      ensures var acc := Judgement(old(svc.paramsData), svc.Row(), messages, ctx, None);
        r == if acc.Err? then Err(acc.error) else Err(UnpackError(3, 2))
    {
      var acc := svc.CheckAccess(ctx.addr, None, messages, ctx.now, ctx.parse, ctx.search);
      if acc.Err? {
        return Err(acc.error);
      }
      return Err(UnpackError(3, 2));
    }

    /** PublishView.post, check_access's three values unpacked. */
    method PublishPost(svc: Service, ctx: Context, text: Option<string>, outcome: Result<Status>)
      returns (r: Result<Page>, backendCalled: bool)
      requires Valid()
      modifies this`messages, svc`paramsData
      ensures svc.paramsData == MemoAfter(old(svc.paramsData), svc.params, ctx.parse)
      ensures Valid()
      ensures var p := PostSpec(old(svc.paramsData), svc.Row(), old(messages), ctx, text, outcome);
        r == p.page && messages == p.messages && backendCalled == p.backendCalled
    {
      var acc := svc.CheckAccess(ctx.addr, text, messages, ctx.now, ctx.parse, ctx.search);
      if acc.Err? {
        return Err(acc.error), false;
      }
      var d := acc.value;
      if text.Some? && (d.level == Moderate || d.level == Accept) {
        AccessNonRejectHasIdentifier(old(svc.paramsData), svc.params, ctx.parse, Query(svc.slug, ctx.addr, messages, ctx.now), text, ctx.search);
        if d.level == Moderate {
          var m := MessageRow(|messages|, svc.slug, ctx.now, d.ident.value, text.value, false, None, false, None, "");
          messages := messages + [m];
          return Ok(PublishDone(Moderate, d.ident, m.id)), false;
        }
        if outcome.Err? {
          return Err(outcome.error), true;
        }
        var status := outcome.value;
        var backendForms: seq<BackendForm> := [];
        if status.forms.Some? {
          backendForms := status.forms.value;
        }
        if status.data.Some? {
          var m := MessageRow(|messages|, svc.slug, ctx.now, d.ident.value, text.value, false, None, true, svc.backend, status.data.value);
          messages := messages + [m];
          return Ok(PublishDone(Accept, d.ident, m.id)), true;
        }
        return Ok(PublishFormPage(status.error, backendForms, Accept, d.ident)), true;
      }
      return Ok(PublishFormPage(None, [], d.level, d.ident)), false;
    }

    /** PublishView.post as written: both of its check_access calls unpack three values into two names. */
    method PublishPostAsWritten(svc: Service, ctx: Context, text: Option<string>) returns (r: Result<Page>)
      modifies svc`paramsData
      ensures svc.paramsData == MemoAfter(old(svc.paramsData), svc.params, ctx.parse)
      ensures var acc := Judgement(old(svc.paramsData), svc.Row(), messages, ctx, text);
        r == if acc.Err? then Err(acc.error) else Err(UnpackError(3, 2))
    {
      var acc := svc.CheckAccess(ctx.addr, text, messages, ctx.now, ctx.parse, ctx.search);
      if acc.Err? {
        return Err(acc.error);
      }
      return Err(UnpackError(3, 2));
    }

    /**
     * main (behind service_required): a service with a backend loads it and
     * runs the publish view; the meta service lists the services that have one.
     */
    method MainPage(host: string, settings: Settings, ctx: Context, req: PublishRequest) returns (r: Result<Page>, backendCalled: bool)
      requires Valid()
      modifies this`messages
      ensures Valid()
      ensures !IsSlug(Label(host)) ==> r == Err(NotFound) && messages == old(messages) && !backendCalled
      ensures IsSlug(Label(host)) && FindService(services, Label(host)).None? ==>
        r == Ok(Redirect(ToCreate)) && messages == old(messages) && !backendCalled
      ensures IsSlug(Label(host)) && FindService(services, Label(host)).Some? ==>
        var row := services[FindService(services, Label(host)).value];
        && (row.backend.None? ==> r == Ok(ServiceListPage(WithBackend(services))) && messages == old(messages) && !backendCalled)
        && (row.backend.Some? ==>
              var lb := LoadBackend(settings, backends[row.backend.value].path);
              && (lb.Err? ==> r == Err(lb.error) && messages == old(messages) && !backendCalled)
              && (lb.Ok? && req.GetRequest? ==>
                    r == GetSpec(None, row, messages, ctx) && messages == old(messages) && !backendCalled)
              && (lb.Ok? && req.PostRequest? ==>
                    var p := PostSpec(None, row, old(messages), ctx, req.text, req.outcome);
                    r == p.page && messages == p.messages && backendCalled == p.backendCalled))
    {
      backendCalled := false;
      var found :- GetFromRequest(host);
      if found.None? {
        return Ok(Redirect(ToCreate)), false;
      }
      var row := services[found.value];
      if row.backend.None? {
        return Ok(ServiceListPage(WithBackend(services))), false;
      }
      var backend :- LoadBackend(settings, backends[row.backend.value].path);
      var svc := new Service.FromRow(row);
      match req
      case GetRequest =>
        r := PublishGet(svc, ctx);
      case PostRequest(text, outcome) =>
        r, backendCalled := PublishPost(svc, ctx, text, outcome);
    }

    /**
     * main as written: the same routing, but the publish view it reaches is
     * the one that unpacks check_access's three values into two names, so a
     * service with a loadable backend only ever answers with an error.
     */
    method MainPageAsWritten(host: string, settings: Settings, ctx: Context, req: PublishRequest) returns (r: Result<Page>)
      requires Valid()
      ensures !IsSlug(Label(host)) ==> r == Err(NotFound)
      ensures IsSlug(Label(host)) && FindService(services, Label(host)).None? ==> r == Ok(Redirect(ToCreate))
      ensures IsSlug(Label(host)) && FindService(services, Label(host)).Some? ==>
        var row := services[FindService(services, Label(host)).value];
        && (row.backend.None? ==> r == Ok(ServiceListPage(WithBackend(services))))
        && (row.backend.Some? ==>
              var lb := LoadBackend(settings, backends[row.backend.value].path);
              var acc := Judgement(None, row, messages, ctx, if req.GetRequest? then None else req.text);
              && (lb.Err? ==> r == Err(lb.error))
              && (lb.Ok? ==> r == if acc.Err? then Err(acc.error) else Err(UnpackError(3, 2))))
    {
      var found :- GetFromRequest(host);
      if found.None? {
        return Ok(Redirect(ToCreate));
      }
      var row := services[found.value];
      if row.backend.None? {
        return Ok(ServiceListPage(WithBackend(services)));
      }
      var backend :- LoadBackend(settings, backends[row.backend.value].path);
      var svc := new Service.FromRow(row);
      match req
      case GetRequest =>
        r := PublishGetAsWritten(svc, ctx);
      case PostRequest(text, _) =>
        r := PublishPostAsWritten(svc, ctx, text);
    }
  }

  /** go_service: redirect to the slug's host under this request's suffix, or Http404. */
  method GoService(slug: string, host: string) returns (r: Result<Page>)
    ensures r.Ok? <==> IsSlug(slug) && IsSlug(Label(host))
    ensures r.Err? ==> r.error == NotFound
    ensures r.Ok? ==> r.value == Redirect(ToUrl("//" + slug + Suffix(host)))
    ensures r.Ok? && slug == Label(host) ==> r.value == Redirect(ToUrl("//" + host))
  {
    if !IsSlug(slug) {
      return Err(NotFound);
    }
    var pieces :- SplitRequestHost(host);
    DecompositionIsUnique(host, pieces.slug, pieces.suffix);
    assert "//" + pieces.slug + pieces.suffix == "//" + host;
    return Ok(Redirect(ToUrl("//" + slug + pieces.suffix)));
  }

  /** go: the `service` query parameter goes to go_service; without it, Http404. */
  method Go(query: map<string, string>, host: string) returns (r: Result<Page>)
    ensures "service" !in query ==> r == Err(NotFound)
    ensures "service" in query ==>
      && (r.Ok? <==> IsSlug(query["service"]) && IsSlug(Label(host)))
      && (r.Ok? ==> r.value == Redirect(ToUrl("//" + query["service"] + Suffix(host))))
    ensures r.Err? ==> r.error == NotFound
  {
    if "service" !in query {
      return Err(NotFound);
    }
    r := GoService(query["service"], host);
  }
}
