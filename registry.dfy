/**
 * The backend registry (utils.py): a backend is named by a dotted path
 * `module.ClassName`; load_backend splits the path at its last dot, imports the
 * module and instantiates the class. Importing is abstracted as a table from
 * module names to the classes they define.
 */
module Registry {
  import opened Outcomes

  /** A backend class: where it is defined, and its `slug` and `label` attributes. */
  datatype BackendClass = BackendClass(moduleName: string, className: string, slug: string, labelText: string)

  /**
   * MULTITREEHOLE_BACKENDS (missing setting: empty) and the modules that can be
   * imported, each with the classes it defines.
   */
  datatype Settings = Settings(backendPaths: seq<string>, modules: map<string, map<string, BackendClass>>)

  /** Python's `s.rfind(c)`: the index of the last `c`, or -1. */
  function RFind(s: string, c: char): (i: int)
    ensures -1 <= i < |s|
    ensures i >= 0 ==> s[i] == c
    ensures forall j :: i < j < |s| ==> s[j] != c
  {
    if s == [] then -1
    else if s[|s| - 1] == c then |s| - 1
    else RFind(s[..|s| - 1], c)
  }

  /**
   * `path[:i], path[i + 1:]` with `i = path.rfind('.')`. Without a dot, i is -1:
   * Python's `path[:-1]` drops the last character and `path[0:]` is the whole path.
   */
  function SplitPath(path: string): (r: (string, string))
    ensures '.' !in r.1
    ensures '.' in path ==> r.0 + "." + r.1 == path
    ensures '.' !in path && path != [] ==> r.0 == path[..|path| - 1] && r.1 == path
  {
    var i := RFind(path, '.');
    if i >= 0 then
      assert path == path[..i] + [path[i]] + path[i + 1..];
      (path[..i], path[i + 1..])
    else if path == [] then ([], [])
    else (path[..|path| - 1], path)
  }

  /** The path CreateServiceView stores for a backend: `__module__ + '.' + __name__`; it splits back into the two. */
  function BackendPath(b: BackendClass): (p: string)
    ensures '.' !in b.className ==> SplitPath(p) == (b.moduleName, b.className)
  {
    var p := b.moduleName + "." + b.className;
    var i := RFind(p, '.');
    assert p[|b.moduleName|] == '.';
    assert '.' !in b.className ==> i == |b.moduleName| by {
      if '.' !in b.className {
        assert forall j :: |b.moduleName| < j < |p| ==> p[j] == b.className[j - |b.moduleName| - 1];
      }
    }
    assert p[..|b.moduleName|] == b.moduleName;
    assert p[|b.moduleName| + 1..] == b.className;
    p
  }

  /**
   * load_backend: split the path, import the module, fetch the attribute. An
   * empty module name makes import_module raise ValueError and a name starting
   * with '.' makes it raise TypeError, which load_backend does not catch.
   */
  function LoadBackend(settings: Settings, path: string): (r: Result<BackendClass>)
    ensures r.Ok? <==>
      var (mod, attr) := SplitPath(path);
      mod != [] && mod[0] != '.' && mod in settings.modules && attr in settings.modules[mod]
    ensures r.Ok? ==> r.value == settings.modules[SplitPath(path).0][SplitPath(path).1]
    ensures r.Err? ==> (r.error.ImproperlyConfigured? <==> SplitPath(path).0 == [] || SplitPath(path).0[0] != '.')
    ensures r.Err? && !r.error.ImproperlyConfigured? ==> r.error == RelativeImport
  {
    var (mod, attr) := SplitPath(path);
    if mod == [] then Err(ImproperlyConfigured(BadBackendList))
    else if mod[0] == '.' then Err(RelativeImport)
    else if mod !in settings.modules then Err(ImproperlyConfigured(ImportFailed))
    else if attr !in settings.modules[mod] then Err(ImproperlyConfigured(MissingAttribute))
    else Ok(settings.modules[mod][attr])
  }

  /** A class registered under its own module and name is loaded back from the path stored for it. */
  lemma LoadStoredBackend(settings: Settings, b: BackendClass)
    requires '.' !in b.className && b.moduleName != [] && b.moduleName[0] != '.'
    requires b.moduleName in settings.modules && b.className in settings.modules[b.moduleName]
    requires settings.modules[b.moduleName][b.className] == b
    ensures LoadBackend(settings, BackendPath(b)) == Ok(b)
  {
  }

  /** get_backends: one loaded backend per configured path, in configuration order; the first failure propagates. */
  method GetBackends(settings: Settings) returns (r: Result<seq<BackendClass>>)
    ensures r.Ok? <==> forall i :: 0 <= i < |settings.backendPaths| ==> LoadBackend(settings, settings.backendPaths[i]).Ok?
    ensures r.Ok? ==> |r.value| == |settings.backendPaths|
    ensures r.Ok? ==> forall i :: 0 <= i < |r.value| ==> Ok(r.value[i]) == LoadBackend(settings, settings.backendPaths[i])
    ensures r.Err? ==>
      exists i :: 0 <= i < |settings.backendPaths| && LoadBackend(settings, settings.backendPaths[i]) == Err(r.error)
        && forall j :: 0 <= j < i ==> LoadBackend(settings, settings.backendPaths[j]).Ok?
  {
    var paths := settings.backendPaths;
    var backends: seq<BackendClass> := [];
    for i := 0 to |paths|
      invariant |backends| == i
      invariant forall j :: 0 <= j < i ==> Ok(backends[j]) == LoadBackend(settings, paths[j])
    {
      var b := LoadBackend(settings, paths[i]);
      if b.Err? {
        assert forall j :: 0 <= j < i ==> LoadBackend(settings, paths[j]).Ok?;
        return Err(b.error);
      }
      backends := backends + [b.value];
    }
    return Ok(backends);
  }

  /** A configured path the lookup passes over: it loads, and its slug differs. */
  predicate OtherSlug(settings: Settings, path: string, slug: string) {
    var b := LoadBackend(settings, path);
    b.Ok? && b.value.slug != slug
  }

  /** What loading each of `paths` yields. */
  function LoadedFrom(settings: Settings, paths: seq<string>): set<Result<BackendClass>> {
    set i | 0 <= i < |paths| :: LoadBackend(settings, paths[i])
  }

  /** The answer of get_backend_or_404 over a list of paths: load each in turn, the first matching slug wins. */
  function LookupBackend(settings: Settings, paths: seq<string>, slug: string): (r: Result<BackendClass>)
    ensures r.Ok? ==> r.value.slug == slug && Ok(r.value) in LoadedFrom(settings, paths)
    ensures r.Err? && r.error != NotFound ==> Err(r.error) in LoadedFrom(settings, paths)
  {
    if paths == [] then Err(NotFound)
    else match LoadBackend(settings, paths[0])
      case Err(e) => Err(e)
      case Ok(b) => if b.slug == slug then Ok(b) else LookupBackend(settings, paths[1..], slug)
  }

  /**
   * get_backend_or_404: the first configured backend whose slug matches, loading
   * each path in turn (a load failure propagates); Http404 when none matches.
   */
  method GetBackendOr404(settings: Settings, slug: string) returns (r: Result<BackendClass>)
    ensures r == LookupBackend(settings, settings.backendPaths, slug)
    ensures r.Ok? ==> r.value.slug == slug
    ensures r.Ok? ==>
      exists i :: 0 <= i < |settings.backendPaths|
        && LoadBackend(settings, settings.backendPaths[i]) == Ok(r.value)
        && forall j :: 0 <= j < i ==> OtherSlug(settings, settings.backendPaths[j], slug)
    ensures r == Err(NotFound) <==> forall i :: 0 <= i < |settings.backendPaths| ==> OtherSlug(settings, settings.backendPaths[i], slug)
    ensures r.Err? && r.error != NotFound ==>
      exists i :: 0 <= i < |settings.backendPaths|
        && LoadBackend(settings, settings.backendPaths[i]) == Err(r.error)
        && forall j :: 0 <= j < i ==> OtherSlug(settings, settings.backendPaths[j], slug)
  {
    var paths := settings.backendPaths;
    for i := 0 to |paths|
      invariant forall j :: 0 <= j < i ==> OtherSlug(settings, paths[j], slug)
      invariant LookupBackend(settings, paths, slug) == LookupBackend(settings, paths[i..], slug)
    {
      assert paths[i..][1..] == paths[i + 1..];
      var b :- LoadBackend(settings, paths[i]);
      if b.slug == slug {
        return Ok(b);
      }
    }
    return Err(NotFound);
  }
}
