/**
 * The nunjucks environment as the factory sees it: a search path and two
 * name-to-value tables, globals and filters, that `addGlobal` and
 * `addFilter` overwrite key by key. Also the tables the factory's wiring
 * is meant to produce, stated as functions of the validated options.
 */
module NunjucksEnv {
  import opened Wrappers
  import opened JsValues
  import opened Options

  datatype Tables = Tables(globals: map<string, Value>, filters: map<string, Value>)

  /** The options the built-in markdown converter starts from. */
  const ShowdownDefaults: map<string, Value> := map[
    "simpleLineBreaks" := Bool(true),
    "ghCompatibleHeaderId" := Bool(true),
    "customizedHeaderId" := Bool(true),
    "tables" := Bool(true)]

  /** `{...defaults, ...showdownOptions}`: the caller's keys win, untouched defaults survive. */
  function ConverterOptions(user: map<string, Value>): (r: map<string, Value>)
    ensures r.Keys == ShowdownDefaults.Keys + user.Keys
    ensures forall k :: k in user ==> r[k] == user[k]
    ensures forall k :: k in ShowdownDefaults && k !in user ==> r[k] == Bool(true)
  {
    ShowdownDefaults + user
  }

  /**
   * The built-in `markdown` filter the factory registers for `cfg`: a
   * closure over one converter, whose options are the four defaults
   * overridden by the caller's `showdownOptions`.
   */
  function BuiltinMarkdown(cfg: Config): (f: Value)
    ensures f.Func? && f.f.MarkdownFilter?
    ensures f.f.converterOptions.Keys == ShowdownDefaults.Keys + cfg.showdownOptions.Keys
    ensures forall k :: k in cfg.showdownOptions ==> f.f.converterOptions[k] == cfg.showdownOptions[k]
    ensures forall k :: k in ShowdownDefaults && k !in cfg.showdownOptions ==> f.f.converterOptions[k] == Bool(true)
  {
    Func(MarkdownFilter(ConverterOptions(cfg.showdownOptions)))
  }

  /**
   * The filter table after the factory's registrations, starting from the
   * library's own filters: for each name, the caller's filter if there is
   * one, else the built-in `markdown` filter when it is enabled, else the
   * library's.
   */
  function WiredFilters(cfg: Config, library: map<string, Value>): (r: map<string, Value>)
    ensures r.Keys == library.Keys + cfg.filters.Keys + (if Truthy(cfg.showdownEnabled) then {"markdown"} else {})
    ensures forall k :: k in cfg.filters ==> r[k] == cfg.filters[k]
    ensures Truthy(cfg.showdownEnabled) && "markdown" !in cfg.filters ==> r["markdown"] == BuiltinMarkdown(cfg)
    ensures forall k :: k in library && k !in cfg.filters && (k == "markdown" ==> !Truthy(cfg.showdownEnabled))
                        ==> r[k] == library[k]
  {
    var base := if Truthy(cfg.showdownEnabled) then library["markdown" := BuiltinMarkdown(cfg)] else library;
    base + cfg.filters
  }

  /**
   * The global table after the factory's registrations: globals and
   * functions share it, functions written last, so for each name the
   * caller's function wins over the caller's global, which wins over the
   * library's.
   */
  function WiredGlobals(cfg: Config, library: map<string, Value>): (r: map<string, Value>)
    ensures r.Keys == library.Keys + cfg.globals.Keys + cfg.functions.Keys
    ensures forall k :: k in cfg.functions ==> r[k] == cfg.functions[k]
    ensures forall k :: k in cfg.globals && k !in cfg.functions ==> r[k] == cfg.globals[k]
    ensures forall k :: k in library && k !in cfg.globals && k !in cfg.functions ==> r[k] == library[k]
  {
    library + cfg.globals + cfg.functions
  }

  function Wired(cfg: Config, library: Tables): Tables
  {
    Tables(WiredGlobals(cfg, library.globals), WiredFilters(cfg, library.filters))
  }

  /**
   * The `markdown` filter is the built-in one exactly when markdown is
   * enabled and the caller registers none of that name; with markdown off
   * and no caller filter it is missing, which is what makes a template
   * using it fail with "filter not found: markdown". nunjucks itself has no
   * `markdown` filter, and a caller cannot hold the closure the factory
   * creates.
   */
  lemma MarkdownFilterIsBuiltinIff(cfg: Config, library: map<string, Value>)
    requires "markdown" !in library
    requires "markdown" in cfg.filters ==> cfg.filters["markdown"] != BuiltinMarkdown(cfg)
    ensures var r := WiredFilters(cfg, library);
            ("markdown" in r && r["markdown"] == BuiltinMarkdown(cfg)) <==>
            (Truthy(cfg.showdownEnabled) && "markdown" !in cfg.filters)
    ensures "markdown" !in WiredFilters(cfg, library) <==>
            (!Truthy(cfg.showdownEnabled) && "markdown" !in cfg.filters)
  {
  }

  /**
   * What the `advanced` hook does to the tables. The default hook does
   * nothing; a caller's hook is the opaque `hook`, which may also throw.
   */
  function CallHook(f: Callable, t: Tables, hook: (Callable, Tables) -> Result<Tables>): (r: Result<Tables>)
    ensures f.NoOpHook? ==> r == Ok(t)
    ensures !f.NoOpHook? ==> r == hook(f, t)
  {
    if f.NoOpHook? then Ok(t) else hook(f, t)
  }

  class Environment {
    /** The template loader's search path, first match wins. */
    const searchPaths: seq<string>
    var globals: map<string, Value>
    var filters: map<string, Value>
    /** The tables as each call of the `advanced` hook found them, in call order. */
    ghost var hookCalls: seq<Tables>

    function Snapshot(): Tables
      reads this
    {
      Tables(globals, filters)
    }

    /** `new nunjucks.Environment(new FileSystemLoader(searchPaths))`, holding the library's own tables. */
    constructor (searchPaths: seq<string>, library: Tables)
      ensures this.searchPaths == searchPaths && Snapshot() == library && hookCalls == []
    {
      this.searchPaths := searchPaths;
      globals := library.globals;
      filters := library.filters;
      hookCalls := [];
    }

    method AddGlobal(name: string, value: Value)
      modifies this
      ensures globals == old(globals)[name := value]
      ensures filters == old(filters) && hookCalls == old(hookCalls)
    {
      globals := globals[name := value];
    }

    method AddFilter(name: string, f: Value)
      modifies this
      ensures filters == old(filters)[name := f]
      ensures globals == old(globals) && hookCalls == old(hookCalls)
    {
      filters := filters[name := f];
    }

    /** `advanced(env)`: the hook sees the current tables and replaces them, or throws. */
    method RunHook(f: Callable, hook: (Callable, Tables) -> Result<Tables>) returns (thrown: Option<string>)
      modifies this
      ensures hookCalls == old(hookCalls) + [old(Snapshot())]
      ensures match CallHook(f, old(Snapshot()), hook)
              case Ok(t) => thrown == None && Snapshot() == t
              case Err(e) => thrown == Some(e)
    {
      hookCalls := hookCalls + [Snapshot()];
      match CallHook(f, Snapshot(), hook)
      case Ok(t) =>
        globals, filters := t.globals, t.filters;
        thrown := None;
      case Err(e) =>
        thrown := Some(e);
    }
  }
}
