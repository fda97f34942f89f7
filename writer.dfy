/**
 * `nunjucksWriter` itself: validate, build and wire one environment, call
 * the `advanced` hook once, and hand the file writer its options with the
 * `renderer` callback put in.
 */
module Writer {
  import opened Wrappers
  import opened JsValues
  import opened Options
  import opened NunjucksEnv

  /**
   * The template a render call uses: `view(data)` when `view` is a
   * function (which may throw), the fixed name otherwise.
   */
  function TemplateName(view: View, data: Value, call: (Callable, Value) -> Result<Value>): (r: Result<Value>)
    ensures view.Template? ==> r == Ok(Str(view.name))
    ensures view.Selector? ==> r == call(view.f, data)
  {
    match view
    case Template(name) => Ok(Str(name))
    case Selector(f) => call(f, data)
  }

  /** A fixed view names the same template whatever the data record. */
  lemma FixedViewIgnoresData(name: string, d1: Value, d2: Value, call: (Callable, Value) -> Result<Value>)
    ensures TemplateName(Template(name), d1, call) == TemplateName(Template(name), d2, call)
  {
  }

  /**
   * `{...rest, renderer: callback}`: the file writer's options are the
   * pass-through ones with `renderer` forced to the internal callback.
   */
  function WriterOptions(rest: map<string, Value>): (w: map<string, Value>)
    ensures w.Keys == rest.Keys + {"renderer"}
    ensures w["renderer"] == Func(RenderCallback)
    ensures forall k :: k in rest && k != "renderer" ==> w[k] == rest[k]
  {
    rest["renderer" := Func(RenderCallback)]
  }

  /** None of the adapter's own options reaches the file writer, and a caller's `renderer` is overridden. */
  lemma WriterNeverSeesAdapterOptions(opts: Option<map<string, Value>>)
    ensures var w := WriterOptions(Resolve(opts).rest);
            w.Keys !! OptionKeys && w["renderer"] == Func(RenderCallback)
  {
  }

  /** What `nunjucksWriter` returns: the wired environment, the view, and the file writer's options. */
  class NunjucksWriter {
    const env: Environment
    const view: View
    const writerOptions: map<string, Value>

    constructor (env: Environment, view: View, writerOptions: map<string, Value>)
      ensures this.env == env && this.view == view && this.writerOptions == writerOptions
    {
      this.env := env;
      this.view := view;
      this.writerOptions := writerOptions;
    }

    /**
     * The `renderer` callback: `env.render(templateName, data)`, with the
     * template engine as the opaque `engine`. The data record is the render
     * context unchanged, and rendering does not modify the environment.
     */
    method Render(data: Value, call: (Callable, Value) -> Result<Value>,
                  engine: (Tables, seq<string>, Value, Value) -> Result<string>)
      returns (html: Result<string>)
      ensures html == match TemplateName(view, data, call)
                      case Err(e) => Err(e)
                      case Ok(name) => engine(env.Snapshot(), env.searchPaths, name, data)
    {
      var name := TemplateName(view, data, call);
      if name.Err? {
        return Err(name.error);
      }
      html := engine(env.Snapshot(), env.searchPaths, name.value, data);
    }
  }

  /** One of the two `addGlobal` loops: every entry is written, later writes winning. */
  method AddGlobals(env: Environment, entries: map<string, Value>)
    modifies env
    ensures env.globals == old(env.globals) + entries
    ensures env.filters == old(env.filters) && env.hookCalls == old(env.hookCalls)
  {
    var todo := entries.Keys;
    while todo != {}
      invariant todo <= entries.Keys
      invariant env.globals == old(env.globals) + map k | k in entries.Keys - todo :: entries[k]
      invariant env.filters == old(env.filters) && env.hookCalls == old(env.hookCalls)
      decreases todo
    {
      var k :| k in todo;
      env.AddGlobal(k, entries[k]);
      todo := todo - {k};
    }
    assert entries.Keys - todo == entries.Keys;
  }

  /** The `addFilter` loop over the caller's filters. */
  method AddFilters(env: Environment, entries: map<string, Value>)
    modifies env
    ensures env.filters == old(env.filters) + entries
    ensures env.globals == old(env.globals) && env.hookCalls == old(env.hookCalls)
  {
    var todo := entries.Keys;
    while todo != {}
      invariant todo <= entries.Keys
      invariant env.filters == old(env.filters) + map k | k in entries.Keys - todo :: entries[k]
      invariant env.globals == old(env.globals) && env.hookCalls == old(env.hookCalls)
      decreases todo
    {
      var k :| k in todo;
      env.AddFilter(k, entries[k]);
      todo := todo - {k};
    }
    assert entries.Keys - todo == entries.Keys;
  }

  /**
   * The factory. `library` is the table nunjucks' own environment starts
   * with; `hook` is what a caller's `advanced` function does to the tables.
   * A failed check throws before any environment exists. Otherwise the hook
   * runs exactly once, on the fully wired tables, and what it leaves is the
   * environment's final state.
   */
  method MakeNunjucksWriter(opts: Option<map<string, Value>>, library: Tables,
                            hook: (Callable, Tables) -> Result<Tables>)
    returns (r: Result<NunjucksWriter>)
    ensures Validate(Resolve(opts)).Err? ==> r == Err(Validate(Resolve(opts)).error)
    ensures Validate(Resolve(opts)).Ok? ==>
              var cfg := Validate(Resolve(opts)).value;
              match CallHook(cfg.advanced, Wired(cfg, library), hook)
              case Err(e) => r == Err(e)
              case Ok(t) =>
                && r.Ok? && fresh(r.value) && fresh(r.value.env)
                && r.value.env.searchPaths == cfg.viewsDir
                && r.value.env.hookCalls == [Wired(cfg, library)]
                && r.value.env.Snapshot() == t
                && r.value.view == cfg.view
                && r.value.writerOptions == WriterOptions(cfg.rest)
  {
    var checked := Validate(Resolve(opts));
    if checked.Err? {
      return Err(checked.error);
    }
    var cfg := checked.value;

    var env := new Environment(cfg.viewsDir, library);

    if Truthy(cfg.showdownEnabled) {
      env.AddFilter("markdown", BuiltinMarkdown(cfg));
    }
    AddGlobals(env, cfg.globals);
    AddGlobals(env, cfg.functions);
    AddFilters(env, cfg.filters);
    assert env.Snapshot() == Wired(cfg, library);

    var thrown := env.RunHook(cfg.advanced, hook);
    if thrown.Some? {
      return Err(thrown.value);
    }

    var writer := new NunjucksWriter(env, cfg.view, WriterOptions(cfg.rest));
    r := Ok(writer);
  }
}
