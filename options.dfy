/**
 * The first half of `nunjucksWriter`: destructuring the options object with
 * its defaults, then the seven shape checks, run in a fixed order, each of
 * which throws a message naming its option.
 */
module Options {
  import opened Wrappers
  import opened JsValues

  /** The eight options the factory destructures; everything else is `rest`. */
  datatype OptionName =
    | View | ViewsDir | Globals | Functions | Filters | Advanced | ShowdownEnabled | ShowdownOptions

  function Key(n: OptionName): string
  {
    match n
    case View => "view"
    case ViewsDir => "viewsDir"
    case Globals => "globals"
    case Functions => "functions"
    case Filters => "filters"
    case Advanced => "advanced"
    case ShowdownEnabled => "showdownEnabled"
    case ShowdownOptions => "showdownOptions"
  }

  const OptionKeys: set<string> :=
    {"view", "viewsDir", "globals", "functions", "filters", "advanced", "showdownEnabled", "showdownOptions"}

  /** The default each destructured option takes. */
  function Default(n: OptionName): Value
  {
    match n
    case View => Str("main.html")
    case ViewsDir => Str("views")
    case Globals => Obj(map[])
    case Functions => Obj(map[])
    case Filters => Obj(map[])
    case Advanced => Func(NoOpHook)
    case ShowdownEnabled => Bool(true)
    case ShowdownOptions => Obj(map[])
  }

  /** The options after destructuring: one value per named option, and the remaining keys. */
  datatype Resolved = Resolved(
    view: Value,
    viewsDir: Value,
    globals: Value,
    functions: Value,
    filters: Value,
    advanced: Value,
    showdownEnabled: Value,
    showdownOptions: Value,
    rest: map<string, Value>)
  {
    function Get(n: OptionName): Value
    {
      match n
      case View => view
      case ViewsDir => viewsDir
      case Globals => globals
      case Functions => functions
      case Filters => filters
      case Advanced => advanced
      case ShowdownEnabled => showdownEnabled
      case ShowdownOptions => showdownOptions
    }
  }

  /** A destructuring default: it applies when the key is missing or holds `undefined`. */
  function Pick(m: map<string, Value>, n: OptionName): Value
  {
    if Key(n) in m && !m[Key(n)].Undef? then m[Key(n)] else Default(n)
  }

  /**
   * Destructuring the argument; `None` is a call with no argument, which
   * takes the parameter default `{}`.
   */
  function Resolve(opts: Option<map<string, Value>>): (r: Resolved)
    ensures forall n :: r.Get(n) == (if opts.Some? && Key(n) in opts.value && !opts.value[Key(n)].Undef?
                                     then opts.value[Key(n)] else Default(n))
    ensures r.rest.Keys !! OptionKeys
    ensures opts.None? ==> r.rest == map[]
    ensures opts.Some? ==> r.rest.Keys == opts.value.Keys - OptionKeys
    ensures opts.Some? ==> forall k :: k in opts.value && k !in OptionKeys ==> k in r.rest && r.rest[k] == opts.value[k]
  {
    var m := if opts.Some? then opts.value else map[];
    Resolved(
      Pick(m, View), Pick(m, ViewsDir), Pick(m, Globals), Pick(m, Functions),
      Pick(m, Filters), Pick(m, Advanced), Pick(m, ShowdownEnabled), Pick(m, ShowdownOptions),
      map k | k in m && k !in OptionKeys :: m[k])
  }

  // The seven checks: each predicate is the condition whose negation
  // `src/index.ts:31-50` throws on.

  predicate ViewOk(v: Value)
    ensures ViewOk(v) <==> v.Str? || v.Func?
  {
    TypeOf(v) == "string" || TypeOf(v) == "function"
  }

  /** `every` on an empty array is true, so `[]` passes. */
  predicate ViewsDirOk(v: Value)
    ensures ViewsDirOk(v) <==> v.Str? || (v.Arr? && forall i :: 0 <= i < |v.elems| ==> v.elems[i].Str?)
  {
    TypeOf(v) == "string" || (v.Arr? && forall i :: 0 <= i < |v.elems| ==> TypeOf(v.elems[i]) == "string")
  }

  /** `typeof null` is "object", hence the extra truthiness test; an array passes. */
  predicate ObjectOk(v: Value)
    ensures ObjectOk(v) <==> v.Obj? || v.Arr?
  {
    TypeOf(v) == "object" && Truthy(v)
  }

  predicate FunctionOk(v: Value)
    ensures FunctionOk(v) <==> v.Func?
  {
    TypeOf(v) == "function"
  }

  /** Whether option `n` passes its check; `showdownEnabled` is never checked. */
  predicate Passes(r: Resolved, n: OptionName)
  {
    match n
    case View => ViewOk(r.view)
    case ViewsDir => ViewsDirOk(r.viewsDir)
    case Globals => ObjectOk(r.globals)
    case Functions => ObjectOk(r.functions)
    case Filters => ObjectOk(r.filters)
    case Advanced => FunctionOk(r.advanced)
    case ShowdownEnabled => true
    case ShowdownOptions => ObjectOk(r.showdownOptions)
  }

  /** The order the checks run in. */
  const CheckOrder: seq<OptionName> := [View, ViewsDir, Globals, Functions, Filters, Advanced, ShowdownOptions]

  /** What the check of `n` expects, as its message words it. */
  function Expectation(n: OptionName): string
  {
    match n
    case View => "a string or a function."
    case ViewsDir => "a string or string[]."
    case Advanced => "a function."
    case _ => "an object."
  }

  /** The message thrown when the check of `n` fails: it names the option, then what was expected. */
  function Message(n: OptionName): (m: string)
    requires n != ShowdownEnabled
    ensures var prefix := "nunjucks-writer '" + Key(n) + "' option expects ";
            |prefix| < |m| && m[..|prefix|] == prefix
  {
    var prefix := "nunjucks-writer '" + Key(n) + "' option expects ";
    assert (prefix + Expectation(n))[..|prefix|] == prefix;
    prefix + Expectation(n)
  }

  /** The template selection: a fixed template name, or a function of the data record. */
  datatype View = Template(name: string) | Selector(f: Callable)

  /** The validated options, in the shapes the rest of the factory uses them in. */
  datatype Config = Config(
    view: View,
    viewsDir: seq<string>,
    globals: map<string, Value>,
    functions: map<string, Value>,
    filters: map<string, Value>,
    advanced: Callable,
    showdownEnabled: Value,
    showdownOptions: map<string, Value>,
    rest: map<string, Value>)

  function Strings(elems: seq<Value>): (r: seq<string>)
    requires forall i :: 0 <= i < |elems| ==> elems[i].Str?
    ensures |r| == |elems| && forall i :: 0 <= i < |elems| ==> elems[i] == Str(r[i])
  {
    seq(|elems|, i requires 0 <= i < |elems| => elems[i].s)
  }

  /**
   * The seven checks of the factory, in source order: the option whose
   * check throws, if any.
   */
  function FailingCheck(r: Resolved): (n: Option<OptionName>)
    ensures n.Some? ==> n.value != ShowdownEnabled && !Passes(r, n.value)
    ensures n.None? ==> forall o :: Passes(r, o)
  {
    if !ViewOk(r.view) then Some(View)
    else if !ViewsDirOk(r.viewsDir) then Some(ViewsDir)
    else if !ObjectOk(r.globals) then Some(Globals)
    else if !ObjectOk(r.functions) then Some(Functions)
    else if !ObjectOk(r.filters) then Some(Filters)
    else if !FunctionOk(r.advanced) then Some(Advanced)
    else if !ObjectOk(r.showdownOptions) then Some(ShowdownOptions)
    else
      assert forall o :: Passes(r, o);
      None
  }

  /**
   * The checked options in the shapes the rest of the factory uses. A
   * string `viewsDir` is one search path, as nunjucks' loader takes it.
   */
  function ToConfig(r: Resolved): (c: Config)
    requires forall n :: Passes(r, n)
    ensures r.view.Str? ==> c.view == Template(r.view.s)
    ensures r.view.Func? ==> c.view == Selector(r.view.f)
    ensures r.viewsDir.Str? ==> c.viewsDir == [r.viewsDir.s]
    ensures r.viewsDir.Arr? ==> |c.viewsDir| == |r.viewsDir.elems| &&
                                forall i :: 0 <= i < |c.viewsDir| ==> r.viewsDir.elems[i] == Str(c.viewsDir[i])
    ensures r.advanced == Func(c.advanced)
    ensures Passes(r, Globals) && Passes(r, Functions) && Passes(r, Filters) && Passes(r, ShowdownOptions)
    ensures c.globals == Entries(r.globals) && c.functions == Entries(r.functions)
    ensures c.filters == Entries(r.filters) && c.showdownOptions == Entries(r.showdownOptions)
    ensures c.showdownEnabled == r.showdownEnabled && c.rest == r.rest
  {
    assert Passes(r, View) && Passes(r, ViewsDir) && Passes(r, Globals) && Passes(r, Functions);
    assert Passes(r, Filters) && Passes(r, Advanced) && Passes(r, ShowdownOptions);
    Config(
      if r.view.Str? then Template(r.view.s) else Selector(r.view.f),
      if r.viewsDir.Str? then [r.viewsDir.s] else Strings(r.viewsDir.elems),
      Entries(r.globals),
      Entries(r.functions),
      Entries(r.filters),
      r.advanced.f,
      r.showdownEnabled,
      Entries(r.showdownOptions),
      r.rest)
  }

  /** Validation: throw the failing check's message, or return the checked options. */
  function Validate(r: Resolved): (res: Result<Config>)
    ensures res.Ok? <==> forall n :: Passes(r, n)
    ensures res.Ok? ==> res.value == ToConfig(r)
  {
    match FailingCheck(r)
    case Some(n) => Err(Message(n))
    case None => Ok(ToConfig(r))
  }

  /**
   * A reference definition of error order: the position in `order`, from
   * `from` on, of the first check that fails, or `|order|` when all pass.
   */
  function FirstFailure(r: Resolved, order: seq<OptionName>, from: nat): (i: nat)
    requires from <= |order|
    ensures from <= i <= |order|
    ensures forall j :: from <= j < i ==> Passes(r, order[j])
    ensures i < |order| ==> !Passes(r, order[i])
    decreases |order| - from
  {
    if from == |order| then from
    else if !Passes(r, order[from]) then from
    else FirstFailure(r, order, from + 1)
  }

  /** `FailingCheck` reports exactly the first failing check in `CheckOrder`. */
  lemma {:induction false} FailingCheckIsFirstFailure(r: Resolved)
    ensures var i := FirstFailure(r, CheckOrder, 0);
            (i == |CheckOrder| <==> FailingCheck(r).None?) &&
            (i < |CheckOrder| ==> FailingCheck(r) == Some(CheckOrder[i]))
  {
  }

  /** The error thrown is the message of the first failing check in `CheckOrder`. */
  lemma {:induction false} ValidateReportsFirstFailure(r: Resolved)
    ensures var i := FirstFailure(r, CheckOrder, 0);
            (i == |CheckOrder| <==> Validate(r).Ok?) &&
            (i < |CheckOrder| ==> Validate(r) == Err(Message(CheckOrder[i])))
  {
    FailingCheckIsFirstFailure(r);
  }

  /** Calling with no argument passes validation and yields the documented defaults. */
  lemma DefaultsValidate()
    ensures Validate(Resolve(None)) ==
            Ok(Config(Template("main.html"), ["views"], map[], map[], map[], NoOpHook, Bool(true), map[], map[]))
  {
    var r := Resolve(None);
    assert r == Resolved(Str("main.html"), Str("views"), Obj(map[]), Obj(map[]), Obj(map[]),
                         Func(NoOpHook), Bool(true), Obj(map[]), map[]);
    assert FailingCheck(r) == None;
  }

  /** An option set to `undefined` behaves exactly as an omitted one. */
  lemma {:induction false} UndefinedIsOmitted(m: map<string, Value>, n: OptionName)
    ensures Resolve(Some(m[Key(n) := Undef])) == Resolve(Some(m - {Key(n)}))
  {
    var m1, m2 := m[Key(n) := Undef], m - {Key(n)};
    forall o ensures Pick(m1, o) == Pick(m2, o) {
      PickAgrees(m, n, o);
    }
    var rest1 := map k | k in m1 && k !in OptionKeys :: m1[k];
    var rest2 := map k | k in m2 && k !in OptionKeys :: m2[k];
    assert Key(n) in OptionKeys;
    assert rest1 == rest2;
  }

  lemma PickAgrees(m: map<string, Value>, n: OptionName, o: OptionName)
    ensures Pick(m[Key(n) := Undef], o) == Pick(m - {Key(n)}, o)
  {
    if o != n {
      assert Key(o) != Key(n);
    }
  }

  /** Whatever `showdownEnabled` holds, validation does not look at it. */
  lemma ShowdownEnabledUnchecked(r: Resolved, v: Value)
    ensures Validate(r.(showdownEnabled := v)).Ok? == Validate(r).Ok?
  {
  }
}
