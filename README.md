# nunjucks-writer: a Dafny model of the renderer factory

`nunjucksWriter` turns an options object into a render function for a
static-site pipeline. It applies defaults to its options, runs seven shape
checks in a fixed order and throws on the first one that fails. It then
builds one nunjucks environment over the `viewsDir` search path and fills
the environment's two tables, globals and filters, in a fixed order:
1. the built-in `markdown` filter, if markdown is enabled;
2. the caller's globals;
3. the caller's functions, into the same global table;
4. the caller's filters.

After that it calls the `advanced` hook once with the environment. Last, it
hands `@static-pages/file-writer` the remaining options, with `renderer`
set to a callback. That callback renders `view(data)`, or the fixed `view`,
with `data` as the context.

The model has five modules:

- `Wrappers` (`wrappers.dfy`): `Option` and `Result`. A thrown `Error` is an `Err(message)`.
- `JsValues` (`js_values.dfy`): the JavaScript values the options can hold, and the pieces of JavaScript semantics the factory uses:
  - `typeof` and truthiness;
  - the entries `Object.entries` or a spread yields. For an array these sit under decimal index keys, proved collision-free.
- `Options` (`options.dfy`): destructuring with defaults and the seven ordered checks. Also a reference definition of "first failing check", proved to agree with the message `Validate` throws.
- `NunjucksEnv` (`environment.dfy`): the `Environment` class, holding a search path and two `map` tables. `AddGlobal` and `AddFilter` write into the tables. Beside the class are the tables the wiring must produce (`WiredGlobals`, `WiredFilters`) and the merged converter options.
- `Writer` (`writer.dfy`): the factory `MakeNunjucksWriter`. Its registration loops (`AddGlobals`, `AddFilters`) are proved against `WiredGlobals` and `WiredFilters`. The module also holds the file writer's options and the render callback.

The template engine, the `view` function and the caller's `advanced` function
are code the model cannot see. Each becomes a function parameter:
- `engine` renders a template against the tables;
- `call` applies a caller function to a data record;
- `hook` is what a caller's `advanced` does to the tables.

Each of them may fail, as the source's calls may throw. nunjucks starts an
environment with its own globals and filters; those are the `library`
parameter.

The `advanced` check runs before the `showdownOptions` check
(`src/index.ts:46-50`). `showdownEnabled` is tested for JavaScript
truthiness (`src/index.ts:56`) and is never type-checked.

## Model

| member | source | states |
|---|---|---|
| `Options.Resolve` | src/index.ts:20-30 | each of the eight options takes the caller's value unless that value is missing or `undefined`, in which case it takes its default; `rest` holds exactly the caller's other keys with their values, and none of the eight |
| `Options.DefaultsValidate` | src/index.ts:20-30 | calling with no argument passes validation, with view `main.html`, viewsDir `views`, empty globals, functions, filters and showdown options, the no-op hook and `showdownEnabled` true |
| `Options.UndefinedIsOmitted` | src/index.ts:20-29 | an option explicitly set to `undefined` resolves exactly like an omitted one |
| `Options.ViewOk` | src/index.ts:31-32 | `view` passes iff it is a string or a function |
| `Options.ViewsDirOk` | src/index.ts:34-35 | `viewsDir` passes iff it is a string or an array whose elements are all strings, so the empty array passes |
| `Options.ObjectOk` | src/index.ts:37-44 | the `typeof === 'object'` check plus the null test passes exactly the objects and the arrays |
| `Options.FunctionOk` | src/index.ts:46-47 | `advanced` passes iff it is a function |
| `Options.Message` | src/index.ts:31-50 | each check's message begins `nunjucks-writer '`, then the option's own name, then `' option expects ` |
| `Options.FailingCheck` | src/index.ts:31-50 | the seven checks in source order: the option it reports fails its check and is never `showdownEnabled`; reporting none means every option passes |
| `Options.ToConfig` | src/index.ts:31-53 | a checked string `view` becomes a fixed template and a function `view` a selector; a string `viewsDir` is a single search path and an array gives its strings in order; `advanced` is the function given; globals, functions, filters and showdown options become their `Object.entries` tables; `showdownEnabled` and `rest` are kept as given |
| `Options.Validate` | src/index.ts:31-50 | validation succeeds iff every option passes its check, `showdownEnabled` always passing, and then returns the checked options in their `ToConfig` shapes |
| `Options.FirstFailure` | src/index.ts:31-50 | reference definition: the position of the first failing check in the order view, viewsDir, globals, functions, filters, advanced, showdownOptions; every check before it passes |
| `Options.FailingCheckIsFirstFailure` | src/index.ts:31-50 | the check the if-chain reports is the first failing one in `CheckOrder`, and it reports none iff all seven pass |
| `Options.ValidateReportsFirstFailure` | src/index.ts:31-50 | validation fails iff some check fails, and then it throws exactly the message of the first failing check in that order |
| `Options.ShowdownEnabledUnchecked` | src/index.ts:27 | changing `showdownEnabled` never changes whether validation succeeds |
| `Options.Strings` | src/index.ts:34 | an array of string values becomes the list of those strings, element by element |
| `JsValues.TypeOf` | src/index.ts:31-50 | `typeof` is "object" exactly for null, arrays and objects, "function" exactly for functions, "string" exactly for strings |
| `JsValues.Truthy` | src/index.ts:37-49 | the falsy values are exactly `undefined`, `null`, `false`, `0` and the empty string; the same test decides `showdownEnabled` (line 56) |
| `JsValues.IndexKey` | src/index.ts:68 | an array index's property key is a non-empty string of decimal digits with no leading zero (`"0"` for index 0) whose decimal value is the index itself |
| `JsValues.IndexKeyInjective` | src/index.ts:68 | distinct array indices have distinct property keys |
| `JsValues.Entries` | src/index.ts:68-79 | `Object.entries` of an object gives its fields; of an array, each element under its index key and nothing else |
| `NunjucksEnv.ConverterOptions` | src/index.ts:57-63 | the converter options contain the four defaults and the caller's keys; the caller's keys win, and untouched defaults stay true |
| `NunjucksEnv.BuiltinMarkdown` | src/index.ts:57-64 | the built-in filter is a markdown closure whose converter options hold the four defaults and the caller's keys, the caller's keys winning and untouched defaults staying true |
| `NunjucksEnv.WiredFilters` | src/index.ts:56-65 | after wiring, each filter name maps to the caller's filter if there is one; otherwise to the built-in markdown filter if the name is `markdown` and markdown is enabled; otherwise to the library's filter |
| `NunjucksEnv.MarkdownFilterIsBuiltinIff` | src/index.ts:56-80 | `markdown` is the built-in filter iff markdown is enabled and the caller supplies no `markdown` filter; it is absent iff markdown is disabled and the caller supplies none |
| `NunjucksEnv.WiredGlobals` | src/index.ts:67-75 | globals and functions share one table; each name maps to the caller's function if there is one, else the caller's global, else the library's; no other names appear |
| `NunjucksEnv.CallHook` | src/index.ts:83 | the caller's `advanced` is applied to the wired tables and its result, new tables or what it threw, is taken; the default `advanced` of line 26 leaves the tables as they are |
| `NunjucksEnv.Environment.constructor` | src/index.ts:53 | a new environment has the given search path and the library's own tables, and no hook has run |
| `NunjucksEnv.Environment.AddGlobal` | src/index.ts:69 | writes one global, changing nothing else |
| `NunjucksEnv.Environment.AddFilter` | src/index.ts:64 | writes one filter, changing nothing else |
| `NunjucksEnv.Environment.RunHook` | src/index.ts:83 | records the tables the hook saw, then takes the hook's resulting tables, or reports what it threw |
| `Writer.AddGlobals` | src/index.ts:67-75 | one registration loop: the global table becomes the old table overwritten by every entry, filters untouched |
| `Writer.AddFilters` | src/index.ts:77-80 | the filter loop: the filter table becomes the old table overwritten by every entry, globals untouched |
| `Writer.MakeNunjucksWriter` | src/index.ts:20-91 | a failed check returns that check's message and builds nothing. Otherwise the hook runs exactly once, on the fully wired tables. Its result is the environment's final state, over the `viewsDir` search path. The writer gets `rest` with the callback as `renderer`. A throwing hook makes the factory throw. |
| `Writer.TemplateName` | src/index.ts:87 | the template is `view(data)` when `view` is a function and the fixed name otherwise |
| `Writer.FixedViewIgnoresData` | src/index.ts:87 | a fixed view names the same template for every data record |
| `Writer.NunjucksWriter.Render` | src/index.ts:87 | a render call resolves the template and then renders it with the data record itself as context; a throwing `view` fails the call; the environment is not changed |
| `Writer.WriterOptions` | src/index.ts:85-88 | the file writer's options are `rest` plus `renderer`, which is the internal callback even if `rest` had one; every other key is passed through unchanged |
| `Writer.WriterNeverSeesAdapterOptions` | src/index.ts:20-30 | none of the eight adapter options reaches the file writer, and its `renderer` is always the internal callback |

## Left out

- Template rendering, template lookup along the search path and `SafeString` escaping belong to nunjucks. `Render` takes the engine as an opaque `engine` parameter.
- Markdown-to-HTML conversion belongs to showdown. The model keeps only the merged options the converter is built with, inside the built-in filter's value.
- Output paths and file writes belong to `@static-pages/file-writer`. The model stops at the options the file writer receives.
- The returned `data => writer(data)` and its Promise (`src/index.ts:90`) are not modelled beyond that. The factory's result carries the environment, the view and the writer's options, and `Render` is the callback the writer would call.
- The `nunjucks` re-export (`src/index.ts:5`) and the command-line entry point are not part of this model.
- Non-object arguments are not modelled. The options argument is an object or absent, as the TypeScript signature demands. Passing `null` or a primitive is outside that signature.
- Numbers are modelled as integers. `NaN` and `-0`, both falsy in JavaScript, cannot be expressed, so a caller passing them (for example `showdownEnabled: NaN`, which disables markdown) is not modelled.
- Getters or proxies on the options that throw are not modelled. Nor are sparse arrays and arrays with extra named properties.
- The iteration order of `Object.entries` is not modelled. The loops pick keys in any order. Keys within one object are distinct, so the final tables do not depend on it.
- `RunHook` models the `advanced` hook as acting on the two tables only. It could also change loaders or other environment settings.
- `RunHook` does not say what the tables hold after the hook throws. The factory then throws and the environment is unreachable.
- Writer.MakeNunjucksWriter: an exception thrown by `fileWriter(...)` itself (`src/index.ts:85`) is not modelled. The file writer is outside this model, so the factory returns `Ok` whenever the hook returns.
