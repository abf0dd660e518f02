# Template composition and cache policy of the go-stripe web process

This project models the part of the web process that turns a page request
into HTML: `cmd/web/render.go`. It has three parts:

- `parseTemplate`, the composer. It rewrites the caller's partial names into
  paths in place. It hands the template parser the base layout, then the
  partials in the caller's order, then the page. On success it stores the
  compiled template in the application's template cache, keyed by the page
  path.
- `renderTemplate`, the renderer. It builds the page path, which is also the
  cache key. It reuses the cached template only in the `production`
  environment and only when the key is present; otherwise it composes
  afresh. It replaces a missing data bundle with the empty one, applies
  `addDefaultData`, and executes the template. Either failure is returned
  to the caller.
- `addDefaultData`, the hook for process-wide default data. It currently
  returns its argument.

The Dafny files:

- `wrappers.dfy` (module `Wrappers`): `Option` (a nil pointer),
  `Result` (a value with an error) and `Outcome` (a bare `error`).
- `paths.dfy` (module `Paths`): the naming convention. A page `p` lives at
  `templates/p.page.gohtml`, a partial `x` at `templates/x.partial.gohtml`,
  and the layout at `templates/base.layout.gohtml`. The module also builds
  the ordered file list. Each path builder has a decoder as its partner,
  and lemmas prove the round trips, injectivity, that the three kinds of
  path never collide, and that a file list identifies its page and its
  partial list, order included.
- `render.dfy` (module `Render`): the data bundle `templateData`, the
  compiled-template identity, and the class `App`. `App` has the
  environment, the cache (a `map` that the methods reassign), a ghost
  counter of parser calls and a ghost log of executed templates.
  `ParseTemplate` works on the caller's `array`, in place; `RenderTemplate`
  follows the source's steps. The datatype `TemplateData` is the
  `templateData` record (`cmd/web/render.go:15-27`), and the constant
  `EmptyTemplateData` is the zero bundle `&templateData{}` that a render
  without data uses (`cmd/web/render.go:66`).
- `scenarios.dfy` (module `RenderScenarios`): clients that render on one
  `App` several times. They show the stale composition served in
  production, recomposition on every render outside production, no
  caching of a failed parse, and what happens when a caller reuses its
  partial list.

The template library is an oracle in this model. `App.parseFS` stands for
`template.New(name).Funcs(functions).ParseFS(templateFS, files...)`. It
says only whether the named file list parses. It is fixed when the `App`
is built, because the template folder is bundled into the binary. The
`execute` argument of `RenderTemplate` stands for `t.Execute(w, td)` on
that request's response writer. A compiled template is represented by
what it was parsed from: `Template(name, files)`. The `*http.Request` is a
type parameter, since the core never looks inside it. The initial state is
an empty cache (`cmd/web/main.go:83`). The default environment is
`development` (`cmd/web/main.go:70`), given as `Render.DefaultEnv`.

Three facts about the code shape the model:

- The cache key is the page path `templates/<page>.page.gohtml`
  (`cmd/web/render.go:51`), so renders of one page with different partials
  share one entry.
- Parser and executor errors are returned unwrapped
  (`cmd/web/render.go:61`, `cmd/web/render.go:74`, `cmd/web/render.go:109`).
  A missing file is one of the ways `parseFS` fails.
- In production a cached page never reaches the composer
  (`cmd/web/render.go:55-56`), so a stored entry is never replaced; outside
  production every successful render overwrites it.

## Model

| member | source | states |
|---|---|---|
| `Paths.RootName` | cmd/web/render.go:103-105 | The composed template's root name is the page path without its `templates/` prefix: `templates/` followed by it is exactly the page path. |
| `Paths.PagePath` | cmd/web/render.go:51 | The page path and cache key `templates/<page>.page.gohtml`, built from the page name alone. Its properties are stated by `PageNameOfPagePath` (the decoder recovers the page) and `PagePathInjective` (distinct pages, distinct keys). |
| `Paths.PageName` | cmd/web/render.go:51 | Decoding a path as a page path returns a page only if that page's path is the given path. |
| `Paths.PageNameOfPagePath` | cmd/web/render.go:51 | Round trip: decoding the path of page `p` gives back `p`. |
| `Paths.PagePathInjective` | cmd/web/render.go:51-53 | Two pages share a cache key exactly when they are the same page. |
| `Paths.PartialPath` | cmd/web/render.go:93 | The path `templates/<name>.partial.gohtml` of one partial. Its properties are stated by `PartialNameOfPartialPath`, `PartialPathInjective` and `PartialPathIsNotPagePath`. |
| `Paths.PartialName` | cmd/web/render.go:93 | Decoding a path as a partial path returns a name only if that name's partial path is the given path. |
| `Paths.PartialNameOfPartialPath` | cmd/web/render.go:93 | Round trip: decoding the partial path of `x` gives back `x`. |
| `Paths.PartialPathInjective` | cmd/web/render.go:93 | Two partial names get the same path exactly when they are equal. |
| `Paths.PartialPathIsNotPagePath` | cmd/web/render.go:93 | No partial path decodes as a page path. |
| `Paths.PagePathIsNotPartialPath` | cmd/web/render.go:51 | No page path decodes as a partial path. |
| `Paths.BaseLayoutIsNeitherPageNorPartial` | cmd/web/render.go:100 | The base layout path is neither a page path nor a partial path. |
| `Paths.PartialPaths` | cmd/web/render.go:91-95 | The rewrite keeps the length, and slot `i` becomes `templates/` + name `i` + `.partial.gohtml`. |
| `Paths.TemplateFiles` | cmd/web/render.go:98-106 | The parser's file list has length partials + 2: the base layout first, the partials in caller order next, the page path last. With no partials it is exactly `[base layout, page path]`. |
| `Paths.ComposedFilesShape` | cmd/web/render.go:98-106 | A composed list has the base layout only at the front and a page only at the end (the requested page). Every slot between them decodes to the requested partial at that position. |
| `Paths.ComposedFilesIdentifyComposition` | cmd/web/render.go:91-106 | Two compositions give the same file list exactly when they have the same page and the same partial list in the same order. So reordering the partials changes what the parser sees. |
| `Render.Composition` | cmd/web/render.go:97-106 | The template `parseTemplate` asks the parser for: it is named after the page, starts with the base layout, ends with the page path, and has one slot per partial between them holding that partial's path, in the caller's order. |
| `Render.CompositionIsWellComposed` | cmd/web/render.go:97-106 | A composition of page `p` is a well-formed cache entry under key `templates/p.page.gohtml`. |
| `Render.OrEmpty` | cmd/web/render.go:65-67 | A missing data bundle becomes the empty bundle; a given one is used as is. |
| `Render.AddDefaultData` | cmd/web/render.go:38-40 | The defaults hook returns its bundle unchanged for every request. |
| `Render.ServesFromCache` | cmd/web/render.go:55 | The reuse test: the cached entry is used exactly when the environment is `production` and the key is present. `App.RenderTemplate`'s contract states what each outcome of the test leads to: no parse and the cached entry executed, or one parse of a fresh composition. |
| `Render.App.constructor` | cmd/web/main.go:83-92 | A new application keeps the given environment and parser. Its cache is empty, no parse has happened and nothing has run, so the cache invariant holds. |
| `Render.App.ParseTemplate` | cmd/web/render.go:85-114 | After the call, each slot of the caller's array holds the partial path of its old name, with the same length and order. The parser is called once, on the root name of the page and the ordered list. On success the result is that template, stored under `key` (overwriting), with every other key unchanged. On failure the parser's error is returned and the cache is unchanged. The cache invariant holds afterwards when `key` is the page's path, if it held before. |
| `Render.App.RenderTemplate` | cmd/web/render.go:47-78 | The key is the page path, whatever the partials. In production with the key cached: no parse, cache and partials unchanged, and the cached template is executed. Otherwise: the partials are rewritten in place and the parser is called once. A parse error is returned with the cache unchanged and nothing executed. On success the new composition is cached under the key and executed. Execution gets the given bundle, or the empty one, after the defaults hook. Its outcome is returned. Any executed template has the page's root name, starts with the base layout and ends with the page. |
| `RenderScenarios.ProductionServesFirstComposition` | cmd/web/render.go:53-63 | In production, after `page` renders with partial `first`, a render with partial `second` executes the `first` composition. The result does not depend on whether the `second` composition would parse. |
| `RenderScenarios.DevelopmentRecomposesEveryRender` | cmd/web/render.go:55-63 | In the default environment each render composes its own partial list: the second render executes the `second` composition or returns its parse error. |
| `RenderScenarios.ProductionRetriesAfterParseFailure` | cmd/web/render.go:107-112 | A failed parse returns the parser's error and caches nothing, so the next render in production composes afresh. |
| `RenderScenarios.ReusedPartialListIsRewrittenTwice` | cmd/web/render.go:91-95 | A partial array passed to two renders outside production is rewritten twice. The second render composes from the partial path of the partial path of the name. |

## Left out

- The parsing and execution semantics of `html/template` are a foreign
  library: block overriding, escaping, and output streamed to the
  `http.ResponseWriter`. Both are oracles, so output already written when
  execution fails is not modelled.
- Whether the root name matches a parsed document is decided by the
  `parseFS` and `execute` oracles. The library names each parsed file by
  its base name, so for a page name containing `/` the root name matches no
  file; the model does not capture that.
- Loading the bundled template folder (`go:embed`) is build-time bundling
  and file I/O. Whether a file exists is part of the `parseFS` oracle.
- The empty helper registry `functions` passed to `Funcs` adds nothing to a
  template, so it is left out.
- Logging through `app.errorLog` is output only and does not affect state.
- Two `templateData` fields are left out: `FloatMap` (32-bit floats) and
  `Data` (values of any type). The bundle is handed to the executor
  without being inspected.
- `EmptyTemplateData` uses empty maps where Go's zero `templateData{}`
  has nil `StringMap` and `IntMap`; template reads do not distinguish them.
- `addDefaultData` takes and returns a pointer. The model passes the bundle
  by value, which matches because the hook returns the pointer it was given.
- A compiled template is a pointer in the source. The model identifies it
  by its root name and file list, so two parses of the same files give
  equal templates.
- Concurrent renders that share the cache are left out. Renders are
  sequential calls on one `App`.
- Flag parsing, environment variables, logger setup and server startup
  (`cmd/web/main.go`) are configuration I/O. The `api` process
  (`cmd/api/`), the routers (`cmd/web/routes.go`, `cmd/api/routes-api.go`)
  and `tools/parse_templates.go` are library wiring with no logic of their
  own.
