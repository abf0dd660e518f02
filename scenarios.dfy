/** Clients of the render core that drive one application object through
    several renders, as successive requests do. A caller that passes its
    partials as separate arguments gets a fresh partial list on every render;
    the first three scenarios are such callers, and
    ReusedPartialListIsRewrittenTwice is one that hands the same list to two
    renders. */
module RenderScenarios {
  import opened Wrappers
  import opened Paths
  import opened Render

  /** What a render that composes `t` afresh returns: the parse error, or
      the outcome of executing `t`. */
  function FreshOutcome(parseFS: (string, seq<string>) -> Outcome<string>,
                        execute: (Template, TemplateData) -> Outcome<string>,
                        t: Template, data: TemplateData): (r: Outcome<string>)
  {
    match parseFS(t.name, t.files)
    case Fail(e) => Fail(e)
    case Pass => execute(t, data)
  }

  /** In production, once `page` has been composed with the partial `first`,
      a later render that asks for the partial `second` executes the first
      composition: the cache key omits the partials. The second render does
      not depend on whether its own composition would parse. */
  method ProductionServesFirstComposition<Request>(
    parseFS: (string, seq<string>) -> Outcome<string>,
    execute: (Template, TemplateData) -> Outcome<string>,
    request: Request, page: string, first: string, second: string)
    returns (r1: Outcome<string>, r2: Outcome<string>)
    requires parseFS(Composition(page, [first]).name, Composition(page, [first]).files) == Pass
    ensures r1 == execute(Composition(page, [first]), EmptyTemplateData)
    ensures r2 == execute(Composition(page, [first]), EmptyTemplateData)
  {
    var app := new App(Production, parseFS);
    var p1 := new string[1](_ => first);
    r1 := app.RenderTemplate(page, None, request, p1, execute);
    var p2 := new string[1](_ => second);
    r2 := app.RenderTemplate(page, None, request, p2, execute);
  }

  /** Outside production every render composes afresh: the second render
      executes the composition with `second`, or returns its parse error. */
  method DevelopmentRecomposesEveryRender<Request>(
    parseFS: (string, seq<string>) -> Outcome<string>,
    execute: (Template, TemplateData) -> Outcome<string>,
    request: Request, page: string, first: string, second: string)
    returns (r1: Outcome<string>, r2: Outcome<string>)
    ensures r1 == FreshOutcome(parseFS, execute, Composition(page, [first]), EmptyTemplateData)
    ensures r2 == FreshOutcome(parseFS, execute, Composition(page, [second]), EmptyTemplateData)
  {
    var app := new App(DefaultEnv, parseFS);
    var p1 := new string[1](_ => first);
    assert p1[..] == [first];
    r1 := app.RenderTemplate(page, None, request, p1, execute);
    var p2 := new string[1](_ => second);
    assert p2[..] == [second];
    r2 := app.RenderTemplate(page, None, request, p2, execute);
  }

  /** A failed composition leaves nothing cached, so in production the next
      render of the page composes again instead of serving an error. */
  method ProductionRetriesAfterParseFailure<Request>(
    parseFS: (string, seq<string>) -> Outcome<string>,
    execute: (Template, TemplateData) -> Outcome<string>,
    request: Request, page: string, first: string, second: string)
    returns (r1: Outcome<string>, r2: Outcome<string>)
    requires parseFS(Composition(page, [first]).name, Composition(page, [first]).files).Fail?
    ensures r1 == parseFS(Composition(page, [first]).name, Composition(page, [first]).files)
    ensures r2 == FreshOutcome(parseFS, execute, Composition(page, [second]), EmptyTemplateData)
  {
    var app := new App(Production, parseFS);
    var p1 := new string[1](_ => first);
    assert p1[..] == [first];
    r1 := app.RenderTemplate(page, None, request, p1, execute);
    var p2 := new string[1](_ => second);
    assert p2[..] == [second];
    r2 := app.RenderTemplate(page, None, request, p2, execute);
  }

  /** The composer rewrites the caller's partial list in place, so a list
      handed to two renders outside production is prefixed and suffixed
      twice: the second render asks the parser for the partial path of a
      partial path. */
  method ReusedPartialListIsRewrittenTwice<Request>(
    parseFS: (string, seq<string>) -> Outcome<string>,
    execute: (Template, TemplateData) -> Outcome<string>,
    request: Request, page: string, name: string)
    returns (r2: Outcome<string>, after: seq<string>)
    ensures after == [PartialPath(PartialPath(name))]
    ensures r2 == FreshOutcome(parseFS, execute, Composition(page, [PartialPath(name)]), EmptyTemplateData)
  {
    var app := new App(DefaultEnv, parseFS);
    var partials := new string[1](_ => name);
    assert partials[..] == [name];
    var r1 := app.RenderTemplate(page, None, request, partials, execute);
    assert partials[..] == [PartialPath(name)];
    r2 := app.RenderTemplate(page, None, request, partials, execute);
    after := partials[..];
  }
}
