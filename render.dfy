/** The web process's template composition and cache policy: an application
    object holding the environment mode and a table from page path to
    compiled template, the composer that parses a base layout, partials and
    a page into one template and caches it, and the renderer that decides
    between the cached entry and a fresh composition before executing.

    The template library is not modelled. Parsing a file list is the
    oracle `parseFS` (fixed for the life of the process, like the bundled
    template folder), and executing a template against a data bundle is the
    oracle `execute` handed to each render (it stands for writing to that
    request's response). A compiled template is identified by what it was
    parsed from: its root name and its file list. */
module Render {
  import opened Wrappers
  import opened Paths

  /** The one environment mode in which cached templates are reused. */
  const Production: string := "production"
  /** The mode the web process starts in when none is configured. */
  const DefaultEnv: string := "development"

  /** The data bundle a page is executed against (the float map and the
      free-form data map are left out). */
  datatype TemplateData = TemplateData(
    stringMap: map<string, string>,
    intMap: map<string, int>,
    csrfToken: string,
    flash: string,
    warning: string,
    error: string,
    isAuthenticated: int,
    api: string,
    cssVersion: string)

  /** The zero bundle: no entries, empty strings, not authenticated. */
  const EmptyTemplateData: TemplateData := TemplateData(map[], map[], "", "", "", "", 0, "", "")

  /** A compiled template, identified by its root name and the ordered list
      of files it was parsed from. */
  datatype Template = Template(name: string, files: seq<string>)

  /** The template composed for `page` from the partials `partialNames`. */
  function Composition(page: string, partialNames: seq<string>): (t: Template)
    ensures ComposesPage(t, page)
    ensures |t.files| == |partialNames| + 2
    ensures forall i :: 0 <= i < |partialNames| ==> t.files[i + 1] == PartialPath(partialNames[i])
  {
    Template(RootName(page), TemplateFiles(PartialPaths(partialNames), PagePath(page)))
  }

  /** `t` is a composition of `page`: named after the page, the base layout
      first and the page document last. */
  ghost predicate ComposesPage(t: Template, page: string)
  {
    && t.name == RootName(page)
    && |t.files| >= 2
    && t.files[0] == BaseLayout
    && t.files[|t.files| - 1] == PagePath(page)
  }

  /** `t` is a well-formed entry under cache key `key`: the key is a page
      path, `t` composes that page, and every file between the base layout
      and the page is a partial. */
  ghost predicate WellComposed(key: string, t: Template)
  {
    && PageName(key).Some?
    && ComposesPage(t, PageName(key).value)
    && (forall i :: 1 <= i < |t.files| - 1 ==> IsPartialPath(t.files[i]))
  }

  lemma CompositionIsWellComposed(page: string, partialNames: seq<string>)
    ensures WellComposed(PagePath(page), Composition(page, partialNames))
  {
    var t := Composition(page, partialNames);
    PageNameOfPagePath(page);
    forall i | 1 <= i < |t.files| - 1
      ensures IsPartialPath(t.files[i])
    {
      assert t.files[i] == t.files[1..|t.files| - 1][i - 1] == PartialPath(partialNames[i - 1]);
      PartialNameOfPartialPath(partialNames[i - 1]);
    }
  }

  /** The bundle used when the caller passes none. */
  function OrEmpty(td: Option<TemplateData>): (d: TemplateData)
    ensures td.None? ==> d == EmptyTemplateData
    ensures td.Some? ==> d == td.value
  {
    match td
    case None => EmptyTemplateData
    case Some(given) => given
  }

  /** The hook that injects process-wide defaults into a bundle; it
      currently adds nothing, whatever the request. */
  function AddDefaultData<Request>(td: TemplateData, request: Request): (d: TemplateData)
    ensures d == td
  {
    td
  }

  /** The reuse policy: the cached entry is used only in production and only
      when the key is present. */
  predicate ServesFromCache(env: string, cache: map<string, Template>, key: string)
  {
    env == Production && key in cache
  }

  class App {
    const env: string
    /** Parses the named file list into a template named by the first
        argument, or fails (a missing file, a syntax error). */
    const parseFS: (string, seq<string>) -> Outcome<string>
    var cache: map<string, Template>
    /** How often the parser has been called. */
    ghost var parses: nat
    /** The templates handed to the executor, in order. */
    ghost var executed: seq<Template>

    /** Every cached entry is a well-formed composition of the page its key
        names, and one the parser accepted. */
    ghost predicate Valid()
      reads this
    {
      forall key :: key in cache ==>
        WellComposed(key, cache[key]) && parseFS(cache[key].name, cache[key].files) == Pass
    }

    /** A new application object: the cache starts empty. */
    constructor (env: string, parseFS: (string, seq<string>) -> Outcome<string>)
      ensures this.env == env && this.parseFS == parseFS
      ensures cache == map[] && parses == 0 && executed == []
      ensures Valid()
    {
      this.env := env;
      this.parseFS := parseFS;
      cache := map[];
      parses := 0;
      executed := [];
    }

    /** Rewrites each partial name in `partials` into its path, in place,
        parses the base layout, the partials and the page at `key` into a
        template named after `page`, and on success caches it under `key`. */
    method ParseTemplate(partials: array<string>, page: string, key: string) returns (r: Result<Template, string>)
      modifies this`cache, this`parses, partials
      ensures partials[..] == PartialPaths(old(partials[..]))
      ensures parses == old(parses) + 1
      ensures var t := Template(RootName(page), TemplateFiles(partials[..], key));
        match parseFS(t.name, t.files)
        case Pass => r == Success(t) && cache == old(cache)[key := t]
        case Fail(e) => r == Failure(e) && cache == old(cache)
      ensures old(Valid()) && key == PagePath(page) ==> Valid()
    {
      if partials.Length > 0 {
        for i := 0 to partials.Length
          modifies partials
          invariant forall k :: 0 <= k < i ==> partials[k] == PartialPath(old(partials[k]))
          invariant forall k :: i <= k < partials.Length ==> partials[k] == old(partials[k])
        {
          partials[i] := PartialPath(partials[i]);
        }
      }
      assert partials[..] == PartialPaths(old(partials[..]));

      var name := RootName(page);
      var files: seq<string>;
      if partials.Length > 0 {
        var args: seq<string> := [];
        args := args + [BaseLayout];
        args := args + partials[..];
        args := args + [key];
        files := args;
      } else {
        files := [BaseLayout, key];
      }
      assert files == TemplateFiles(partials[..], key);

      var parsed := parseFS(name, files);
      parses := parses + 1;
      if parsed.Fail? {
        return Failure(parsed.error);
      }
      var t := Template(name, files);
      if key == PagePath(page) {
        assert t == Composition(page, old(partials[..]));
        CompositionIsWellComposed(page, old(partials[..]));
      }
      cache := cache[key := t];
      return Success(t);
    }

    /** Renders `page`: reuses the cached template in production when there
        is one, and otherwise composes it afresh (which rewrites `partials`
        in place); then executes it against the given bundle, or the empty
        one, with the defaults added. A parse failure is returned before
        anything is executed; an execution failure is returned as is. */
    method RenderTemplate<Request>(page: string, td: Option<TemplateData>, request: Request,
                                   partials: array<string>,
                                   execute: (Template, TemplateData) -> Outcome<string>)
      returns (err: Outcome<string>)
      requires Valid()
      modifies this`cache, this`parses, this`executed, partials
      ensures Valid()
      ensures var key := PagePath(page);
        var data := AddDefaultData(OrEmpty(td), request);
        if ServesFromCache(env, old(cache), key) then
          && cache == old(cache)
          && parses == old(parses)
          && partials[..] == old(partials[..])
          && executed == old(executed) + [old(cache)[key]]
          && err == execute(old(cache)[key], data)
        else
          var t := Composition(page, old(partials[..]));
          && partials[..] == PartialPaths(old(partials[..]))
          && parses == old(parses) + 1
          && match parseFS(t.name, t.files)
             case Fail(e) => err == Fail(e) && cache == old(cache) && executed == old(executed)
             case Pass => err == execute(t, data) && cache == old(cache)[key := t] && executed == old(executed) + [t]
      ensures executed == old(executed) ||
        (|executed| == |old(executed)| + 1 && ComposesPage(executed[|executed| - 1], page))
    {
      var key := PagePath(page);
      var t: Template;
      var inCache := key in cache;
      if env == Production && inCache {
        t := cache[key];
        PageNameOfPagePath(page);
      } else {
        var parsed := ParseTemplate(partials, page, key);
        if parsed.Failure? {
          return Fail(parsed.error);
        }
        t := parsed.value;
      }
      var data := OrEmpty(td);
      data := AddDefaultData(data, request);
      executed := executed + [t];
      err := execute(t, data);
    }
  }
}
