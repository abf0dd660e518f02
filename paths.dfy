/** The naming convention of the render core: how a page name and a partial
    name become paths inside the embedded `templates` folder, the root name of
    a composed template, and the ordered file list handed to the parser.
    Every path is built by string formatting from a fixed prefix and suffix;
    the partner of each builder is a decoder that recovers the name. */
module Paths {
  import opened Wrappers

  const TemplatesDir: string := "templates/"
  const PageSuffix: string := ".page.gohtml"
  const PartialSuffix: string := ".partial.gohtml"
  /** The single base layout every composition starts with. */
  const BaseLayout: string := "templates/base.layout.gohtml"

  /** The middle of `path` once the fixed `prefix` and `suffix` are removed,
      or None when `path` does not have that shape. */
  function StripAffixes(prefix: string, suffix: string, path: string): (r: Option<string>)
    ensures r.Some? ==> prefix + r.value + suffix == path
  {
    if |prefix| + |suffix| <= |path| && path[..|prefix|] == prefix && path[|path| - |suffix|..] == suffix
    then Some(path[|prefix|..|path| - |suffix|])
    else None
  }

  lemma {:induction false} StripAffixesOfAffixed(prefix: string, name: string, suffix: string)
    ensures StripAffixes(prefix, suffix, prefix + name + suffix) == Some(name)
  {
  }

  /** The path of a page document; the render core also uses it as the
      template cache key. */
  function PagePath(page: string): (path: string)
  {
    TemplatesDir + page + PageSuffix
  }

  /** The name given to the composed template: the page path without its
      `templates/` prefix. */
  function RootName(page: string): (n: string)
    ensures PagePath(page) == TemplatesDir + n
  {
    page + PageSuffix
  }

  /** The path of a partial document. */
  function PartialPath(name: string): (path: string)
  {
    TemplatesDir + name + PartialSuffix
  }

  /** The page a path names, if it is a page path. */
  function PageName(path: string): (r: Option<string>)
    ensures r.Some? ==> PagePath(r.value) == path
  {
    StripAffixes(TemplatesDir, PageSuffix, path)
  }

  /** The partial a path names, if it is a partial path. */
  function PartialName(path: string): (r: Option<string>)
    ensures r.Some? ==> PartialPath(r.value) == path
  {
    StripAffixes(TemplatesDir, PartialSuffix, path)
  }

  predicate IsPagePath(path: string)
  {
    PageName(path).Some?
  }

  predicate IsPartialPath(path: string)
  {
    PartialName(path).Some?
  }

  lemma PageNameOfPagePath(page: string)
    ensures PageName(PagePath(page)) == Some(page)
  {
    StripAffixesOfAffixed(TemplatesDir, page, PageSuffix);
  }

  lemma PartialNameOfPartialPath(name: string)
    ensures PartialName(PartialPath(name)) == Some(name)
  {
    StripAffixesOfAffixed(TemplatesDir, name, PartialSuffix);
  }

  /** Distinct pages get distinct cache keys. */
  lemma PagePathInjective(a: string, b: string)
    ensures PagePath(a) == PagePath(b) <==> a == b
  {
    PageNameOfPagePath(a);
    PageNameOfPagePath(b);
  }

  lemma PartialPathInjective(a: string, b: string)
    ensures PartialPath(a) == PartialPath(b) <==> a == b
  {
    PartialNameOfPartialPath(a);
    PartialNameOfPartialPath(b);
  }

  /** No partial path ends in the page suffix. */
  lemma PartialPathIsNotPagePath(name: string)
    ensures !IsPagePath(PartialPath(name))
  {
    var p := PartialPath(name);
    assert p[|p| - 12] == PartialSuffix[3] == 'r';
  }

  /** No page path ends in the partial suffix. */
  lemma PagePathIsNotPartialPath(page: string)
    ensures !IsPartialPath(PagePath(page))
  {
    var p := PagePath(page);
    assert p[|p| - 12] == PageSuffix[0] == '.';
  }

  /** The base layout is neither a page nor a partial. */
  lemma BaseLayoutIsNeitherPageNorPartial()
    ensures !IsPagePath(BaseLayout) && !IsPartialPath(BaseLayout)
  {
    assert BaseLayout[16] == 'a';
    assert BaseLayout[13] == 'e';
  }

  /** Each partial name rewritten to its path, in place and in order. */
  function PartialPaths(names: seq<string>): (paths: seq<string>)
    ensures |paths| == |names|
    ensures forall i :: 0 <= i < |names| ==> paths[i] == PartialPath(names[i])
  {
    if names == [] then [] else [PartialPath(names[0])] + PartialPaths(names[1..])
  }

  /** The file list handed to the parser: the base layout, then the partial
      paths in the caller's order, then the page path. */
  function TemplateFiles(partialPaths: seq<string>, pagePath: string): (files: seq<string>)
    ensures |files| == |partialPaths| + 2
    ensures files[0] == BaseLayout && files[|files| - 1] == pagePath
    ensures files[1..|files| - 1] == partialPaths
    ensures partialPaths == [] ==> files == [BaseLayout, pagePath]
  {
    [BaseLayout] + partialPaths + [pagePath]
  }

  /** A composed file list holds exactly one base layout, in front, exactly
      one page, at the end, and between them the requested partials in order. */
  lemma ComposedFilesShape(page: string, names: seq<string>)
    ensures var files := TemplateFiles(PartialPaths(names), PagePath(page));
      && (forall i :: 0 <= i < |files| ==> (files[i] == BaseLayout <==> i == 0))
      && (forall i :: 0 <= i < |files| ==> (IsPagePath(files[i]) <==> i == |files| - 1))
      && PageName(files[|files| - 1]) == Some(page)
      && (forall i :: 1 <= i < |files| - 1 ==> PartialName(files[i]) == Some(names[i - 1]))
  {
    var files := TemplateFiles(PartialPaths(names), PagePath(page));
    BaseLayoutIsNeitherPageNorPartial();
    PageNameOfPagePath(page);
    PagePathIsNotPartialPath(page);
    forall i | 1 <= i < |files| - 1
      ensures files[i] == PartialPath(names[i - 1])
      ensures PartialName(files[i]) == Some(names[i - 1])
      ensures files[i] != BaseLayout && !IsPagePath(files[i])
    {
      assert files[i] == files[1..|files| - 1][i - 1];
      PartialNameOfPartialPath(names[i - 1]);
      PartialPathIsNotPagePath(names[i - 1]);
    }
  }

  /** The file list identifies the composition: two compositions hand the
      parser the same list exactly when they name the same page and the same
      partials in the same order. */
  lemma ComposedFilesIdentifyComposition(page1: string, names1: seq<string>, page2: string, names2: seq<string>)
    ensures TemplateFiles(PartialPaths(names1), PagePath(page1)) == TemplateFiles(PartialPaths(names2), PagePath(page2))
        <==> page1 == page2 && names1 == names2
  {
    var f1 := TemplateFiles(PartialPaths(names1), PagePath(page1));
    var f2 := TemplateFiles(PartialPaths(names2), PagePath(page2));
    if f1 == f2 {
      ComposedFilesShape(page1, names1);
      ComposedFilesShape(page2, names2);
      assert Some(page1) == PageName(f1[|f1| - 1]) == Some(page2);
      assert |names1| == |names2|;
      forall i | 0 <= i < |names1|
        ensures names1[i] == names2[i]
      {
        assert Some(names1[i]) == PartialName(f1[i + 1]) == Some(names2[i]);
      }
    }
  }
}
