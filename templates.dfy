/** The template gallery: a static catalog, its search and category filter, and the editor link. */
module Templates {
  import opened Text
  import opened Lists

  datatype Template = Template(id: string, name: string, description: string, category: string, thumbnail: string)

  /** The six catalog entries, in display order. */
  function Catalog(): (c: seq<Template>)
    ensures |c| == 6
  {
    [ Template("1", "Blog", "Perfect for personal or company blogs", "content",
               "https://images.unsplash.com/photo-1499750310107-5fef28a66643"),
      Template("2", "E-commerce", "Online store with product listings and cart", "business",
               "https://images.unsplash.com/photo-1472851294608-062f824d29cc"),
      Template("3", "Portfolio", "Showcase your work and skills", "personal",
               "https://images.unsplash.com/photo-1545239351-ef35f43d514b"),
      Template("4", "Landing Page", "Promote your product or service", "business",
               "https://images.unsplash.com/photo-1519389950473-47ba0277781c"),
      Template("5", "Community Forum", "Build a community around your brand", "social",
               "https://images.unsplash.com/photo-1529156069898-49953e39b3ac"),
      Template("6", "Documentation", "Create documentation for your product", "content",
               "https://images.unsplash.com/photo-1456406644174-8ddd4cd52a06") ]
  }

  /** The query is in the name or the description, ignoring case. */
  predicate MatchesSearch(t: Template, query: string)
  {
    ContainsIgnoreCase(t.name, query) || ContainsIgnoreCase(t.description, query)
  }

  /** The category tab is `all` or the template's own category. */
  predicate MatchesCategory(t: Template, category: string)
  {
    category == "all" || t.category == category
  }

  /** The `filter` callback over any list of templates. */
  function FilterTemplates(templates: seq<Template>, query: string, category: string): (r: seq<Template>)
    ensures IsSubseq(r, templates)
    ensures forall t :: t in r <==> t in templates && MatchesSearch(t, query) && MatchesCategory(t, category)
    ensures forall t :: multiset(r)[t] == if MatchesSearch(t, query) && MatchesCategory(t, category) then multiset(templates)[t] else 0
  {
    Filter(templates, t => MatchesSearch(t, query) && MatchesCategory(t, category))
  }

  /** `filteredTemplates`: the catalog entries that match both the search box and the tab. */
  function FilteredTemplates(query: string, category: string): (r: seq<Template>)
    ensures IsSubseq(r, Catalog())
    ensures forall t :: t in r <==> t in Catalog() && MatchesSearch(t, query) && MatchesCategory(t, category)
    ensures forall t :: multiset(r)[t] == if MatchesSearch(t, query) && MatchesCategory(t, category) then multiset(Catalog())[t] else 0
  {
    FilterTemplates(Catalog(), query, category)
  }

  /** An empty search on the `all` tab shows the whole catalog, in order. */
  lemma {:induction false} UnfilteredShowsAll()
    ensures FilteredTemplates("", "all") == Catalog()
  {
    forall i | 0 <= i < |Catalog()|
      ensures MatchesSearch(Catalog()[i], "") && MatchesCategory(Catalog()[i], "all")
    {
      ContainsEmpty(Catalog()[i].name);
    }
    FilterKeepsAll(Catalog(), t => MatchesSearch(t, "") && MatchesCategory(t, "all"));
    assert FilterTemplates(Catalog(), "", "all") == Catalog();
  }

  /** `templateTypeMap`. */
  const TemplateTypeMap: map<string, string> := map[
    "Blog" := "blog",
    "E-commerce" := "ecommerce",
    "Portfolio" := "portfolio",
    "Landing Page" := "landing",
    "Community Forum" := "social",
    "Documentation" := "content"]

  /** `templateTypeMap[name] || 'landing'`. */
  function TemplateType(name: string): (r: string)
    ensures name in TemplateTypeMap ==> r == TemplateTypeMap[name]
    ensures name !in TemplateTypeMap ==> r == "landing"
    ensures r in CatalogTypeList
  {
    if name in TemplateTypeMap && TemplateTypeMap[name] != "" then TemplateTypeMap[name] else "landing"
  }

  /** The catalog's names map, in order, to the six template types, so the fallback is never used for them. */
  lemma CatalogTypes()
    ensures forall i :: 0 <= i < |Catalog()| ==> Catalog()[i].name in TemplateTypeMap
    ensures forall i :: 0 <= i < |Catalog()| ==> TemplateType(Catalog()[i].name) == CatalogTypeList[i]
  {
  }

  /** The template types of the catalog entries, in catalog order. */
  const CatalogTypeList: seq<string> := ["blog", "ecommerce", "portfolio", "landing", "social", "content"]

  /** The editor route `/editor/<id>?template=<type>`. */
  function EditorUrl(id: string, templateType: string): (url: string)
    ensures |url| == 18 + |id| + |templateType|
    ensures StartsWith(url, "/editor/")
    ensures url[8..8 + |id|] == id
    ensures url[8 + |id|..] == "?template=" + templateType
  {
    var url := "/editor/" + id + "?template=" + templateType;
    assert url[8..8 + |id|] == id;
    assert url[8 + |id|..] == "?template=" + templateType;
    url
  }

  /** `handleSelectTemplate`: the route for template `t` and the freshly drawn project id. */
  function SelectTemplate(t: Template, newProjectId: string): (url: string)
    ensures |url| == 18 + |newProjectId| + |TemplateType(t.name)|
    ensures StartsWith(url, "/editor/") && url[8..8 + |newProjectId|] == newProjectId
    ensures url[8 + |newProjectId|..] == "?template=" + TemplateType(t.name)
    ensures TemplateType(t.name) in CatalogTypeList
  {
    EditorUrl(newProjectId, TemplateType(t.name))
  }

  /** Distinct (id, type) pairs give distinct routes, as long as the id has no `?`. */
  lemma EditorUrlInjective(a: string, t: string, b: string, u: string)
    requires '?' !in a && '?' !in b
    requires EditorUrl(a, t) == EditorUrl(b, u)
    ensures a == b && t == u
  {
    var x, y := EditorUrl(a, t), EditorUrl(b, u);
    assert x[8 + |a|] == '?' && y[8 + |b|] == '?';
    assert |a| == |b|;
    assert a == x[8..8 + |a|] == y[8..8 + |b|] == b;
    assert "?template=" + t == "?template=" + u;
    assert t == ("?template=" + t)[10..];
    assert u == ("?template=" + u)[10..];
  }

  /** Choosing catalog entry `i` leads to the editor with that entry's mapped type. */
  lemma SelectCatalogEntry(i: nat, newProjectId: string)
    requires i < 6
    ensures SelectTemplate(Catalog()[i], newProjectId)
         == "/editor/" + newProjectId + "?template=" + CatalogTypeList[i]
  {
    CatalogTypes();
  }
}
