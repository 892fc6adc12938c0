/** The project table of the admin area. */
module AdminProjectsTable {
  import opened Text
  import opened Lists
  import opened Tables

  datatype ProjectRow = ProjectRow(id: int, name: string, owner: string, template: string,
                                   status: string, created: string, updated: string)

  /** The five projects the table starts with. */
  function SeedProjects(): (r: seq<ProjectRow>)
    ensures |r| == 5
  {
    [ ProjectRow(1, "E-commerce Website", "John Doe", "E-commerce", "Published", "2023-06-15", "2023-07-02"),
      ProjectRow(2, "Personal Blog", "Jane Smith", "Blog", "Draft", "2023-07-10", "2023-07-10"),
      ProjectRow(3, "Portfolio Site", "Robert Johnson", "Portfolio", "Published", "2023-05-22", "2023-06-18"),
      ProjectRow(4, "Community Forum", "Emily Davis", "Forum", "Draft", "2023-07-05", "2023-07-08"),
      ProjectRow(5, "Product Documentation", "Michael Wilson", "Documentation", "Published", "2023-06-30", "2023-07-12") ]
  }

  /** The search term occurs, ignoring case, in the name, the owner or the template. */
  predicate Matches(p: ProjectRow, term: string)
  {
    ContainsIgnoreCase(p.name, term) || ContainsIgnoreCase(p.owner, term) || ContainsIgnoreCase(p.template, term)
  }

  /** `filteredProjects`: the matching rows, in their original order. */
  function FilteredProjects(projects: seq<ProjectRow>, term: string): (r: seq<ProjectRow>)
    ensures IsSubseq(r, projects)
    ensures forall p :: p in r <==> p in projects && Matches(p, term)
    ensures forall p :: multiset(r)[p] == if Matches(p, term) then multiset(projects)[p] else 0
  {
    Filter(projects, p => Matches(p, term))
  }

  /** `currentProjects`: the rows on page `page` of the filtered list. */
  function CurrentProjects(projects: seq<ProjectRow>, term: string, page: int): (r: seq<ProjectRow>)
    ensures page >= 1 ==> |r| <= PageSize
    ensures page > TotalPages(|FilteredProjects(projects, term)|) ==> r == []
  {
    PageRows(FilteredProjects(projects, term), page)
  }

  /** With the five seeded rows there is at most one page whatever the search, so the pager never shows. */
  lemma SeedHasOnePage(term: string)
    ensures TotalPages(|FilteredProjects(SeedProjects(), term)|) <= 1
    ensures !PagerShown(|FilteredProjects(SeedProjects(), term)|)
  {
    var n := |FilteredProjects(SeedProjects(), term)|;
    assert n <= 5;
    PagerShownIff(n);
  }

  /** The summary's upper figure never exceeds the number of matching rows. */
  lemma SummaryWithinCount(projects: seq<ProjectRow>, term: string, page: int)
    requires page >= 1
    ensures ShowingTo(page, |FilteredProjects(projects, term)|) <= |FilteredProjects(projects, term)|
  {
    SummaryBounds(FilteredProjects(projects, term), page);
  }

  /** The template badge: E-commerce green, Blog blue, Portfolio purple, Forum red, anything else gray. */
  function TemplateColor(template: string): (c: Color)
    ensures c == Green <==> template == "E-commerce"
    ensures c == Blue <==> template == "Blog"
    ensures c == Purple <==> template == "Portfolio"
    ensures c == Red <==> template == "Forum"
    ensures c == Gray <==> template !in {"E-commerce", "Blog", "Portfolio", "Forum"}
  {
    if template == "E-commerce" then Green
    else if template == "Blog" then Blue
    else if template == "Portfolio" then Purple
    else if template == "Forum" then Red
    else Gray
  }

  /** The status badge: Published green, anything else yellow. */
  function StatusColor(status: string): (c: Color)
    ensures c == Green <==> status == "Published"
    ensures c == Yellow <==> status != "Published"
  {
    if status == "Published" then Green else Yellow
  }
}
