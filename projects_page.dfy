/**
 * The "My Projects" page: the project list, the search box that narrows it,
 * and deletion by id. The search effect re-runs whenever the query or the
 * list changes; the class keeps its result as an invariant.
 */
module ProjectsPage {
  import opened Wrappers
  import opened Text
  import opened Lists
  import opened Document

  /** The query occurs, ignoring case, in the name or the description. */
  predicate MatchesQuery(p: Project, query: string)
  {
    ContainsIgnoreCase(p.name, query) || ContainsIgnoreCase(p.description, query)
  }

  /**
   * The search effect: a query that is blank after trimming shows every
   * project; any other query is matched untrimmed. `!searchQuery.trim()` is
   * written `IsBlank(query)`, which `Trim`'s contract makes the same test.
   */
  function SearchFilter(projects: seq<Project>, query: string): (r: seq<Project>)
    ensures IsBlank(query) ==> r == projects
    ensures IsSubseq(r, projects)
    ensures !IsBlank(query) ==> forall p :: p in r <==> p in projects && MatchesQuery(p, query)
    ensures !IsBlank(query) ==> forall p :: multiset(r)[p] == if MatchesQuery(p, query) then multiset(projects)[p] else 0
  {
    if IsBlank(query) then SubseqRefl(projects); projects else Filter(projects, (p: Project) => MatchesQuery(p, query))
  }

  /** Stated with `trim()` itself: an empty trimmed query shows every project, any other shows exactly the matches. */
  lemma SearchByTrim(projects: seq<Project>, query: string)
    ensures Trim(query) == "" ==> SearchFilter(projects, query) == projects
    ensures Trim(query) != "" ==> forall p :: p in SearchFilter(projects, query) <==> p in projects && MatchesQuery(p, query)
  {
  }

  /** `list.filter(project => project.id !== id)`. */
  function RemoveId(projects: seq<Project>, id: string): (r: seq<Project>)
    ensures IsSubseq(r, projects)
    ensures forall p :: p in r <==> p in projects && p.id != id
    ensures forall p :: multiset(r)[p] == if p.id != id then multiset(projects)[p] else 0
  {
    Filter(projects, (p: Project) => p.id != id)
  }

  /** Removing an id that no project carries leaves the list as it was. */
  lemma {:induction false} RemoveAbsentId(projects: seq<Project>, id: string)
    requires forall i :: 0 <= i < |projects| ==> projects[i].id != id
    ensures RemoveId(projects, id) == projects
  {
    FilterKeepsAll(projects, (p: Project) => p.id != id);
  }

  /** A filtered list that is a subsequence of the full list stays one after both lose the same id. */
  lemma RemovePreservesSubseq(filtered: seq<Project>, projects: seq<Project>, id: string)
    requires IsSubseq(filtered, projects)
    ensures IsSubseq(RemoveId(filtered, id), RemoveId(projects, id))
  {
    FilterMonotone(filtered, projects, (p: Project) => p.id != id);
  }

  /** Searching after a delete gives the same list as deleting from the search result. */
  lemma {:induction false} SearchAfterRemove(projects: seq<Project>, query: string, id: string)
    ensures SearchFilter(RemoveId(projects, id), query) == RemoveId(SearchFilter(projects, query), id)
  {
    if !IsBlank(query) {
      FilterCommutes(projects, (p: Project) => p.id != id, (p: Project) => MatchesQuery(p, query));
    }
  }

  /** The three projects `fetchProjects` supplies; `content: {}` and no timestamps. */
  function MockProjects(): (r: seq<Project>)
    ensures |r| == 3
  {
    [ Project("1", "Personal Blog", "A simple blog website", "blog", Content(None, None), false, None),
      Project("2", "E-commerce Store", "Online store for selling products", "ecommerce",
              Content(None, None), true, Some("https://example.com/store")),
      Project("3", "Portfolio", "Professional portfolio website", "portfolio",
              Content(None, None), true, Some("https://example.com/portfolio")) ]
  }

  /** The mock projects have distinct ids, and exactly the published ones carry a published URL. */
  lemma MockProjectsWellFormed()
    ensures forall i, j :: 0 <= i < j < |MockProjects()| ==> MockProjects()[i].id != MockProjects()[j].id
    ensures forall i :: 0 <= i < |MockProjects()| ==>
      (MockProjects()[i].published <==> MockProjects()[i].publishedUrl.Some?)
  {
  }

  class ProjectsPage {
    var projects: seq<Project>
    var filteredProjects: seq<Project>
    var searchQuery: string
    var loading: bool

    /** The shown list is always the search effect applied to the full list. */
    ghost predicate Valid()
      reads this
    {
      filteredProjects == SearchFilter(projects, searchQuery)
    }

    constructor ()
      ensures Valid()
      ensures projects == [] && filteredProjects == [] && searchQuery == "" && loading
    {
      projects := [];
      filteredProjects := [];
      searchQuery := "";
      loading := true;
    }

    /**
     * The mount effect. `signedIn` is the answer of the remote user lookup.
     * Without a user the page goes to `/login` and keeps loading; otherwise
     * it takes the mock list and stops loading.
     */
    method Mount(signedIn: bool) returns (route: Option<string>)
      requires Valid()
      modifies this
      ensures Valid() && searchQuery == old(searchQuery)
      ensures !signedIn ==> route == Some("/login") && projects == old(projects) && loading == old(loading)
      ensures signedIn ==> route == None && projects == MockProjects() && !loading
    {
      if !signedIn {
        return Some("/login");
      }
      projects := MockProjects();
      filteredProjects := MockProjects();
      loading := false;
      // the search effect, because `projects` changed
      filteredProjects := SearchFilter(projects, searchQuery);
      route := None;
    }

    /** Typing in the search box, followed by the search effect. */
    method SetSearchQuery(query: string)
      requires Valid()
      modifies this
      ensures Valid()
      ensures searchQuery == query && projects == old(projects) && loading == old(loading)
    {
      searchQuery := query;
      filteredProjects := SearchFilter(projects, searchQuery);
    }

    /**
     * `handleDeleteProject`: drops every project with this id from both
     * lists and keeps the rest in order. The search effect that follows
     * leaves the shown list as the delete made it.
     */
    method DeleteProject(id: string)
      requires Valid()
      modifies this
      ensures Valid()
      ensures projects == RemoveId(old(projects), id)
      ensures filteredProjects == RemoveId(old(filteredProjects), id)
      ensures searchQuery == old(searchQuery) && loading == old(loading)
    {
      var before, shown := projects, filteredProjects;
      SearchAfterRemove(before, searchQuery, id);
      projects := RemoveId(before, id);
      filteredProjects := RemoveId(shown, id);
      // the search effect, because `projects` changed; it recomputes the same list
      filteredProjects := SearchFilter(projects, searchQuery);
      assert filteredProjects == RemoveId(shown, id);
    }
  }

  /** Deleting an id that is on neither list changes neither list. */
  method DeleteAbsent(page: ProjectsPage, id: string)
    requires page.Valid()
    requires forall i :: 0 <= i < |page.projects| ==> page.projects[i].id != id
    modifies page
    ensures page.Valid()
    ensures page.projects == old(page.projects) && page.filteredProjects == old(page.filteredProjects)
  {
    RemoveAbsentId(page.projects, id);
    forall i | 0 <= i < |page.filteredProjects| ensures page.filteredProjects[i].id != id {
      assert page.filteredProjects[i] in page.projects;
    }
    RemoveAbsentId(page.filteredProjects, id);
    page.DeleteProject(id);
  }
}
