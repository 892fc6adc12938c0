/**
 * The preview page (`/preview/:id`): the loaded project and what the page
 * shows for it, with every missing or empty field replaced by its default.
 */
module Preview {
  import opened Wrappers
  import opened Document

  /** What the page renders. */
  datatype View =
    | LoadingView
    | NotFoundView
    | PageView(projectName: string, headerTitle: string, heroHeading: string, heroSubheading: string,
               buttonText: string, bodyText: string, footerTitle: string, published: bool)

  /** The view for a loading flag and a possibly null project. */
  function Render(loading: bool, project: Option<Project>): (v: View)
    ensures v.LoadingView? <==> loading
    ensures v.NotFoundView? <==> !loading && project.None?
    ensures v.PageView? ==>
      var c := project.value.content;
      && v.headerTitle == v.footerTitle == SiteTitle(c)
      && v.heroHeading == HeroHeading(c) && v.heroSubheading == HeroSubheading(c)
      && v.buttonText == HeroButtonText(c) && v.bodyText == BodyText(c)
      && v.projectName == project.value.name && v.published == project.value.published
  {
    if loading then LoadingView
    else if project.None? then NotFoundView
    else
      var c := project.value.content;
      PageView(project.value.name, SiteTitle(c), HeroHeading(c), HeroSubheading(c),
               HeroButtonText(c), BodyText(c), SiteTitle(c), project.value.published)
  }

  /** `project ? { ...project, published: true } : null`. */
  function PublishLoaded(project: Option<Project>): (r: Option<Project>)
    ensures project.None? ==> r.None?
    ensures project.Some? ==> r == Some(Publish(project.value))
  {
    if project.Some? then Some(Publish(project.value)) else None
  }

  /** A loaded preview of the initial document shows its hero and text sections, whose texts are the same strings the page falls back to (Preview.tsx:125-141). */
  lemma InitialView(id: string)
    ensures Render(false, Some(InitialProject(id))) ==
      PageView("My New Website", DefaultHeading, DefaultHeading, DefaultSubheading,
               DefaultButtonText, DefaultBodyText, DefaultHeading, false)
  {
    InitialPreview();
  }

  /** Every text the page shows is non-empty, since each empty field falls back to a non-empty default. */
  lemma ShownTextsNonEmpty(p: Project)
    ensures var v := Render(false, Some(p));
      v.headerTitle != "" && v.heroHeading != "" && v.heroSubheading != "" && v.buttonText != "" && v.bodyText != ""
  {
  }

  /** Publishing changes only the published badge of the page. */
  lemma PublishChangesOnlyBadge(p: Project)
    ensures var before, after := Render(false, Some(p)), Render(false, PublishLoaded(Some(p)));
      before.PageView? && after == before.(published := true)
  {
  }

  class PreviewPage {
    var project: Option<Project>
    var loading: bool

    constructor ()
      ensures project.None? && loading
    {
      project := None;
      loading := true;
    }

    /** The load timer firing: the mock project is installed and loading ends. */
    method Load(id: string)
      modifies this
      ensures project == Some(InitialProject(id)) && !loading
    {
      project := Some(InitialProject(id));
      loading := false;
    }

    /** Publish: a loaded project becomes published; a null project stays null. */
    method HandlePublish()
      modifies this
      ensures project == PublishLoaded(old(project)) && loading == old(loading)
    {
      project := PublishLoaded(project);
    }
  }
}
