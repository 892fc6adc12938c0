/**
 * The editor page (`/editor/:id`): its state fields and the handlers that
 * replace them. Timer-delayed handlers are taken as atomic.
 */
module Editor {
  import opened Wrappers
  import opened Text
  import opened Document

  /** The Generate button is disabled while a generation runs or while the prompt is blank. */
  function GenerateDisabled(generating: bool, prompt: string): (r: bool)
    ensures !r <==> !generating && Trim(prompt) != ""
    ensures r <==> generating || IsBlank(prompt)
  {
    generating || Trim(prompt) == ""
  }

  class EditorPage {
    var project: Project
    var loading: bool
    var saving: bool
    var aiPrompt: string
    var generatingContent: bool

    /** The state before the load effect: an empty partial project whose `content` is `{}`. */
    constructor ()
      ensures project == Project("", "", "", "", Content(None, None), false, None)
      ensures loading && !saving && aiPrompt == "" && !generatingContent
    {
      project := Project("", "", "", "", Content(None, None), false, None);
      loading := true;
      saving := false;
      aiPrompt := "";
      generatingContent := false;
    }

    /** The load effect for route parameter `id`: install the mock project and stop loading. */
    method Load(id: string)
      modifies this
      ensures project == InitialProject(id) && !loading
      ensures saving == old(saving) && aiPrompt == old(aiPrompt) && generatingContent == old(generatingContent)
    {
      project := InitialProject(id);
      loading := false;
    }

    /** The title input. */
    method EditTitle(v: string)
      modifies this
      ensures project == old(project).(content := old(project).content.(title := Some(v)))
      ensures loading == old(loading) && saving == old(saving) && aiPrompt == old(aiPrompt) && generatingContent == old(generatingContent)
    {
      project := project.(content := project.content.(title := Some(v)));
    }

    /** Copy the sections, merge `f := v` into element `i` when it exists, store the copy. */
    method EditSectionField(i: nat, f: Field, v: string)
      modifies this
      ensures project == old(project).(content := EditSection(old(project).content, i, f, v))
      ensures loading == old(loading) && saving == old(saving) && aiPrompt == old(aiPrompt) && generatingContent == old(generatingContent)
    {
      var newSections := project.content.sections.GetOr([]);
      if i < |newSections| {
        newSections := newSections[i := SetField(newSections[i], f, v)];
      }
      project := project.(content := project.content.(sections := Some(newSections)));
    }

    /** The hero heading input: always position 0, whatever its type. */
    method EditHeroHeading(v: string)
      modifies this
      ensures project == old(project).(content := EditSection(old(project).content, 0, Heading, v))
      ensures loading == old(loading) && saving == old(saving) && aiPrompt == old(aiPrompt) && generatingContent == old(generatingContent)
    {
      EditSectionField(0, Heading, v);
    }

    /** The hero subheading input: position 0. */
    method EditHeroSubheading(v: string)
      modifies this
      ensures project == old(project).(content := EditSection(old(project).content, 0, Subheading, v))
      ensures loading == old(loading) && saving == old(saving) && aiPrompt == old(aiPrompt) && generatingContent == old(generatingContent)
    {
      EditSectionField(0, Subheading, v);
    }

    /** The text content input: position 1. */
    method EditTextContent(v: string)
      modifies this
      ensures project == old(project).(content := EditSection(old(project).content, 1, Body, v))
      ensures loading == old(loading) && saving == old(saving) && aiPrompt == old(aiPrompt) && generatingContent == old(generatingContent)
    {
      EditSectionField(1, Body, v);
    }

    /** The project name input in the settings tab. */
    method EditName(v: string)
      modifies this
      ensures project == old(project).(name := v)
      ensures loading == old(loading) && saving == old(saving) && aiPrompt == old(aiPrompt) && generatingContent == old(generatingContent)
    {
      project := project.(name := v);
    }

    /** The project description input in the settings tab. */
    method EditDescription(v: string)
      modifies this
      ensures project == old(project).(description := v)
      ensures loading == old(loading) && saving == old(saving) && aiPrompt == old(aiPrompt) && generatingContent == old(generatingContent)
    {
      project := project.(description := v);
    }

    /** The prompt text area. */
    method EditPrompt(v: string)
      modifies this
      ensures aiPrompt == v
      ensures project == old(project) && loading == old(loading) && saving == old(saving) && generatingContent == old(generatingContent)
    {
      aiPrompt := v;
    }

    /** Save: the flag is raised and, when the timer fires, lowered; the project is untouched. */
    method Save()
      modifies this
      ensures !saving
      ensures project == old(project) && loading == old(loading) && aiPrompt == old(aiPrompt) && generatingContent == old(generatingContent)
    {
      saving := true;
      saving := false;
    }

    /** Publish: only `published` changes, and it becomes true. */
    method HandlePublish()
      modifies this
      ensures project == Publish(old(project))
      ensures loading == old(loading) && saving == old(saving) && aiPrompt == old(aiPrompt) && generatingContent == old(generatingContent)
    {
      project := Publish(project);
    }

    /**
     * Generate: a blank prompt changes nothing. Otherwise the generated text
     * section is appended and the prompt cleared. When `sections` is missing
     * the spread in the timer callback throws, so the project and prompt stay
     * as they were and the in-flight flag is never lowered.
     */
    method HandleGenerateContent()
      modifies this
      ensures Trim(old(aiPrompt)) == "" ==>
        project == old(project) && aiPrompt == old(aiPrompt) && generatingContent == old(generatingContent)
      ensures Trim(old(aiPrompt)) != "" && old(project).content.sections.None? ==>
        project == old(project) && aiPrompt == old(aiPrompt) && generatingContent
      ensures Trim(old(aiPrompt)) != "" && old(project).content.sections.Some? ==>
        project == old(project).(content := AppendGenerated(old(project).content, old(aiPrompt)))
        && aiPrompt == "" && !generatingContent
      ensures loading == old(loading) && saving == old(saving)
    {
      if Trim(aiPrompt) == "" {
        return;
      }
      generatingContent := true;
      if project.content.sections.None? {
        return;
      }
      project := project.(content := AppendGenerated(project.content, aiPrompt));
      aiPrompt := "";
      generatingContent := false;
    }
  }

  /** Publishing twice is the same as publishing once. */
  method PublishTwice(page: EditorPage)
    modifies page
    ensures page.project == Publish(old(page.project))
  {
    page.HandlePublish();
    ghost var once := page.project;
    page.HandlePublish();
    assert page.project == once;
  }

  /** Loading then editing the heading touches only `sections[0].heading`. */
  method LoadThenEditHeading(page: EditorPage, id: string, v: string)
    modifies page
    ensures page.project.content.sections.Some? && |page.project.content.sections.value| == 2
    ensures page.project.content.sections.value[0] == InitialContent().sections.value[0].(heading := Some(v))
    ensures page.project.content.sections.value[1] == InitialContent().sections.value[1]
    ensures page.project.content.title == Some(DefaultHeading)
    ensures page.project.(content := InitialContent()) == InitialProject(id)
  {
    page.Load(id);
    page.EditHeroHeading(v);
  }
}
