/**
 * The page-builder's content document: a project's `content` holds a title
 * and an ordered sequence of sections tagged by `type`. Every field is
 * optional, as in the untyped JSON the editor and the preview share.
 */
module Document {
  import opened Wrappers

  /** One entry of a features section's `items`. */
  datatype FeatureItem = FeatureItem(title: string, description: string)

  /** A section record; `kind` is its `type` tag, every other field may be missing. */
  datatype Section = Section(
    kind: string,
    heading: Option<string>,
    subheading: Option<string>,
    buttonText: Option<string>,
    buttonLink: Option<string>,
    content: Option<string>,
    items: Option<seq<FeatureItem>>)

  /** `project.content`; `{}` is `Content(None, None)`. */
  datatype Content = Content(title: Option<string>, sections: Option<seq<Section>>)

  /** The fields of a project that the pages read or change (timestamps are left out). */
  datatype Project = Project(
    id: string,
    name: string,
    description: string,
    template: string,
    content: Content,
    published: bool,
    publishedUrl: Option<string>)

  function HeroSection(heading: string, subheading: string, buttonText: string, buttonLink: string): Section
  {
    Section("hero", Some(heading), Some(subheading), Some(buttonText), Some(buttonLink), None, None)
  }

  function TextSection(text: string): Section
  {
    Section("text", None, None, None, None, Some(text), None)
  }

  const DefaultHeading := "Welcome to my website"
  const DefaultSubheading := "This is a website created with Buildify"
  const DefaultButtonText := "Learn More"
  const DefaultBodyText := "This is a sample text section. You can edit this content in the editor."
  const DefaultSiteTitle := "Website Title"

  /** The document both the editor and the preview load for any id. */
  function InitialContent(): (c: Content)
    ensures c.title == Some(DefaultHeading)
    ensures c.sections.Some? && |c.sections.value| == 2
    ensures c.sections.value[0].kind == "hero" && c.sections.value[1].kind == "text"
  {
    Content(Some(DefaultHeading), Some([
      HeroSection(DefaultHeading, DefaultSubheading, DefaultButtonText, "#"),
      TextSection(DefaultBodyText)]))
  }

  /** The mock project the editor and the preview install when they load `id`. */
  function InitialProject(id: string): (p: Project)
    ensures p.id == id && !p.published && p.content == InitialContent()
  {
    Project(id, "My New Website", "A website created with Buildify", "blog", InitialContent(), false, None)
  }

  /** JavaScript's `a || d` on an optional string: a missing or empty value falls back. */
  function OrDefault(o: Option<string>, d: string): (r: string)
    ensures o.Some? && o.value != "" ==> r == o.value
    ensures o.None? || o.value == "" ==> r == d
  {
    if o.Some? && o.value != "" then o.value else d
  }

  /** `content?.sections?.[i]`. */
  function SectionAt(c: Content, i: nat): (r: Option<Section>)
    ensures r.Some? <==> c.sections.Some? && i < |c.sections.value|
    ensures r.Some? ==> r.value == c.sections.value[i]
  {
    if c.sections.Some? && i < |c.sections.value| then Some(c.sections.value[i]) else None
  }

  /** The text fields the editor's forms edit. */
  datatype Field = Heading | Subheading | Body

  function FieldOf(s: Section, f: Field): Option<string>
  {
    match f
    case Heading => s.heading
    case Subheading => s.subheading
    case Body => s.content
  }

  /** `{ ...s, [f]: v }`: the shallow merge that sets one field. */
  function SetField(s: Section, f: Field, v: string): (r: Section)
    ensures FieldOf(r, f) == Some(v)
    ensures forall g :: g != f ==> FieldOf(r, g) == FieldOf(s, g)
    ensures r.kind == s.kind && r.buttonText == s.buttonText && r.buttonLink == s.buttonLink && r.items == s.items
  {
    match f
    case Heading => s.(heading := Some(v))
    case Subheading => s.(subheading := Some(v))
    case Body => s.(content := Some(v))
  }

  /** `content?.sections?.[i]?.[f]`, missing when the section or the field is missing. */
  function ReadField(c: Content, i: nat, f: Field): Option<string>
  {
    var s := SectionAt(c, i);
    if s.Some? then FieldOf(s.value, f) else None
  }

  /**
   * The editor's section edit: copy `sections || []`, replace element `i`
   * with a merged copy when it exists, and store the copy back.
   */
  function EditSection(c: Content, i: nat, f: Field, v: string): (r: Content)
    ensures r.title == c.title
    ensures r.sections.Some?
    ensures |r.sections.value| == |c.sections.GetOr([])|
    ensures forall j :: 0 <= j < |r.sections.value| && j != i ==> r.sections.value[j] == c.sections.GetOr([])[j]
    ensures i < |c.sections.GetOr([])| ==> r.sections.value[i] == SetField(c.sections.GetOr([])[i], f, v)
    ensures c.sections.Some? && i >= |c.sections.value| ==> r == c
  {
    var sections := c.sections.GetOr([]);
    var updated := if i < |sections| then sections[i := SetField(sections[i], f, v)] else sections;
    c.(sections := Some(updated))
  }

  /** The section the editor's generate step appends for `prompt`. */
  function GeneratedSection(prompt: string): (s: Section)
    ensures s.kind == "text"
    ensures s.content == Some("Generated content based on: \"" + prompt + "\"")
    ensures s.heading.None? && s.subheading.None? && s.buttonText.None? && s.buttonLink.None? && s.items.None?
  {
    TextSection("Generated content based on: \"" + prompt + "\"")
  }

  /** `{ ...content, sections: [...content.sections, generated] }`. */
  function AppendGenerated(c: Content, prompt: string): (r: Content)
    requires c.sections.Some?
    ensures r.title == c.title
    ensures r.sections.Some? && |r.sections.value| == |c.sections.value| + 1
    ensures r.sections.value[..|c.sections.value|] == c.sections.value
    ensures r.sections.value[|c.sections.value|] == GeneratedSection(prompt)
  {
    var r := c.(sections := Some(c.sections.value + [GeneratedSection(prompt)]));
    assert r.sections.value[..|c.sections.value|] == c.sections.value;
    r
  }

  /** `{ ...project, published: true }`. */
  function Publish(p: Project): (r: Project)
    ensures r.published
    ensures r.(published := p.published) == p
    ensures r == p <==> p.published
  {
    p.(published := true)
  }

  // The values the preview shows (and the editor's input boxes, with "" as the default).

  /** Header and footer title. */
  function SiteTitle(c: Content): string
  {
    OrDefault(c.title, DefaultSiteTitle)
  }

  function HeroHeading(c: Content): string
  {
    OrDefault(ReadField(c, 0, Heading), DefaultHeading)
  }

  function HeroSubheading(c: Content): string
  {
    OrDefault(ReadField(c, 0, Subheading), DefaultSubheading)
  }

  function HeroButtonText(c: Content): string
  {
    var s := SectionAt(c, 0);
    OrDefault(if s.Some? then s.value.buttonText else None, DefaultButtonText)
  }

  function BodyText(c: Content): string
  {
    OrDefault(ReadField(c, 1, Body), DefaultBodyText)
  }

  /** The value an editor input box shows for field `f` of section `i`. */
  function InputValue(c: Content, i: nat, f: Field): string
  {
    OrDefault(ReadField(c, i, f), "")
  }

  /**
   * The preview of the initial document: the title is the document's own title, which equals
   * the default hero heading, and the hero and body texts equal the code's fallback texts.
   */
  lemma InitialPreview()
    ensures SiteTitle(InitialContent()) == DefaultHeading
    ensures HeroHeading(InitialContent()) == DefaultHeading
    ensures HeroSubheading(InitialContent()) == DefaultSubheading
    ensures HeroButtonText(InitialContent()) == DefaultButtonText
    ensures BodyText(InitialContent()) == DefaultBodyText
  {
  }

  /**
   * Editing field `f` of an existing section `i` to a non-empty value makes
   * the edited position read back that value, and every other position and
   * field reads back as before.
   */
  lemma EditReadsBack(c: Content, i: nat, f: Field, v: string, j: nat, g: Field)
    requires c.sections.Some? && i < |c.sections.value|
    ensures ReadField(EditSection(c, i, f, v), i, f) == Some(v)
    ensures v != "" ==> InputValue(EditSection(c, i, f, v), i, f) == v
    ensures (j, g) != (i, f) ==> ReadField(EditSection(c, i, f, v), j, g) == ReadField(c, j, g)
  {
  }

  /** The editor's hero-heading edit shows up in the preview and changes nothing else the preview shows. */
  lemma HeadingEditInPreview(c: Content, v: string)
    requires c.sections.Some? && |c.sections.value| > 0 && v != ""
    ensures HeroHeading(EditSection(c, 0, Heading, v)) == v
    ensures HeroSubheading(EditSection(c, 0, Heading, v)) == HeroSubheading(c)
    ensures HeroButtonText(EditSection(c, 0, Heading, v)) == HeroButtonText(c)
    ensures BodyText(EditSection(c, 0, Heading, v)) == BodyText(c)
    ensures SiteTitle(EditSection(c, 0, Heading, v)) == SiteTitle(c)
  {
    EditReadsBack(c, 0, Heading, v, 0, Subheading);
    EditReadsBack(c, 0, Heading, v, 1, Body);
  }

  /** The editor's text edit shows up as the preview's body text and leaves the hero alone. */
  lemma BodyEditInPreview(c: Content, v: string)
    requires c.sections.Some? && |c.sections.value| > 1 && v != ""
    ensures BodyText(EditSection(c, 1, Body, v)) == v
    ensures HeroHeading(EditSection(c, 1, Body, v)) == HeroHeading(c)
    ensures HeroSubheading(EditSection(c, 1, Body, v)) == HeroSubheading(c)
    ensures HeroButtonText(EditSection(c, 1, Body, v)) == HeroButtonText(c)
  {
    EditReadsBack(c, 1, Body, v, 0, Heading);
    EditReadsBack(c, 1, Body, v, 0, Subheading);
  }
}
