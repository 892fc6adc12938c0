/**
 * The serverless `generate-website` handler: the request-status decision and
 * the fabricated three-section content it returns.
 */
module GenerateWebsite {
  import opened Wrappers
  import opened Text
  import opened Document

  /** The `prompt` member of the parsed body: absent, a string, or some other JSON value. */
  datatype PromptValue = Missing | Str(s: string) | NonString(truthy: bool)

  /** `{ prompt, type, style }` after `req.json()`; `kind` is the `type` member. */
  datatype Body = Body(prompt: PromptValue, kind: Option<string>, style: Option<string>)

  /** `body` is `None` when `req.json()` rejects or yields a value that cannot be destructured. */
  datatype Request = Request(httpMethod: string, body: Option<Body>)

  datatype ResponseBody = NoBody | ErrorBody(error: string) | ContentBody(content: Content)

  datatype Response = Response(status: int, headers: seq<(string, string)>, body: ResponseBody)

  /** The CORS headers every response carries. */
  const CorsHeaders: seq<(string, string)> := [
    ("Access-Control-Allow-Origin", "*"),
    ("Access-Control-Allow-Headers", "authorization, x-client-info, apikey, content-type"),
    ("Access-Control-Allow-Methods", "POST, GET, OPTIONS, PUT, DELETE"),
    ("Content-Type", "application/json")]

  const MissingPrompt := "Missing prompt parameter"
  const GenerationFailed := "Failed to generate website content"

  /** `!prompt`: absent, the empty string, or a falsy non-string value. */
  predicate PromptFalsy(p: PromptValue)
  {
    p.Missing? || (p.Str? && p.s == "") || (p.NonString? && !p.truthy)
  }

  /** `prompt.substring(0, 30)` plus `...` when the prompt is longer. */
  function ShortPrompt(prompt: string): (r: string)
    ensures |prompt| <= 30 ==> r == prompt
    ensures |prompt| > 30 ==> r == prompt[..30] + "..."
    ensures |r| == if |prompt| <= 30 then |prompt| else 33
  {
    prompt[..if |prompt| < 30 then |prompt| else 30] + (if |prompt| > 30 then "..." else "")
  }

  /** `Website based on: "${shortPrompt}"`: the prompt, cut to 30 characters and marked with `...` when longer, in quotes. */
  function WebsiteTitle(prompt: string): (t: string)
    ensures |prompt| <= 30 ==> t == "Website based on: \"" + prompt + "\""
    ensures |prompt| > 30 ==> t == "Website based on: \"" + prompt[..30] + "...\""
    ensures StartsWith(t, "Website based on: \"")
    ensures Contains(t, prompt[..if |prompt| < 30 then |prompt| else 30])
    ensures |t| == 20 + |ShortPrompt(prompt)|
  {
    var t := "Website based on: \"" + ShortPrompt(prompt) + "\"";
    ContainsInfix("Website based on: \"", prompt[..if |prompt| < 30 then |prompt| else 30],
                  (if |prompt| > 30 then "..." else "") + "\"");
    assert t == "Website based on: \"" + prompt[..if |prompt| < 30 then |prompt| else 30]
               + ((if |prompt| > 30 then "..." else "") + "\"");
    t
  }

  /** The hero section: the heading greets with the title, the subheading names the style and the type. */
  function MockHero(title: string, ty: string, st: string): (s: Section)
    ensures s.kind == "hero"
    ensures s.heading == Some("Welcome to " + title)
    ensures s.subheading == Some("This is a " + st + " " + ty + " generated based on your description")
  {
    Section("hero", Some("Welcome to " + title),
            Some("This is a " + st + " " + ty + " generated based on your description"),
            Some("Get Started"), Some("#"), None, None)
  }

  const TextLead := "This website was generated based on the following description: \""
  const TextTail := "\". In a real implementation, this would be generated by an AI service that would create custom content based on your description."

  /** The text section quotes the whole prompt. */
  function MockText(prompt: string): (s: Section)
    ensures s.kind == "text"
    ensures s.content == Some(TextLead + prompt + TextTail)
  {
    Section("text", None, None, None, None, Some(TextLead + prompt + TextTail), None)
  }

  /** The features section with its three placeholder items. */
  function MockFeatures(): (s: Section)
    ensures s.kind == "features"
    ensures s.items.Some? && |s.items.value| == 3
  {
    Section("features", Some("Features"), None, None, None, None,
            Some([ FeatureItem("Feature 1", "Description of feature 1"),
                   FeatureItem("Feature 2", "Description of feature 2"),
                   FeatureItem("Feature 3", "Description of feature 3") ]))
  }

  /** `generateMockContent(prompt, type = "landing-page", style = "modern")`. */
  function MockContent(prompt: string, kind: Option<string>, style: Option<string>): (c: Content)
    ensures c.title == Some(WebsiteTitle(prompt))
    ensures c.sections.Some? && |c.sections.value| == 3
    ensures c.sections.value[0] == MockHero(WebsiteTitle(prompt), kind.GetOr("landing-page"), style.GetOr("modern"))
    ensures c.sections.value[1] == MockText(prompt)
    ensures c.sections.value[2] == MockFeatures()
  {
    var title := WebsiteTitle(prompt);
    Content(Some(title), Some([
      MockHero(title, kind.GetOr("landing-page"), style.GetOr("modern")),
      MockText(prompt),
      MockFeatures()]))
  }

  /**
   * The handler's decision. OPTIONS answers 204 before parsing; a body that
   * does not parse, or a non-string truthy prompt (whose `substring` throws),
   * answers 500; a falsy prompt answers 400; a non-empty string prompt 200.
   */
  function Handler(req: Request): (r: Response)
    ensures r.headers == CorsHeaders
    ensures r.status in {200, 204, 400, 500}
    ensures r.status == 204 <==> req.httpMethod == "OPTIONS"
    ensures r.status == 204 ==> r.body == NoBody
    ensures r.status == 400 <==> req.httpMethod != "OPTIONS" && req.body.Some? && PromptFalsy(req.body.value.prompt)
    ensures r.status == 400 ==> r.body == ErrorBody(MissingPrompt)
    ensures r.status == 500 ==> r.body == ErrorBody(GenerationFailed)
    ensures r.status == 200 <==>
      req.httpMethod != "OPTIONS" && req.body.Some? && req.body.value.prompt.Str? && req.body.value.prompt.s != ""
    ensures r.status == 200 ==>
      var b := req.body.value;
      r.body == ContentBody(MockContent(b.prompt.s, b.kind, b.style))
  {
    if req.httpMethod == "OPTIONS" then Response(204, CorsHeaders, NoBody)
    else if req.body.None? then Response(500, CorsHeaders, ErrorBody(GenerationFailed))
    else
      var b := req.body.value;
      if PromptFalsy(b.prompt) then Response(400, CorsHeaders, ErrorBody(MissingPrompt))
      else if b.prompt.NonString? then Response(500, CorsHeaders, ErrorBody(GenerationFailed))
      else Response(200, CorsHeaders, ContentBody(MockContent(b.prompt.s, b.kind, b.style)))
  }

  /** The three sections are hero, text and features, and features lists exactly three items. */
  lemma ContentShape(prompt: string, kind: Option<string>, style: Option<string>)
    ensures var s := MockContent(prompt, kind, style).sections.value;
      && s[0].kind == "hero" && s[1].kind == "text" && s[2].kind == "features"
      && s[2].items.Some? && |s[2].items.value| == 3
  {
  }

  /** The hero heading is "Welcome to " and the title; the text section holds the whole, untruncated prompt. */
  lemma HeadingAndText(prompt: string, kind: Option<string>, style: Option<string>)
    ensures var c := MockContent(prompt, kind, style);
      && c.sections.value[0].heading == Some("Welcome to " + c.title.value)
      && c.sections.value[1].content.Some?
      && Contains(c.sections.value[1].content.value, prompt)
  {
    ContainsInfix(TextLead, prompt, TextTail);
  }

  /** An omitted `type` or `style` falls back to `landing-page` and `modern`, and both appear in the subheading. */
  lemma SubheadingDefaults(prompt: string, kind: Option<string>, style: Option<string>)
    ensures var sub := MockContent(prompt, kind, style).sections.value[0].subheading;
      && sub.Some?
      && Contains(sub.value, kind.GetOr("landing-page"))
      && Contains(sub.value, style.GetOr("modern"))
  {
    var ty, st := kind.GetOr("landing-page"), style.GetOr("modern");
    var sub := "This is a " + st + " " + ty + " generated based on your description";
    ContainsInfix("This is a ", st, " " + ty + " generated based on your description");
    assert sub == "This is a " + st + (" " + ty + " generated based on your description");
    ContainsInfix("This is a " + st + " ", ty, " generated based on your description");
  }
}
