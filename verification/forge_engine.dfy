/**
 * The forge engine (`server/forge-engine.ts`): the four agents, each of which
 * asks the language model for a JSON document and falls back to a
 * deterministic template when there is no usable answer, and the pipeline
 * that runs them in the order Architect, Copywriter, Visual, Integration.
 *
 * Everything outside the engine is an input: the model's answer to each
 * prompt, the JSON decoder, the image generator, `titleCase`, `slugify`,
 * the clock, the random call-to-action pick and the catalogs.
 */
module ForgeEngine {
  import opened Wrappers
  import opened Json
  import opened Text
  import opened ForgeTypes

  // =====================================================================
  // Catalog validation

  /** `validateIndustry`: the value is one of the catalog's industries. */
  function ValidateIndustry(cat: Catalog, industry: string): (ok: bool)
    ensures ok <==> exists i :: 0 <= i < |cat.industries| && cat.industries[i] == industry
  {
    industry in cat.industries
  }

  /** `validateTheme`: the value is one of the catalog's themes. */
  function ValidateTheme(cat: Catalog, theme: string): (ok: bool)
    ensures ok <==> exists i :: 0 <= i < |cat.themes| && cat.themes[i] == theme
  {
    theme in cat.themes
  }

  // =====================================================================
  // External collaborators

  /** The data the Architect prompt embeds. */
  datatype ArchitectPayload = ArchitectPayload(
    project: string,
    industry: string,
    theme: string,
    primaryGoal: string,
    tone: Tone,
    targetAudience: string,
    keyFeatures: seq<string>)

  /**
   * The language model, seen as the answer it gives to each agent's prompt;
   * each prompt is identified by the data it embeds. `None` is a failed or
   * empty call.
   */
  datatype ChatModel = ChatModel(
    architect: ArchitectPayload -> Option<string>,
    copywriter: (ArchitectBlueprint, Integrations, string, string) -> Option<string>,
    visual: (seq<PaletteEntry>, string, Tone) -> Option<string>,
    integration: (ForgeRequest, ArchitectBlueprint) -> Option<string>)

  /**
   * `JSON.parse` read as each agent's record type. `None` stands for text
   * that does not parse and for the literal `null`, both of which make the
   * agent use its template.
   */
  datatype Decoders = Decoders(
    blueprint: string -> Option<ArchitectBlueprint>,
    copy: string -> Option<CopywriterDeliverable>,
    visual: string -> Option<VisualDirective>,
    integration: string -> Option<IntegrationPlan>)

  /** Every collaborator the pipeline calls but this model does not define. */
  datatype Externals = Externals(
    chat: ChatModel,
    decode: Decoders,
    heroImage: string -> Option<string>,
    titleCase: string -> string,
    slugify: string -> string)

  // =====================================================================
  // Decoding the model's answer

  /** `parseJson`: no value for the empty string, otherwise whatever the decoder makes of the text. */
  function ParseJson<T>(raw: string, decode: string -> Option<T>): (r: Option<T>)
    ensures r.Some? <==> raw != "" && decode(raw).Some?
    ensures r.Some? ==> decode(raw) == r
  {
    if raw == "" then None else decode(raw)
  }

  /**
   * `parseJson(completion ?? "") ?? fallback`, the step every agent ends
   * with: the decoded answer when there is one, the template otherwise.
   */
  function DecodeOrFallback<T>(completion: Option<string>, decode: string -> Option<T>, fallback: T): (r: T)
    ensures completion.Some? && completion.value != "" && decode(completion.value).Some? ==>
              r == decode(completion.value).value
    ensures completion.Some? && completion.value != "" && decode(completion.value).None? ==> r == fallback
    ensures completion.None? || completion.value == "" ==> r == fallback
  {
    ParseJson(completion.GetOr(""), decode).GetOr(fallback)
  }

  // =====================================================================
  // Architect agent

  const FallbackTitles: seq<string> := ["Home", "Solutions", "AI Studio", "Resources", "Launch"]

  function Titles(sitemap: seq<Page>): (ts: seq<string>)
    ensures |ts| == |sitemap|
    ensures forall i :: 0 <= i < |sitemap| ==> ts[i] == sitemap[i].title
  {
    seq(|sitemap|, i requires 0 <= i < |sitemap| => sitemap[i].title)
  }

  /**
   * The fixed prose the four templates are made of: the page descriptions
   * and key features, the positioning tail and UX directives of the
   * blueprint, the sub-headline lead and meta description of the copy, the
   * hero-prompt tail and design effects of the visual directive, and the
   * booking guide and automation notes of the integration plan.
   */
  datatype TemplateProse = TemplateProse(
    homeIntro: string,
    homeGoalLead: string,
    homeFeatures: seq<string>,
    solutionsDescription: string,
    solutionsFeatures: seq<string>,
    studioDescription: string,
    studioFeatures: seq<string>,
    resourcesDescription: string,
    resourcesFeatures: seq<string>,
    launchDescription: string,
    launchFeatures: seq<string>,
    positioningTail: string,
    uxDirectives: seq<string>,
    subHeadlineLead: string,
    metaDescription: string,
    heroPromptTail: string,
    designEffects: seq<string>,
    bookingGuide: string,
    automationNotes: seq<string>)

  /** The prose `forge-engine.ts` writes into its templates. */
  const EngineProse := TemplateProse(
    homeIntro := "Immersive hero with animated layers introducing ",
    homeGoalLead := ". Showcase key differentiators and a prominent ",
    homeFeatures := [
      "Hero narrative with layered motion graphics",
      "Value proposition grid mapped to audience pain-points",
      "Conversion CTA ribbon with persistent micro copy"],
    solutionsDescription := "Modular blocks presenting product pillars with embedded animations.",
    solutionsFeatures := [
      "Problem > Outcome storytelling columns",
      "Interactive feature blueprints with depth transitions",
      "Customer archetype tabs highlighting tailored impact"],
    studioDescription :=
      "Dynamic workspace showcasing how NexaForge automation assembles web experiences in real-time.",
    studioFeatures := [
      "Storyboard timeline of the agentic build process",
      "Live preview container with generated scenes",
      "Developer mode callout emphasising Supabase + Stripe stack"],
    resourcesDescription :=
      "Thought-leadership hub featuring AI playbooks, templates, and benchmark reports.",
    resourcesFeatures := [
      "Filterable content matrix with AI tags",
      "SEO rich snippets for each resource",
      "Smart subscribe banner with contextual offers"],
    launchDescription := "Conversion page guiding users into a paid plan or bespoke build engagement.",
    launchFeatures := [
      "Pricing table integrated with Stripe checkout links",
      "Trust indicators and compliance badges",
      "Interactive FAQ leveraging accordions and pinned CTA"],
    positioningTail := " experience with agentic site creation powered by AI.",
    uxDirectives := [
      "Utilize layered glassmorphic shells and particle gradients for hero scenes.",
      "Apply magnetic cursor interactions to emphasize CTA states.",
      "Blend motion easing inspired by Framer Motion for soft yet premium transitions.",
      "Contrast copy blocks with diagonal dividers and organic blobs to add depth."],
    subHeadlineLead :=
      "NexaForge Pro orchestrates architect, copywriter, visual, and integration agents to deliver production-grade sites that convert. ",
    metaDescription :=
      "NexaForge Pro is the AI-native builder where orchestrated agents craft performant websites with Supabase, Stripe, and OpenAI.",
    heroPromptTail := " style with atmospheric lighting and layered glass surfaces.",
    designEffects := [
      "Glassmorphism surfaces with blurred gradient overlays",
      "Floating particle system responding to cursor movement",
      "Layered depth using parallax background beams"],
    bookingGuide :=
      "Create a Cal.com event for 30 minute discovery calls. Embed using the official React component and sync availability from Supabase.",
    automationNotes := [
      "Sync generated copy and media assets into Supabase storage bucket `forge-assets`.",
      "Trigger Stripe customer portal email when contact form submits for qualified leads.",
      "Log agent decisions into Supabase `agent_events` table for observability."])

  /**
   * The list lengths of the engine's prose: three key features per page,
   * four UX directives, three design effects and three automation notes.
   */
  predicate ProseShaped(prose: TemplateProse)
  {
    && |prose.homeFeatures| == 3 && |prose.solutionsFeatures| == 3 && |prose.studioFeatures| == 3
    && |prose.resourcesFeatures| == 3 && |prose.launchFeatures| == 3
    && |prose.uxDirectives| == 4 && |prose.designEffects| == 3 && |prose.automationNotes| == 3
  }

  /** The engine's own texts have the list lengths its templates promise. */
  lemma EngineProseShaped()
    ensures ProseShaped(EngineProse)
  {
  }

  function FallbackPages(req: ForgeRequest, prose: TemplateProse): seq<Page>
  {
    [
      Page("Home", prose.homeIntro + req.projectName + prose.homeGoalLead + req.primaryGoal + ".", prose.homeFeatures),
      Page("Solutions", prose.solutionsDescription, prose.solutionsFeatures),
      Page("AI Studio", prose.studioDescription, prose.studioFeatures),
      Page("Resources", prose.resourcesDescription, prose.resourcesFeatures),
      Page("Launch", prose.launchDescription, prose.launchFeatures)
    ]
  }

  /**
   * `getFallbackBlueprint`: five pages titled Home, Solutions, AI Studio,
   * Resources and Launch, three key features each, the request's industry
   * and theme, a positioning line led by the project name and four UX
   * directives.
   */
  function FallbackBlueprint(req: ForgeRequest, prose: TemplateProse): (bp: ArchitectBlueprint)
    ensures bp.industry == req.industry && bp.theme == req.theme
    ensures Titles(bp.sitemap) == FallbackTitles
    ensures prose.homeIntro + req.projectName <= bp.sitemap[0].description
    ensures req.projectName + " delivers a " <= bp.positioning
    ensures ProseShaped(prose) ==>
              && (forall i :: 0 <= i < |bp.sitemap| ==> |bp.sitemap[i].keyFeatures| == 3)
              && |bp.uxDirectives| == 4
  {
    ArchitectBlueprint(
      req.industry,
      req.theme,
      req.projectName + " delivers a " + ToLower(ToneName(req.tone)) + " " + ToLower(req.industry) + prose.positioningTail,
      FallbackPages(req, prose),
      prose.uxDirectives)
  }

  /** The Architect prompt's payload: the request's features, or the default features when it has none. */
  function ArchitectPayloadOf(req: ForgeRequest, cat: Catalog): (p: ArchitectPayload)
    ensures req.features != [] ==> p.keyFeatures == req.features
    ensures req.features == [] ==> p.keyFeatures == cat.defaultFeatures
    ensures p.project == req.projectName && p.industry == req.industry && p.theme == req.theme
    ensures p.primaryGoal == req.primaryGoal && p.tone == req.tone && p.targetAudience == req.targetAudience
  {
    ArchitectPayload(req.projectName, req.industry, req.theme, req.primaryGoal, req.tone,
                     req.targetAudience, if |req.features| > 0 then req.features else cat.defaultFeatures)
  }

  /** `runArchitectAgent`: the model's decoded blueprint, or the template blueprint. */
  function RunArchitectAgent(req: ForgeRequest, cat: Catalog, prose: TemplateProse, ext: Externals): (bp: ArchitectBlueprint)
    ensures var answer := ext.chat.architect(ArchitectPayloadOf(req, cat));
            if answer.Some? && answer.value != "" && ext.decode.blueprint(answer.value).Some?
            then bp == ext.decode.blueprint(answer.value).value
            else bp == FallbackBlueprint(req, prose)
  {
    DecodeOrFallback(ext.chat.architect(ArchitectPayloadOf(req, cat)), ext.decode.blueprint, FallbackBlueprint(req, prose))
  }

  // =====================================================================
  // Copywriter agent

  /** The body copy of one page: its description, its first two key features and the audience. */
  function PageCopy(page: Page, audience: string): (copy: string)
    ensures page.description + " Featuring " <= copy
    ensures var tail := " for " + audience + ".";
            |tail| <= |copy| && copy[|copy| - |tail|..] == tail
    ensures |page.keyFeatures| == 0 ==> copy == page.description + " Featuring " + " for " + audience + "."
    ensures |page.keyFeatures| == 1 ==>
              copy == page.description + " Featuring " + page.keyFeatures[0] + " for " + audience + "."
    ensures |page.keyFeatures| >= 2 ==>
              copy == page.description + " Featuring " + page.keyFeatures[0] + " and " + page.keyFeatures[1]
                      + " for " + audience + "."
  {
    page.description + " Featuring " + Join(Take(page.keyFeatures, 2), " and ") + " for " + audience + "."
  }

  /**
   * The one key a plain `{}` does not store when assigned: writing a string
   * to `__proto__` goes to the inherited accessor, which ignores it.
   */
  const ProtoKey: string := "__proto__"

  /**
   * The record `getFallbackCopy` fills by walking the sitemap in order,
   * each page writing its title's entry, so a later page with the same
   * title replaces an earlier one; a page titled `__proto__` leaves no entry.
   */
  function BodyCopyOf(sitemap: seq<Page>, audience: string): (copy: map<string, string>)
    ensures ProtoKey !in copy
  {
    if sitemap == [] then map[]
    else
      var last := sitemap[|sitemap| - 1];
      var init := BodyCopyOf(sitemap[..|sitemap| - 1], audience);
      if last.title == ProtoKey then init else init[last.title := PageCopy(last, audience)]
  }

  /** The body copy has exactly one entry per distinct sitemap title other than `__proto__`. */
  lemma {:induction false} BodyCopyKeys(sitemap: seq<Page>, audience: string)
    ensures BodyCopyOf(sitemap, audience).Keys == (set p | p in sitemap :: p.title) - {ProtoKey}
  {
    if sitemap != [] {
      var init := sitemap[..|sitemap| - 1];
      BodyCopyKeys(init, audience);
      assert sitemap == init + [sitemap[|sitemap| - 1]];
      assert (set p | p in sitemap :: p.title) == (set p | p in init :: p.title) + {sitemap[|sitemap| - 1].title};
    }
  }

  /** The entry for a title other than `__proto__` is the copy of the last page carrying that title. */
  lemma {:induction false} BodyCopyLastWins(sitemap: seq<Page>, audience: string, i: nat)
    requires i < |sitemap|
    requires forall j :: i < j < |sitemap| ==> sitemap[j].title != sitemap[i].title
    ensures sitemap[i].title != ProtoKey ==>
              && sitemap[i].title in BodyCopyOf(sitemap, audience)
              && BodyCopyOf(sitemap, audience)[sitemap[i].title] == PageCopy(sitemap[i], audience)
  {
    var last := sitemap[|sitemap| - 1];
    var init := sitemap[..|sitemap| - 1];
    var earlier := BodyCopyOf(init, audience);
    assert BodyCopyOf(sitemap, audience) == if last.title == ProtoKey then earlier
                                            else earlier[last.title := PageCopy(last, audience)];
    if i < |sitemap| - 1 {
      assert init[i] == sitemap[i] && last.title != sitemap[i].title;
      BodyCopyLastWins(init, audience, i);
    }
  }

  function SeoKeywords(req: ForgeRequest): seq<string>
  {
    [ToLower(req.industry) + " website builder",
     "AI website generator",
     "agentic web design",
     "supabase stripe integration"]
  }

  function JsonLdSkeleton(projectName: string): map<string, JsonValue>
  {
    map[
      "@context" := JString("https://schema.org"),
      "@type" := JString("SoftwareApplication"),
      "name" := JString(projectName),
      "applicationCategory" := JString("WebApplication"),
      "offers" := JObject(map[
        "@type" := JString("Offer"),
        "priceCurrency" := JString("USD"),
        "price" := JString("99.00")])]
  }

  /**
   * `getFallbackCopy`, with `Math.random` replaced by the index of the
   * chosen call-to-action phrase: body copy keyed by the sitemap titles,
   * four SEO keywords led by the industry, JSON-LD naming the project and a
   * sub-headline that ends with the chosen phrase.
   */
  function FallbackCopy(req: ForgeRequest, bp: ArchitectBlueprint, cat: Catalog, prose: TemplateProse,
                        ctaIndex: nat, titleCase: string -> string): (c: CopywriterDeliverable)
    requires ctaIndex < |cat.ctaVariants|
    ensures c.bodyCopy == BodyCopyOf(bp.sitemap, req.targetAudience)
    ensures c.bodyCopy.Keys == (set p | p in bp.sitemap :: p.title) - {ProtoKey}
    ensures |c.seoKeywords| == 4 && c.seoKeywords[0] == ToLower(req.industry) + " website builder"
    ensures "name" in c.jsonLd && c.jsonLd["name"] == JString(req.projectName)
    ensures var tail := cat.ctaVariants[ctaIndex] + ".";
            |tail| <= |c.subHeadline| && c.subHeadline[|c.subHeadline| - |tail|..] == tail
  {
    BodyCopyKeys(bp.sitemap, req.targetAudience);
    var sub := prose.subHeadlineLead + cat.ctaVariants[ctaIndex] + ".";
    assert sub[|sub| - |cat.ctaVariants[ctaIndex] + "."|..] == cat.ctaVariants[ctaIndex] + ".";
    CopywriterDeliverable(
      "Launch " + titleCase(req.projectName) + " in hours, not months.",
      sub,
      BodyCopyOf(bp.sitemap, req.targetAudience),
      SeoKeywords(req),
      prose.metaDescription,
      JsonLdSkeleton(req.projectName))
  }

  /** `getFallbackCopy` as the source runs it: the body copy is built by a loop over the sitemap. */
  method GetFallbackCopy(req: ForgeRequest, bp: ArchitectBlueprint, cat: Catalog, prose: TemplateProse,
                         ctaIndex: nat, titleCase: string -> string) returns (c: CopywriterDeliverable)
    requires ctaIndex < |cat.ctaVariants|
    ensures c == FallbackCopy(req, bp, cat, prose, ctaIndex, titleCase)
  {
    var heroHeadline := "Launch " + titleCase(req.projectName) + " in hours, not months.";
    var subHeadline := prose.subHeadlineLead + cat.ctaVariants[ctaIndex] + ".";
    var bodyCopy: map<string, string> := map[];
    for i := 0 to |bp.sitemap|
      invariant bodyCopy == BodyCopyOf(bp.sitemap[..i], req.targetAudience)
    {
      var page := bp.sitemap[i];
      assert bp.sitemap[..i + 1][..i] == bp.sitemap[..i];
      if page.title != ProtoKey {
        bodyCopy := bodyCopy[page.title := PageCopy(page, req.targetAudience)];
      }
    }
    assert bp.sitemap[..|bp.sitemap|] == bp.sitemap;
    c := CopywriterDeliverable(
      heroHeadline,
      subHeadline,
      bodyCopy,
      SeoKeywords(req),
      prose.metaDescription,
      JsonLdSkeleton(req.projectName));
  }

  /** What the Copywriter agent returns: the model's decoded copy, or the template copy. */
  function CopywriterOutput(req: ForgeRequest, bp: ArchitectBlueprint, cat: Catalog, prose: TemplateProse,
                            ext: Externals, ctaIndex: nat): (c: CopywriterDeliverable)
    requires ctaIndex < |cat.ctaVariants|
    ensures var answer := ext.chat.copywriter(bp, req.integrations, req.targetAudience, req.brandVoice);
            if answer.Some? && answer.value != "" && ext.decode.copy(answer.value).Some?
            then c == ext.decode.copy(answer.value).value
            else c == FallbackCopy(req, bp, cat, prose, ctaIndex, ext.titleCase)
  {
    DecodeOrFallback(ext.chat.copywriter(bp, req.integrations, req.targetAudience, req.brandVoice),
                     ext.decode.copy, FallbackCopy(req, bp, cat, prose, ctaIndex, ext.titleCase))
  }

  /**
   * `runCopywriterAgent`: asks the model with the blueprint, the requested
   * integrations, the audience and the brand voice; builds the template
   * only when the answer does not decode.
   */
  method RunCopywriterAgent(req: ForgeRequest, bp: ArchitectBlueprint, cat: Catalog, prose: TemplateProse,
                            ext: Externals, ctaIndex: nat) returns (c: CopywriterDeliverable)
    requires ctaIndex < |cat.ctaVariants|
    ensures var answer := ext.chat.copywriter(bp, req.integrations, req.targetAudience, req.brandVoice);
            if answer.Some? && answer.value != "" && ext.decode.copy(answer.value).Some?
            then c == ext.decode.copy(answer.value).value
            else c == FallbackCopy(req, bp, cat, prose, ctaIndex, ext.titleCase)
    ensures c == CopywriterOutput(req, bp, cat, prose, ext, ctaIndex)
  {
    var completion := ext.chat.copywriter(bp, req.integrations, req.targetAudience, req.brandVoice);
    var parsed := ParseJson(completion.GetOr(""), ext.decode.copy);
    if parsed.Some? {
      c := parsed.value;
    } else {
      c := GetFallbackCopy(req, bp, cat, prose, ctaIndex, ext.titleCase);
    }
  }

  // =====================================================================
  // Visual agent

  /**
   * `getFallbackVisual`: the first palette of the library and its name,
   * a hero prompt naming the project, three design effects and no image.
   */
  function FallbackVisual(req: ForgeRequest, cat: Catalog, prose: TemplateProse): (v: VisualDirective)
    requires |cat.palettes| > 0
    ensures v.paletteName == cat.palettes[0].name && v.colorPalette == cat.palettes[0].palette
    ensures v.heroImageUrl == None
    ensures "Cinematic " + ToLower(req.industry) + " experience for " + req.projectName <= v.heroImagePrompt
    ensures ProseShaped(prose) ==> |v.designEffects| == 3
  {
    var palette := cat.palettes[0];
    VisualDirective(
      palette.name,
      palette.palette,
      "Cinematic " + ToLower(req.industry) + " experience for " + req.projectName + " in " + req.theme + prose.heroPromptTail,
      None,
      prose.designEffects)
  }

  /** What the Visual agent returns: the chosen directive, with the generated image attached when there is one. */
  function VisualOutput(req: ForgeRequest, cat: Catalog, prose: TemplateProse, ext: Externals): (v: VisualDirective)
    requires |cat.palettes| > 0
    ensures var chosen := DecodeOrFallback(ext.chat.visual(cat.palettes, req.theme, req.tone),
                                           ext.decode.visual, FallbackVisual(req, cat, prose));
            && v.(heroImageUrl := chosen.heroImageUrl) == chosen
            && v.heroImageUrl == if ext.heroImage(chosen.heroImagePrompt).Some?
                                 then ext.heroImage(chosen.heroImagePrompt)
                                 else chosen.heroImageUrl
  {
    var directive := DecodeOrFallback(ext.chat.visual(cat.palettes, req.theme, req.tone),
                                      ext.decode.visual, FallbackVisual(req, cat, prose));
    match ext.heroImage(directive.heroImagePrompt)
    case Some(url) => directive.(heroImageUrl := Some(url))
    case None => directive
  }

  /**
   * `runVisualAgent`: picks the decoded directive or the template, asks for
   * a hero image from the chosen directive's prompt and sets `heroImageUrl`
   * only when an image came back; nothing else of the directive changes.
   */
  method RunVisualAgent(req: ForgeRequest, cat: Catalog, prose: TemplateProse, ext: Externals)
    returns (directive: VisualDirective)
    requires |cat.palettes| > 0
    ensures var chosen := DecodeOrFallback(ext.chat.visual(cat.palettes, req.theme, req.tone),
                                           ext.decode.visual, FallbackVisual(req, cat, prose));
            && (ext.heroImage(chosen.heroImagePrompt).Some? ==>
                  directive == chosen.(heroImageUrl := ext.heroImage(chosen.heroImagePrompt)))
            && (ext.heroImage(chosen.heroImagePrompt).None? ==> directive == chosen)
    ensures directive == VisualOutput(req, cat, prose, ext)
  {
    var fallback := FallbackVisual(req, cat, prose);
    var completion := ext.chat.visual(cat.palettes, req.theme, req.tone);
    directive := ParseJson(completion.GetOr(""), ext.decode.visual).GetOr(fallback);
    var generatedImage := ext.heroImage(directive.heroImagePrompt);
    if generatedImage.Some? {
      directive := directive.(heroImageUrl := Some(generatedImage.value));
    }
  }

  // =====================================================================
  // Integration agent

  /**
   * `getFallbackIntegration`: a one-time launch kit at 9900 cents and a
   * monthly subscription at 29900 cents named after the project, a booking
   * configuration exactly when booking was requested, a three-field contact
   * form stored in `forge_contacts` and three automation notes.
   */
  function FallbackIntegration(req: ForgeRequest, prose: TemplateProse): (plan: IntegrationPlan)
    ensures plan.stripeProducts == [StripeProduct(req.projectName + " Launch Kit", 9900, OneTime),
                                    StripeProduct(req.projectName + " Pro Subscription", 29900, Month)]
    ensures plan.bookingConfiguration.Some? <==> req.integrations.booking
    ensures plan.bookingConfiguration.Some? ==> plan.bookingConfiguration.value.provider == Calcom
    ensures |plan.contactForm.fields| == 3 && plan.contactForm.supabaseTable == "forge_contacts"
    ensures ProseShaped(prose) ==> |plan.automationNotes| == 3
  {
    IntegrationPlan(
      [StripeProduct(req.projectName + " Launch Kit", 9900, OneTime),
       StripeProduct(req.projectName + " Pro Subscription", 29900, Month)],
      if req.integrations.booking
      then Some(BookingConfiguration(Calcom, prose.bookingGuide))
      else None,
      ContactForm(
        [ContactField("fullName", "Full Name", Text),
         ContactField("email", "Work Email", Email),
         ContactField("message", "Project Blueprint Request", TextArea)],
        "forge_contacts"),
      prose.automationNotes)
  }

  /** `runIntegrationAgent`: asks the model with the request and the blueprint; the decoded plan, or the template plan. */
  function RunIntegrationAgent(req: ForgeRequest, bp: ArchitectBlueprint, prose: TemplateProse, ext: Externals)
    : (plan: IntegrationPlan)
    ensures var answer := ext.chat.integration(req, bp);
            if answer.Some? && answer.value != "" && ext.decode.integration(answer.value).Some?
            then plan == ext.decode.integration(answer.value).value
            else plan == FallbackIntegration(req, prose)
  {
    DecodeOrFallback(ext.chat.integration(req, bp), ext.decode.integration, FallbackIntegration(req, prose))
  }

  // =====================================================================
  // Pipeline

  /** The text `slugify` receives: the project name, a dash and the current time in milliseconds. */
  function SlugSource(projectName: string, nowMillis: nat): (text: string)
    ensures projectName + "-" <= text && |text| > |projectName| + 1
    ensures forall i :: |projectName| + 1 <= i < |text| ==> '0' <= text[i] <= '9'
  {
    projectName + "-" + NatToString(nowMillis)
  }

  /** Two runs for the same project at different instants hand `slugify` different text. */
  lemma SlugSourceInjective(projectName: string, t1: nat, t2: nat)
    requires SlugSource(projectName, t1) == SlugSource(projectName, t2)
    ensures t1 == t2
  {
    var lead := projectName + "-";
    assert NatToString(t1) == SlugSource(projectName, t1)[|lead|..];
    assert NatToString(t2) == SlugSource(projectName, t2)[|lead|..];
    NatToStringInjective(t1, t2);
  }

  /**
   * The response of one run: the four agents' results, the timestamp and
   * the slug. Copywriter and Integration both receive the Architect's
   * blueprint; the Visual agent depends on no other agent.
   */
  function Pipeline(req: ForgeRequest, cat: Catalog, prose: TemplateProse, ext: Externals, ctaIndex: nat, nowMillis: nat,
                    generatedAt: string): (resp: ForgeResponse)
    requires ctaIndex < |cat.ctaVariants| && |cat.palettes| > 0
    ensures resp.copywriter == CopywriterOutput(req, resp.architect, cat, prose, ext, ctaIndex)
    ensures resp.integration == RunIntegrationAgent(req, resp.architect, prose, ext)
    ensures resp.architect == RunArchitectAgent(req, cat, prose, ext)
    ensures resp.visual == VisualOutput(req, cat, prose, ext)
    ensures resp.generatedAt == generatedAt
    ensures resp.projectSlug == ext.slugify(SlugSource(req.projectName, nowMillis))
  {
    var blueprint := RunArchitectAgent(req, cat, prose, ext);
    ForgeResponse(
      blueprint,
      CopywriterOutput(req, blueprint, cat, prose, ext, ctaIndex),
      VisualOutput(req, cat, prose, ext),
      RunIntegrationAgent(req, blueprint, prose, ext),
      generatedAt,
      ext.slugify(SlugSource(req.projectName, nowMillis)))
  }

  /** Which storage and payment clients are configured; an absent client skips its side effect. */
  datatype ServiceConfig = ServiceConfig(supabase: bool, stripe: bool)

  /** The row upserted into `forge_projects`, keyed by slug. */
  datatype PersistRecord = PersistRecord(table: string, slug: string, payload: ForgeResponse)

  /** One `products.create` call: name, currency, amount in cents and whether a monthly recurrence is attached. */
  datatype ProductCreate = ProductCreate(name: string, currency: string, unitAmount: int, recurringMonthly: bool)

  /** The calls the pipeline hands to storage and payments once the response exists. */
  datatype FanOut = FanOut(persisted: Option<PersistRecord>, products: seq<ProductCreate>)

  /**
   * `ensureStripeProducts`: one creation call per product, in order, in US
   * dollars at the product's price, recurring monthly exactly for monthly
   * products.
   */
  function ProvisioningRequests(plan: IntegrationPlan): (calls: seq<ProductCreate>)
    ensures |calls| == |plan.stripeProducts|
    ensures forall i :: 0 <= i < |calls| ==>
              && calls[i].name == plan.stripeProducts[i].name
              && calls[i].currency == "usd"
              && calls[i].unitAmount == plan.stripeProducts[i].price
              && (calls[i].recurringMonthly <==> plan.stripeProducts[i].interval == Month)
  {
    seq(|plan.stripeProducts|, i requires 0 <= i < |plan.stripeProducts| =>
      var p := plan.stripeProducts[i];
      ProductCreate(p.name, "usd", p.price, p.interval == Month))
  }

  const PersistWarning: string := "Unable to persist blueprint"
  const ProvisionWarning: string := "Stripe provisioning skipped"

  /**
   * `persistBlueprint`: upserts the response into `forge_projects` under its
   * slug when storage is configured; a failed write is logged and
   * swallowed.
   */
  method PersistBlueprint(response: ForgeResponse, configured: bool, fails: bool)
    returns (record: Option<PersistRecord>, logged: set<string>)
    ensures record.Some? <==> configured
    ensures record.Some? ==> record.value == PersistRecord("forge_projects", response.projectSlug, response)
    ensures logged == if configured && fails then {PersistWarning} else {}
  {
    record, logged := None, {};
    if configured {
      record := Some(PersistRecord("forge_projects", response.projectSlug, response));
      if fails {
        logged := {PersistWarning};
      }
    }
  }

  /**
   * `ensureStripeProducts`: creates the plan's products when payments are
   * configured; a failed creation is logged and swallowed.
   */
  method EnsureStripeProducts(plan: IntegrationPlan, configured: bool, fails: bool)
    returns (calls: seq<ProductCreate>, logged: set<string>)
    ensures calls == if configured then ProvisioningRequests(plan) else []
    ensures logged == if configured && fails then {ProvisionWarning} else {}
  {
    calls, logged := [], {};
    if configured {
      calls := ProvisioningRequests(plan);
      if fails {
        logged := {ProvisionWarning};
      }
    }
  }

  /**
   * `runForgePipeline`: runs the four agents in order, assembles the
   * response, hands it to storage and its products to payments, and waits
   * for both to settle. A failed side effect is logged and never changes
   * the response.
   */
  method RunForgePipeline(req: ForgeRequest, cat: Catalog, prose: TemplateProse, ext: Externals, config: ServiceConfig,
                          ctaIndex: nat, nowMillis: nat, generatedAt: string,
                          persistFails: bool, provisionFails: bool)
    returns (response: ForgeResponse, effects: FanOut, logged: set<string>)
    requires ctaIndex < |cat.ctaVariants| && |cat.palettes| > 0
    ensures response.architect == RunArchitectAgent(req, cat, prose, ext)
    ensures response.copywriter == CopywriterOutput(req, response.architect, cat, prose, ext, ctaIndex)
    ensures response.visual == VisualOutput(req, cat, prose, ext)
    ensures response.integration == RunIntegrationAgent(req, response.architect, prose, ext)
    ensures response.generatedAt == generatedAt
    ensures response.projectSlug == ext.slugify(SlugSource(req.projectName, nowMillis))
    ensures response == Pipeline(req, cat, prose, ext, ctaIndex, nowMillis, generatedAt)
    ensures effects.persisted ==
              if config.supabase then Some(PersistRecord("forge_projects", response.projectSlug, response)) else None
    ensures effects.products == if config.stripe then ProvisioningRequests(response.integration) else []
    ensures logged == (if config.supabase && persistFails then {PersistWarning} else {})
                      + (if config.stripe && provisionFails then {ProvisionWarning} else {})
  {
    var blueprint := RunArchitectAgent(req, cat, prose, ext);
    var copy := RunCopywriterAgent(req, blueprint, cat, prose, ext, ctaIndex);
    var visual := RunVisualAgent(req, cat, prose, ext);
    var integration := RunIntegrationAgent(req, blueprint, prose, ext);

    var projectSlug := ext.slugify(SlugSource(req.projectName, nowMillis));
    response := ForgeResponse(blueprint, copy, visual, integration, generatedAt, projectSlug);

    var persisted, persistLog := PersistBlueprint(response, config.supabase, persistFails);
    var products, provisionLog := EnsureStripeProducts(integration, config.stripe, provisionFails);
    effects := FanOut(persisted, products);
    logged := persistLog + provisionLog;
  }

  // =====================================================================
  // Properties of whole runs

  /** Without an answer from the model the Architect agent uses its template. */
  lemma ArchitectOutage(req: ForgeRequest, cat: Catalog, prose: TemplateProse, ext: Externals)
    requires ext.chat.architect(ArchitectPayloadOf(req, cat)) == None
    ensures RunArchitectAgent(req, cat, prose, ext) == FallbackBlueprint(req, prose)
  {
  }

  /** Without an answer from the model the Copywriter agent uses its template, with copy for every page. */
  lemma CopywriterOutage(req: ForgeRequest, bp: ArchitectBlueprint, cat: Catalog, prose: TemplateProse,
                          ext: Externals, ctaIndex: nat)
    requires ctaIndex < |cat.ctaVariants|
    requires ext.chat.copywriter(bp, req.integrations, req.targetAudience, req.brandVoice) == None
    ensures CopywriterOutput(req, bp, cat, prose, ext, ctaIndex) == FallbackCopy(req, bp, cat, prose, ctaIndex, ext.titleCase)
  {
  }

  /** Without an answer from the model the Integration agent uses its template. */
  lemma IntegrationOutage(req: ForgeRequest, bp: ArchitectBlueprint, prose: TemplateProse, ext: Externals)
    requires ext.chat.integration(req, bp) == None
    ensures RunIntegrationAgent(req, bp, prose, ext) == FallbackIntegration(req, prose)
  {
  }

  /** The template sitemap's titles, as a set: none is `__proto__`, so all of them key the template copy. */
  lemma FallbackTitleSet(req: ForgeRequest, prose: TemplateProse)
    ensures (set p | p in FallbackBlueprint(req, prose).sitemap :: p.title) == set t | t in FallbackTitles
    ensures (set p | p in FallbackBlueprint(req, prose).sitemap :: p.title) - {ProtoKey} == set t | t in FallbackTitles
  {
    var sitemap := FallbackBlueprint(req, prose).sitemap;
    forall t | t in FallbackTitles ensures t in set p | p in sitemap :: p.title {
      var i :| 0 <= i < |FallbackTitles| && FallbackTitles[i] == t;
      assert sitemap[i] in sitemap;
    }
    assert ProtoKey !in FallbackTitles;
  }

  /**
   * When the model never answers, every agent uses its template: five
   * fixed pages, copy for each of them, the first palette and two products,
   * with a booking configuration exactly when booking was requested.
   */
  lemma OutageUsesTemplates(req: ForgeRequest, cat: Catalog, prose: TemplateProse, ext: Externals, ctaIndex: nat,
                            nowMillis: nat, generatedAt: string)
    requires ctaIndex < |cat.ctaVariants| && |cat.palettes| > 0
    requires forall p :: ext.chat.architect(p) == None
    requires forall bp, i, a, v :: ext.chat.copywriter(bp, i, a, v) == None
    requires forall ps, t, tone :: ext.chat.visual(ps, t, tone) == None
    requires forall r, bp :: ext.chat.integration(r, bp) == None
    ensures var resp := Pipeline(req, cat, prose, ext, ctaIndex, nowMillis, generatedAt);
            && resp.architect == FallbackBlueprint(req, prose)
            && resp.copywriter == FallbackCopy(req, resp.architect, cat, prose, ctaIndex, ext.titleCase)
            && resp.integration == FallbackIntegration(req, prose)
            && resp.visual.paletteName == cat.palettes[0].name
            && Titles(resp.architect.sitemap) == FallbackTitles
            && resp.copywriter.bodyCopy.Keys == set t | t in FallbackTitles
            && |resp.integration.stripeProducts| == 2
            && (resp.integration.bookingConfiguration.Some? <==> req.integrations.booking)
  {
    var bp := FallbackBlueprint(req, prose);
    ArchitectOutage(req, cat, prose, ext);
    CopywriterOutage(req, bp, cat, prose, ext, ctaIndex);
    IntegrationOutage(req, bp, prose, ext);
    FallbackTitleSet(req, prose);
  }

  /** A blueprint that decodes is trusted as it is, whatever its number of pages. */
  lemma ArchitectTrustsDecoded(req: ForgeRequest, cat: Catalog, prose: TemplateProse, ext: Externals, text: string, bp: ArchitectBlueprint)
    requires ext.chat.architect(ArchitectPayloadOf(req, cat)) == Some(text) && text != ""
    requires ext.decode.blueprint(text) == Some(bp)
    ensures RunArchitectAgent(req, cat, prose, ext) == bp
  {
  }

  /**
   * Booking is only filtered on the template path: a decoded plan with a
   * booking configuration is returned even when booking was not requested.
   */
  lemma IntegrationTrustsDecoded(req: ForgeRequest, bp: ArchitectBlueprint, prose: TemplateProse, ext: Externals,
                                 text: string, plan: IntegrationPlan)
    requires !req.integrations.booking && plan.bookingConfiguration.Some?
    requires ext.chat.integration(req, bp) == Some(text) && text != ""
    requires ext.decode.integration(text) == Some(plan)
    ensures RunIntegrationAgent(req, bp, prose, ext).bookingConfiguration.Some?
  {
  }

  /**
   * The end-to-end scenario: "Aurora" in the first catalog industry and
   * theme, booking off, with the model unavailable, gets the five template
   * pages, no booking configuration and a non-empty product list.
   */
  lemma AuroraScenario(cat: Catalog, prose: TemplateProse, ext: Externals, ctaIndex: nat, nowMillis: nat, generatedAt: string)
    requires |cat.industries| > 0 && |cat.themes| > 0
    requires ctaIndex < |cat.ctaVariants| && |cat.palettes| > 0
    requires forall p :: ext.chat.architect(p) == None
    requires forall bp, i, a, v :: ext.chat.copywriter(bp, i, a, v) == None
    requires forall ps, t, tone :: ext.chat.visual(ps, t, tone) == None
    requires forall r, bp :: ext.chat.integration(r, bp) == None
    ensures var req := ForgeRequest("Aurora", "calm and precise", "freelance designers", "book consultations",
                                    cat.industries[0], cat.themes[0], Bold, [],
                                    Integrations(true, false, true, false));
            var resp := Pipeline(req, cat, prose, ext, ctaIndex, nowMillis, generatedAt);
            && ValidateIndustry(cat, req.industry) && ValidateTheme(cat, req.theme)
            && Titles(resp.architect.sitemap) == ["Home", "Solutions", "AI Studio", "Resources", "Launch"]
            && resp.integration.bookingConfiguration == None
            && |resp.integration.stripeProducts| > 0
  {
    var req := ForgeRequest("Aurora", "calm and precise", "freelance designers", "book consultations",
                            cat.industries[0], cat.themes[0], Bold, [],
                            Integrations(true, false, true, false));
    OutageUsesTemplates(req, cat, prose, ext, ctaIndex, nowMillis, generatedAt);
  }
}
