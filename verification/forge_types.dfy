/** A JSON value as the route receives it and as the JSON-LD block holds it. */
module Json {

  datatype JsonValue =
    | JNull
    | JBool(b: bool)
    | JNumber(n: int)
    | JString(s: string)
    | JArray(items: seq<JsonValue>)
    | JObject(fields: map<string, JsonValue>)
}

/**
 * The records exchanged by the four agents and returned by the pipeline
 * (`types/forge.ts`), and the fixed catalogs the engine and the route
 * consult.
 */
module ForgeTypes {
  import opened Wrappers
  import opened Json

  datatype Tone = Bold | Elegant | Playful | Technical | Human

  /** The literal the request carries for each tone. */
  function ToneName(t: Tone): string
  {
    match t
    case Bold => "Bold"
    case Elegant => "Elegant"
    case Playful => "Playful"
    case Technical => "Technical"
    case Human => "Human"
  }

  datatype Integrations = Integrations(stripe: bool, booking: bool, contactForm: bool, blog: bool)

  datatype ForgeRequest = ForgeRequest(
    projectName: string,
    brandVoice: string,
    targetAudience: string,
    primaryGoal: string,
    industry: string,
    theme: string,
    tone: Tone,
    features: seq<string>,
    integrations: Integrations)

  /** One sitemap node. */
  datatype Page = Page(title: string, description: string, keyFeatures: seq<string>)

  datatype ArchitectBlueprint = ArchitectBlueprint(
    industry: string,
    theme: string,
    positioning: string,
    sitemap: seq<Page>,
    uxDirectives: seq<string>)

  datatype CopywriterDeliverable = CopywriterDeliverable(
    heroHeadline: string,
    subHeadline: string,
    bodyCopy: map<string, string>,
    seoKeywords: seq<string>,
    metaDescription: string,
    jsonLd: map<string, JsonValue>)

  datatype ColorPalette = ColorPalette(accents: seq<string>, neutrals: seq<string>)

  /** An entry of the palette library: a named colour palette. */
  datatype PaletteEntry = PaletteEntry(name: string, palette: ColorPalette)

  datatype VisualDirective = VisualDirective(
    paletteName: string,
    colorPalette: ColorPalette,
    heroImagePrompt: string,
    heroImageUrl: Option<string>,
    designEffects: seq<string>)

  datatype Interval = OneTime | Month

  /** A product to sell; `price` is in cents. */
  datatype StripeProduct = StripeProduct(name: string, price: int, interval: Interval)

  datatype Provider = Calcom | Cronofy | Calendly

  datatype BookingConfiguration = BookingConfiguration(provider: Provider, setupGuide: string)

  datatype FieldType = Text | Email | TextArea

  datatype ContactField = ContactField(name: string, labelText: string, fieldType: FieldType)

  datatype ContactForm = ContactForm(fields: seq<ContactField>, supabaseTable: string)

  datatype IntegrationPlan = IntegrationPlan(
    stripeProducts: seq<StripeProduct>,
    bookingConfiguration: Option<BookingConfiguration>,
    contactForm: ContactForm,
    automationNotes: seq<string>)

  datatype ForgeResponse = ForgeResponse(
    architect: ArchitectBlueprint,
    copywriter: CopywriterDeliverable,
    visual: VisualDirective,
    integration: IntegrationPlan,
    generatedAt: string,
    projectSlug: string)

  /**
   * The fixed option lists of the application (industries, themes, default
   * features, call-to-action phrases, palette library). Their contents are
   * not part of this model, so every operation receives them as a value.
   */
  datatype Catalog = Catalog(
    industries: seq<string>,
    themes: seq<string>,
    defaultFeatures: seq<string>,
    ctaVariants: seq<string>,
    palettes: seq<PaletteEntry>)
}
