# NexaForge Pro forge pipeline — a Dafny model

NexaForge Pro turns a short project brief into a website blueprint. Four
agents run in order: Architect, Copywriter, Visual and Integration. Each
agent asks a language model for a JSON document. When no usable answer comes
back, it falls back to a deterministic template. The pipeline then puts the
four results together with a timestamp and a slug. It hands the result to
storage (Supabase) and the planned products to payments (Stripe).

The API route validates every request body against a schema before the
pipeline runs. It answers with the pipeline's response, or with a generic
error and status 500. The brief form edits the feature list in two ways:
toggling a suggested feature, and folding the lines of a free-text box into
the list when that box loses focus.

The project has these parts:

- `wrappers.dfy`: the `Option` type, with `GetOr` as JavaScript's `??`.
- `text.dfy`: the string built-ins the code relies on, namely `join`, `slice`, `toLowerCase`, `trim`, `split` and decimal rendering.
- `forge_types.dfy`: the JSON value type, the records of `types/forge.ts` and the `Catalog` of option lists.
- `forge_engine.dfy`: the fallback templates, `parseJson` and the parse-or-fallback step, the four agents, the pipeline with its storage and payment fan-out, and the catalog validators.
- `forge_route.dfy`: the request schema, its round trip, and the mapping from POST to success or error.
- `forge_form.dfy`: `toggleFeature` and the custom-features merge, as a `FeatureForm` class whose `features` field the handlers reassign.

The model treats everything the engine calls but does not define as an input:

- **Language model.** It is a `ChatModel`: one function per agent, from the data that agent's prompt embeds to an optional completion.
- **JSON decoding.** `JSON.parse`, read as each agent's record type, is a `Decoders` value.
- **External functions.** The hero-image generator, `titleCase` and `slugify` are function-valued inputs.
- **Clock.** The clock arrives as `nowMillis` and `generatedAt`.
- **`Math.random`.** It is the index of the chosen call-to-action phrase.
- **Catalogs.** The industry, theme, default-feature, call-to-action and palette lists are a `Catalog` value.
- **Template texts.** The fixed prose of the four templates (page descriptions, key features, UX directives, design effects, the booking guide, automation notes and so on) is a `TemplateProse` value, passed like the catalog. `EngineProse` holds the engine's own texts word for word, and `EngineProseShaped` proves that their lists have the lengths the templates promise. The template properties that depend on those lengths are stated for any prose of that shape.

## Model

| member | source | states |
|---|---|---|
| Wrappers.Option.GetOr | nexaforge-pro/src/server/forge-engine.ts:142-143 | `x ?? d`: the present value, otherwise the default |
| Text.Join | nexaforge-pro/src/server/forge-engine.ts:156-158 | `join(sep)` of no elements is ""; one element gives that element; otherwise it starts with the first element; two elements are joined as first, separator, second |
| Text.Take | nexaforge-pro/src/server/forge-engine.ts:156-158 | `slice(0, n)` is a prefix of length min(n, length) |
| Text.ToLower | nexaforge-pro/src/server/forge-engine.ts:166 | `toLowerCase` keeps the length, lowers every ASCII capital by 32 code points, leaves every other character as it is, and leaves no ASCII capital |
| Text.TrimStart | nexaforge-pro/src/components/forge/forge-form.tsx:251 | the result is a suffix, everything dropped is whitespace, and it does not start with whitespace |
| Text.TrimEnd | nexaforge-pro/src/components/forge/forge-form.tsx:251 | the result is a prefix, everything dropped is whitespace, and it does not end with whitespace |
| Text.Trim | nexaforge-pro/src/components/forge/forge-form.tsx:251 | `trim()` gives the part of the line between a blank lead and a blank tail; it is "" exactly for blank lines, and otherwise has no whitespace at either end |
| Text.Split | nexaforge-pro/src/components/forge/forge-form.tsx:250 | `split("\n")` gives at least one piece, and no piece holds the separator |
| Text.SplitJoin | nexaforge-pro/src/components/forge/forge-form.tsx:250 | joining the pieces with the separator gives back the text, so splitting loses nothing |
| Text.NatToString | nexaforge-pro/src/server/forge-engine.ts:392 | `Date.now()` renders as a non-empty string of decimal digits |
| Text.NatToStringInjective | nexaforge-pro/src/server/forge-engine.ts:392 | different instants render differently |
| ForgeEngine.ValidateIndustry | nexaforge-pro/src/server/forge-engine.ts:411-413 | true exactly when the value occurs in the industry list |
| ForgeEngine.ValidateTheme | nexaforge-pro/src/server/forge-engine.ts:415-417 | true exactly when the value occurs in the theme list |
| ForgeEngine.ParseJson | nexaforge-pro/src/server/forge-engine.ts:95-102 | `parseJson` yields a value exactly when the text is non-empty and decodes, and the value is the decoder's |
| ForgeEngine.DecodeOrFallback | nexaforge-pro/src/server/forge-engine.ts:95-102 | `parseJson(completion ?? "") ?? fallback`: the decoded answer when the completion is non-empty and decodes; the fallback when it is missing, empty or does not decode |
| ForgeEngine.Titles | nexaforge-pro/src/server/forge-engine.ts:85 | the titles of the sitemap pages, in page order |
| ForgeEngine.FallbackBlueprint | nexaforge-pro/src/server/forge-engine.ts:29-93 | the template blueprint: the request's industry and theme; pages Home, Solutions, AI Studio, Resources, Launch, the Home page introducing the project; positioning led by the project name; with the engine's texts, three key features per page and four UX directives |
| ForgeEngine.EngineProseShaped | nexaforge-pro/src/server/forge-engine.ts:29-306 | the engine's template texts give each page three key features, the blueprint four UX directives, the visual directive three design effects and the plan three automation notes |
| ForgeEngine.ArchitectPayloadOf | nexaforge-pro/src/server/forge-engine.ts:105-113 | the Architect prompt carries the request's project name, industry, theme, goal, tone and audience, and its features, or the default features when the request has none |
| ForgeEngine.RunArchitectAgent | nexaforge-pro/src/server/forge-engine.ts:104-146 | the decoded completion of the Architect prompt when it is non-empty and decodes; the template blueprint otherwise |
| ForgeEngine.PageCopy | nexaforge-pro/src/server/forge-engine.ts:156-158 | a page's copy opens with its description and "Featuring", ends with the audience, and names its first two key features joined by "and"; with one key feature it names that one, with none it names nothing |
| ForgeEngine.BodyCopyOf | nexaforge-pro/src/server/forge-engine.ts:154-159 | the filled record never holds the key `__proto__`, which a plain object does not store on assignment |
| ForgeEngine.BodyCopyKeys | nexaforge-pro/src/server/forge-engine.ts:154-159 | the body copy has one entry per distinct sitemap title other than `__proto__`, and no other entries |
| ForgeEngine.BodyCopyLastWins | nexaforge-pro/src/server/forge-engine.ts:154-159 | the entry for a title other than `__proto__` is the copy of the last page with that title |
| ForgeEngine.FallbackCopy | nexaforge-pro/src/server/forge-engine.ts:148-185 | template copy: the body copy is the record the sitemap walk fills, keyed by the sitemap titles other than `__proto__`; four SEO keywords led by `<industry> website builder`; JSON-LD naming the project; a sub-headline ending with the chosen call to action and a period |
| ForgeEngine.GetFallbackCopy | nexaforge-pro/src/server/forge-engine.ts:148-185 | the `forEach` loop that fills the body copy builds exactly `FallbackCopy` |
| ForgeEngine.CopywriterOutput | nexaforge-pro/src/server/forge-engine.ts:217-219 | the Copywriter's result is its decoded completion when non-empty and decodable, otherwise the template copy for the blueprint it received |
| ForgeEngine.RunCopywriterAgent | nexaforge-pro/src/server/forge-engine.ts:187-222 | the decoded answer to the Copywriter prompt (blueprint, integrations, audience, voice) when there is one, otherwise the template copy |
| ForgeEngine.FallbackVisual | nexaforge-pro/src/server/forge-engine.ts:224-236 | the first library palette and its name, no image, a hero prompt that opens with the industry and the project, and, with the engine's texts, three design effects |
| ForgeEngine.VisualOutput | nexaforge-pro/src/server/forge-engine.ts:266-276 | the Visual agent's result is the chosen directive with only `heroImageUrl` changed, and that only when an image comes back for the chosen prompt |
| ForgeEngine.RunVisualAgent | nexaforge-pro/src/server/forge-engine.ts:238-277 | the chosen directive gets `heroImageUrl` only when an image comes back for its own prompt; otherwise it is returned unchanged |
| ForgeEngine.FallbackIntegration | nexaforge-pro/src/server/forge-engine.ts:279-306 | exactly two products, a 9900-cent one-time launch kit and a 29900-cent monthly subscription, named after the project; a booking configuration exactly when booking was requested; a booking configuration only with Cal.com; three contact fields stored in `forge_contacts`; with the engine's texts, three automation notes |
| ForgeEngine.RunIntegrationAgent | nexaforge-pro/src/server/forge-engine.ts:308-340 | the decoded completion of the Integration prompt when it is non-empty and decodes; the template plan otherwise |
| ForgeEngine.SlugSource | nexaforge-pro/src/server/forge-engine.ts:392 | `slugify` receives the project name, a dash, then only decimal digits, at least one |
| ForgeEngine.SlugSourceInjective | nexaforge-pro/src/server/forge-engine.ts:392 | two runs for one project at different milliseconds pass `slugify` different text |
| ForgeEngine.ProvisioningRequests | nexaforge-pro/src/server/forge-engine.ts:356-381 | one `products.create` per product, in order, in usd at the product's price, recurring monthly exactly for monthly products |
| ForgeEngine.PersistBlueprint | nexaforge-pro/src/server/forge-engine.ts:342-354 | storage receives the response in `forge_projects` under its slug exactly when it is configured; a failed write logs `Unable to persist blueprint` and nothing else |
| ForgeEngine.EnsureStripeProducts | nexaforge-pro/src/server/forge-engine.ts:356-381 | payments receive one create call per planned product exactly when configured, and none otherwise; a failure logs `Stripe provisioning skipped` |
| ForgeEngine.Pipeline | nexaforge-pro/src/server/forge-engine.ts:383-409 | the response holds the Architect's blueprint, the Copywriter and Integration results computed from that blueprint, the Visual result, the timestamp and the slug of the name and time |
| ForgeEngine.RunForgePipeline | nexaforge-pro/src/server/forge-engine.ts:383-409 | Copywriter and Integration get the Architect's blueprint; the response carries the four results, the timestamp and the slug; storage receives the response under its slug only when configured, and payments receive the products only when configured; a failed side effect logs its warning and leaves the response unchanged |
| ForgeEngine.ArchitectOutage | nexaforge-pro/src/server/forge-engine.ts:142-143 | with no completion the Architect agent returns the template blueprint |
| ForgeEngine.CopywriterOutage | nexaforge-pro/src/server/forge-engine.ts:187-222 | with no completion the Copywriter agent returns the template copy for the blueprint it was given |
| ForgeEngine.IntegrationOutage | nexaforge-pro/src/server/forge-engine.ts:335-337 | with no completion the Integration agent returns the template plan |
| ForgeEngine.FallbackTitleSet | nexaforge-pro/src/server/forge-engine.ts:30-85 | the template sitemap's titles, as a set, are exactly Home, Solutions, AI Studio, Resources and Launch |
| ForgeEngine.OutageUsesTemplates | nexaforge-pro/src/server/forge-engine.ts:383-409 | when the model never answers, every agent uses its template: the five fixed pages with copy for each, the first palette, two products, and booking exactly when requested |
| ForgeEngine.ArchitectTrustsDecoded | nexaforge-pro/src/server/forge-engine.ts:142-143 | a blueprint that decodes is returned as it is, with no check of its page count |
| ForgeEngine.IntegrationTrustsDecoded | nexaforge-pro/src/server/forge-engine.ts:335-337 | a decoded plan keeps its booking configuration even when booking was not requested |
| ForgeEngine.AuroraScenario | nexaforge-pro/src/server/forge-engine.ts:383-409 | the "Aurora" brief with booking off and the model unavailable gets the five template pages, no booking and a non-empty product list |
| ForgeRoute.ParseForgeRequest | nexaforge-pro/src/app/api/forge/route.ts:6-21 | a parsed request comes from a JSON object and meets every constraint of the schema |
| ForgeRoute.StringField | nexaforge-pro/src/app/api/forge/route.ts:7-12 | a string field passes exactly when it is present, a string, and at least the minimum length; it is then the body's value |
| ForgeRoute.ToneNames | nexaforge-pro/src/app/api/forge/route.ts:13 | the enum accepts each of the five tone names as the tone it names, and nothing else maps to a tone |
| ForgeRoute.StringArray | nexaforge-pro/src/app/api/forge/route.ts:14 | an array passes exactly when every item is a string, and keeps them in order |
| ForgeRoute.FeaturesField | nexaforge-pro/src/app/api/forge/route.ts:14 | `features` passes exactly when it is an array of at most ten items, all strings; it is then those strings in order |
| ForgeRoute.IntegrationsField | nexaforge-pro/src/app/api/forge/route.ts:15-20 | `integrations` passes exactly when it is an object holding the four boolean flags; it is then their values |
| ForgeRoute.ParseSound | nexaforge-pro/src/app/api/forge/route.ts:6-21 | every request the schema lets through meets all of its constraints, carries the body's values for every field (features in order, the four flags), and re-encodes to a body that parses back to it |
| ForgeRoute.ParseComplete | nexaforge-pro/src/app/api/forge/route.ts:6-21 | every JSON object whose fields all pass their checks is accepted, whatever other keys it carries |
| ForgeRoute.ParseRoundTrip | nexaforge-pro/src/app/api/forge/route.ts:6-21 | the encoding of a request parses back to that request exactly when it meets the schema, and is rejected otherwise |
| ForgeRoute.EncodedStrings | nexaforge-pro/src/app/api/forge/route.ts:7-13 | the encoded string fields and tone read back as the request's own, each accepted exactly when it meets its minimum length |
| ForgeRoute.EncodedFeatures | nexaforge-pro/src/app/api/forge/route.ts:14 | the encoded feature list reads back as the request's features exactly when there are at most ten |
| ForgeRoute.EncodedIntegrations | nexaforge-pro/src/app/api/forge/route.ts:15-20 | the encoded integrations object reads back as the request's four flags |
| ForgeRoute.MissingIntegrationRejected | nexaforge-pro/src/app/api/forge/route.ts:15-20 | a body whose integrations object lacks any of the four flags is rejected |
| ForgeRoute.Post | nexaforge-pro/src/app/api/forge/route.ts:23-36 | status 200 with the pipeline's response exactly when the body is JSON, passes the schema and the pipeline returns; otherwise status 500 with `Unable to generate blueprint` |
| ForgeRoute.RejectedBodyNeverRunsPipeline | nexaforge-pro/src/app/api/forge/route.ts:24-35 | for a body that is not JSON or fails the schema, the answer is the error whatever the pipeline would do |
| FeatureEditing.RemoveAll | nexaforge-pro/src/components/forge/forge-form.tsx:61 | the filtered list holds no `x` and is no longer than the list |
| FeatureEditing.RemoveAllSpec | nexaforge-pro/src/components/forge/forge-form.tsx:61 | `filter(item => item !== x)` removes every `x` and keeps every other element with its count, in order |
| FeatureEditing.RemoveAllCounts | nexaforge-pro/src/components/forge/forge-form.tsx:61 | filtering keeps every other element as often as it occurred and drops every `x` |
| FeatureEditing.RemoveAllKeepsOrder | nexaforge-pro/src/components/forge/forge-form.tsx:61 | filtering keeps the remaining elements in their original order |
| FeatureEditing.RemoveAllMembers | nexaforge-pro/src/components/forge/forge-form.tsx:61 | the filtered list holds exactly the elements other than `x` |
| FeatureEditing.SubsequenceOfTail | nexaforge-pro/src/components/forge/forge-form.tsx:61 | an ordered sublist of the tail is an ordered sublist of the list |
| FeatureEditing.SubsequenceDropHead | nexaforge-pro/src/components/forge/forge-form.tsx:61 | dropping the head of an ordered sublist leaves an ordered sublist |
| FeatureEditing.RemoveAllAbsent | nexaforge-pro/src/components/forge/forge-form.tsx:61 | filtering out an absent element changes nothing |
| FeatureEditing.RemoveAllAppend | nexaforge-pro/src/components/forge/forge-form.tsx:61 | filtering distributes over concatenation |
| FeatureEditing.Toggled | nexaforge-pro/src/components/forge/forge-form.tsx:59-64 | toggling flips whether the feature is in the list |
| FeatureEditing.ToggleRemovesPresent | nexaforge-pro/src/components/forge/forge-form.tsx:59-64 | toggling a present feature removes all its occurrences and keeps the rest, as a multiset and in order |
| FeatureEditing.ToggleAppendsAbsent | nexaforge-pro/src/components/forge/forge-form.tsx:59-64 | toggling an absent feature appends it once after the unchanged list |
| FeatureEditing.ToggleTwiceRestores | nexaforge-pro/src/components/forge/forge-form.tsx:59-64 | toggling an absent feature twice gives back the original list |
| FeatureEditing.TrimmedLines | nexaforge-pro/src/components/forge/forge-form.tsx:249-252 | one trimmed line per piece of the split text |
| FeatureEditing.CustomLines | nexaforge-pro/src/components/forge/forge-form.tsx:249-253 | the kept lines hold no empty line and are at most as many as the pieces of the text |
| FeatureEditing.TrimClean | nexaforge-pro/src/components/forge/forge-form.tsx:251 | trimming a piece without line breaks gives a non-empty line with no whitespace at either end, unless the piece is blank |
| FeatureEditing.TrimmedLineClean | nexaforge-pro/src/components/forge/forge-form.tsx:250-251 | each non-empty trimmed line is clean in the same sense |
| FeatureEditing.CustomLinesAreTrimmed | nexaforge-pro/src/components/forge/forge-form.tsx:249-253 | every kept line is non-empty, has no whitespace at either end, and has no line break |
| FeatureEditing.CustomLinesKeepNonBlank | nexaforge-pro/src/components/forge/forge-form.tsx:249-253 | every non-blank line of the text is kept, trimmed |
| FeatureEditing.TrimKeepsCharacters | nexaforge-pro/src/components/forge/forge-form.tsx:251 | trimming only removes characters |
| FeatureEditing.TrimStartKeepsCharacters | nexaforge-pro/src/components/forge/forge-form.tsx:251 | dropping leading whitespace only removes characters |
| FeatureEditing.TrimEndKeepsCharacters | nexaforge-pro/src/components/forge/forge-form.tsx:251 | dropping trailing whitespace only removes characters |
| FeatureEditing.Dedup | nexaforge-pro/src/components/forge/forge-form.tsx:254 | `Array.from(new Set(xs))` is no longer than `xs` and holds only elements of `xs` |
| FeatureEditing.DedupSpec | nexaforge-pro/src/components/forge/forge-form.tsx:254 | `Array.from(new Set(xs))` has no duplicates and the same members as `xs` |
| FeatureEditing.DedupPrefix | nexaforge-pro/src/components/forge/forge-form.tsx:254 | deduplicating a longer list only appends to the deduplicated prefix (first-occurrence order) |
| FeatureEditing.DedupCovered | nexaforge-pro/src/components/forge/forge-form.tsx:254 | appending elements already present does not change the deduplication |
| FeatureEditing.DedupDistinct | nexaforge-pro/src/components/forge/forge-form.tsx:254 | a list without duplicates is its own deduplication |
| FeatureEditing.MergeCustom | nexaforge-pro/src/components/forge/forge-form.tsx:248-256 | the merged list holds only old features and kept lines, and is no longer than both together |
| FeatureEditing.MergeCustomSpec | nexaforge-pro/src/components/forge/forge-form.tsx:248-256 | after a merge that found lines: no duplicates, every kept line present, nothing foreign added, and the old features first in their order |
| FeatureEditing.MergeCustomIdempotent | nexaforge-pro/src/components/forge/forge-form.tsx:248-256 | leaving the box again with the same text changes nothing |
| FeatureEditing.FeatureForm.constructor | nexaforge-pro/src/components/forge/forge-form.tsx:38-46 | the form starts from the default feature list |
| FeatureEditing.FeatureForm.ToggleFeature | nexaforge-pro/src/components/forge/forge-form.tsx:59-64 | the new list is the toggled old list, and the feature's membership flips |
| FeatureEditing.FeatureForm.MergeCustomInstructions | nexaforge-pro/src/components/forge/forge-form.tsx:248-256 | the new list is the merge of the old list and the box's lines, and is unchanged when no line is left |

## Left out

- Prompt texts, model names, temperatures and the chat, image, Supabase and Stripe SDK calls are outside the model; each agent's answer is a function of the data its prompt embeds.
- `JSON.parse` is an abstract decoder per record type: a completion that parses to a value of another shape (a bare number, an object missing fields) is not modelled apart from "decodes" or "does not decode"; `null` counts as not decoding.
- The model's answers are trusted as they decode: the code applies no schema check, so an Architect answer with fewer than four or more than six pages reaches the response (`ArchitectTrustsDecoded`). The Architect prompt asks the model to "Keep to 4-6 sitemap nodes" (forge-engine.ts line 133), but nothing enforces it.
- The `wait(250)` pauses, the `await` ordering and the concurrency of `Promise.allSettled` are not modelled; storage and payments are reduced to the calls they receive and the warning each logs on failure.
- ProvisioningRequests: a failure part-way through `Promise.all` (some products created, others not) is not distinguished; a failure is one boolean per side effect.
- `titleCase`, `slugify`, `Date.now()` and `new Date().toISOString()` are inputs; the model states which text `slugify` receives, not what slug it produces.
- FallbackCopy: `Math.random()` is replaced by an index into the call-to-action list; an empty list, for which JavaScript would render `undefined.`, is excluded because the catalog is a non-empty constant.
- FallbackVisual: the palette library is required to be non-empty. With an empty library the source reads `.name` of `undefined` and throws, and since `runVisualAgent` builds the fallback before asking the model, every run would then end in the route's status 500.
- RunForgePipeline: always returns a response. In the source, a completion that parses to a value of the wrong shape is kept rather than replaced by the template, and it can make the run throw. For example, a decoded Architect `{}` makes `blueprint.sitemap.forEach` throw on the Copywriter's template path, and a decoded Visual `42` with a generated image throws on the `heroImageUrl` assignment. The model's decoders yield well-formed records only, so these runs, which end as a status 500, are not modelled.
- BodyCopyOf: the body copy is a map, so the key order of the source's record (integer-like keys first, then titles in first-insertion order, which the blueprint view renders with `Object.entries`) is not modelled.
- FallbackVisual: `colorPalette: palette` in the source also carries the palette's `name` key; the model keeps only accents and neutrals.
- The catalog contents (`lib/constants`) are not part of this model; the advertised 24 industries and 20 themes are not checked.
- Text.ToLower: only ASCII letters are lowered; `toLowerCase` on other Unicode letters is not modelled.
- String lengths in the schema's `min` checks count Dafny characters (code points), not UTF-16 code units as JavaScript does.
- JSON numbers are integers; the request schema has no number fields and product prices are whole cents.
- The route's thrown errors (a body that is not JSON, a schema failure, a pipeline exception) become `None` bodies and the `Threw` outcome; `console.error` is not modelled.
- The rest of the form (react-hook-form wiring, submission, tone buttons, rendering) and every other component are not part of this model.
