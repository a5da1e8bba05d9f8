/**
 * The forge API route (`app/api/forge/route.ts`): the request schema every
 * body must satisfy before the pipeline runs, and the mapping of the
 * pipeline's outcome to the HTTP response.
 */
module ForgeRoute {
  import opened Wrappers
  import opened Json
  import opened ForgeTypes
  import ForgeEngine

  // =====================================================================
  // Field checks of the request schema

  /** A string field of at least `minLength` characters. */
  function StringField(fields: map<string, JsonValue>, key: string, minLength: nat): (r: Option<string>)
    ensures r.Some? <==> key in fields && fields[key].JString? && |fields[key].s| >= minLength
    ensures r.Some? ==> r.value == fields[key].s
  {
    if key in fields && fields[key].JString? && |fields[key].s| >= minLength then Some(fields[key].s) else None
  }

  function ToneFromName(name: string): Option<Tone>
  {
    if name == "Bold" then Some(Bold)
    else if name == "Elegant" then Some(Elegant)
    else if name == "Playful" then Some(Playful)
    else if name == "Technical" then Some(Technical)
    else if name == "Human" then Some(Human)
    else None
  }

  /** The tone enumeration accepts exactly the five tone names, each as the tone it names. */
  lemma ToneNames(name: string, t: Tone)
    ensures ToneFromName(ToneName(t)) == Some(t)
    ensures ToneFromName(name) == Some(t) ==> ToneName(t) == name
  {
  }

  /** An array whose items are all strings, as that list of strings. */
  function StringArray(items: seq<JsonValue>): (r: Option<seq<string>>)
    ensures r.Some? <==> forall i :: 0 <= i < |items| ==> items[i].JString?
    ensures r.Some? ==> |r.value| == |items| && forall i :: 0 <= i < |items| ==> r.value[i] == items[i].s
  {
    if items == [] then Some([])
    else if !items[0].JString? then None
    else
      match StringArray(items[1..])
      case None => None
      case Some(rest) => Some([items[0].s] + rest)
  }

  /** `features`: an array of at most ten strings, read as those strings in order. */
  function FeaturesField(fields: map<string, JsonValue>): (r: Option<seq<string>>)
    ensures r.Some? <==> && "features" in fields && fields["features"].JArray?
                         && |fields["features"].items| <= 10
                         && forall i :: 0 <= i < |fields["features"].items| ==> fields["features"].items[i].JString?
    ensures r.Some? ==> && |r.value| == |fields["features"].items| <= 10
                        && forall i :: 0 <= i < |r.value| ==> r.value[i] == fields["features"].items[i].s
  {
    if "features" in fields && fields["features"].JArray? && |fields["features"].items| <= 10
    then StringArray(fields["features"].items)
    else None
  }

  /** A boolean flag of the `integrations` object. */
  predicate HasFlag(flags: map<string, JsonValue>, key: string)
  {
    key in flags && flags[key].JBool?
  }

  function BoolField(fields: map<string, JsonValue>, key: string): (r: Option<bool>)
    ensures r.Some? <==> HasFlag(fields, key)
    ensures r.Some? ==> r.value == fields[key].b
  {
    if key in fields && fields[key].JBool? then Some(fields[key].b) else None
  }

  /** `integrations`: an object carrying the four booleans; other keys are ignored. */
  function IntegrationsField(fields: map<string, JsonValue>): (r: Option<Integrations>)
    ensures r.Some? <==> && "integrations" in fields && fields["integrations"].JObject?
                         && var flags := fields["integrations"].fields;
                         && HasFlag(flags, "stripe") && HasFlag(flags, "booking")
                         && HasFlag(flags, "contactForm") && HasFlag(flags, "blog")
    ensures r.Some? ==> && var flags := fields["integrations"].fields;
                        && r.value == Integrations(flags["stripe"].b, flags["booking"].b,
                                                   flags["contactForm"].b, flags["blog"].b)
  {
    if "integrations" in fields && fields["integrations"].JObject? then
      var flags := fields["integrations"].fields;
      match (BoolField(flags, "stripe"), BoolField(flags, "booking"), BoolField(flags, "contactForm"), BoolField(flags, "blog"))
      case (Some(stripe), Some(booking), Some(contactForm), Some(blog)) => Some(Integrations(stripe, booking, contactForm, blog))
      case _ => None
    else None
  }

  /**
   * `forgeSchema.parse`: the typed request when every field passes, nothing
   * otherwise. Keys outside the schema are dropped.
   */
  function ParseForgeRequest(body: JsonValue, cat: Catalog): (r: Option<ForgeRequest>)
    ensures r.Some? ==> body.JObject? && ValidRequest(r.value, cat)
  {
    if !body.JObject? then None
    else
      var f := body.fields;
      var projectName := StringField(f, "projectName", 2);
      var brandVoice := StringField(f, "brandVoice", 6);
      var targetAudience := StringField(f, "targetAudience", 6);
      var primaryGoal := StringField(f, "primaryGoal", 4);
      var industry := StringField(f, "industry", 0);
      var theme := StringField(f, "theme", 0);
      var tone := if "tone" in f && f["tone"].JString? then ToneFromName(f["tone"].s) else None;
      var features := FeaturesField(f);
      var integrations := IntegrationsField(f);
      if && projectName.Some? && brandVoice.Some? && targetAudience.Some? && primaryGoal.Some?
         && industry.Some? && ForgeEngine.ValidateIndustry(cat, industry.value)
         && theme.Some? && ForgeEngine.ValidateTheme(cat, theme.value)
         && tone.Some? && features.Some? && integrations.Some?
      then Some(ForgeRequest(projectName.value, brandVoice.value, targetAudience.value, primaryGoal.value,
                             industry.value, theme.value, tone.value, features.value, integrations.value))
      else None
  }

  /** What the schema demands of a typed request. */
  predicate ValidRequest(r: ForgeRequest, cat: Catalog)
  {
    && |r.projectName| >= 2
    && |r.brandVoice| >= 6
    && |r.targetAudience| >= 6
    && |r.primaryGoal| >= 4
    && ForgeEngine.ValidateIndustry(cat, r.industry)
    && ForgeEngine.ValidateTheme(cat, r.theme)
    && |r.features| <= 10
  }

  /** The JSON body the form sends for a request. */
  function RequestJson(r: ForgeRequest): JsonValue
  {
    JObject(map[
      "projectName" := JString(r.projectName),
      "brandVoice" := JString(r.brandVoice),
      "targetAudience" := JString(r.targetAudience),
      "primaryGoal" := JString(r.primaryGoal),
      "industry" := JString(r.industry),
      "theme" := JString(r.theme),
      "tone" := JString(ToneName(r.tone)),
      "features" := JArray(seq(|r.features|, i requires 0 <= i < |r.features| => JString(r.features[i]))),
      "integrations" := JObject(map[
        "stripe" := JBool(r.integrations.stripe),
        "booking" := JBool(r.integrations.booking),
        "contactForm" := JBool(r.integrations.contactForm),
        "blog" := JBool(r.integrations.blog)])])
  }

  /**
   * Every request the schema lets through meets all of its constraints,
   * carries the body's own field values (the feature strings in order and
   * the four integration flags included), and is a fixed point: its
   * encoding parses back to it.
   */
  lemma ParseSound(body: JsonValue, cat: Catalog)
    requires ParseForgeRequest(body, cat).Some?
    ensures var r := ParseForgeRequest(body, cat).value;
            && ValidRequest(r, cat)
            && body.JObject?
            && body.fields["projectName"] == JString(r.projectName)
            && body.fields["brandVoice"] == JString(r.brandVoice)
            && body.fields["targetAudience"] == JString(r.targetAudience)
            && body.fields["primaryGoal"] == JString(r.primaryGoal)
            && body.fields["industry"] == JString(r.industry)
            && body.fields["theme"] == JString(r.theme)
            && body.fields["tone"] == JString(ToneName(r.tone))
            && body.fields["features"].JArray?
            && |body.fields["features"].items| == |r.features|
            && (forall i :: 0 <= i < |r.features| ==> body.fields["features"].items[i] == JString(r.features[i]))
            && body.fields["integrations"].JObject?
            && body.fields["integrations"].fields["stripe"] == JBool(r.integrations.stripe)
            && body.fields["integrations"].fields["booking"] == JBool(r.integrations.booking)
            && body.fields["integrations"].fields["contactForm"] == JBool(r.integrations.contactForm)
            && body.fields["integrations"].fields["blog"] == JBool(r.integrations.blog)
            && ParseForgeRequest(RequestJson(r), cat) == Some(r)
  {
    var r := ParseForgeRequest(body, cat).value;
    ToneNames(body.fields["tone"].s, r.tone);
    ParseRoundTrip(r, cat);
  }

  /**
   * Every body that passes each field check is accepted, whatever other
   * keys it carries: keys outside the schema are dropped, not rejected.
   */
  lemma ParseComplete(body: JsonValue, cat: Catalog)
    requires body.JObject?
    requires var f := body.fields;
             && StringField(f, "projectName", 2).Some? && StringField(f, "brandVoice", 6).Some?
             && StringField(f, "targetAudience", 6).Some? && StringField(f, "primaryGoal", 4).Some?
             && "industry" in f && f["industry"].JString? && ForgeEngine.ValidateIndustry(cat, f["industry"].s)
             && "theme" in f && f["theme"].JString? && ForgeEngine.ValidateTheme(cat, f["theme"].s)
             && "tone" in f && f["tone"].JString? && f["tone"].s in ["Bold", "Elegant", "Playful", "Technical", "Human"]
             && FeaturesField(f).Some? && IntegrationsField(f).Some?
    ensures ParseForgeRequest(body, cat).Some?
  {
  }

  /**
   * The schema accepts the encoding of a request exactly when the request
   * meets every constraint, and then gives back that same request.
   */
  lemma ParseRoundTrip(r: ForgeRequest, cat: Catalog)
    ensures ParseForgeRequest(RequestJson(r), cat) == if ValidRequest(r, cat) then Some(r) else None
  {
    EncodedStrings(r);
    EncodedFeatures(r);
    EncodedIntegrations(r);
  }

  /** The encoded string fields and tone read back as the request's, each subject to its minimum length. */
  lemma EncodedStrings(r: ForgeRequest)
    ensures var f := RequestJson(r).fields;
            && StringField(f, "projectName", 2) == (if |r.projectName| >= 2 then Some(r.projectName) else None)
            && StringField(f, "brandVoice", 6) == (if |r.brandVoice| >= 6 then Some(r.brandVoice) else None)
            && StringField(f, "targetAudience", 6) == (if |r.targetAudience| >= 6 then Some(r.targetAudience) else None)
            && StringField(f, "primaryGoal", 4) == (if |r.primaryGoal| >= 4 then Some(r.primaryGoal) else None)
            && StringField(f, "industry", 0) == Some(r.industry)
            && StringField(f, "theme", 0) == Some(r.theme)
            && "tone" in f && f["tone"].JString? && ToneFromName(f["tone"].s) == Some(r.tone)
  {
    ToneNames("", r.tone);
  }

  /** The encoded feature list reads back as the request's features when there are at most ten. */
  lemma EncodedFeatures(r: ForgeRequest)
    ensures FeaturesField(RequestJson(r).fields) == if |r.features| <= 10 then Some(r.features) else None
  {
    var items := RequestJson(r).fields["features"].items;
    assert |items| == |r.features| && forall i :: 0 <= i < |items| ==> items[i] == JString(r.features[i]);
    assert StringArray(items).value == r.features;
  }

  /** The encoded integrations object reads back as the request's integrations. */
  lemma EncodedIntegrations(r: ForgeRequest)
    ensures IntegrationsField(RequestJson(r).fields) == Some(r.integrations)
  {
  }

  /** A body whose `integrations` object lacks one of the four booleans is rejected. */
  lemma MissingIntegrationRejected(body: JsonValue, cat: Catalog, key: string)
    requires key in ["stripe", "booking", "contactForm", "blog"]
    requires body.JObject? && "integrations" in body.fields && body.fields["integrations"].JObject?
    requires key !in body.fields["integrations"].fields
    ensures ParseForgeRequest(body, cat) == None
  {
  }

  // =====================================================================
  // The POST handler

  /** How a pipeline run ended: with a response, or by throwing. */
  datatype PipelineOutcome = Returned(response: ForgeResponse) | Threw

  datatype ResponseBody = Blueprint(response: ForgeResponse) | ErrorBody(error: string)

  datatype HttpResponse = HttpResponse(status: nat, body: ResponseBody)

  const ErrorResponse := HttpResponse(500, ErrorBody("Unable to generate blueprint"))

  /**
   * `POST`: reads the body (`None` when it is not JSON), validates it and
   * runs the pipeline on the validated request. Any failure gives the
   * generic error with status 500; success gives the pipeline's response
   * as it is.
   */
  function Post(body: Option<JsonValue>, cat: Catalog, runPipeline: ForgeRequest -> PipelineOutcome): (resp: HttpResponse)
    ensures resp.status == 200 || resp == ErrorResponse
    ensures resp.status == 200 <==>
              && body.Some? && ParseForgeRequest(body.value, cat).Some?
              && runPipeline(ParseForgeRequest(body.value, cat).value).Returned?
    ensures resp.status == 200 ==>
              resp.body == Blueprint(runPipeline(ParseForgeRequest(body.value, cat).value).response)
  {
    match body
    case None => ErrorResponse
    case Some(json) =>
      match ParseForgeRequest(json, cat)
      case None => ErrorResponse
      case Some(parsed) =>
        match runPipeline(parsed)
        case Returned(response) => HttpResponse(200, Blueprint(response))
        case Threw => ErrorResponse
  }

  /** A body the schema rejects never reaches the pipeline: the answer is the same whatever the pipeline would do. */
  lemma RejectedBodyNeverRunsPipeline(body: Option<JsonValue>, cat: Catalog,
                                      run1: ForgeRequest -> PipelineOutcome, run2: ForgeRequest -> PipelineOutcome)
    requires body.None? || ParseForgeRequest(body.value, cat).None?
    ensures Post(body, cat, run1) == Post(body, cat, run2) == ErrorResponse
  {
  }
}
