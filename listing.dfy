/**
 * The product-listing router: the description handed to every generator, which generators run,
 * how their results fill the typed slots of the generated content, and which fields the
 * translation endpoint rewrites. Vision, generation and translation calls are inputs.
 */
module Listing {
  import opened Wrappers
  import opened Text
  import opened Json

  datatype SEOContent = SEOContent(title: string, description: string, tags: seq<string>, keywords: seq<string>)
  datatype WhatsAppContent = WhatsAppContent(caption: string, promotionalMessage: string)
  datatype ConversationalContent = ConversationalContent(searchPhrases: seq<string>)

  datatype GeneratedContent = GeneratedContent(
    seo: Option<SEOContent>, whatsapp: Option<WhatsAppContent>,
    conversational: Option<ConversationalContent>, category: string)

  /** The three generation tasks, in the order the endpoint creates them. */
  datatype ContentKind = Seo | WhatsApp | Conversational

  /** What one generation task can yield. */
  datatype Part = SeoPart(seo: SEOContent) | WhatsAppPart(whatsapp: WhatsAppContent)
                | ConversationalPart(conversational: ConversationalContent)

  function KindOf(p: Part): ContentKind {
    match p
    case SeoPart(_) => Seo
    case WhatsAppPart(_) => WhatsApp
    case ConversationalPart(_) => Conversational
  }

  function Rank(k: ContentKind): nat {
    match k
    case Seo => 0
    case WhatsApp => 1
    case Conversational => 2
  }

  function OptionKey(k: ContentKind): string {
    match k
    case Seo => "seo"
    case WhatsApp => "whatsapp"
    case Conversational => "conversational"
  }

  // ---------------------------------------------------------------------------------------------
  // The description every generator sees
  // ---------------------------------------------------------------------------------------------

  const NoInsight: string := "No image insight available."

  /**
   * The image insight: empty without an image, the stripped vision reply when the call succeeds,
   * and the placeholder when it fails.
   */
  function ImageDescription(image: Option<Result<string, string>>): (d: string)
    ensures image.None? ==> d == ""
    ensures image.Some? && image.value.Err? ==> d == NoInsight && d != ""
    ensures image.Some? && image.value.Ok? ==> d == Strip(image.value.value)
  {
    match image
    case None => ""
    case Some(Err(_)) => NoInsight
    case Some(Ok(reply)) => Strip(reply)
  }

  /** `combined_description`: the description, followed by the image insight when there is one. */
  function CombinedDescription(description: string, imageDescription: string): (c: string)
    ensures imageDescription == "" ==> c == description
    ensures imageDescription != "" ==>
      && |c| == |description| + |"\n\nImage insight: "| + |imageDescription|
      && c[..|description|] == description
      && c[|description|..|description| + |"\n\nImage insight: "|] == "\n\nImage insight: "
      && c[|c| - |imageDescription|..] == imageDescription
  {
    if imageDescription != "" then description + "\n\nImage insight: " + imageDescription else description
  }

  /** A failed image analysis still adds an insight: the placeholder. */
  lemma FailedVisionStillDescribed(description: string, error: string)
    ensures CombinedDescription(description, ImageDescription(Some(Err(error)))) ==
            description + "\n\nImage insight: " + NoInsight
  {
  }

  // ---------------------------------------------------------------------------------------------
  // Task selection and slot filling
  // ---------------------------------------------------------------------------------------------

  /** `content_options.get(key)` is truthy. */
  predicate Requested(options: Fields, k: ContentKind) {
    Truthy(GetOr(options, OptionKey(k), VNull))
  }

  /** The kinds whose flags are set, in the order seo, whatsapp, conversational. */
  function Chosen(seo: bool, whatsapp: bool, conversational: bool): (ks: seq<ContentKind>)
    ensures forall k :: k in ks <==> (k == Seo && seo) || (k == WhatsApp && whatsapp) || (k == Conversational && conversational)
    ensures forall i, j | 0 <= i < j < |ks| :: Rank(ks[i]) < Rank(ks[j])
  {
    (if seo then [Seo] else []) + (if whatsapp then [WhatsApp] else []) + (if conversational then [Conversational] else [])
  }

  /** The tasks created: one per truthy option, in the order seo, whatsapp, conversational. */
  function RequestedKinds(options: Fields): (ks: seq<ContentKind>)
    ensures forall k :: k in ks <==> Requested(options, k)
    ensures forall i, j | 0 <= i < j < |ks| :: Rank(ks[i]) < Rank(ks[j])
  {
    Chosen(Requested(options, Seo), Requested(options, WhatsApp), Requested(options, Conversational))
  }

  /**
   * generate_content_part: the parsed part, or None when the call or the parsing into the task's
   * record type fails. It never raises.
   */
  function GenerateContentPart(kind: ContentKind, outcome: Result<Part, string>): (p: Option<Part>)
    ensures p.Some? ==> KindOf(p.value) == kind && outcome == Ok(p.value)
    ensures p.None? <==> outcome.Err? || KindOf(outcome.value) != kind
  {
    match outcome
    case Ok(part) => if KindOf(part) == kind then Some(part) else None
    case Err(_) => None
  }

  /** The last result of kind k: the one the dispatch loop leaves in that slot. */
  function LastOfKind(results: seq<Option<Part>>, k: ContentKind): (p: Option<Part>)
    ensures p.Some? ==> KindOf(p.value) == k && Some(p.value) in results
    ensures p.None? <==> forall i | 0 <= i < |results| :: results[i].None? || KindOf(results[i].value) != k
  {
    if results == [] then None
    else
      var last := results[|results| - 1];
      var rest := LastOfKind(results[..|results| - 1], k);
      assert forall i | 0 <= i < |results| - 1 :: results[i] == results[..|results| - 1][i];
      assert rest.Some? ==> Some(rest.value) in results by {
        if rest.Some? {
          var i :| 0 <= i < |results| - 1 && results[..|results| - 1][i] == Some(rest.value);
          assert results[i] == Some(rest.value);
        }
      }
      if last.Some? && KindOf(last.value) == k then last else rest
  }

  function AsSeo(p: Option<Part>): Option<SEOContent> {
    if p.Some? && p.value.SeoPart? then Some(p.value.seo) else None
  }

  function AsWhatsApp(p: Option<Part>): Option<WhatsAppContent> {
    if p.Some? && p.value.WhatsAppPart? then Some(p.value.whatsapp) else None
  }

  function AsConversational(p: Option<Part>): Option<ConversationalContent> {
    if p.Some? && p.value.ConversationalPart? then Some(p.value.conversational) else None
  }

  /** The content the dispatch loop builds from the gathered results. */
  function Assembled(results: seq<Option<Part>>, category: string): GeneratedContent {
    GeneratedContent(AsSeo(LastOfKind(results, Seo)), AsWhatsApp(LastOfKind(results, WhatsApp)),
                     AsConversational(LastOfKind(results, Conversational)), category)
  }

  /** The dispatch loop: each result goes to the slot of its own record type. */
  method AssembleContent(results: seq<Option<Part>>, category: string) returns (content: GeneratedContent)
    ensures content == Assembled(results, category)
  {
    content := GeneratedContent(None, None, None, category);
    for i := 0 to |results|
      invariant content == Assembled(results[..i], category)
    {
      assert results[..i + 1][..i] == results[..i];
      match results[i] {
        case Some(SeoPart(c)) => content := content.(seo := Some(c));
        case Some(WhatsAppPart(c)) => content := content.(whatsapp := Some(c));
        case Some(ConversationalPart(c)) => content := content.(conversational := Some(c));
        case None =>
      }
    }
    assert results[..|results|] == results;
  }

  predicate HasSlot(c: GeneratedContent) {
    c.seo.Some? || c.whatsapp.Some? || c.conversational.Some?
  }

  /** The results gathered from the tasks, in task order. */
  function GatheredResults(tasks: seq<ContentKind>, gen: (ContentKind, string, string) -> Result<Part, string>,
                           base: string, category: string): (rs: seq<Option<Part>>)
    ensures |rs| == |tasks|
  {
    seq(|tasks|, i requires 0 <= i < |tasks| => GenerateContentPart(tasks[i], gen(tasks[i], base, category)))
  }

  /**
   * With one task per kind at most, each slot holds exactly what its own task produced: nothing
   * when it was not requested or failed, whatever the other tasks did.
   */
  lemma SlotFromOwnTask(options: Fields, gen: (ContentKind, string, string) -> Result<Part, string>,
                        base: string, category: string, k: ContentKind)
    ensures var tasks := RequestedKinds(options);
      LastOfKind(GatheredResults(tasks, gen, base, category), k) ==
        if Requested(options, k) then GenerateContentPart(k, gen(k, base, category)) else None
  {
    var tasks := RequestedKinds(options);
    var rs := GatheredResults(tasks, gen, base, category);
    var p := LastOfKind(rs, k);
    if p.Some? {
      var i :| 0 <= i < |rs| && rs[i] == Some(p.value);
      assert rs[i] == GenerateContentPart(tasks[i], gen(tasks[i], base, category));
      assert tasks[i] == k;
    } else if Requested(options, k) {
      var j :| 0 <= j < |tasks| && tasks[j] == k;
      assert rs[j] == GenerateContentPart(k, gen(k, base, category));
    }
  }

  // ---------------------------------------------------------------------------------------------
  // The endpoint
  // ---------------------------------------------------------------------------------------------

  const KeyMissing: HttpError := HttpError(500, "Groq API key not configured.")
  const GenerationFailed: HttpError := HttpError(500, "Failed to generate listing content.")

  /**
   * What generate_listing_endpoint answers. `options` is `json.loads(content_options_str)`,
   * `image` the vision reply if an image was sent, and `gen(kind, user_description, category)`
   * the outcome of that generation task.
   */
  function ListingOutcome(keyConfigured: bool, description: string, category: string,
                          options: Result<Value, string>, image: Option<Result<string, string>>,
                          gen: (ContentKind, string, string) -> Result<Part, string>)
    : (r: Result<GeneratedContent, HttpError>)
    ensures !keyConfigured ==> r == Err(KeyMissing)
    ensures keyConfigured && r.Err? ==> r.error == GenerationFailed
    ensures r.Ok? ==> r.value.category == category && HasSlot(r.value)
  {
    if !keyConfigured then Err(KeyMissing)
    else if !(options.Ok? && options.value.VObj?) then Err(GenerationFailed)
    else
      var base := CombinedDescription(description, ImageDescription(image));
      var tasks := RequestedKinds(options.value.fields);
      var content := Assembled(GatheredResults(tasks, gen, base, category), category);
      if HasSlot(content) then Ok(content) else Err(GenerationFailed)
  }

  /** The three `if content_options.get(...)` tests, appending one task each. */
  method CreateTasks(options: Fields) returns (tasks: seq<ContentKind>)
    ensures tasks == RequestedKinds(options)
  {
    var seo, whatsapp, conversational :=
      Requested(options, Seo), Requested(options, WhatsApp), Requested(options, Conversational);
    tasks := [];
    if seo { tasks := tasks + [Seo]; }
    assert tasks == (if seo then [Seo] else []);
    if whatsapp { tasks := tasks + [WhatsApp]; }
    assert tasks == (if seo then [Seo] else []) + (if whatsapp then [WhatsApp] else []);
    if conversational { tasks := tasks + [Conversational]; }
  }

  /** generate_listing_endpoint, step by step. */
  method GenerateListing(keyConfigured: bool, description: string, category: string,
                         options: Result<Value, string>, image: Option<Result<string, string>>,
                         gen: (ContentKind, string, string) -> Result<Part, string>)
    returns (r: Result<GeneratedContent, HttpError>)
    ensures r == ListingOutcome(keyConfigured, description, category, options, image, gen)
  {
    if !keyConfigured {
      return Err(KeyMissing);
    }
    var imageDescription := "";
    if image.Some? {
      imageDescription := ImageDescription(image);
    }
    var combined := CombinedDescription(description, imageDescription);
    if !(options.Ok? && options.value.VObj?) {
      return Err(GenerationFailed);
    }
    var tasks := CreateTasks(options.value.fields);
    var results := GatheredResults(tasks, gen, combined, category);
    var finalContent := AssembleContent(results, category);
    if !HasSlot(finalContent) {
      return Err(GenerationFailed);
    }
    return Ok(finalContent);
  }

  /**
   * A successful listing carries the request's category, at least one slot, and in each slot the
   * part its own task produced from the combined description.
   */
  lemma ListingSlots(keyConfigured: bool, description: string, category: string,
                     options: Result<Value, string>, image: Option<Result<string, string>>,
                     gen: (ContentKind, string, string) -> Result<Part, string>)
    requires ListingOutcome(keyConfigured, description, category, options, image, gen).Ok?
    ensures var c := ListingOutcome(keyConfigured, description, category, options, image, gen).value;
      var base := CombinedDescription(description, ImageDescription(image));
      var opts := options.value.fields;
      && c.category == category
      && HasSlot(c)
      && c.seo == (if Requested(opts, Seo) then AsSeo(GenerateContentPart(Seo, gen(Seo, base, category))) else None)
      && c.whatsapp == (if Requested(opts, WhatsApp) then AsWhatsApp(GenerateContentPart(WhatsApp, gen(WhatsApp, base, category))) else None)
      && c.conversational == (if Requested(opts, Conversational)
                              then AsConversational(GenerateContentPart(Conversational, gen(Conversational, base, category)))
                              else None)
  {
    var base := CombinedDescription(description, ImageDescription(image));
    SlotFromOwnTask(options.value.fields, gen, base, category, Seo);
    SlotFromOwnTask(options.value.fields, gen, base, category, WhatsApp);
    SlotFromOwnTask(options.value.fields, gen, base, category, Conversational);
  }

  /** With no option enabled there is nothing to return, so the request fails. */
  lemma NoOptionsFails(description: string, category: string, options: Result<Value, string>,
                       image: Option<Result<string, string>>,
                       gen: (ContentKind, string, string) -> Result<Part, string>)
    requires options.Ok? && options.value.VObj?
    requires forall k :: !Requested(options.value.fields, k)
    ensures ListingOutcome(true, description, category, options, image, gen) == Err(GenerationFailed)
  {
    assert RequestedKinds(options.value.fields) == [];
  }

  /** When every requested task fails, the request fails. */
  lemma AllFailedFails(description: string, category: string, options: Result<Value, string>,
                       image: Option<Result<string, string>>,
                       gen: (ContentKind, string, string) -> Result<Part, string>)
    requires options.Ok? && options.value.VObj?
    requires forall k | Requested(options.value.fields, k) ::
      gen(k, CombinedDescription(description, ImageDescription(image)), category).Err?
    ensures ListingOutcome(true, description, category, options, image, gen) == Err(GenerationFailed)
  {
    var base := CombinedDescription(description, ImageDescription(image));
    SlotFromOwnTask(options.value.fields, gen, base, category, Seo);
    SlotFromOwnTask(options.value.fields, gen, base, category, WhatsApp);
    SlotFromOwnTask(options.value.fields, gen, base, category, Conversational);
  }

  /** Whether the slot of kind k holds a part. */
  predicate Filled(c: GeneratedContent, k: ContentKind) {
    match k
    case Seo => c.seo.Some?
    case WhatsApp => c.whatsapp.Some?
    case Conversational => c.conversational.Some?
  }

  /** A slot is filled exactly when its kind was requested and its own task produced a part. */
  lemma FilledFromOwnTask(options: Fields, gen: (ContentKind, string, string) -> Result<Part, string>,
                          base: string, category: string, k: ContentKind)
    ensures Filled(Assembled(GatheredResults(RequestedKinds(options), gen, base, category), category), k) <==>
            Requested(options, k) && GenerateContentPart(k, gen(k, base, category)).Some?
  {
    SlotFromOwnTask(options, gen, base, category, k);
    var p := GenerateContentPart(k, gen(k, base, category));
    if p.Some? {
      assert KindOf(p.value) == k;
    }
  }

  /**
   * With the key set and the options an object, the request succeeds exactly when some requested
   * task produced a part of its own kind from the combined description.
   */
  lemma ListingSucceedsIff(description: string, category: string, options: Result<Value, string>,
                           image: Option<Result<string, string>>,
                           gen: (ContentKind, string, string) -> Result<Part, string>)
    requires options.Ok? && options.value.VObj?
    ensures var base := CombinedDescription(description, ImageDescription(image));
      ListingOutcome(true, description, category, options, image, gen).Ok? <==>
        exists k :: Requested(options.value.fields, k) && GenerateContentPart(k, gen(k, base, category)).Some?
  {
    var base := CombinedDescription(description, ImageDescription(image));
    var opts := options.value.fields;
    var content := Assembled(GatheredResults(RequestedKinds(opts), gen, base, category), category);
    FilledFromOwnTask(opts, gen, base, category, Seo);
    FilledFromOwnTask(opts, gen, base, category, WhatsApp);
    FilledFromOwnTask(opts, gen, base, category, Conversational);
    assert HasSlot(content) <==> Filled(content, Seo) || Filled(content, WhatsApp) || Filled(content, Conversational);
    assert ListingOutcome(true, description, category, options, image, gen).Ok? <==> HasSlot(content);
    if exists k :: Requested(opts, k) && GenerateContentPart(k, gen(k, base, category)).Some? {
      var k :| Requested(opts, k) && GenerateContentPart(k, gen(k, base, category)).Some?;
      assert Filled(content, k);
    }
  }

  // ---------------------------------------------------------------------------------------------
  // Translation
  // ---------------------------------------------------------------------------------------------

  /** translate_text: an empty text is returned as it is, without a call; otherwise the stripped reply. */
  function TranslateText(text: string, translator: string -> Result<string, string>): (r: Result<string, string>)
    ensures text == "" ==> r == Ok("")
    ensures text != "" ==> (r.Ok? <==> translator(text).Ok?)
    ensures text != "" && r.Ok? ==> r.value == Strip(translator(text).value)
  {
    if text == "" then Ok(text)
    else
      match translator(text)
      case Ok(reply) => Ok(Strip(reply))
      case Err(e) => Err(e)
  }

  /** The search phrases translated one after the other, stopping at the first failure. */
  function TranslateAll(phrases: seq<string>, translator: string -> Result<string, string>)
    : (r: Result<seq<string>, string>)
    ensures r.Ok? <==> forall i | 0 <= i < |phrases| :: TranslateText(phrases[i], translator).Ok?
    ensures r.Ok? ==> |r.value| == |phrases|
    ensures r.Ok? ==> forall i | 0 <= i < |phrases| :: TranslateText(phrases[i], translator) == Ok(r.value[i])
  {
    if phrases == [] then Ok([])
    else
      var rest := TranslateAll(phrases[1..], translator);
      assert forall i | 1 <= i < |phrases| :: phrases[i] == phrases[1..][i - 1];
      match TranslateText(phrases[0], translator)
      case Err(e) => Err(e)
      case Ok(t) =>
        match rest
        case Err(e) => Err(e)
        case Ok(ts) => Ok([t] + ts)
  }

  /** The texts the endpoint translates, in the order it translates them. */
  function TranslatedTexts(content: GeneratedContent): seq<string> {
    (if content.seo.Some? then [content.seo.value.title, content.seo.value.description] else []) +
    (if content.whatsapp.Some? then [content.whatsapp.value.caption, content.whatsapp.value.promotionalMessage] else []) +
    (if content.conversational.Some? then content.conversational.value.searchPhrases else [])
  }

  /** The SEO part after its title and description are translated, or the first failure. */
  function TranslateSeo(o: Option<SEOContent>, translator: string -> Result<string, string>)
    : (r: Result<Option<SEOContent>, string>)
    ensures o.None? ==> r == Ok(None)
    ensures o.Some? ==> (r.Ok? <==> TranslateText(o.value.title, translator).Ok?
                                     && TranslateText(o.value.description, translator).Ok?)
    ensures o.Some? && r.Ok? ==>
      && r.value.Some?
      && r.value.value.tags == o.value.tags && r.value.value.keywords == o.value.keywords
      && TranslateText(o.value.title, translator) == Ok(r.value.value.title)
      && TranslateText(o.value.description, translator) == Ok(r.value.value.description)
  {
    match o
    case None => Ok(None)
    case Some(s) =>
      match TranslateText(s.title, translator)
      case Err(e) => Err(e)
      case Ok(title) =>
        match TranslateText(s.description, translator)
        case Err(e) => Err(e)
        case Ok(d) => Ok(Some(s.(title := title, description := d)))
  }

  /** The WhatsApp part after its caption and promotional message are translated, or the first failure. */
  function TranslateWhatsApp(o: Option<WhatsAppContent>, translator: string -> Result<string, string>)
    : (r: Result<Option<WhatsAppContent>, string>)
    ensures o.None? ==> r == Ok(None)
    ensures o.Some? ==> (r.Ok? <==> TranslateText(o.value.caption, translator).Ok?
                                     && TranslateText(o.value.promotionalMessage, translator).Ok?)
    ensures o.Some? && r.Ok? ==>
      && r.value.Some?
      && TranslateText(o.value.caption, translator) == Ok(r.value.value.caption)
      && TranslateText(o.value.promotionalMessage, translator) == Ok(r.value.value.promotionalMessage)
  {
    match o
    case None => Ok(None)
    case Some(w) =>
      match TranslateText(w.caption, translator)
      case Err(e) => Err(e)
      case Ok(caption) =>
        match TranslateText(w.promotionalMessage, translator)
        case Err(e) => Err(e)
        case Ok(m) => Ok(Some(w.(caption := caption, promotionalMessage := m)))
  }

  /** The conversational part after each search phrase is translated, or the first failure. */
  function TranslateConversational(o: Option<ConversationalContent>, translator: string -> Result<string, string>)
    : (r: Result<Option<ConversationalContent>, string>)
    ensures o.None? ==> r == Ok(None)
    ensures o.Some? ==> (r.Ok? <==> TranslateAll(o.value.searchPhrases, translator).Ok?)
    ensures o.Some? && r.Ok? ==>
      && r.value.Some?
      && |r.value.value.searchPhrases| == |o.value.searchPhrases|
      && forall i | 0 <= i < |o.value.searchPhrases| ::
           TranslateText(o.value.searchPhrases[i], translator) == Ok(r.value.value.searchPhrases[i])
  {
    match o
    case None => Ok(None)
    case Some(c) =>
      match TranslateAll(c.searchPhrases, translator)
      case Err(e) => Err(e)
      case Ok(ps) => Ok(Some(c.(searchPhrases := ps)))
  }

  /** The translated content, or the first failure. */
  function Translated(content: GeneratedContent, translator: string -> Result<string, string>)
    : (r: Result<GeneratedContent, string>)
    ensures r.Ok? <==> TranslateSeo(content.seo, translator).Ok?
                       && TranslateWhatsApp(content.whatsapp, translator).Ok?
                       && TranslateConversational(content.conversational, translator).Ok?
  {
    var seo := TranslateSeo(content.seo, translator);
    var whatsapp := TranslateWhatsApp(content.whatsapp, translator);
    var conversational := TranslateConversational(content.conversational, translator);
    if seo.Err? then Err(seo.error)
    else if whatsapp.Err? then Err(whatsapp.error)
    else if conversational.Err? then Err(conversational.error)
    else Ok(content.(seo := seo.value, whatsapp := whatsapp.value, conversational := conversational.value))
  }

  const TranslationFailed: HttpError := HttpError(500, "Failed to translate content.")

  /** The two assignments to the SEO fields; `None` when a translation raised. */
  method TranslateSeoFields(o: Option<SEOContent>, translator: string -> Result<string, string>)
    returns (out: Option<Option<SEOContent>>)
    ensures out.Some? <==> TranslateSeo(o, translator).Ok?
    ensures out.Some? ==> out.value == TranslateSeo(o, translator).value
  {
    if o.None? { return Some(None); }
    var seo := o.value;
    var title := TranslateText(seo.title, translator);
    if title.Err? { return None; }
    seo := seo.(title := title.value);
    var description := TranslateText(seo.description, translator);
    if description.Err? { return None; }
    seo := seo.(description := description.value);
    return Some(Some(seo));
  }

  /** The two assignments to the WhatsApp fields; `None` when a translation raised. */
  method TranslateWhatsAppFields(o: Option<WhatsAppContent>, translator: string -> Result<string, string>)
    returns (out: Option<Option<WhatsAppContent>>)
    ensures out.Some? <==> TranslateWhatsApp(o, translator).Ok?
    ensures out.Some? ==> out.value == TranslateWhatsApp(o, translator).value
  {
    if o.None? { return Some(None); }
    var whatsapp := o.value;
    var caption := TranslateText(whatsapp.caption, translator);
    if caption.Err? { return None; }
    whatsapp := whatsapp.(caption := caption.value);
    var message := TranslateText(whatsapp.promotionalMessage, translator);
    if message.Err? { return None; }
    whatsapp := whatsapp.(promotionalMessage := message.value);
    return Some(Some(whatsapp));
  }

  /** The list comprehension over the search phrases; `None` when a translation raised. */
  method TranslatePhrases(phrases: seq<string>, translator: string -> Result<string, string>)
    returns (out: Option<seq<string>>)
    ensures out.Some? <==> TranslateAll(phrases, translator).Ok?
    ensures out.Some? ==> out.value == TranslateAll(phrases, translator).value
  {
    var translated: seq<string> := [];
    for i := 0 to |phrases|
      invariant |translated| == i
      invariant forall j | 0 <= j < i :: TranslateText(phrases[j], translator) == Ok(translated[j])
    {
      var t := TranslateText(phrases[i], translator);
      if t.Err? {
        return None;
      }
      translated := translated + [t.value];
    }
    TranslateAllUnique(phrases, translated, translator);
    return Some(translated);
  }

  /** TranslateAll succeeds with exactly the phrase-by-phrase translations. */
  lemma {:induction false} TranslateAllUnique(phrases: seq<string>, ts: seq<string>,
                                             translator: string -> Result<string, string>)
    requires |ts| == |phrases|
    requires forall j | 0 <= j < |phrases| :: TranslateText(phrases[j], translator) == Ok(ts[j])
    ensures TranslateAll(phrases, translator) == Ok(ts)
  {
    if phrases != [] {
      assert forall j | 0 <= j < |phrases[1..]| :: phrases[1..][j] == phrases[j + 1] && ts[1..][j] == ts[j + 1];
      TranslateAllUnique(phrases[1..], ts[1..], translator);
      assert ts == [ts[0]] + ts[1..];
    }
  }

  /** translate_listing_endpoint: overwrites the translatable fields part by part. */
  method TranslateListing(clientConfigured: bool, content: GeneratedContent,
                          translator: string -> Result<string, string>)
    returns (r: Result<GeneratedContent, HttpError>)
    ensures !clientConfigured ==> r == Err(KeyMissing)
    ensures clientConfigured ==> (r.Ok? <==> Translated(content, translator).Ok?)
    ensures clientConfigured && r.Ok? ==> r.value == Translated(content, translator).value
    ensures clientConfigured && r.Err? ==> r.error == TranslationFailed
  {
    if !clientConfigured {
      return Err(KeyMissing);
    }
    var seo := TranslateSeoFields(content.seo, translator);
    if seo.None? { return Err(TranslationFailed); }
    var whatsapp := TranslateWhatsAppFields(content.whatsapp, translator);
    if whatsapp.None? { return Err(TranslationFailed); }
    var conversational: Option<ConversationalContent> := content.conversational;
    if conversational.Some? {
      var phrases := TranslatePhrases(conversational.value.searchPhrases, translator);
      if phrases.None? { return Err(TranslationFailed); }
      conversational := Some(conversational.value.(searchPhrases := phrases.value));
    }
    return Ok(content.(seo := seo.value, whatsapp := whatsapp.value, conversational := conversational));
  }

  /**
   * Translation rewrites only title, description, caption, promotional message and the search
   * phrases; tags, keywords, category and which parts are present stay as they were.
   */
  lemma TranslationCoverage(content: GeneratedContent, translator: string -> Result<string, string>)
    requires Translated(content, translator).Ok?
    ensures var t := Translated(content, translator).value;
      && t.category == content.category
      && t.seo.Some? == content.seo.Some?
      && t.whatsapp.Some? == content.whatsapp.Some?
      && t.conversational.Some? == content.conversational.Some?
      && (t.seo.Some? ==>
            && t.seo.value.tags == content.seo.value.tags && t.seo.value.keywords == content.seo.value.keywords
            && Ok(t.seo.value.title) == TranslateText(content.seo.value.title, translator)
            && Ok(t.seo.value.description) == TranslateText(content.seo.value.description, translator))
      && (t.whatsapp.Some? ==>
            && Ok(t.whatsapp.value.caption) == TranslateText(content.whatsapp.value.caption, translator)
            && Ok(t.whatsapp.value.promotionalMessage) == TranslateText(content.whatsapp.value.promotionalMessage, translator))
      && (t.conversational.Some? ==>
            && |t.conversational.value.searchPhrases| == |content.conversational.value.searchPhrases|
            && forall i | 0 <= i < |content.conversational.value.searchPhrases| ::
                 Ok(t.conversational.value.searchPhrases[i]) ==
                 TranslateText(content.conversational.value.searchPhrases[i], translator))
  {
  }

  /**
   * Only non-empty texts reach the translator: two translators that agree on the non-empty texts
   * give the same outcome.
   */
  lemma OnlyNonEmptyTextsSent(content: GeneratedContent, tr1: string -> Result<string, string>,
                              tr2: string -> Result<string, string>)
    requires forall t | t in TranslatedTexts(content) && t != "" :: tr1(t) == tr2(t)
    ensures Translated(content, tr1) == Translated(content, tr2)
  {
    var texts := TranslatedTexts(content);
    var a := if content.seo.Some? then [content.seo.value.title, content.seo.value.description] else [];
    var b := if content.whatsapp.Some? then [content.whatsapp.value.caption, content.whatsapp.value.promotionalMessage] else [];
    var c := if content.conversational.Some? then content.conversational.value.searchPhrases else [];
    assert texts == a + b + c;
    forall t | t in texts ensures TranslateText(t, tr1) == TranslateText(t, tr2) {
    }
    TextsAgree(a, b, c, tr1, tr2);
    if content.conversational.Some? {
      TranslateAllAgree(c, tr1, tr2);
    }
  }

  /** Agreement on a concatenation is agreement on each part. */
  lemma TextsAgree(a: seq<string>, b: seq<string>, c: seq<string>, tr1: string -> Result<string, string>,
                   tr2: string -> Result<string, string>)
    requires forall t | t in a + b + c :: TranslateText(t, tr1) == TranslateText(t, tr2)
    ensures forall t | t in a :: TranslateText(t, tr1) == TranslateText(t, tr2)
    ensures forall t | t in b :: TranslateText(t, tr1) == TranslateText(t, tr2)
    ensures forall i | 0 <= i < |c| :: TranslateText(c[i], tr1) == TranslateText(c[i], tr2)
  {
    assert forall t | t in a :: t in a + b + c;
    assert forall t | t in b :: t in a + b + c;
    assert forall i | 0 <= i < |c| :: c[i] in a + b + c;
  }

  lemma {:induction false} TranslateAllAgree(ps: seq<string>, tr1: string -> Result<string, string>,
                                             tr2: string -> Result<string, string>)
    requires forall i | 0 <= i < |ps| :: TranslateText(ps[i], tr1) == TranslateText(ps[i], tr2)
    ensures TranslateAll(ps, tr1) == TranslateAll(ps, tr2)
  {
    if ps != [] {
      assert forall i | 0 <= i < |ps[1..]| :: ps[1..][i] == ps[i + 1];
      TranslateAllAgree(ps[1..], tr1, tr2);
    }
  }
}
