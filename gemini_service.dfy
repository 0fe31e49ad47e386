/** geminiService.ts: the error translator, the content request builder, the image request
    builders and the interpretation of what the backend returns. The backend itself is a
    parameter: a function from the request sent to the outcome of the call. */
module GeminiService {
  import opened Wrappers
  import opened Strings
  import opened Types

  // ---------------------------------------------------------------------------------------
  // Error translation (geminiService.ts:6-13)

  const RateLimitMessage := "ခဏစောင့်ပေးပါ။ AI အလုပ်များနေပါသည်။"
  const AccessDeniedMessage := "Access Denied ဖြစ်နေပါသည်။"
  // Written as two literals only to keep each one short for the verifier.
  const SafetyMessage := "မသင့်တော်သော အကြောင်းအရာပါဝင်နေသဖြင့်" + " AI မှ ငြင်းဆိုလိုက်ပါသည်။"
  const UnexpectedErrorText := "မမျှော်လင့်ထားသော အမှားတစ်ခု ဖြစ်သွားပါသည်။"
  const ErrorPrefix := "Error: "

  /** Turns the `message` of a caught error (absent when the error has none) into the text the
      user sees. The markers are tried in a fixed order: "429", then "403", then "safety". */
  function HandleAIError(message: Option<string>): (r: string)
    ensures var m := message.GetOr("");
      && (Contains(m, "429") ==> r == RateLimitMessage)
      && (!Contains(m, "429") && Contains(m, "403") ==> r == AccessDeniedMessage)
      && (!Contains(m, "429") && !Contains(m, "403") && Contains(m, "safety") ==> r == SafetyMessage)
      && (!Contains(m, "429") && !Contains(m, "403") && !Contains(m, "safety") ==>
            r == ErrorPrefix + (if m == "" then UnexpectedErrorText else m))
    ensures r != ""
  {
    var m := message.GetOr("");
    if Contains(m, "429") then RateLimitMessage
    else if Contains(m, "403") then AccessDeniedMessage
    else if Contains(m, "safety") then SafetyMessage
    else ErrorPrefix + OrElse(Some(m), UnexpectedErrorText)
  }

  /** The closed set of failure kinds the substring heuristic distinguishes; `Other` carries the
      detail that is shown, never empty. */
  datatype ErrorKind = RateLimited | Denied | SafetyBlocked | Other(detail: string)

  /** The classification on its own, independent of the wording shown. */
  function Classify(message: Option<string>): (k: ErrorKind)
    ensures k.Other? ==> k.detail != ""
  {
    var m := message.GetOr("");
    if Contains(m, "429") then RateLimited
    else if Contains(m, "403") then Denied
    else if Contains(m, "safety") then SafetyBlocked
    else Other(if m == "" then UnexpectedErrorText else m)
  }

  /** The wording for each kind. */
  function Render(k: ErrorKind): string {
    match k
    case RateLimited => RateLimitMessage
    case Denied => AccessDeniedMessage
    case SafetyBlocked => SafetyMessage
    case Other(d) => ErrorPrefix + d
  }

  /** The translator is the classification followed by its wording. */
  lemma HandleAIErrorIsRenderedKind(message: Option<string>)
    ensures HandleAIError(message) == Render(Classify(message))
  {
  }

  /** Distinct kinds are never worded alike, so the shown text determines the kind. */
  lemma RenderInjective(k1: ErrorKind, k2: ErrorKind)
    ensures Render(k1) == Render(k2) ==> k1 == k2
  {
    assert RateLimitMessage[0] == 'ခ' && AccessDeniedMessage[0] == 'A' && SafetyMessage[0] == 'မ';
    if k1.Other? && k2.Other? && Render(k1) == Render(k2) {
      assert k1.detail == Render(k1)[|ErrorPrefix|..];
      assert k2.detail == Render(k2)[|ErrorPrefix|..];
    }
  }

  /** Two error messages shown alike were classified alike. */
  lemma {:induction false} TranslationDeterminesKind(m1: Option<string>, m2: Option<string>)
    ensures HandleAIError(m1) == HandleAIError(m2) ==> Classify(m1) == Classify(m2)
  {
    HandleAIErrorIsRenderedKind(m1);
    HandleAIErrorIsRenderedKind(m2);
    RenderInjective(Classify(m1), Classify(m2));
  }

  /** An unrecognised message can be read back from its translation. */
  lemma UnrecognisedMessageIsKept(m: string)
    requires m != "" && !Contains(m, "429") && !Contains(m, "403") && !Contains(m, "safety")
    ensures StartsWith(HandleAIError(Some(m)), ErrorPrefix)
    ensures HandleAIError(Some(m))[|ErrorPrefix|..] == m
  {
    assert HandleAIError(Some(m)) == ErrorPrefix + m;
  }

  /** A text without the first character of a marker does not contain the marker. */
  lemma {:induction false} NotContainsWithoutHead(s: string, p: string)
    requires p != [] && p[0] !in s
    ensures !Contains(s, p)
    decreases |s|
  {
    if |s| >= |p| {
      assert s[..|p|][0] == s[0];
      NotContainsWithoutHead(s[1..], p);
    }
  }

  /** A text with neither a '4' nor an 's' can hold none of the markers. */
  predicate MarkerFree(m: string) {
    m != "" && '4' !in m && 's' !in m
  }

  /** The application's own failure texts that carry none of the markers are shown behind the
      "Error: " prefix unchanged. */
  lemma {:induction false} OwnMessageIsShownVerbatim(m: string)
    requires MarkerFree(m)
    ensures HandleAIError(Some(m)) == ErrorPrefix + m
  {
    NotContainsWithoutHead(m, "429");
    NotContainsWithoutHead(m, "403");
    NotContainsWithoutHead(m, "safety");
  }

  // ---------------------------------------------------------------------------------------
  // Content request (geminiService.ts:15-58)

  datatype ImageInput = ImageInput(data: string, mimeType: string)

  /** The argument of `generateMarketingContent`; every field is optional. */
  datatype GenerationRequest = GenerationRequest(
    link: Option<string>, image: Option<ImageInput>, price: Option<string>, phone: Option<string>)

  /** One part of a multi-part prompt. */
  datatype Part = TextPart(text: string) | InlinePart(data: string, mimeType: string)

  const ImageIdentifier := "this image"
  const LinkPhrase := "this link: \""
  const PriceDefault := "Contact for Price"
  const PhoneDefault := "Check bio to order"

  /** How the prompt names the product: the link when there is a non-empty one, else the image. */
  function ProductIdentifier(link: Option<string>): (r: string)
    ensures Truthy(link) ==> r == LinkPhrase + link.value + "\""
    ensures !Truthy(link) ==> r == ImageIdentifier
  {
    if Truthy(link) then LinkPhrase + link.value + "\"" else ImageIdentifier
  }

  // The prompt template, cut at each interpolation and each line break.
  const NewLine := "\n"
  const Indent := "    "
  const AnalyzeWord := "Analyze "
  const CreateClause := " and create"
  const PostClause := " a HIGH-ENERGY, VIRAL Facebook sales post for the Myanmar market."
  const PriceLabel := "Price: "
  const PhoneLabel := "Phone: "
  const RulesBlock := "    CRITICAL RULES:\n    1. Language: Use dynamic, trendy, and natural Burmese. No robotic translation.\n    2. Vibe: Extremely exciting and persuasive.\n    3. Output: Follow the schema strictly.\n  "

  /** The words that name the product. */
  function AnalyzePhrase(link: Option<string>): string {
    AnalyzeWord + ProductIdentifier(link) + CreateClause
  }

  /** The price line, with its own line break. */
  function PriceLine(price: Option<string>): string {
    PriceLabel + OrElse(price, PriceDefault) + NewLine
  }

  /** The phone line, with its own line break. */
  function PhoneLine(phone: Option<string>): string {
    PhoneLabel + OrElse(phone, PhoneDefault) + NewLine
  }

  /** The instruction text of the content request: after a line break and an indent, the analyze
      line, then the price line and the phone line on indented lines of their own, a blank line,
      and the rules. */
  function MarketingPrompt(req: GenerationRequest): string {
    NewLine + Indent + AnalyzePhrase(req.link) + (PostClause + NewLine + Indent) + PriceLine(req.price)
      + Indent + PhoneLine(req.phone) + NewLine + RulesBlock
  }

  /** The prompt names the product, then states the price line and the phone line, each with its
      default when the request leaves it out or empty. */
  lemma PromptStatesEachLine(req: GenerationRequest)
    ensures Contains(MarketingPrompt(req), AnalyzeWord + ProductIdentifier(req.link) + CreateClause)
    ensures Contains(MarketingPrompt(req), PriceLabel + OrElse(req.price, PriceDefault) + NewLine)
    ensures Contains(MarketingPrompt(req), PhoneLabel + OrElse(req.phone, PhoneDefault) + NewLine)
    ensures !Truthy(req.price) ==> Contains(MarketingPrompt(req), PriceLabel + PriceDefault + NewLine)
    ensures !Truthy(req.phone) ==> Contains(MarketingPrompt(req), PhoneLabel + PhoneDefault + NewLine)
  {
    var a, pr, ph := AnalyzePhrase(req.link), PriceLine(req.price), PhoneLine(req.phone);
    var mid := PostClause + NewLine + Indent;
    ContainsSelf(a);
    ContainsExtendLeft(NewLine + Indent, a, a);
    ContainsExtendRight(NewLine + Indent + a, mid, a);
    ContainsExtendRight(NewLine + Indent + a + mid, pr, a);
    ContainsSelf(pr);
    ContainsExtendLeft(NewLine + Indent + a + mid, pr, pr);
    var upToPrice := NewLine + Indent + a + mid + pr;
    ContainsExtendRight(upToPrice, Indent, a);
    ContainsExtendRight(upToPrice, Indent, pr);
    ContainsExtendRight(upToPrice + Indent, ph, a);
    ContainsExtendRight(upToPrice + Indent, ph, pr);
    ContainsSelf(ph);
    ContainsExtendLeft(upToPrice + Indent, ph, ph);
    var upToPhone := upToPrice + Indent + ph;
    ContainsExtendRight(upToPhone, NewLine, a);
    ContainsExtendRight(upToPhone, NewLine, pr);
    ContainsExtendRight(upToPhone, NewLine, ph);
    ContainsExtendRight(upToPhone + NewLine, RulesBlock, a);
    ContainsExtendRight(upToPhone + NewLine, RulesBlock, pr);
    ContainsExtendRight(upToPhone + NewLine, RulesBlock, ph);
  }

  /** The opening of every prompt, up to the product identifier. */
  function PromptHead(): string { NewLine + Indent + AnalyzeWord }

  /** Regrouping a concatenation, for any four strings. */
  lemma Regroup(a: string, b: string, c: string, d: string)
    ensures a + (b + c + d) == a + b + c + d
  {
  }

  /** Regrouping a concatenation the other way, for any four strings. */
  lemma Regroup2(a: string, b: string, c: string, d: string)
    ensures a + (b + c + d) == (a + b) + (c + d)
  {
  }

  /** The prompt opens with its head and the product identifier. */
  lemma {:induction false} PromptOpensWithIdentifier(req: GenerationRequest)
    ensures StartsWith(MarketingPrompt(req), PromptHead() + ProductIdentifier(req.link) + CreateClause)
  {
    var x := NewLine + Indent + AnalyzePhrase(req.link);
    var mid, pr, ph := PostClause + NewLine + Indent, PriceLine(req.price), PhoneLine(req.phone);
    StartsWithSelf(x);
    StartsWithExtend(x, x, mid);
    StartsWithExtend(x + mid, x, pr);
    StartsWithExtend(x + mid + pr, x, Indent);
    StartsWithExtend(x + mid + pr + Indent, x, ph);
    StartsWithExtend(x + mid + pr + Indent + ph, x, NewLine);
    StartsWithExtend(x + mid + pr + Indent + ph + NewLine, x, RulesBlock);
    Regroup(NewLine + Indent, AnalyzeWord, ProductIdentifier(req.link), CreateClause);
  }

  /** No text opens with both the link phrasing and the image phrasing. */
  lemma {:induction false} PhrasingsExclude(s: string)
    ensures !(StartsWith(s, PromptHead() + LinkPhrase) && StartsWith(s, PromptHead() + ImageIdentifier + CreateClause))
  {
    var linkHead, imageHead := PromptHead() + LinkPhrase, PromptHead() + ImageIdentifier + CreateClause;
    assert |PromptHead()| == 13;
    assert linkHead[18] == LinkPhrase[5] == 'l';
    assert imageHead[18] == ImageIdentifier[5] == 'i';
    if StartsWith(s, linkHead) && StartsWith(s, imageHead) {
      PrefixesAgree(s, linkHead, imageHead, 18);
    }
  }

  /** The link takes precedence: the prompt opens with the link phrasing exactly when the request
      has a non-empty link, and with the image phrasing otherwise. */
  lemma {:induction false} PromptIdentifierPrecedence(req: GenerationRequest)
    ensures StartsWith(MarketingPrompt(req), PromptHead() + LinkPhrase) <==> Truthy(req.link)
    ensures StartsWith(MarketingPrompt(req), PromptHead() + ImageIdentifier + CreateClause) <==> !Truthy(req.link)
  {
    var p, id := MarketingPrompt(req), ProductIdentifier(req.link);
    PromptOpensWithIdentifier(req);
    PhrasingsExclude(p);
    if Truthy(req.link) {
      var v := req.link.value;
      StartsWithPrefix(PromptHead() + id, CreateClause, p);
      Regroup2(PromptHead(), LinkPhrase, v, "\"");
      StartsWithPrefix(PromptHead() + LinkPhrase, v + "\"", p);
    }
  }

  /** The parts sent: the prompt text first, then the image's own bytes only when there is one. */
  function RequestParts(req: GenerationRequest): (r: seq<Part>)
    ensures |r| >= 1 && r[0] == TextPart(MarketingPrompt(req))
    ensures |r| == 2 <==> req.image.Some?
    ensures |r| <= 2
    ensures req.image.Some? ==> r[1] == InlinePart(req.image.value.data, req.image.value.mimeType)
    ensures (exists k :: 0 <= k < |r| && r[k].InlinePart?) <==> req.image.Some?
  {
    [TextPart(MarketingPrompt(req))]
      + (if req.image.Some? then [InlinePart(req.image.value.data, req.image.value.mimeType)] else [])
  }

  /** The declared shape of the JSON reply (geminiService.ts:44-56). */
  datatype SchemaType = StringType | ArrayOf(items: SchemaType)
  datatype SchemaProperty = SchemaProperty(name: string, kind: SchemaType, description: Option<string>)

  const CaptionDescription := "Write an incredibly exciting, urgent, and high-converting Burmese caption! Use 'Limited Stock', 'Hurry Up', 'Shocking Deal' vibes. Use trendy emojis. Focus on selling emotions."

  const ResponseSchema: seq<SchemaProperty> := [
    SchemaProperty("productName", StringType, None),
    SchemaProperty("postCaption", StringType, Some(CaptionDescription)),
    SchemaProperty("hashtags", ArrayOf(StringType), None),
    SchemaProperty("postingTimeSuggestion", StringType, None),
    SchemaProperty("strategyAdvice", StringType, None),
    SchemaProperty("videoScript", StringType, None)
  ]

  /** The schema names the six required plan fields once each; only `hashtags` is an array, of
      strings. */
  lemma ResponseSchemaShape()
    ensures |ResponseSchema| == 6
    ensures forall i, j :: 0 <= i < j < |ResponseSchema| ==> ResponseSchema[i].name != ResponseSchema[j].name
    ensures forall i :: 0 <= i < |ResponseSchema| ==>
      ResponseSchema[i].kind == if ResponseSchema[i].name == "hashtags" then ArrayOf(StringType) else StringType
  {
  }

  const ContentModel := "gemini-3-flash-preview"
  const ImageModel := "gemini-2.5-flash-image"

  /** Everything `generateMarketingContent` hands to the backend. */
  datatype ContentRequest = ContentRequest(
    model: string, parts: seq<Part>, responseMimeType: string, schema: seq<SchemaProperty>)

  function ContentRequestFor(req: GenerationRequest): ContentRequest {
    ContentRequest(ContentModel, RequestParts(req), "application/json", ResponseSchema)
  }

  /** What `JSON.parse` made of the reply text: a decoded value, or a thrown error. A decoded value
      that is not an object is `None`. */
  datatype ParseOutcome = Parsed(plan: Option<RawPlan>) | ParseFailed(message: Option<string>)

  /** The outcome of the content call: it threw, or it returned a (possibly absent) text. */
  datatype ContentCall = ContentThrew(message: Option<string>) | ContentReturned(text: Option<string>, parsed: ParseOutcome)

  const NoTextMessage := "AI က စာသားများ ဖန်တီး၍ မရဖြစ်နေပါသည်။"

  lemma NoTextMessageIsMarkerFree()
    ensures MarkerFree(NoTextMessage)
  {
    assert '4' !in NoTextMessage;
  }

  /** `generateMarketingContent`: a decoded plan, or the translated error it rejects with. */
  function GenerateMarketingContent(req: GenerationRequest, backend: ContentRequest -> ContentCall): (r: Result<Option<RawPlan>, string>)
    ensures var call := backend(ContentRequestFor(req));
      && (r.Success? <==> call.ContentReturned? && Truthy(call.text) && call.parsed.Parsed?)
      && (r.Success? ==> r.value == call.parsed.plan)
      && (call.ContentThrew? ==> r == Failure(HandleAIError(call.message)))
      && (call.ContentReturned? && !Truthy(call.text) ==> r == Failure(HandleAIError(Some(NoTextMessage))))
      && (call.ContentReturned? && Truthy(call.text) && call.parsed.ParseFailed? ==>
            r == Failure(HandleAIError(call.parsed.message)))
    ensures r.Failure? ==> r.error != ""
  {
    match backend(ContentRequestFor(req))
    case ContentThrew(m) => Failure(HandleAIError(m))
    case ContentReturned(text, parsed) =>
      if !Truthy(text) then
        Failure(HandleAIError(Some(NoTextMessage)))
      else
        match parsed
        case Parsed(plan) => Success(plan)
        case ParseFailed(m) => Failure(HandleAIError(m))
  }

  /** An empty or missing reply text is shown as "Error: " and the fixed no-text message. */
  lemma NoTextFailureText()
    ensures HandleAIError(Some(NoTextMessage)) == ErrorPrefix + NoTextMessage
  {
    NoTextMessageIsMarkerFree();
    OwnMessageIsShownVerbatim(NoTextMessage);
  }

  // ---------------------------------------------------------------------------------------
  // Image calls (geminiService.ts:69-135)

  datatype InlineData = InlineData(data: string, mimeType: string)
  datatype ResponsePart = ResponsePart(text: Option<string>, inlineData: Option<InlineData>)

  /** The outcome of an image call: it threw, or it returned; `parts` is absent when any link of
      `response.candidates?.[0]?.content?.parts` is. */
  datatype ImageCall = ImageThrew(message: Option<string>) | ImageReturned(parts: Option<seq<ResponsePart>>)

  /** `parts.find(p => p.inlineData)`, keeping only the inline data. */
  function FirstInlineData(parts: seq<ResponsePart>): (r: Option<InlineData>)
    ensures r.None? <==> forall k :: 0 <= k < |parts| ==> parts[k].inlineData.None?
    ensures r.Some? ==>
      exists k :: 0 <= k < |parts| && parts[k].inlineData == r && forall j :: 0 <= j < k ==> parts[j].inlineData.None?
    decreases |parts|
  {
    if parts == [] then None
    else if parts[0].inlineData.Some? then parts[0].inlineData
    else
      var r := FirstInlineData(parts[1..]);
      assert forall k :: 1 <= k < |parts| ==> parts[k] == parts[1..][k - 1];
      r
  }

  /** `data:<mime>;base64,<data>`. */
  function DataUrl(mimeType: string, data: string): string {
    "data:" + mimeType + ";base64," + data
  }

  const PngPrefix := "data:image/png;base64,"

  /** A PNG data URI is the PNG prefix followed by the payload. */
  lemma PngDataUrl(data: string)
    ensures DataUrl("image/png", data) == PngPrefix + data
    ensures StartsWith(DataUrl("image/png", data), PngPrefix)
  {
    assert DataUrl("image/png", data) == PngPrefix + data;
    assert (PngPrefix + data)[..|PngPrefix|] == PngPrefix;
  }

  /** The three image operations, each with its own failure text. */
  datatype ImageOp = Visual | Logo | Edit {
    function NoImageMessage(): string {
      match this
      case Visual => "ဓာတ်ပုံဖန်တီးမှု မအောင်မြင်ပါ။"
      case Logo => "Logo ဖန်တီးမှု မအောင်မြင်ပါ။"
      case Edit => "ပုံပြင်ဆင်မှု မအောင်မြင်ပါ။"
    }
  }

  /** What every image operation promises about the reply it got: success exactly when the reply
      has parts and one of them carries inline data, and then the PNG data URI of the first such
      part; a thrown error is translated; a reply without an image shows the operation's own text
      behind "Error: "; a failure is never empty. */
  predicate ImageOutcome(op: ImageOp, call: ImageCall, r: Result<string, string>) {
    && (r.Success? <==> call.ImageReturned? && call.parts.Some? && FirstInlineData(call.parts.value).Some?)
    && (r.Success? ==> r.value == PngPrefix + FirstInlineData(call.parts.value).value.data)
    && (r.Failure? ==> r.error != "")
    && (call.ImageThrew? ==> r == Failure(HandleAIError(call.message)))
    && (call.ImageReturned? && r.Failure? ==> r == Failure(ErrorPrefix + op.NoImageMessage()))
  }

  /** The result of an image call: the PNG data URI of the first part that has inline data, or the
      translated error. */
  function ImageCallResult(op: ImageOp, call: ImageCall): (r: Result<string, string>)
    ensures r.Success? <==> call.ImageReturned? && call.parts.Some? && FirstInlineData(call.parts.value).Some?
    ensures r.Success? ==> r.value == DataUrl("image/png", FirstInlineData(call.parts.value).value.data)
    ensures r.Success? ==> StartsWith(r.value, PngPrefix)
    ensures call.ImageThrew? ==> r == Failure(HandleAIError(call.message))
    ensures call.ImageReturned? && r.Failure? ==> r == Failure(HandleAIError(Some(op.NoImageMessage())))
    ensures r.Failure? ==> r.error != ""
    ensures ImageOutcome(op, call, r)
  {
    match call
    case ImageThrew(m) => Failure(HandleAIError(m))
    case ImageReturned(parts) =>
      var found := if parts.Some? then FirstInlineData(parts.value) else None;
      if found.Some? then
        PngDataUrl(found.value.data);
        Success(DataUrl("image/png", found.value.data))
      else
        NoImageFailureText(op);
        Failure(HandleAIError(Some(op.NoImageMessage())))
  }

  /** Each no-image text carries none of the markers. */
  lemma VisualMessageIsMarkerFree()
    ensures MarkerFree(Visual.NoImageMessage())
  {
  }

  lemma LogoMessageIsMarkerFree()
    ensures MarkerFree(Logo.NoImageMessage())
  {
  }

  lemma EditMessageIsMarkerFree()
    ensures MarkerFree(Edit.NoImageMessage())
  {
  }

  /** Every no-image text is marker-free. */
  lemma NoImageMessageIsMarkerFree(op: ImageOp)
    ensures MarkerFree(op.NoImageMessage())
  {
    match op
    case Visual => VisualMessageIsMarkerFree();
    case Logo => LogoMessageIsMarkerFree();
    case Edit => EditMessageIsMarkerFree();
  }

  /** When the reply holds no image, the user is shown "Error: " and the operation's own text. */
  lemma {:induction false} NoImageFailureText(op: ImageOp)
    ensures HandleAIError(Some(op.NoImageMessage())) == ErrorPrefix + op.NoImageMessage()
  {
    NoImageMessageIsMarkerFree(op);
    OwnMessageIsShownVerbatim(op.NoImageMessage());
  }

  /** Everything an image call hands to the backend. */
  datatype ImageRequest = ImageRequest(model: string, parts: seq<Part>)

  /** `'<s>'` and `"<s>"`. */
  function SingleQuoted(s: string): string { "'" + s + "'" }
  function DoubleQuoted(s: string): string { "\"" + s + "\"" }

  const VisualLead := "A ultra-high-end professional cinematic studio product shot of: "
  const VisualTail := ". \n"
    + "        STYLING: Cinematic color grading, moody shadows, teal and orange highlights, 8k resolution, photorealistic. \n"
    + "        BACKGROUND: Clean professional minimalist studio background with soft rim lighting.\n"
    + "        CRITICAL: DO NOT INCLUDE ANY TEXT, NUMBERS, LETTERS, OR CHARACTERS. NO BURMESE TEXT. NO GRAPHICS. \n"
    + "        Focus purely on the visual aesthetic and product details with movie-quality textures."

  /** The instruction of `generateProductVisual`. */
  function VisualPrompt(productName: string): (r: string)
    ensures Contains(r, SingleQuoted(productName))
  {
    var q := SingleQuoted(productName);
    ContainsSelf(q);
    ContainsExtendLeft(VisualLead, q, q);
    ContainsExtendRight(VisualLead + q, VisualTail, q);
    VisualLead + q + VisualTail
  }

  const LogoLead := "A professional,"
  const LogoBrandClause := " design for a brand named "
  const LogoTail := ". \n"
    + "        Minimalist, vector style, flat design, clean lines. \n"
    + "        High resolution, premium branding, solid background. \n"
    + "        The logo should be centered. Focus on a strong visual icon. \n"
    + "        STRICTLY NO BURMESE TEXT OR ROBOTIC BURMESE LETTERS."

  /** The words that carry the logo's style. */
  function StyleClause(style: string): string { " " + style + " logo" }

  /** The instruction of `generateLogo`. */
  function LogoPrompt(style: string, brandName: string): (r: string)
    ensures Contains(r, SingleQuoted(brandName))
    ensures Contains(r, StyleClause(style))
  {
    var q, sc := SingleQuoted(brandName), StyleClause(style);
    var head := LogoLead + sc + LogoBrandClause;
    ContainsSelf(q);
    ContainsExtendLeft(head, q, q);
    ContainsExtendRight(head + q, LogoTail, q);
    ContainsSelf(sc);
    ContainsExtendLeft(LogoLead, sc, sc);
    ContainsExtendRight(LogoLead + sc, LogoBrandClause, sc);
    ContainsExtendRight(head, q, sc);
    ContainsExtendRight(head + q, LogoTail, sc);
    head + q + LogoTail
  }

  const EditLead := "TASK: Edit this image: "
  const EditTail := ". \n"
    + "          Preserve cinematic lighting and colors. \n"
    + "          STRICTLY NO TEXT OR CHARACTERS."

  /** The instruction of `editProductImage`. */
  function EditInstruction(editPrompt: string): (r: string)
    ensures Contains(r, DoubleQuoted(editPrompt))
  {
    var dq := DoubleQuoted(editPrompt);
    ContainsSelf(dq);
    ContainsExtendLeft(EditLead, dq, dq);
    ContainsExtendRight(EditLead + dq, EditTail, dq);
    EditLead + dq + EditTail
  }

  /** The request of `generateProductVisual`: one text part, quoting the product name. */
  function VisualRequest(productName: string): (q: ImageRequest)
    ensures q.model == ImageModel && |q.parts| == 1 && q.parts[0].TextPart?
    ensures Contains(q.parts[0].text, SingleQuoted(productName))
  {
    ImageRequest(ImageModel, [TextPart(VisualPrompt(productName))])
  }

  /** `generateProductVisual`: what the reply to its request yields. */
  function GenerateProductVisual(productName: string, backend: ImageRequest -> ImageCall): (r: Result<string, string>)
    ensures ImageOutcome(Visual, backend(VisualRequest(productName)), r)
  {
    ImageCallResult(Visual, backend(VisualRequest(productName)))
  }

  /** The request of `generateLogo`: one text part, quoting the brand name and naming the style,
      which is "modern" only when no style is passed at all. */
  function LogoRequest(brandName: string, style: Option<string>): (q: ImageRequest)
    ensures q.model == ImageModel && |q.parts| == 1 && q.parts[0].TextPart?
    ensures Contains(q.parts[0].text, SingleQuoted(brandName))
    ensures style.Some? ==> Contains(q.parts[0].text, StyleClause(style.value))
    ensures style.None? ==> Contains(q.parts[0].text, " modern logo")
  {
    assert StyleClause("modern") == " modern logo";
    ImageRequest(ImageModel, [TextPart(LogoPrompt(style.GetOr("modern"), brandName))])
  }

  /** `generateLogo`: what the reply to its request yields. */
  function GenerateLogo(brandName: string, style: Option<string>, backend: ImageRequest -> ImageCall): (r: Result<string, string>)
    ensures ImageOutcome(Logo, backend(LogoRequest(brandName, style)), r)
  {
    ImageCallResult(Logo, backend(LogoRequest(brandName, style)))
  }

  /** The bytes `editProductImage` sends: `s.split(',')[1]` when `s` has a comma, which is the text
      between the first comma and the next one (or the end); `s` itself otherwise. */
  function EditData(s: string): (r: string)
    ensures ',' !in s ==> r == s
    ensures ',' in s ==>
      var t := s[FirstIndex(s, ',') + 1..];
      r == if ',' in t then t[..FirstIndex(t, ',')] else t
    ensures ',' !in r
  {
    if ',' in s then
      var i := FirstIndex(s, ',');
      assert s == s[..i] + [','] + s[i + 1..];
      SplitAtSeparator(s[..i], ',', s[i + 1..]);
      SplitHead(s[i + 1..], ',');
      SplitFieldsAreSeparatorFree(s, ',');
      Split(s, ',')[1]
    else
      s
  }

  /** A data URL's payload is its second comma-separated field, whatever the media type. */
  lemma DataUrlPayload(mimeType: string, data: string)
    requires ',' !in mimeType && ',' !in data
    ensures |Split(DataUrl(mimeType, data), ',')| == 2
    ensures Split(DataUrl(mimeType, data), ',')[1] == data
  {
    var head := "data:" + mimeType + ";base64";
    assert ',' !in head by {
      assert head == "data:" + mimeType + ";base64";
      assert forall k :: 0 <= k < |head| ==> head[k] != ',' by {
        forall k | 0 <= k < |head| ensures head[k] != ',' {
          if k >= 5 && k < 5 + |mimeType| { assert head[k] == mimeType[k - 5]; }
        }
      }
    }
    assert DataUrl(mimeType, data) == head + [','] + data;
    SplitAtSeparator(head, ',', data);
    SplitWithout(data, ',');
  }

  /** Editing an image this service produced sends exactly that image's bytes back. */
  lemma {:induction false} EditDataOfPngDataUrl(data: string)
    requires ',' !in data
    ensures EditData(DataUrl("image/png", data)) == data
  {
    DataUrlPayload("image/png", data);
    assert ',' in DataUrl("image/png", data) by { assert DataUrl("image/png", data)[21] == ','; }
  }

  /** A PNG data URI with a comma-free payload is stripped to that payload. */
  lemma PngPayloadIsSent(s: string)
    ensures StartsWith(s, PngPrefix) && ',' !in s[|PngPrefix|..] ==> EditData(s) == s[|PngPrefix|..]
  {
    if StartsWith(s, PngPrefix) && ',' !in s[|PngPrefix|..] {
      var payload := s[|PngPrefix|..];
      assert s == PngPrefix + payload;
      PngDataUrl(payload);
      EditDataOfPngDataUrl(payload);
    }
  }

  /** The request of `editProductImage`: the stripped PNG image first, then the instruction that
      quotes the edit prompt. An image this service returned is sent as exactly its payload. */
  function EditRequest(base64Image: string, editPrompt: string): (q: ImageRequest)
    ensures q.model == ImageModel && |q.parts| == 2
    ensures q.parts[0].InlinePart? && q.parts[0].mimeType == "image/png" && ',' !in q.parts[0].data
    ensures ',' !in base64Image ==> q.parts[0].data == base64Image
    ensures StartsWith(base64Image, PngPrefix) && ',' !in base64Image[|PngPrefix|..] ==>
      q.parts[0].data == base64Image[|PngPrefix|..]
    ensures q.parts[1].TextPart? && Contains(q.parts[1].text, DoubleQuoted(editPrompt))
  {
    PngPayloadIsSent(base64Image);
    ImageRequest(ImageModel, [InlinePart(EditData(base64Image), "image/png"), TextPart(EditInstruction(editPrompt))])
  }

  /** `editProductImage`: what the reply to its request yields. */
  function EditProductImage(base64Image: string, editPrompt: string, backend: ImageRequest -> ImageCall): (r: Result<string, string>)
    ensures ImageOutcome(Edit, backend(EditRequest(base64Image, editPrompt)), r)
  {
    ImageCallResult(Edit, backend(EditRequest(base64Image, editPrompt)))
  }
}
