/** ContentDisplay.tsx: the defensive defaulting of whatever plan the backend returned, the
    derived full post, and what each copy button copies. */
module ContentDisplay {
  import opened Wrappers
  import opened Strings
  import opened Types

  const CaptionPlaceholder := "Caption generating..."
  const ProductNamePlaceholder := "Product"
  const StrategyPlaceholder := "Analyzing strategy..."
  const TimePlaceholder := "Anytime"
  const ScriptPlaceholder := "Generating script..."

  /** The values the component renders in place of the raw plan. */
  datatype SafePlan = SafePlan(
    caption: string,
    hashtags: seq<string>,
    productName: string,
    strategy: string,
    time: string,
    script: string)

  /** An absent plan reads as a record with every field missing (`plan?.field`). */
  const EmptyRawPlan := RawPlan(None, None, NoTags, None, None, None)

  /** `Array.isArray(h) ? h : []`. */
  function SafeHashtags(h: RawHashtags): (r: seq<string>)
    ensures h.TagArray? ==> r == h.tags
    ensures !h.TagArray? ==> r == []
  {
    match h
    case TagArray(tags) => tags
    case _ => []
  }

  /** The normalised plan: each text field is the raw value when that is a non-empty string and
      its placeholder otherwise; the hashtags are kept only when they are an array. */
  function Normalize(plan: Option<RawPlan>): (r: SafePlan)
    ensures var p := plan.GetOr(EmptyRawPlan);
      && (Truthy(p.postCaption) ==> r.caption == p.postCaption.value)
      && (!Truthy(p.postCaption) ==> r.caption == CaptionPlaceholder)
      && (p.hashtags.TagArray? ==> r.hashtags == p.hashtags.tags)
      && (!p.hashtags.TagArray? ==> r.hashtags == [])
      && (Truthy(p.productName) ==> r.productName == p.productName.value)
      && (!Truthy(p.productName) ==> r.productName == ProductNamePlaceholder)
      && (Truthy(p.strategyAdvice) ==> r.strategy == p.strategyAdvice.value)
      && (!Truthy(p.strategyAdvice) ==> r.strategy == StrategyPlaceholder)
      && (Truthy(p.postingTimeSuggestion) ==> r.time == p.postingTimeSuggestion.value)
      && (!Truthy(p.postingTimeSuggestion) ==> r.time == TimePlaceholder)
      && (Truthy(p.videoScript) ==> r.script == p.videoScript.value)
      && (!Truthy(p.videoScript) ==> r.script == ScriptPlaceholder)
    ensures r.caption != "" && r.productName != "" && r.strategy != "" && r.time != "" && r.script != ""
  {
    var p := plan.GetOr(EmptyRawPlan);
    SafePlan(
      OrElse(p.postCaption, CaptionPlaceholder),
      SafeHashtags(p.hashtags),
      OrElse(p.productName, ProductNamePlaceholder),
      OrElse(p.strategyAdvice, StrategyPlaceholder),
      OrElse(p.postingTimeSuggestion, TimePlaceholder),
      OrElse(p.videoScript, ScriptPlaceholder))
  }

  /** No plan at all still renders: every placeholder and no hashtags. */
  lemma AbsentPlanShowsPlaceholders()
    ensures Normalize(None) == SafePlan(CaptionPlaceholder, [], ProductNamePlaceholder,
      StrategyPlaceholder, TimePlaceholder, ScriptPlaceholder)
  {
  }

  /** Each rendered field depends on its own raw field only. */
  lemma FieldsAreIndependent(a: RawPlan, b: RawPlan)
    ensures a.postCaption == b.postCaption ==> Normalize(Some(a)).caption == Normalize(Some(b)).caption
    ensures a.hashtags == b.hashtags ==> Normalize(Some(a)).hashtags == Normalize(Some(b)).hashtags
    ensures a.productName == b.productName ==> Normalize(Some(a)).productName == Normalize(Some(b)).productName
    ensures a.strategyAdvice == b.strategyAdvice ==> Normalize(Some(a)).strategy == Normalize(Some(b)).strategy
    ensures a.postingTimeSuggestion == b.postingTimeSuggestion ==> Normalize(Some(a)).time == Normalize(Some(b)).time
    ensures a.videoScript == b.videoScript ==> Normalize(Some(a)).script == Normalize(Some(b)).script
  {
  }

  /** The raw record a rendered plan would decode from. */
  function AsRaw(v: SafePlan): RawPlan {
    RawPlan(Some(v.productName), Some(v.caption), TagArray(v.hashtags),
      Some(v.time), Some(v.strategy), Some(v.script))
  }

  /** Normalising an already normalised plan changes nothing. */
  lemma NormalizeIdempotent(plan: Option<RawPlan>)
    ensures Normalize(Some(AsRaw(Normalize(plan)))) == Normalize(plan)
  {
  }

  /** The raw record of a well-typed `MarketingPlan`. */
  function FromPlan(m: MarketingPlan): RawPlan {
    RawPlan(Some(m.productName), Some(m.postCaption), TagArray(m.hashtags),
      Some(m.postingTimeSuggestion), Some(m.strategyAdvice), Some(m.videoScript))
  }

  /** A complete plan, with every text field non-empty, is shown exactly as it is. */
  lemma CompletePlanShownAsIs(m: MarketingPlan)
    requires m.productName != "" && m.postCaption != "" && m.postingTimeSuggestion != ""
    requires m.strategyAdvice != "" && m.videoScript != ""
    ensures Normalize(Some(FromPlan(m))) == SafePlan(m.postCaption, m.hashtags, m.productName,
      m.strategyAdvice, m.postingTimeSuggestion, m.videoScript)
  {
  }

  const BlankLine := "\n\n"

  /** The whole post: the caption, a blank line, then the hashtags separated by single spaces. */
  function FullPost(v: SafePlan): string {
    v.caption + BlankLine + Join(v.hashtags, " ")
  }

  /** The post opens with the caption and a blank line; what follows is the joined hashtags, and
      with no hashtags nothing follows. */
  lemma FullPostLayout(v: SafePlan)
    ensures StartsWith(FullPost(v), v.caption + BlankLine)
    ensures FullPost(v)[|v.caption| + 2..] == Join(v.hashtags, " ")
    ensures v.hashtags == [] ==> FullPost(v) == v.caption + BlankLine
  {
    assert FullPost(v)[..|v.caption + BlankLine|] == v.caption + BlankLine;
  }

  /** Hashtags without spaces can be read back from the post in their order. */
  lemma {:induction false} FullPostHashtagsRecoverable(v: SafePlan)
    requires |v.hashtags| >= 1
    requires forall k :: 0 <= k < |v.hashtags| ==> ' ' !in v.hashtags[k]
    ensures Split(FullPost(v)[|v.caption| + 2..], ' ') == v.hashtags
  {
    FullPostLayout(v);
    SplitJoin(v.hashtags, ' ');
  }

  /** The worked example: caption "Buy now" with "#sale" and "#deal". */
  lemma FullPostExample()
    ensures FullPost(SafePlan("Buy now", ["#sale", "#deal"], "", "", "", "")) == "Buy now\n\n#sale #deal"
  {
    assert Join(["#sale", "#deal"], " ") == "#sale #deal" by {
      assert Join(["#deal"], " ") == "#deal";
    }
  }

  /** The three copy buttons. */
  datatype CopyButton = CopyPost | CopyCaption | CopyScript

  /** The text each button puts on the clipboard. */
  function CopiedText(v: SafePlan, b: CopyButton): (r: string)
    ensures b == CopyCaption ==> r == v.caption
    ensures b == CopyScript ==> r == v.script
    ensures b == CopyPost ==> r == FullPost(v)
  {
    match b
    case CopyPost => FullPost(v)
    case CopyCaption => v.caption
    case CopyScript => v.script
  }

  /** Copying the caption alone copies the opening of the full post. */
  lemma {:induction false} CaptionCopyStartsPostCopy(v: SafePlan)
    ensures StartsWith(CopiedText(v, CopyPost), CopiedText(v, CopyCaption))
  {
    FullPostLayout(v);
    StartsWithPrefix(v.caption, BlankLine, FullPost(v));
  }
}
