/** The records and closed enumerations of types.ts. */
module Types {
  import opened Wrappers

  /** A shop the backend may list next to a plan (types.ts:10). */
  datatype LocalStore = LocalStore(name: string, uri: string)

  /** The content bundle the backend is asked to produce: five text fields, the hashtags in
      order, and two optional lists. */
  datatype MarketingPlan = MarketingPlan(
    productName: string,
    postCaption: string,
    hashtags: seq<string>,
    postingTimeSuggestion: string,
    strategyAdvice: string,
    videoScript: string,
    sources: Option<seq<string>>,
    localStores: Option<seq<LocalStore>>)

  /** What the backend's JSON decodes to before the unchecked cast to `MarketingPlan`: each text
      field may be missing (or, in JavaScript, empty), and `hashtags` may be missing or not an
      array at all. Raw text fields are assumed to be strings when present. */
  datatype RawHashtags = TagArray(tags: seq<string>) | NotAnArray | NoTags

  datatype RawPlan = RawPlan(
    productName: Option<string>,
    postCaption: Option<string>,
    hashtags: RawHashtags,
    postingTimeSuggestion: Option<string>,
    strategyAdvice: Option<string>,
    videoScript: Option<string>)

  /** The string-literal union `WorkStatus`. */
  datatype WorkStatus = Draft | PendingApproval | Approved | Posted {
    /** The literal that stands for this status in TypeScript. */
    function Literal(): string {
      match this
      case Draft => "DRAFT"
      case PendingApproval => "PENDING_APPROVAL"
      case Approved => "APPROVED"
      case Posted => "POSTED"
    }
  }

  /** Reads a string as a `WorkStatus`; only the four literals are statuses. */
  function ParseWorkStatus(s: string): (r: Option<WorkStatus>)
    ensures r.Some? ==> r.value.Literal() == s
  {
    if s == "DRAFT" then Some(Draft)
    else if s == "PENDING_APPROVAL" then Some(PendingApproval)
    else if s == "APPROVED" then Some(Approved)
    else if s == "POSTED" then Some(Posted)
    else None
  }

  /** Every status is named by its literal and by nothing else. */
  lemma WorkStatusLiteralRoundTrip(st: WorkStatus, s: string)
    ensures ParseWorkStatus(st.Literal()) == Some(st)
    ensures ParseWorkStatus(s) == Some(st) <==> s == st.Literal()
  {
  }

  /** A saved generation: the complete plan, the optional picture, a status and a log. */
  datatype HistoryItem = HistoryItem(
    id: string,
    timestamp: int,
    productName: string,
    productLink: string,
    plan: MarketingPlan,
    imageUrl: Option<string>,
    status: WorkStatus,
    logs: seq<string>)

  /** The string enum `LoadingState`. */
  datatype LoadingState = Idle | Analyzing | EditingImage | SendingGmail | Complete | Error {
    /** The string value each member carries at run time. */
    function Value(): string {
      match this
      case Idle => "IDLE"
      case Analyzing => "ANALYZING"
      case EditingImage => "EDITING_IMAGE"
      case SendingGmail => "SENDING_GMAIL"
      case Complete => "COMPLETE"
      case Error => "ERROR"
    }
  }

  /** Reads a string value back as a `LoadingState` member. */
  function ParseLoadingState(s: string): (r: Option<LoadingState>)
    ensures r.Some? ==> r.value.Value() == s
  {
    if s == "IDLE" then Some(Idle)
    else if s == "ANALYZING" then Some(Analyzing)
    else if s == "EDITING_IMAGE" then Some(EditingImage)
    else if s == "SENDING_GMAIL" then Some(SendingGmail)
    else if s == "COMPLETE" then Some(Complete)
    else if s == "ERROR" then Some(Error)
    else None
  }

  /** The six members have distinct values and each value names exactly its member. */
  lemma LoadingStateValueRoundTrip(l: LoadingState, s: string)
    ensures ParseLoadingState(l.Value()) == Some(l)
    ensures ParseLoadingState(s) == Some(l) <==> s == l.Value()
  {
  }
}
