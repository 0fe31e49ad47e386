/** ImageGenerator.tsx: the product-visual panel. Each handler is split at its `await`: a start
    step that checks the guard and shows the loading state, and a settle step that applies the
    backend's outcome. The handler itself runs both with the outcome of the real call. */
module ImageGenerator {
  import opened Wrappers
  import opened GeminiService

  const GeneratingText := "AI Artist က ပုံဖော်နေပါသည်..."
  const EditingText := "ပုံကို ပြင်ဆင်နေပါသည်..."

  /** The three mutually exclusive bodies of the panel. */
  datatype Panel = PlaceholderPanel | LoadingPanel | ImagePanel

  /** The conditions each body is rendered under (ImageGenerator.tsx:72, 78, 86). */
  predicate ShowsPlaceholder(imageUrl: Option<string>, anyLoading: bool) { !Truthy(imageUrl) && !anyLoading }
  predicate ShowsLoading(anyLoading: bool) { anyLoading }
  predicate ShowsImage(imageUrl: Option<string>, anyLoading: bool) { Truthy(imageUrl) && !anyLoading }

  /** The body on screen: exactly one of the three conditions holds, and it names it. */
  function PanelShown(imageUrl: Option<string>, anyLoading: bool): (p: Panel)
    ensures p == PlaceholderPanel <==> ShowsPlaceholder(imageUrl, anyLoading)
    ensures p == LoadingPanel <==> ShowsLoading(anyLoading)
    ensures p == ImagePanel <==> ShowsImage(imageUrl, anyLoading)
  {
    if anyLoading then LoadingPanel else if Truthy(imageUrl) then ImagePanel else PlaceholderPanel
  }

  /** `initialImageUrl || null`. */
  function InitialImage(initialImageUrl: Option<string>): (r: Option<string>)
    ensures Truthy(initialImageUrl) ==> r == initialImageUrl
    ensures !Truthy(initialImageUrl) ==> r == None
  {
    if Truthy(initialImageUrl) then initialImageUrl else None
  }

  class Generator {
    // Properties given by the parent.
    var productName: string
    var initialImageUrl: Option<string>
    var isLoadingExternally: bool
    var hasImageCallback: bool
    // Component state.
    var imageUrl: Option<string>
    var loading: bool
    var editPrompt: string
    var error: Option<string>
    var loadingText: string

    constructor (productName: string, initialImageUrl: Option<string>, isLoadingExternally: bool, hasImageCallback: bool)
      ensures this.productName == productName && this.initialImageUrl == initialImageUrl
      ensures this.isLoadingExternally == isLoadingExternally && this.hasImageCallback == hasImageCallback
      ensures imageUrl == InitialImage(initialImageUrl)
      ensures !loading && editPrompt == "" && error == None && loadingText == GeneratingText
    {
      this.productName, this.initialImageUrl := productName, initialImageUrl;
      this.isLoadingExternally, this.hasImageCallback := isLoadingExternally, hasImageCallback;
      imageUrl := InitialImage(initialImageUrl);
      loading, editPrompt, error, loadingText := false, "", None, GeneratingText;
    }

    /** `loading || isLoadingExternally`. */
    function IsAnyLoading(): bool
      reads this
    {
      loading || isLoadingExternally
    }

    /** The body on screen: the loading body exactly while anything loads, and the image exactly
        when the "Regenerate New" button is offered. */
    function ShownPanel(): (p: Panel)
      reads this
      ensures p == LoadingPanel <==> IsAnyLoading()
      ensures p == ImagePanel <==> OffersRegenerate()
    {
      PanelShown(imageUrl, IsAnyLoading())
    }

    /** The "Regenerate New" button is offered exactly alongside the image. */
    predicate OffersRegenerate()
      reads this
    {
      Truthy(imageUrl) && !IsAnyLoading()
    }

    /** The error banner. */
    predicate ShowsError()
      reads this
    {
      Truthy(error)
    }

    /** The parent passes new properties. The effect on `initialImageUrl` resets the image only
        when that property actually changes. */
    method Rerender(productName: string, initialImageUrl: Option<string>, isLoadingExternally: bool)
      modifies this`productName, this`initialImageUrl, this`isLoadingExternally, this`imageUrl
      ensures this.productName == productName && this.initialImageUrl == initialImageUrl
      ensures this.isLoadingExternally == isLoadingExternally
      ensures initialImageUrl != old(this.initialImageUrl) ==> imageUrl == InitialImage(initialImageUrl)
      ensures initialImageUrl == old(this.initialImageUrl) ==> imageUrl == old(imageUrl)
    {
      if initialImageUrl != this.initialImageUrl {
        imageUrl := InitialImage(initialImageUrl);
      }
      this.productName, this.initialImageUrl, this.isLoadingExternally := productName, initialImageUrl, isLoadingExternally;
    }

    method SetEditPrompt(value: string)
      modifies this`editPrompt
      ensures editPrompt == value
    {
      editPrompt := value;
    }

    /** `handleGenerate` up to its `await`: nothing without a product name; otherwise loading,
        with the generating text and no error. */
    method StartGenerate() returns (started: bool)
      modifies this`loading, this`loadingText, this`error
      ensures started <==> productName != ""
      ensures !started ==> loading == old(loading) && loadingText == old(loadingText) && error == old(error)
      ensures started ==> loading && loadingText == GeneratingText && error == None
      ensures started ==> ShownPanel() == LoadingPanel
    {
      started := productName != "";
      if started {
        loading, loadingText, error := true, GeneratingText, None;
      }
    }

    /** `handleGenerate` after its `await`. A url replaces the image and is reported to the
        callback if there is one; a failure keeps the image and shows its message. */
    method SettleGenerate(outcome: Result<string, string>) returns (reported: Option<string>)
      modifies this`imageUrl, this`error, this`loading
      ensures !loading
      ensures outcome.Success? ==> imageUrl == Some(outcome.value) && error == old(error)
      ensures outcome.Success? ==> reported == if hasImageCallback then Some(outcome.value) else None
      ensures outcome.Failure? ==> imageUrl == old(imageUrl) && error == Some(outcome.error) && reported == None
      ensures !isLoadingExternally ==> ShownPanel() == if Truthy(imageUrl) then ImagePanel else PlaceholderPanel
    {
      reported := None;
      match outcome {
        case Success(url) =>
          imageUrl := Some(url);
          if hasImageCallback {
            reported := Some(url);
          }
        case Failure(message) =>
          error := Some(message);
      }
      loading := false;
    }

    /** `handleGenerate` against a backend. */
    method HandleGenerate(backend: ImageRequest -> ImageCall) returns (reported: Option<string>)
      modifies this`loading, this`loadingText, this`error, this`imageUrl
      ensures productName == "" ==>
        reported == None && imageUrl == old(imageUrl) && loading == old(loading)
        && loadingText == old(loadingText) && error == old(error)
      ensures productName != "" ==>
        var outcome := GenerateProductVisual(productName, backend);
        && !loading && loadingText == GeneratingText
        && (outcome.Success? ==> imageUrl == Some(outcome.value) && error == None)
        && (outcome.Success? ==> reported == if hasImageCallback then Some(outcome.value) else None)
        && (outcome.Failure? ==> imageUrl == old(imageUrl) && error == Some(outcome.error) && reported == None)
      ensures productName != "" && GenerateProductVisual(productName, backend).Success? && !isLoadingExternally ==>
        ShownPanel() == ImagePanel && OffersRegenerate()
      ensures productName != "" && GenerateProductVisual(productName, backend).Failure? ==> ShowsError()
    {
      var started := StartGenerate();
      reported := None;
      if started {
        reported := SettleGenerate(GenerateProductVisual(productName, backend));
      }
    }

    /** `handleEdit` up to its `await`: nothing without an image and a non-empty instruction;
        otherwise loading, with the editing text and no error. */
    method StartEdit() returns (started: bool)
      modifies this`loading, this`loadingText, this`error
      ensures started <==> Truthy(imageUrl) && editPrompt != ""
      ensures !started ==> loading == old(loading) && loadingText == old(loadingText) && error == old(error)
      ensures started ==> loading && loadingText == EditingText && error == None
      ensures started ==> ShownPanel() == LoadingPanel
    {
      started := Truthy(imageUrl) && editPrompt != "";
      if started {
        loading, loadingText, error := true, EditingText, None;
      }
    }

    /** `handleEdit` after its `await`. A url replaces the image and clears the instruction; a
        failure keeps both and shows its message. */
    method SettleEdit(outcome: Result<string, string>)
      modifies this`imageUrl, this`editPrompt, this`error, this`loading
      ensures !loading
      ensures outcome.Success? ==> imageUrl == Some(outcome.value) && editPrompt == "" && error == old(error)
      ensures outcome.Failure? ==>
        imageUrl == old(imageUrl) && editPrompt == old(editPrompt) && error == Some(outcome.error)
      ensures !isLoadingExternally ==> ShownPanel() == if Truthy(imageUrl) then ImagePanel else PlaceholderPanel
    {
      match outcome {
        case Success(url) =>
          imageUrl, editPrompt := Some(url), "";
        case Failure(message) =>
          error := Some(message);
      }
      loading := false;
    }

    /** `handleEdit` against a backend: the current image and instruction are what is sent. */
    method HandleEdit(backend: ImageRequest -> ImageCall)
      modifies this`loading, this`loadingText, this`error, this`imageUrl, this`editPrompt
      ensures !(old(Truthy(imageUrl)) && old(editPrompt) != "") ==>
        imageUrl == old(imageUrl) && editPrompt == old(editPrompt) && loading == old(loading)
        && loadingText == old(loadingText) && error == old(error)
      ensures old(Truthy(imageUrl)) && old(editPrompt) != "" ==>
        var outcome := EditProductImage(old(imageUrl).value, old(editPrompt), backend);
        && !loading && loadingText == EditingText
        && (outcome.Success? ==> imageUrl == Some(outcome.value) && editPrompt == "" && error == None)
        && (outcome.Failure? ==>
              imageUrl == old(imageUrl) && editPrompt == old(editPrompt) && error == Some(outcome.error))
      ensures old(Truthy(imageUrl)) && old(editPrompt) != "" ==>
        EditProductImage(old(imageUrl).value, old(editPrompt), backend).Failure? ==> ShowsError()
    {
      var started := StartEdit();
      if started {
        SettleEdit(EditProductImage(imageUrl.value, editPrompt, backend));
      }
    }
  }

  /** Whatever the image and the loading flags, exactly one body is on screen. */
  lemma ExactlyOnePanel(imageUrl: Option<string>, anyLoading: bool)
    ensures ShowsPlaceholder(imageUrl, anyLoading) || ShowsLoading(anyLoading) || ShowsImage(imageUrl, anyLoading)
    ensures !(ShowsPlaceholder(imageUrl, anyLoading) && ShowsLoading(anyLoading))
    ensures !(ShowsPlaceholder(imageUrl, anyLoading) && ShowsImage(imageUrl, anyLoading))
    ensures !(ShowsLoading(anyLoading) && ShowsImage(imageUrl, anyLoading))
  {
  }
}
