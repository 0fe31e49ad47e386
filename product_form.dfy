/** ProductForm.tsx: the form state behind "Sales Lab". The link input and the image picker
    exclude each other; submitting hands a generation request to the caller. */
module ProductForm {
  import opened Wrappers
  import opened Strings
  import opened GeminiService

  /** The picked image: its base64 bytes, media type and file name. */
  datatype SelectedImage = SelectedImage(data: string, mimeType: string, name: string)

  /** The file the picker returned, before it is read. */
  datatype PickedFile = PickedFile(mimeType: string, name: string)

  /** Whether the picker's file is taken: there is one and its type starts with "image/". */
  predicate AcceptsFile(file: Option<PickedFile>) {
    file.Some? && StartsWith(file.value.mimeType, "image/")
  }

  class Form {
    var link: string
    var price: string
    var phone: string
    var selectedImage: Option<SelectedImage>

    /** An image is never selected while a link is typed in. */
    ghost predicate Valid()
      reads this
    {
      selectedImage.Some? ==> link == ""
    }

    constructor ()
      ensures Valid()
      ensures link == "" && price == "" && phone == "" && selectedImage == None
    {
      link, price, phone, selectedImage := "", "", "", None;
    }

    /** Typing a link; the link input is only on screen while no image is selected. */
    method SetLink(value: string)
      requires Valid() && selectedImage.None?
      modifies this`link
      ensures Valid() && link == value
    {
      link := value;
    }

    method SetPrice(value: string)
      requires Valid()
      modifies this`price
      ensures Valid() && price == value
    {
      price := value;
    }

    method SetPhone(value: string)
      requires Valid()
      modifies this`phone
      ensures Valid() && phone == value
    {
      phone := value;
    }

    /** The picker's change handler together with the read of the file as a data URL, as one
        step. The data URL a reader produces always holds a comma; the bytes kept are its second
        comma-separated field. A rejected or missing file leaves the form as it was. */
    method ImageLoaded(file: Option<PickedFile>, dataUrl: string) returns (accepted: bool)
      requires Valid()
      requires AcceptsFile(file) ==> ',' in dataUrl
      modifies this`link, this`selectedImage
      ensures Valid()
      ensures accepted == AcceptsFile(file)
      ensures accepted ==> link == "" && |Split(dataUrl, ',')| >= 2
      ensures accepted ==>
        selectedImage == Some(SelectedImage(Split(dataUrl, ',')[1], file.value.mimeType, file.value.name))
      ensures !accepted ==> link == old(link) && selectedImage == old(selectedImage)
    {
      accepted := AcceptsFile(file);
      if accepted {
        SeparatorSplitsInTwo(dataUrl, ',');
        selectedImage := Some(SelectedImage(Split(dataUrl, ',')[1], file.value.mimeType, file.value.name));
        link := "";
      }
    }

    /** The remove button: only the image goes. */
    method RemoveImage()
      requires Valid()
      modifies this`selectedImage
      ensures Valid() && selectedImage == None
    {
      selectedImage := None;
    }

    /** The request the form hands over for its current fields. */
    function Request(): (r: GenerationRequest)
      reads this
      ensures r.link == Some(link) && r.price == Some(price) && r.phone == Some(phone)
      ensures r.image.Some? <==> selectedImage.Some?
      ensures selectedImage.Some? ==>
        r.image.value == ImageInput(selectedImage.value.data, selectedImage.value.mimeType)
    {
      GenerationRequest(Some(link),
        if selectedImage.Some? then Some(ImageInput(selectedImage.value.data, selectedImage.value.mimeType)) else None,
        Some(price), Some(phone))
    }

    /** Submitting: nothing while a request is in flight or while there is neither a link nor an
        image; otherwise the current fields, possibly empty, with the image's bytes and type only.
        An image request is always phrased as being about the image. */
    method Submit(isLoading: bool) returns (submitted: Option<GenerationRequest>)
      requires Valid()
      ensures submitted.None? <==> isLoading || (link == "" && selectedImage.None?)
      ensures submitted.Some? ==> submitted.value == Request()
      ensures submitted.Some? && selectedImage.Some? ==> ProductIdentifier(submitted.value.link) == ImageIdentifier
      ensures submitted.Some? && selectedImage.None? ==>
        ProductIdentifier(submitted.value.link) == LinkPhrase + link + "\""
    {
      if isLoading {
        return None;
      }
      if link == "" && selectedImage.None? {
        return None;
      }
      submitted := Some(Request());
    }
  }
}
