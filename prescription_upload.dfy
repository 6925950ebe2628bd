/** The prescription upload dialog: the list of chosen image URIs, filled
    from the camera, the gallery or the document picker, thinned by index,
    and emptied once an upload is confirmed or the changes are discarded.
    Device permissions and picker results are inputs; the alerts the
    dialog raises are returned. */
module PrescriptionUpload {
  import opened Common

  /** The most images a gallery or document pick keeps. */
  const MaxImages := 5

  datatype AlertKind = ErrorAlert | WarningAlert | QuestionAlert | SuccessAlert

  datatype Alert = Alert(kind: AlertKind, title: string, message: string)

  const CameraDenied := Alert(ErrorAlert, "Permission Denied", "Camera permission is required to take photos")
  const GalleryDenied := Alert(ErrorAlert, "Permission Denied", "Gallery permission is required to select photos")
  const CameraFailed := Alert(ErrorAlert, "Error", "Failed to take photo")
  const GalleryFailed := Alert(ErrorAlert, "Error", "Failed to select images")
  const NoImages := Alert(WarningAlert, "No Images", "Please select at least one prescription image")
  const Uploaded := Alert(SuccessAlert, "Success!",
    "Prescription uploaded successfully. Our pharmacist will review it shortly.")
  const UploadFailed := Alert(ErrorAlert, "Upload Failed", "Failed to upload prescription. Please try again.")
  const DiscardPrompt := Alert(WarningAlert, "Discard Changes?",
    "You have unsaved images. Are you sure you want to close?")

  /** What an image picker hands back: cancelled, some assets' URIs, or an
      exception. */
  datatype PickResult = Canceled | Picked(uris: seq<string>) | PickFailed

  /** What the document picker hands back: no assets, some assets' URIs, or
      an exception. */
  datatype DocumentResult = NoAssets | Assets(uris: seq<string>) | DocumentFailed

  /** `[...images, ...picked].slice(0, 5)`. */
  function AppendCapped(images: seq<string>, picked: seq<string>): (r: seq<string>)
    ensures |r| == if |images| + |picked| < MaxImages then |images| + |picked| else MaxImages
    ensures r == (images + picked)[..|r|]
  {
    var all := images + picked;
    if |all| < MaxImages then all else all[..MaxImages]
  }

  /** Images already chosen come first: a pick adds only to the free room
      below the cap, and a list already at or over the cap is cut back to
      its first five. */
  lemma AppendCappedKeepsOldFirst(images: seq<string>, picked: seq<string>)
    ensures |images| <= MaxImages ==> AppendCapped(images, picked)[..|images|] == images
    ensures |images| >= MaxImages ==> AppendCapped(images, picked) == images[..MaxImages]
    ensures |images| + |picked| <= MaxImages ==> AppendCapped(images, picked) == images + picked
  {
    var r := AppendCapped(images, picked);
    if |images| <= MaxImages {
      assert r[..|images|] == (images + picked)[..|images|];
    } else {
      assert r == (images + picked)[..MaxImages] == images[..MaxImages];
    }
  }

  /** `images.filter((_, i) => i !== index)`. */
  function RemoveAt(images: seq<string>, index: int): (r: seq<string>)
    ensures 0 <= index < |images| ==> r == images[..index] + images[index + 1..]
    ensures !(0 <= index < |images|) ==> r == images
    decreases |images|
  {
    if images == [] then []
    else
      var rest := RemoveAt(images[1..], index - 1);
      if index == 0 then
        assert images[1..] == images[..0] + images[1..];
        rest
      else
        assert 0 < index < |images| ==> images[1..][..index - 1] == images[1..index];
        [images[0]] + rest
  }

  /** Removing keeps every other image, in order, and removes one image
      exactly when the index is in range. */
  lemma RemoveAtMeaning(images: seq<string>, index: int)
    ensures |RemoveAt(images, index)| == if 0 <= index < |images| then |images| - 1 else |images|
    ensures forall k :: 0 <= k < |RemoveAt(images, index)| ==>
              RemoveAt(images, index)[k] == (if 0 <= index <= k then images[k + 1] else images[k])
  {
  }

  /** The camera appends without a cap, so a sixth image can be taken;
      the next gallery pick, even of nothing, cuts the list back to five. */
  lemma CameraPassesTheCap(images: seq<string>, uri: string)
    requires |images| == MaxImages
    ensures |images + [uri]| == MaxImages + 1
    ensures AppendCapped(images + [uri], []) == images
  {
    assert (images + [uri] + [])[..MaxImages] == images;
  }

  /** The confirmation question: "Upload 1 image?", "Upload 3 images?". */
  function UploadPrompt(count: nat): (a: Alert)
    ensures a.kind == QuestionAlert && a.title == "Upload Prescription?"
    ensures a.message == "Upload " + NatToString(count) + (if count == 1 then " image?" else " images?")
  {
    Alert(QuestionAlert, "Upload Prescription?",
      "Upload " + NatToString(count) + (if count == 1 then " image?" else " images?"))
  }

  lemma UploadPromptExamples()
    ensures UploadPrompt(1).message == "Upload 1 image?"
    ensures UploadPrompt(3).message == "Upload 3 images?"
  {
  }

  class UploadModal {
    var selectedImages: seq<string>
    var uploading: bool
    /** `onClose` has been called. */
    var closeRequested: bool
    /** `onUploadSuccess` has been called. */
    var successReported: bool

    constructor()
      ensures selectedImages == [] && !uploading && !closeRequested && !successReported
    {
      selectedImages := [];
      uploading := false;
      closeRequested := false;
      successReported := false;
    }

    /** `takePhoto`: a denied permission raises an alert; a capture that was
        not cancelled and has an asset appends its URI; an exception raises
        an alert. */
    method TakePhoto(permissionGranted: bool, result: PickResult) returns (alert: Option<Alert>)
      modifies this
      ensures !permissionGranted ==> alert == Some(CameraDenied) && selectedImages == old(selectedImages)
      ensures permissionGranted && result.Picked? && result.uris != [] ==>
                alert == None && selectedImages == old(selectedImages) + [result.uris[0]]
      ensures permissionGranted && (result.Canceled? || result == Picked([])) ==>
                alert == None && selectedImages == old(selectedImages)
      ensures permissionGranted && result.PickFailed? ==>
                alert == Some(CameraFailed) && selectedImages == old(selectedImages)
      ensures uploading == old(uploading) && closeRequested == old(closeRequested)
      ensures successReported == old(successReported)
    {
      alert := None;
      if !permissionGranted {
        alert := Some(CameraDenied);
        return;
      }
      match result
      case Picked(uris) =>
        if uris != [] {
          selectedImages := selectedImages + [uris[0]];
        }
      case Canceled =>
      case PickFailed =>
        alert := Some(CameraFailed);
    }

    /** `pickFromGallery`: the picked URIs are appended and the list is cut
        to five. */
    method PickFromGallery(permissionGranted: bool, result: PickResult) returns (alert: Option<Alert>)
      modifies this
      ensures !permissionGranted ==> alert == Some(GalleryDenied) && selectedImages == old(selectedImages)
      ensures permissionGranted && result.Picked? ==>
                alert == None && selectedImages == AppendCapped(old(selectedImages), result.uris)
      ensures permissionGranted && result.Canceled? ==> alert == None && selectedImages == old(selectedImages)
      ensures permissionGranted && result.PickFailed? ==>
                alert == Some(GalleryFailed) && selectedImages == old(selectedImages)
      ensures uploading == old(uploading) && closeRequested == old(closeRequested)
      ensures successReported == old(successReported)
    {
      alert := None;
      if !permissionGranted {
        alert := Some(GalleryDenied);
        return;
      }
      match result
      case Picked(uris) =>
        selectedImages := AppendCapped(selectedImages, uris);
      case Canceled =>
      case PickFailed =>
        alert := Some(GalleryFailed);
    }

    /** `pickDocument`: no permission is asked, the URIs are appended and
        the list cut to five, and a failure is silent. */
    method PickDocument(result: DocumentResult)
      modifies this
      ensures result.Assets? ==> selectedImages == AppendCapped(old(selectedImages), result.uris)
      ensures !result.Assets? ==> selectedImages == old(selectedImages)
      ensures uploading == old(uploading) && closeRequested == old(closeRequested)
      ensures successReported == old(successReported)
    {
      if result.Assets? {
        selectedImages := AppendCapped(selectedImages, result.uris);
      }
    }

    /** `removeImage(index)`. */
    method RemoveImage(index: int)
      modifies this
      ensures selectedImages == RemoveAt(old(selectedImages), index)
      ensures uploading == old(uploading) && closeRequested == old(closeRequested)
      ensures successReported == old(successReported)
    {
      selectedImages := RemoveAt(selectedImages, index);
    }

    /** `handleUpload`: with nothing chosen, only a warning; otherwise the
        confirmation question. Nothing changes until it is answered. */
    method HandleUpload() returns (alert: Alert)
      ensures selectedImages == [] ==> alert == NoImages
      ensures selectedImages != [] ==> alert == UploadPrompt(|selectedImages|)
    {
      if |selectedImages| == 0 {
        alert := NoImages;
      } else {
        alert := UploadPrompt(|selectedImages|);
      }
    }

    /** The upload question answered with "Upload": the (simulated) upload
        is a fixed wait that cannot fail, after which `uploading` is off
        again and the success alert is shown. The 'Upload Failed' alert
        sits in a catch branch that nothing in the wait can reach. */
    method ConfirmUpload() returns (alert: Alert)
      modifies this
      ensures alert == Uploaded && alert != UploadFailed
      ensures !uploading
      ensures selectedImages == old(selectedImages) && closeRequested == old(closeRequested)
      ensures successReported == old(successReported)
    {
      uploading := false;
      alert := Uploaded;
    }

    /** The success alert acknowledged: the list is emptied, the dialog
        asks to be closed, and the optional success callback runs. */
    method AcknowledgeSuccess(hasSuccessCallback: bool)
      modifies this
      ensures selectedImages == [] && closeRequested
      ensures successReported == (old(successReported) || hasSuccessCallback)
      ensures uploading == old(uploading)
    {
      selectedImages := [];
      closeRequested := true;
      successReported := successReported || hasSuccessCallback;
    }

    /** `handleClose`: closes at once when nothing is chosen, otherwise asks
        whether to discard. */
    method HandleClose() returns (alert: Option<Alert>)
      modifies this
      ensures old(selectedImages) == [] ==> alert == None && closeRequested
      ensures old(selectedImages) != [] ==> alert == Some(DiscardPrompt) && closeRequested == old(closeRequested)
      ensures selectedImages == old(selectedImages) && uploading == old(uploading)
      ensures successReported == old(successReported)
    {
      if |selectedImages| > 0 {
        alert := Some(DiscardPrompt);
      } else {
        alert := None;
        closeRequested := true;
      }
    }

    /** The discard question answered with "Discard". */
    method ConfirmDiscard()
      modifies this
      ensures selectedImages == [] && closeRequested
      ensures uploading == old(uploading) && successReported == old(successReported)
    {
      selectedImages := [];
      closeRequested := true;
    }
  }
}
