/** Staging one image for the next message: the size check, the upload,
    the preview URL, and removal. */
module Attachment {
  import opened Wrappers
  import opened ChatState
  import opened DataUrl

  /** The file handle and the preview URL are staged together or not at
      all. */
  predicate StagedTogether(st: State) {
    st.imageFile.Some? <==> st.previewImageUrl.Some?
  }

  /** Whether a pick ends with the image staged: a file was picked, it is
      at most 10 MiB, and the upload answered with `success` set. */
  predicate UploadAccepted(file: Option<ImageFile>, reply: Result<UploadReply>) {
    && file.Some?
    && file.value.size <= MaxImageBytes
    && reply.Ok?
    && reply.value.success
  }

  /** `handleImageUpload` once the upload has answered (or failed). An
      oversized file is refused before any upload, so `reply` is then not
      consulted. Only an accepted upload changes the state, and it stages
      the file together with the preview URL composed from the reply. */
  function HandleImageUpload(st: State, file: Option<ImageFile>, reply: Result<UploadReply>): (r: State)
    ensures UploadAccepted(file, reply) ==>
      && r.imageFile == file
      && r.previewImageUrl == Some(Compose(reply.value.contentType, reply.value.base64Data))
      && r == st.(imageFile := r.imageFile, previewImageUrl := r.previewImageUrl)
    ensures !UploadAccepted(file, reply) ==> r == st
    ensures StagedTogether(st) ==> StagedTogether(r)
  {
    match file
    case None => st
    case Some(f) =>
      if f.size > MaxImageBytes then st
      else match reply
        case Err(_) => st
        case Ok(up) =>
          if up.success then
            st.(imageFile := Some(f),
                previewImageUrl := Some("data:" + up.contentType + ";base64," + up.base64Data))
          else st
  }

  /** `removeImage`: discards the staged image and nothing else. */
  function RemoveImage(st: State): (r: State)
    ensures r.imageFile.None? && r.previewImageUrl.None?
    ensures r == st.(imageFile := None, previewImageUrl := None)
    ensures StagedTogether(r)
  {
    st.(previewImageUrl := None, imageFile := None)
  }

  /** A file of exactly 10 MiB goes on to the upload and is staged when
      the upload succeeds. */
  lemma TenMebibytesAccepted(st: State, name: string, contentType: string, data: string)
    ensures
      var r := HandleImageUpload(st, Some(ImageFile(name, 10 * 1024 * 1024)), Ok(UploadReply(true, contentType, data)));
      r.imageFile == Some(ImageFile(name, 10485760)) && r.previewImageUrl.Some?
  {
  }

  /** One byte more is refused whatever the upload would have answered. */
  lemma OneByteOverRefused(st: State, name: string, reply: Result<UploadReply>)
    ensures HandleImageUpload(st, Some(ImageFile(name, 10 * 1024 * 1024 + 1)), reply) == st
  {
  }

  /** An upload that answers with `success` unset stages nothing. */
  lemma UnsuccessfulUploadIgnored(st: State, file: ImageFile, contentType: string, data: string)
    ensures HandleImageUpload(st, Some(file), Ok(UploadReply(false, contentType, data))) == st
  {
  }

  /** The staged preview URL carries the uploaded image's transmittable
      form: parsing it gives back the reply's content type and payload. */
  lemma StagedPayloadRecoverable(st: State, file: ImageFile, up: UploadReply)
    requires file.size <= MaxImageBytes && up.success
    requires IsPlainContentType(up.contentType) && IsBase64(up.base64Data)
    ensures
      var r := HandleImageUpload(st, Some(file), Ok(up));
      && r.previewImageUrl.Some?
      && ImageData(r.previewImageUrl.value) == Some(up.base64Data)
      && ImageType(r.previewImageUrl.value) == Some(up.contentType)
  {
    RoundTrip(up.contentType, up.base64Data);
  }
}
