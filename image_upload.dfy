/** The `ImageUploadCloudinary` component of
    src/components/image-upload-cloudinary.tsx: its state (`uploading`,
    `preview`, the hidden file input) and its two handlers. The
    `onImageUploaded` prop is modelled by the list of values it has been
    called with, and `alert` by the list of messages shown. */
module ImageUploadComponent {
  import opened Common
  import Upload
  import Cloudinary

  const AllowedTypes: set<string> := {"image/jpeg", "image/png", "image/webp"}

  /** `currentImage || null`: the prop when it is set and non-empty. */
  function Fallback(currentImage: Option<string>): (r: Option<string>)
    ensures r.Some? <==> currentImage.Some? && currentImage.value != ""
    ensures r.Some? ==> r == currentImage
  {
    if currentImage.Some? && currentImage.value != "" then currentImage else None
  }

  /** The component's own pre-upload checks, in order: the error to alert, if any. */
  function Check(f: Upload.File): (r: Option<string>)
    ensures r.None? <==> f.mimeType in AllowedTypes && f.size <= 5242880
    ensures f.mimeType !in AllowedTypes ==> r == Some(Upload.TypeError)
    ensures f.mimeType in AllowedTypes && f.size > 5242880 ==> r == Some(Upload.SizeError)
  {
    if f.mimeType !in AllowedTypes then Some(Upload.TypeError)
    else if f.size > 5 * 1024 * 1024 then Some(Upload.SizeError)
    else None
  }

  /** The component admits a subset of what the upload library admits, and the
      same files as `validateImageFile`: a file it lets through never fails
      the library's type or size guard. */
  lemma CheckWithinLibraryGuards(f: Upload.File, c: Cloudinary.Config)
    requires Check(f).None?
    ensures f.mimeType in Cloudinary.AllowedTypes
    ensures Upload.ValidateImageFile(f) == Ok(true)
    ensures Cloudinary.IsSet(c.cloudName) && Cloudinary.IsSet(c.uploadPreset) ==> Cloudinary.Preflight(c, f).None?
  {
  }

  class ImageUploadCloudinary {
    const currentImage: Option<string>
    const config: Cloudinary.Config
    var uploading: bool
    var preview: Option<string>
    /** Whether the hidden file input is mounted (its ref is set). */
    var inputMounted: bool
    var inputValue: string
    /** Every value passed to `onImageUploaded`, oldest first. */
    var reported: seq<string>
    /** Every message passed to `alert`, oldest first. */
    var alerts: seq<string>

    constructor (currentImage: Option<string>, config: Cloudinary.Config, inputMounted: bool)
      ensures this.currentImage == currentImage && this.config == config
      ensures this.inputMounted == inputMounted && inputValue == ""
      ensures !uploading && preview == Fallback(currentImage)
      ensures reported == [] && alerts == []
    {
      this.currentImage := currentImage;
      this.config := config;
      this.inputMounted := inputMounted;
      inputValue := "";
      uploading := false;
      preview := Fallback(currentImage);
      reported := [];
      alerts := [];
    }

    /** `handleFileSelect`: `file` is the first selected file, `objectUrl`
        the local preview URL the browser creates for it, and `reply` what the
        image service answers if a request is sent. */
    method HandleFileSelect(file: Option<Upload.File>, objectUrl: string, reply: Cloudinary.Reply)
      modifies this`uploading, this`preview, this`reported, this`alerts
      ensures !uploading || file.None? || Check(file.value).Some?
      ensures file.None? ==>
        uploading == old(uploading) && preview == old(preview) && reported == old(reported) && alerts == old(alerts)
      ensures file.Some? && Check(file.value).Some? ==>
        uploading == old(uploading) && preview == old(preview) && reported == old(reported) &&
        alerts == old(alerts) + [Check(file.value).value]
      ensures file.Some? && Check(file.value).None? ==>
        var r := Cloudinary.UploadToCloudinary(config, file.value, reply);
        && !uploading
        && (r.Ok? ==> reported == old(reported) + [r.value] && preview == Some(r.value) && alerts == old(alerts))
        && (r.Err? ==> reported == old(reported) && preview == Fallback(currentImage) && alerts == old(alerts) + [r.message])
    {
      if file.None? {
        return;
      }
      var f := file.value;
      if f.mimeType !in AllowedTypes {
        alerts := alerts + [Upload.TypeError];
        return;
      }
      if f.size > 5 * 1024 * 1024 {
        alerts := alerts + [Upload.SizeError];
        return;
      }
      preview := Some(objectUrl);
      uploading := true;
      var r := Cloudinary.UploadToCloudinary(config, f, reply);
      if r.Ok? {
        reported := reported + [r.value];
        preview := Some(r.value);
      } else {
        alerts := alerts + [r.message];
        preview := Fallback(currentImage);
      }
      uploading := false;
    }

    /** `removeImage`: clears the preview, reports "" and empties the file input. */
    method RemoveImage()
      modifies this`preview, this`reported, this`inputValue
      ensures preview == None && reported == old(reported) + [""]
      ensures inputValue == (if inputMounted then "" else old(inputValue))
    {
      preview := None;
      reported := reported + [""];
      if inputMounted {
        inputValue := "";
      }
    }
  }
}
