/** `validateImageFile` of src/lib/upload.ts: a type allowlist, then a size cap. */
module Upload {
  import opened Common

  /** The browser's `File`: its name, MIME type and size in bytes. */
  datatype File = File(name: string, mimeType: string, size: nat)

  /** 5 * 1024 * 1024 bytes. */
  const MaxImageSize: nat := 5 * 1024 * 1024

  const AllowedTypes: set<string> := {"image/jpeg", "image/png", "image/webp"}

  const TypeError := "Tipo de arquivo não permitido. Use JPEG, PNG ou WebP."
  const SizeError := "Arquivo muito grande. Máximo 5MB."

  /** Returns `true` or raises the first failed check's message. A file is
      accepted exactly when its type is one of the three image types and it is
      at most 5242880 bytes; a file failing both checks reports the type error. */
  function ValidateImageFile(f: File): (r: Result<bool>)
    ensures r.Ok? <==> (f.mimeType == "image/jpeg" || f.mimeType == "image/png" || f.mimeType == "image/webp") && f.size <= 5242880
    ensures r.Ok? ==> r.value
    ensures r.Err? ==> r.message == (if f.mimeType in AllowedTypes then SizeError else TypeError)
  {
    if f.mimeType !in AllowedTypes then Err(TypeError)
    else if f.size > MaxImageSize then Err(SizeError)
    else Ok(true)
  }

  /** The cap is inclusive: a file of exactly 5 MiB of an allowed type passes. */
  lemma ExactlyMaxSizeAccepted(name: string, mimeType: string)
    requires mimeType in AllowedTypes
    ensures ValidateImageFile(File(name, mimeType, 5242880)) == Ok(true)
    ensures ValidateImageFile(File(name, mimeType, 5242881)) == Err(SizeError)
  {
  }

  /** The type is checked first: a disallowed type reports the type error
      whatever the size. */
  lemma TypeCheckedBeforeSize(f: File, size: nat)
    requires f.mimeType !in AllowedTypes
    ensures ValidateImageFile(f.(size := size)) == Err(TypeError)
  {
  }
}
