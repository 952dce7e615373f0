/** `uploadToCloudinary` of src/lib/cloudinary.ts: the configuration, type
    and size guards that run before any request, and the handling of the
    image service's reply. Building the form body and sending it are left to
    the caller: the reply arrives as a parameter. */
module Cloudinary {
  import opened Common
  import opened Text
  import Upload

  /** The two environment variables the upload needs; `None` is an unset variable. */
  datatype Config = Config(cloudName: Option<string>, uploadPreset: Option<string>)

  /** What awaiting `fetch` and `response.json()` produced: an exception, or
      the response's status and the fields of its JSON body the code reads
      (`error.message`, absent when there is no error object or no message,
      and `secure_url`). */
  datatype Reply =
    | Thrown(message: string)
    | Response(ok: bool, status: nat, statusText: string, errorMessage: Option<string>, secureUrl: string)

  const ConfigError := "Configurações do Cloudinary não encontradas"

  const AllowedTypes: set<string> := {"image/jpeg", "image/jpg", "image/png", "image/webp"}

  /** JavaScript truthiness of an environment variable: set and non-empty. */
  predicate IsSet(v: Option<string>) { v.Some? && v.value != "" }

  /** The error raised before any request is sent, if any: configuration
      first, then the type allowlist, then the 5 MiB cap. */
  function Preflight(c: Config, f: Upload.File): (r: Option<string>)
    ensures r.None? <==> IsSet(c.cloudName) && IsSet(c.uploadPreset) && f.mimeType in AllowedTypes && f.size <= 5242880
    ensures !(IsSet(c.cloudName) && IsSet(c.uploadPreset)) ==> r == Some(ConfigError)
    ensures IsSet(c.cloudName) && IsSet(c.uploadPreset) && f.mimeType !in AllowedTypes ==> r == Some(Upload.TypeError)
    ensures IsSet(c.cloudName) && IsSet(c.uploadPreset) && f.mimeType in AllowedTypes && f.size > 5242880 ==> r == Some(Upload.SizeError)
  {
    if !IsSet(c.cloudName) || !IsSet(c.uploadPreset) then Some(ConfigError)
    else if f.mimeType !in AllowedTypes then Some(Upload.TypeError)
    else if f.size > Upload.MaxImageSize then Some(Upload.SizeError)
    else None
  }

  /** The message of the error raised for a non-OK response. */
  function FailureMessage(status: nat, statusText: string, errorMessage: Option<string>): (r: string)
    ensures errorMessage.Some? && errorMessage.value != "" ==> r == errorMessage.value
    ensures !(errorMessage.Some? && errorMessage.value != "") ==>
      r == "Erro " + Decimal(status) + ": " + statusText
  {
    if errorMessage.Some? && errorMessage.value != "" then errorMessage.value
    else "Erro " + Decimal(status) + ": " + statusText
  }

  /** The whole function: the preflight error, or the reply's outcome; every
      error is rethrown to the caller with its message unchanged. */
  function UploadToCloudinary(c: Config, f: Upload.File, reply: Reply): (r: Result<string>)
    ensures r.Ok? <==> Preflight(c, f).None? && reply.Response? && reply.ok
    ensures r.Ok? ==> r.value == reply.secureUrl
    ensures Preflight(c, f).Some? ==> r == Err(Preflight(c, f).value)
    ensures Preflight(c, f).None? && reply.Thrown? ==> r == Err(reply.message)
    ensures Preflight(c, f).None? && reply.Response? && !reply.ok ==>
      r == Err(FailureMessage(reply.status, reply.statusText, reply.errorMessage))
  {
    match Preflight(c, f)
    case Some(e) => Err(e)
    case None =>
      match reply
      case Thrown(m) => Err(m)
      case Response(ok, status, statusText, errorMessage, secureUrl) =>
        if ok then Ok(secureUrl) else Err(FailureMessage(status, statusText, errorMessage))
  }

  /** A file rejected by the guards is rejected whatever the service would
      have answered: no request influences the outcome. */
  lemma RejectedBeforeAnyRequest(c: Config, f: Upload.File, a: Reply, b: Reply)
    requires Preflight(c, f).Some?
    ensures UploadToCloudinary(c, f, a) == UploadToCloudinary(c, f, b)
    ensures UploadToCloudinary(c, f, a).Err?
  {
  }

  /** A missing setting is reported before anything about the file. */
  lemma ConfigurationCheckedFirst(c: Config, f: Upload.File, g: Upload.File, reply: Reply)
    requires !IsSet(c.cloudName) || !IsSet(c.uploadPreset)
    ensures UploadToCloudinary(c, f, reply) == UploadToCloudinary(c, g, reply) == Err(ConfigError)
  {
  }

  /** The service's own message wins over the status line; without one the
      message names the HTTP status, and two different statuses give two
      different messages. */
  lemma StatusLineDistinguishesStatuses(s1: nat, s2: nat, text: string)
    requires s1 != s2
    ensures FailureMessage(s1, text, None) != FailureMessage(s2, text, None)
  {
    var d1, d2 := Decimal(s1), Decimal(s2);
    var prefix := "Erro ";
    var m1, m2 := prefix + d1 + ": " + text, prefix + d2 + ": " + text;
    // The numeral ends at the first ':', which no digit is.
    if |d1| < |d2| {
      assert m1[|prefix| + |d1|] == ':';
      assert m2[|prefix| + |d1|] == d2[|d1|];
      assert IsDigit(d2[|d1|]);
    } else if |d2| < |d1| {
      assert m2[|prefix| + |d2|] == ':';
      assert m1[|prefix| + |d2|] == d1[|d2|];
      assert IsDigit(d1[|d2|]);
    } else {
      DecimalRoundTrip(s1);
      DecimalRoundTrip(s2);
      assert d1 != d2;
      assert m1[|prefix|..|prefix| + |d1|] == d1;
      assert m2[|prefix|..|prefix| + |d2|] == d2;
    }
  }

  /** `validateImageFile` and the guards here agree except on "image/jpg",
      which only this allowlist admits. */
  lemma AllowlistsDiffer(name: string, size: nat)
    requires size <= 5242880
    ensures Upload.ValidateImageFile(Upload.File(name, "image/jpg", size)).Err?
    ensures Preflight(Config(Some("c"), Some("p")), Upload.File(name, "image/jpg", size)).None?
  {
  }

  /** Every file `validateImageFile` accepts passes the guards here once the
      service is configured. */
  lemma ValidatedFilePassesGuards(c: Config, f: Upload.File)
    requires IsSet(c.cloudName) && IsSet(c.uploadPreset)
    requires Upload.ValidateImageFile(f).Ok?
    ensures Preflight(c, f).None?
  {
  }
}
