/** The workshop form, src/components/workshop-form.tsx: its fields start from
    the workshop being edited, the uploader sets the image, and submitting
    hands the fields to the page's `onSubmit`. */
module WorkshopForm {
  import opened Common

  const Blank := WorkshopData("", "", "", "", "", "", "")
  const SaveError := "Erro ao salvar oficina"

  /** The initial fields: each one copied from the given workshop (`x || ""`
      keeps a string unless it is empty, and then gives the same ""), or all
      empty without one. */
  function InitialData(workshop: Option<Workshop>): (d: WorkshopData)
    ensures workshop.Some? ==> d == workshop.value.data
    ensures workshop.None? ==> d == Blank
  {
    match workshop
    case None => Blank
    case Some(w) => w.data
  }

  /** The card's title. */
  function Heading(workshop: Option<Workshop>): (r: string)
    ensures r == "Editar Oficina" <==> workshop.Some?
    ensures r == "Nova Oficina" <==> workshop.None?
  {
    if workshop.Some? then "Editar Oficina" else "Nova Oficina"
  }

  /** Whether the submit button is enabled: not while saving, and not before
      an image has been uploaded. */
  function SubmitEnabled(loading: bool, d: WorkshopData): (r: bool)
    ensures r <==> !loading && d.image != ""
  {
    !(loading || d.image == "")
  }

  /** A new workshop cannot be submitted before its image is uploaded. */
  lemma NewFormStartsDisabled(loading: bool)
    ensures !SubmitEnabled(loading, InitialData(None))
  {
  }

  class Form {
    const workshop: Option<Workshop>
    var formData: WorkshopData
    var loading: bool
    var alerts: seq<string>

    constructor (workshop: Option<Workshop>)
      ensures this.workshop == workshop && formData == InitialData(workshop)
      ensures !loading && alerts == []
    {
      this.workshop := workshop;
      formData := InitialData(workshop);
      loading := false;
      alerts := [];
    }

    /** `handleImageUploaded`: the uploaded URL replaces the image and no
        other field. */
    method HandleImageUploaded(url: string)
      modifies this`formData
      ensures formData.image == url
      ensures formData.(image := old(formData).image) == old(formData)
    {
      formData := formData.(image := url);
    }

    /** `handleSubmit`, given what the page's `onSubmit(formData)` did: a
        failure alerts, and `loading` ends false on both paths. The fields
        are kept either way. */
    method HandleSubmit(onSubmit: Outcome)
      modifies this`loading, this`alerts
      ensures !loading
      ensures alerts == if onSubmit.Failed? then old(alerts) + [SaveError] else old(alerts)
    {
      loading := true;
      if onSubmit.Failed? {
        alerts := alerts + [SaveError];
      }
      loading := false;
    }
  }
}
