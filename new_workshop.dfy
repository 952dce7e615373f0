/** Workshop creation, src/app/workshops/new/page.tsx and
    src/app/admin/workshops/new/page.tsx: both pages add the form's fields
    with a creation time and the creator's uid, and differ in their guard
    and in where they go afterwards. */
module NewWorkshop {
  import opened Common
  import Store
  import WorkshopForm

  /** The document `addDoc` stores: the form's fields, `createdAt`, and
      `createdBy` set to the signed-in user. */
  function WorkshopRecord(data: WorkshopData, now: int, owner: string): (w: Workshop)
    ensures w.data == data && w.createdAt == now && w.createdBy == owner
  {
    Workshop(data, now, owner)
  }

  /** What src/app/workshops/new/page.tsx renders. */
  datatype View = Spinner | RedirectToLogin | ShowForm

  /** A spinner while auth loads; a signed-out viewer is sent to the login
      page; any signed-in user, of either role, gets the form. */
  function Render(loading: bool, user: Option<AuthUser>): (v: View)
    ensures v == Spinner <==> loading
    ensures v == RedirectToLogin <==> !loading && user.None?
    ensures v == ShowForm <==> !loading && user.Some?
  {
    if loading then Spinner else if user.None? then RedirectToLogin else ShowForm
  }

  const CreatedMessage := "Oficina criada com sucesso!"

  /** src/app/workshops/new/page.tsx. */
  class NewWorkshopPage {
    var redirect: Option<string>
    var alerts: seq<string>

    constructor ()
      ensures redirect == None && alerts == []
    {
      redirect := None;
      alerts := [];
    }

    /** `handleSubmit`: returns without writing when nobody is signed in;
        otherwise adds the record under the id the store generates, then
        announces it and goes home. A failed write is rethrown to the form. */
    method HandleSubmit(db: Store.Backend, user: Option<AuthUser>, data: WorkshopData,
                        now: int, newId: string, write: Outcome) returns (result: Outcome)
      modifies this`redirect, this`alerts, db`workshops
      ensures user.None? ==>
        result == Done && db.workshops == old(db.workshops) && redirect == old(redirect) && alerts == old(alerts)
      ensures user.Some? ==> result == write
      ensures user.Some? && write.Done? ==>
        db.workshops == old(db.workshops)[newId := WorkshopRecord(data, now, user.value.uid)] &&
        redirect == Some("/") && alerts == old(alerts) + [CreatedMessage]
      ensures user.Some? && write.Failed? ==>
        db.workshops == old(db.workshops) && redirect == old(redirect) && alerts == old(alerts)
    {
      if user.None? {
        return Done;
      }
      result := db.AddWorkshop(newId, WorkshopRecord(data, now, user.value.uid), write);
      if result.Done? {
        alerts := alerts + [CreatedMessage];
        redirect := Some("/");
      }
    }
  }

  /** src/app/admin/workshops/new/page.tsx: no loading or role guard. */
  class AdminNewWorkshopPage {
    var redirect: Option<string>

    constructor ()
      ensures redirect == None
    {
      redirect := None;
    }

    /** `handleSubmit`: the same record; success goes to the dashboard and a
        failed write propagates to the form. */
    method HandleSubmit(db: Store.Backend, user: Option<AuthUser>, data: WorkshopData,
                        now: int, newId: string, write: Outcome) returns (result: Outcome)
      modifies this`redirect, db`workshops
      ensures user.None? ==> result == Done && db.workshops == old(db.workshops) && redirect == old(redirect)
      ensures user.Some? ==> result == write
      ensures user.Some? && write.Done? ==>
        db.workshops == old(db.workshops)[newId := WorkshopRecord(data, now, user.value.uid)] &&
        redirect == Some("/admin")
      ensures user.Some? && write.Failed? ==> db.workshops == old(db.workshops) && redirect == old(redirect)
    {
      if user.None? {
        return Done;
      }
      result := db.AddWorkshop(newId, WorkshopRecord(data, now, user.value.uid), write);
      if result.Done? {
        redirect := Some("/admin");
      }
    }
  }

  /** The form's submit wired to src/app/workshops/new/page.tsx: the record
      stored carries exactly the form's current fields, and the form alerts
      exactly when the write fails for a signed-in user. */
  method SubmitNewWorkshop(form: WorkshopForm.Form, page: NewWorkshopPage, db: Store.Backend,
                           user: Option<AuthUser>, now: int, newId: string, write: Outcome)
    modifies form`loading, form`alerts, page`redirect, page`alerts, db`workshops
    ensures !form.loading
    ensures user.Some? && write.Done? ==>
      db.workshops == old(db.workshops)[newId := WorkshopRecord(form.formData, now, user.value.uid)]
    ensures form.alerts == if user.Some? && write.Failed? then old(form.alerts) + [WorkshopForm.SaveError]
                           else old(form.alerts)
  {
    var outcome := page.HandleSubmit(db, user, form.formData, now, newId, write);
    form.HandleSubmit(outcome);
  }
}
