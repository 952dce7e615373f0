/** The records the application keeps in its two document collections
    ("users" and "workshops") and the session value the auth layer exposes,
    as declared in src/lib/types.ts, plus the small wrapper types the model
    uses for optional fields and for calls that can fail. */
module Common {

  datatype Option<+T> = None | Some(value: T)

  /** The outcome of a step that returns a value or raises an error message. */
  datatype Result<+T> = Ok(value: T) | Err(message: string)

  /** An error raised by the identity provider or the document store:
      `error.code` and `error.message`. */
  datatype Failure = Failure(code: string, message: string)

  /** The outcome of a call that returns nothing or fails. */
  datatype Outcome = Done | Failed(failure: Failure)

  /** The outcome of `createUserWithEmailAndPassword`: the new account's uid, or an error. */
  datatype SignUp = Created(uid: string) | SignUpFailed(failure: Failure)

  datatype Role = Admin | Volunteer

  /** The values the `status` field of a profile can hold once written. */
  datatype Status = Pending | Active | Rejected

  /** The fields `approveUser` merges into a profile. */
  datatype Approval = Approval(approvedAt: int, approvedBy: string)

  /** The fields `rejectUser` merges into a profile. */
  datatype Rejection = Rejection(rejectedAt: int, rejectedBy: string, reason: string)

  /** A document of the "users" collection (keyed by the account's uid).
      `status`, `approval` and `rejection` are absent until an administrator
      writes them. `createdAt` is an ISO timestamp in the source, an integer here. */
  datatype Profile = Profile(
    name: string,
    email: string,
    course: string,
    photo: string,
    role: Role,
    isVisibleOnContact: bool,
    createdAt: int,
    status: Option<Status>,
    approval: Option<Approval>,
    rejection: Option<Rejection>)

  /** The editable part of a workshop: what the workshop form submits. */
  datatype WorkshopData = WorkshopData(
    title: string,
    description: string,
    image: string,
    workshopDate: string,
    registrationDate: string,
    registrationLink: string,
    schedule: string)

  /** A document of the "workshops" collection. */
  datatype Workshop = Workshop(data: WorkshopData, createdAt: int, createdBy: string)

  /** The signed-in user the auth context exposes to every page. */
  datatype AuthUser = AuthUser(uid: string, email: string, role: Role)

  /** A session of the identity provider: the signed-in account's uid and email. */
  datatype Session = Session(uid: string, email: string)

  /** A document as a query returns it: its id and its data. */
  datatype Doc<T> = Doc(id: string, data: T)

  function ProfileCreatedAt(p: Profile): int { p.createdAt }

  function WorkshopCreatedAt(w: Workshop): int { w.createdAt }

  predicate IsPending(p: Profile) { p.status == Some(Pending) }

  predicate IsActive(p: Profile) { p.status == Some(Active) }

  predicate IsRejected(p: Profile) { p.status == Some(Rejected) }

  predicate IsAdmin(user: Option<AuthUser>) { user.Some? && user.value.role == Admin }
}
