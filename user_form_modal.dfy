/**
 * The form that creates or edits a user (components/UserFormModal.tsx):
 * its fields, the effect that fills them when the form opens, the guarded
 * role selector and WhatsApp toggle, and the payload handed to `onSave`.
 */
module UserFormModal {

  import opened Wrappers
  import opened Types
  import opened Strings
  import opened Constants

  /** The values the form holds. */
  datatype FormFields = FormFields(
    name: string,
    email: string,
    role: Role,
    whatsappNumber: string,
    whatsappEnabled: bool)

  /** The values the opening effect puts in the form. */
  function Loaded(userToEdit: Option<User>): (f: FormFields)
    ensures userToEdit.None? ==> f == FormFields("", "", Advisor, "", false)
    ensures userToEdit.Some? ==>
      var u := userToEdit.value;
      && f.name == u.name && f.email == u.email && f.role == u.role
      && f.whatsappNumber == (if u.whatsapp.Some? then u.whatsapp.value.number else "")
      && f.whatsappEnabled == (u.whatsapp.Some? && u.whatsapp.value.enabled)
  {
    match userToEdit
    case None => FormFields("", "", Advisor, "", false)
    case Some(u) =>
      FormFields(u.name, u.email, u.role,
        if u.whatsapp.Some? then u.whatsapp.value.number else "",
        u.whatsapp.Some? && u.whatsapp.value.enabled)
  }

  /** The toggle may be used once a number that is not blank is typed. */
  predicate CanEnableWhatsapp(whatsappNumber: string): (r: bool)
    ensures r <==> exists i :: 0 <= i < |whatsappNumber| && !IsSpace(whatsappNumber[i])
    ensures r ==> forall f: FormFields :: f.whatsappNumber == whatsappNumber && SubmittedData(f).Some? ==>
      SubmittedData(f).value.whatsapp.Some?
  {
    TrimEmptyIffBlank(whatsappNumber);
    Trim(whatsappNumber) != ""
  }

  /** `isMainAdmin`: the form edits the main administrator. */
  predicate IsMainAdmin(userToEdit: Option<User>): (r: bool)
    ensures r <==> userToEdit.Some? && userToEdit.value.id == INITIAL_USERS[0].id
  {
    userToEdit.Some? && userToEdit.value.id == MAIN_ADMIN_ID
  }

  /**
   * What `handleSubmit` passes to `onSave`, or None when it returns early.
   * Name, email and role are sent as typed; only the number is trimmed.
   */
  function SubmittedData(f: FormFields): (r: Option<UserData>)
    ensures r.None? <==> Trim(f.name) == "" || Trim(f.email) == ""
    ensures r.Some? ==> r.value.name == f.name && r.value.email == f.email && r.value.role == f.role
    ensures r.Some? ==> (r.value.whatsapp.Some? <==> Trim(f.whatsappNumber) != "")
    ensures r.Some? && r.value.whatsapp.Some? ==>
      r.value.whatsapp.value == WhatsappContact(Trim(f.whatsappNumber), f.whatsappEnabled)
  {
    if Trim(f.name) == "" || Trim(f.email) == "" then None
    else
      var contact :=
        if Trim(f.whatsappNumber) != "" then Some(WhatsappContact(Trim(f.whatsappNumber), f.whatsappEnabled))
        else None;
      Some(UserData(f.name, f.email, f.role, contact))
  }

  /**
   * Opening the form on a user and saving it unchanged sends the user's own
   * data back, provided its name and email are not blank and its number,
   * if any, is already trimmed and not empty.
   */
  lemma {:induction false} EditWithoutChangesRoundTrip(u: User)
    requires Trim(u.name) != "" && Trim(u.email) != ""
    requires u.whatsapp.Some? ==> u.whatsapp.value.number != "" && Trim(u.whatsapp.value.number) == u.whatsapp.value.number
    ensures SubmittedData(Loaded(Some(u))) == Some(UserData(u.name, u.email, u.role, u.whatsapp))
  {
    if u.whatsapp.None? {
      assert Trim("") == "";
    }
  }

  /** Reopening a user whose stored number is blank submits a payload without a contact. */
  lemma BlankNumberDropsContact(u: User)
    requires Trim(u.name) != "" && Trim(u.email) != ""
    requires u.whatsapp.Some? && Trim(u.whatsapp.value.number) == ""
    ensures SubmittedData(Loaded(Some(u))) == Some(UserData(u.name, u.email, u.role, None))
  {
  }

  /**
   * Saving what was saved changes nothing more: reopening a user built from
   * a payload and saving it again yields the same payload.
   */
  lemma {:induction false} ResubmitIsStable(f: FormFields, id: string)
    requires SubmittedData(f).Some?
    ensures var d := SubmittedData(f).value;
      SubmittedData(Loaded(Some(User(id, d.name, d.role, d.email, d.whatsapp)))) == Some(d)
  {
    TrimIdempotent(f.whatsappNumber);
  }

  /** The form component's state. */
  class UserForm {
    /** The `userToEdit` prop: None when a new user is being created. */
    var userToEdit: Option<User>
    var name: string
    var email: string
    var role: Role
    var whatsappNumber: string
    var whatsappEnabled: bool

    function Fields(): FormFields
      reads this
    {
      FormFields(name, email, role, whatsappNumber, whatsappEnabled)
    }

    /** The initial `useState` values, before the opening effect runs. */
    constructor ()
      ensures userToEdit == None && Fields() == FormFields("", "", Advisor, "", false)
    {
      userToEdit := None;
      name := "";
      email := "";
      role := Advisor;
      whatsappNumber := "";
      whatsappEnabled := false;
    }

    /** The effect on `userToEdit`: copy the user's fields, or reset for a new user. */
    method Load(user: Option<User>)
      modifies this
      ensures userToEdit == user && Fields() == Loaded(user)
    {
      userToEdit := user;
      if user.Some? {
        name := user.value.name;
        role := user.value.role;
        email := user.value.email;
        whatsappNumber := if user.value.whatsapp.Some? then user.value.whatsapp.value.number else "";
        whatsappEnabled := user.value.whatsapp.Some? && user.value.whatsapp.value.enabled;
      } else {
        name := "";
        role := Advisor;
        email := "";
        whatsappNumber := "";
        whatsappEnabled := false;
      }
    }

    method SetName(value: string)
      modifies this`name
      ensures name == value
    {
      name := value;
    }

    method SetEmail(value: string)
      modifies this`email
      ensures email == value
    {
      email := value;
    }

    method SetWhatsappNumber(value: string)
      modifies this`whatsappNumber
      ensures whatsappNumber == value
    {
      whatsappNumber := value;
    }

    /** The role selector, which is disabled for the main administrator. */
    method SelectRole(value: Role)
      modifies this`role
      ensures role == if IsMainAdmin(userToEdit) then old(role) else value
    {
      if !IsMainAdmin(userToEdit) {
        role := value;
      }
    }

    /** The enable switch: flips only while the number is not blank. */
    method ToggleWhatsapp()
      modifies this`whatsappEnabled
      ensures whatsappEnabled == if CanEnableWhatsapp(whatsappNumber) then !old(whatsappEnabled) else old(whatsappEnabled)
    {
      if CanEnableWhatsapp(whatsappNumber) {
        whatsappEnabled := !whatsappEnabled;
      }
    }

    /** `handleSubmit`: the payload for `onSave`, or None when name or email is blank. */
    method HandleSubmit() returns (saved: Option<UserData>)
      ensures saved == SubmittedData(Fields())
    {
      if Trim(name) == "" || Trim(email) == "" {
        return None;
      }
      var whatsapp: Option<WhatsappContact> := None;
      if Trim(whatsappNumber) != "" {
        whatsapp := Some(WhatsappContact(Trim(whatsappNumber), whatsappEnabled));
      }
      saved := Some(UserData(name, email, role, whatsapp));
    }
  }
}
