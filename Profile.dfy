/**
 * The profile page: an editable copy of the signed-in user's name and
 * phone, saved with one request, and the change-password form, validated
 * on the page before its request is sent.
 */
module Profile {
  import opened Common
  import opened Effects
  import opened AuthSlice

  datatype ProfileForm = ProfileForm(name: string, phone: string)

  datatype PasswordForm = PasswordForm(currentPassword: string, newPassword: string, confirmPassword: string)

  /** The inputs of each form, by their `name` attribute. */
  datatype ProfileField = NameField | PhoneField
  datatype PasswordField = CurrentField | NewField | ConfirmField

  const EmptyPasswords: PasswordForm := PasswordForm("", "", "")

  const MinPasswordLength: nat := 6
  const MismatchMessage: string := "New passwords do not match"
  const TooShortMessage: string := "Password must be at least 6 characters"
  const PasswordChanged: string := "Password changed successfully"
  const PasswordFallback: string := "Failed to change password"
  const ProfileUpdated: string := "Profile updated successfully"
  const ProfileFallback: string := "Failed to update profile"

  /** The form as the page opens: the user's name and phone, or empty fields with no user. */
  function InitialForm(user: Option<Principal>): (f: ProfileForm)
    ensures user.Some? ==> f == ProfileForm(user.value.name, user.value.phone)
    ensures user.None? ==> f == ProfileForm("", "")
  {
    if user.Some? then ProfileForm(user.value.name, user.value.phone) else ProfileForm("", "")
  }

  /** `setFormData(prev => ({ ...prev, [name]: value }))`: one field replaced, the other kept. */
  function WithProfileField(f: ProfileForm, field: ProfileField, value: string): ProfileForm
  {
    match field
    case NameField => f.(name := value)
    case PhoneField => f.(phone := value)
  }

  function WithPasswordField(p: PasswordForm, field: PasswordField, value: string): PasswordForm
  {
    match field
    case CurrentField => p.(currentPassword := value)
    case NewField => p.(newPassword := value)
    case ConfirmField => p.(confirmPassword := value)
  }

  /** Typing into one field never changes another. */
  lemma FieldEditsAreIndependent(f: ProfileForm, p: PasswordForm, value: string)
    ensures WithProfileField(f, NameField, value).phone == f.phone
    ensures WithProfileField(f, PhoneField, value).name == f.name
    ensures WithPasswordField(p, NewField, value).currentPassword == p.currentPassword
    ensures WithPasswordField(p, NewField, value).confirmPassword == p.confirmPassword
    ensures WithPasswordField(p, ConfirmField, value).newPassword == p.newPassword
  {
  }

  /** The page's own checks, in its order: the confirmation must match before the length is looked at. */
  function PasswordRejection(p: PasswordForm): Option<string>
  {
    if p.newPassword != p.confirmPassword then Some(MismatchMessage)
    else if |p.newPassword| < MinPasswordLength then Some(TooShortMessage)
    else None
  }

  /** `currentPassword` is left out (undefined) for an administrator, and sent for anyone else, including no user. */
  function PasswordRequest(p: PasswordForm, role: Option<Role>): Mutation
  {
    ChangePassword(if role == Some(AdminRole) then None else Some(p.currentPassword), p.newPassword)
  }

  /** What `handleChangePassword` records. */
  function PasswordEvents(p: PasswordForm, role: Option<Role>, reply: Response): seq<Event>
  {
    match PasswordRejection(p)
    case Some(message) => [ToastError(message)]
    case None => Attempt(PasswordRequest(p, role), PasswordChanged, reply, PasswordFallback)
  }

  /** A request is sent exactly when the two new entries agree and are at least six characters long. */
  lemma PasswordRequestIffValid(p: PasswordForm, role: Option<Role>, reply: Response)
    ensures Mutations(PasswordEvents(p, role, reply)) != [] <==>
              p.newPassword == p.confirmPassword && |p.newPassword| >= MinPasswordLength
    ensures p.newPassword == p.confirmPassword && |p.newPassword| >= MinPasswordLength ==>
              Mutations(PasswordEvents(p, role, reply)) == [PasswordRequest(p, role)]
  {
    if PasswordRejection(p).Some? {
      assert [ToastError(PasswordRejection(p).value)][..0] == [];
    }
  }

  /** A mismatch is reported whatever the length, and a short password only when the entries agree. */
  lemma MismatchReportedFirst(p: PasswordForm, role: Option<Role>, reply: Response)
    ensures p.newPassword != p.confirmPassword ==> PasswordEvents(p, role, reply) == [ToastError(MismatchMessage)]
    ensures p.newPassword == p.confirmPassword && |p.newPassword| < MinPasswordLength ==>
              PasswordEvents(p, role, reply) == [ToastError(TooShortMessage)]
  {
  }

  /** The current password goes with the request for every role but the administrator's. */
  lemma CurrentPasswordByRole(p: PasswordForm, role: Option<Role>)
    ensures PasswordRequest(p, role).currentPassword.None? <==> role == Some(AdminRole)
    ensures role != Some(AdminRole) ==> PasswordRequest(p, role).currentPassword == Some(p.currentPassword)
    ensures PasswordRequest(p, role).newPassword == p.newPassword
  {
  }

  /** What `handleSaveProfile` records: the name and phone as they stand in the form. */
  function ProfileEvents(f: ProfileForm, reply: Response): (r: seq<Event>)
    ensures Mutations(r) == [UpdateProfile(f.name, f.phone)]
    ensures reply.Failed? ==> r[|r| - 1] == ToastError(ErrorText(reply.message, ProfileFallback))
  {
    Attempt(UpdateProfile(f.name, f.phone), ProfileUpdated, reply, ProfileFallback)
  }

  class ProfilePage {
    var user: Option<Principal>
    var isEditing: bool
    var form: ProfileForm
    var passwords: PasswordForm
    var events: seq<Event>

    constructor(user: Option<Principal>)
      ensures this.user == user && !isEditing
      ensures form == InitialForm(user) && passwords == EmptyPasswords && events == []
    {
      this.user := user;
      isEditing := false;
      form := InitialForm(user);
      passwords := EmptyPasswords;
      events := [];
    }

    /** The sync effect: a new signed-in user overwrites the form; signing out leaves it as it is. */
    method SyncFromUser(u: Option<Principal>)
      modifies this`user, this`form
      ensures user == u
      ensures u.Some? ==> form == ProfileForm(u.value.name, u.value.phone)
      ensures u.None? ==> form == old(form)
    {
      user := u;
      if u.Some? {
        form := ProfileForm(u.value.name, u.value.phone);
      }
    }

    method InputChange(field: ProfileField, value: string)
      modifies this`form
      ensures form == WithProfileField(old(form), field, value)
    {
      form := WithProfileField(form, field, value);
    }

    method PasswordChange(field: PasswordField, value: string)
      modifies this`passwords
      ensures passwords == WithPasswordField(old(passwords), field, value)
    {
      passwords := WithPasswordField(passwords, field, value);
    }

    /** "Edit Profile". */
    method StartEditing()
      modifies this`isEditing
      ensures isEditing
    {
      isEditing := true;
    }

    /** "Cancel" leaves editing, keeping the typed values in the form. */
    method CancelEditing()
      modifies this`isEditing
      ensures !isEditing && form == old(form)
    {
      isEditing := false;
    }

    /** `handleSaveProfile`: send the form; editing ends only when the request succeeds. */
    method SaveProfile(reply: Response)
      modifies this`events, this`isEditing
      ensures events == old(events) + ProfileEvents(form, reply)
      ensures isEditing == (old(isEditing) && reply.Failed?)
    {
      events := events + [Issued(UpdateProfile(form.name, form.phone))];
      if reply.Succeeded? {
        events := events + [ToastSuccess(ProfileUpdated)];
        isEditing := false;
      } else {
        events := events + [ToastError(ErrorText(reply.message, ProfileFallback))];
      }
    }

    /**
     * `handleChangePassword`: check, then send; the three fields are cleared
     * only after a successful change, and kept after a rejection or a failure.
     */
    method ChangePasswordClick(reply: Response)
      modifies this`events, this`passwords
      ensures events == old(events) +
                PasswordEvents(old(passwords), if user.Some? then Some(user.value.role) else None, reply)
      ensures PasswordRejection(old(passwords)).None? && reply.Succeeded? ==> passwords == EmptyPasswords
      ensures PasswordRejection(old(passwords)).Some? || reply.Failed? ==> passwords == old(passwords)
    {
      if passwords.newPassword != passwords.confirmPassword {
        events := events + [ToastError(MismatchMessage)];
        return;
      }
      if |passwords.newPassword| < MinPasswordLength {
        events := events + [ToastError(TooShortMessage)];
        return;
      }
      var role := if user.Some? then Some(user.value.role) else None;
      var currentPassword := if role == Some(AdminRole) then None else Some(passwords.currentPassword);
      events := events + [Issued(ChangePassword(currentPassword, passwords.newPassword))];
      if reply.Succeeded? {
        events := events + [ToastSuccess(PasswordChanged)];
        passwords := EmptyPasswords;
      } else {
        events := events + [ToastError(ErrorText(reply.message, PasswordFallback))];
      }
    }
  }
}
