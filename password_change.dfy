/**
 * The password-change dialog (`usePasswordChange`): its three fields and their
 * visibility flags, the form rules, and `changePassword`, which checks the fields
 * in a fixed order before it asks the server.
 *
 * The server's reply to `usersApi.updateUser` is a parameter. Its `error` is
 * given as the `ApiError` the profile handler reads; notifications are not modelled.
 */
module PasswordChange {
  import opened Base
  import opened Types
  import opened BaseErrorHandler
  import opened ProfileErrors
  import UserStore

  /** What the composables read of the updated user: its new `updated_at`. */
  datatype UpdatedUser = UpdatedUser(updatedAt: Option<string>)

  /** The `ApiResponse` of `usersApi.updateUser`. */
  datatype UpdateReply = UpdateReply(success: bool, data: Option<UpdatedUser>, error: Option<ApiError>)

  /** `{ success, error? }` as the dialog's action resolves it. */
  datatype SaveResult = SaveResult(success: bool, error: Option<string>)

  /** The body sent for a password change, with the user id it goes to. */
  datatype PasswordRequest = PasswordRequest(userId: int, currentPassword: string, password: string)

  const AllRequired := "All fields are required"
  const TooShort := "New password must be at least 6 characters long"
  const Mismatch := "New passwords do not match"
  const Unexpected := "An unexpected error occurred"
  /** The `TypeError` that `userStore.user!.id` raises when no user is signed in. */
  const NullUserMessage := "Cannot read properties of null (reading 'id')"

  /** `handleProfileUpdateError(error)`: the text the profile handler gives a failed update. */
  function UpdateFailureText(e: Option<ApiError>): (r: string)
    ensures e.None? ==> r == DefaultFor(Update)
    ensures e.Some? && ProfileText(Update, e.value).Some? ==> r == ProfileText(Update, e.value).value
    ensures e.Some? && ProfileText(Update, e.value).None? ==> r == CommonMessage(e.value, DefaultFor(Update))
  {
    if e.None? then DefaultFor(Update)
    else if ProfileText(Update, e.value).Some? then ProfileText(Update, e.value).value
    else CommonMessage(e.value, DefaultFor(Update))
  }

  /** `error.message || 'An unexpected error occurred'` for a thrown error. */
  function ThrownText(message: string): (r: string)
    ensures r != ""
    ensures message != "" ==> r == message
  {
    OrElse(Some(message), Unexpected)
  }

  // ---------------------------------------------------------------------------
  // Rules

  /** `rules.required` */
  function Required(v: string): (r: RuleResult)
    ensures r.Pass? <==> v != ""
  {
    if v != "" then Pass else Fail("This field is required")
  }

  /** `rules.minLength` */
  function MinLength(v: string): (r: RuleResult)
    ensures r.Pass? <==> |v| >= 6
  {
    if |v| >= 6 then Pass else Fail("Minimum 6 characters required")
  }

  /** `rules.passwordMatch` against the new password. */
  function PasswordMatch(v: string, newPassword: string): (r: RuleResult)
    ensures r.Pass? <==> v != "" && v == newPassword
    ensures v == "" ==> r == Fail("Please confirm your password")
  {
    if v == "" then Fail("Please confirm your password")
    else if v == newPassword then Pass
    else Fail("Passwords do not match")
  }

  /**
   * The checks `changePassword` makes before any request, in order: all three
   * fields set, then the length of the new password, then the confirmation.
   */
  function FormCheck(current: string, newPassword: string, confirm: string): (r: Option<string>)
    ensures r.None? <==> current != "" && newPassword != "" && confirm != "" && |newPassword| >= 6 && newPassword == confirm
    ensures current == "" || newPassword == "" || confirm == "" ==> r == Some(AllRequired)
    ensures current != "" && newPassword != "" && confirm != "" && |newPassword| < 6 ==> r == Some(TooShort)
    ensures current != "" && newPassword != "" && confirm != "" && |newPassword| >= 6 && newPassword != confirm ==>
              r == Some(Mismatch)
  {
    if current == "" || newPassword == "" || confirm == "" then Some(AllRequired)
    else if |newPassword| < 6 then Some(TooShort)
    else if newPassword != confirm then Some(Mismatch)
    else None
  }

  /** The form check passes exactly when the three rules pass on the filled-in fields. */
  lemma FormCheckAgreesWithRules(current: string, newPassword: string, confirm: string)
    ensures FormCheck(current, newPassword, confirm).None? <==>
              Required(current).Pass? && Required(newPassword).Pass? && MinLength(newPassword).Pass?
              && PasswordMatch(confirm, newPassword).Pass?
  {
  }

  /** An empty field is reported as such even when the password is also too short or unconfirmed. */
  lemma MissingFieldReportedFirst(newPassword: string, confirm: string)
    ensures FormCheck("", newPassword, confirm) == Some(AllRequired)
  {
  }

  class PasswordDialog {
    var passwordModalOpen: bool
    var isLoading: bool
    var currentPassword: string
    var newPassword: string
    var confirmPassword: string
    var showCurrentPassword: bool
    var showNewPassword: bool
    var showConfirmPassword: bool
    const store: UserStore.UserStore
    const handler: ProfileErrorHandler

    constructor(store: UserStore.UserStore, handler: ProfileErrorHandler)
      ensures this.store == store && this.handler == handler
      ensures !passwordModalOpen && !isLoading
      ensures currentPassword == "" && newPassword == "" && confirmPassword == ""
      ensures !showCurrentPassword && !showNewPassword && !showConfirmPassword
    {
      this.store := store;
      this.handler := handler;
      passwordModalOpen := false;
      isLoading := false;
      currentPassword := "";
      newPassword := "";
      confirmPassword := "";
      showCurrentPassword := false;
      showNewPassword := false;
      showConfirmPassword := false;
    }

    /** `openPasswordModal()`: empty fields, no handler error, the dialog open. */
    method OpenPasswordModal()
      modifies this, handler.base
      ensures passwordModalOpen && currentPassword == "" && newPassword == "" && confirmPassword == ""
      ensures handler.base.error.None? && handler.base.errorMessage.None?
      ensures isLoading == old(isLoading)
      ensures showCurrentPassword == old(showCurrentPassword) && showNewPassword == old(showNewPassword)
      ensures showConfirmPassword == old(showConfirmPassword)
    {
      currentPassword := "";
      newPassword := "";
      confirmPassword := "";
      handler.base.ClearError();
      passwordModalOpen := true;
    }

    /** `closePasswordModal()`: closed, empty fields, every password hidden, no handler error. */
    method ClosePasswordModal()
      modifies this, handler.base
      ensures !passwordModalOpen && currentPassword == "" && newPassword == "" && confirmPassword == ""
      ensures !showCurrentPassword && !showNewPassword && !showConfirmPassword
      ensures handler.base.error.None? && handler.base.errorMessage.None?
      ensures isLoading == old(isLoading)
    {
      passwordModalOpen := false;
      currentPassword := "";
      newPassword := "";
      confirmPassword := "";
      showCurrentPassword := false;
      showNewPassword := false;
      showConfirmPassword := false;
      handler.base.ClearError();
    }

    method ToggleCurrentPasswordVisibility()
      modifies this
      ensures showCurrentPassword == !old(showCurrentPassword)
      ensures showNewPassword == old(showNewPassword) && showConfirmPassword == old(showConfirmPassword)
      ensures passwordModalOpen == old(passwordModalOpen) && isLoading == old(isLoading)
      ensures currentPassword == old(currentPassword) && newPassword == old(newPassword)
      ensures confirmPassword == old(confirmPassword)
    {
      showCurrentPassword := !showCurrentPassword;
    }

    method ToggleNewPasswordVisibility()
      modifies this
      ensures showNewPassword == !old(showNewPassword)
      ensures showCurrentPassword == old(showCurrentPassword) && showConfirmPassword == old(showConfirmPassword)
      ensures passwordModalOpen == old(passwordModalOpen) && isLoading == old(isLoading)
      ensures currentPassword == old(currentPassword) && newPassword == old(newPassword)
      ensures confirmPassword == old(confirmPassword)
    {
      showNewPassword := !showNewPassword;
    }

    method ToggleConfirmPasswordVisibility()
      modifies this
      ensures showConfirmPassword == !old(showConfirmPassword)
      ensures showCurrentPassword == old(showCurrentPassword) && showNewPassword == old(showNewPassword)
      ensures passwordModalOpen == old(passwordModalOpen) && isLoading == old(isLoading)
      ensures currentPassword == old(currentPassword) && newPassword == old(newPassword)
      ensures confirmPassword == old(confirmPassword)
    {
      showConfirmPassword := !showConfirmPassword;
    }

    /**
     * `changePassword()`. A failed form check returns its message and asks nothing.
     * Otherwise the request carries the current password and the new one, for the
     * signed-in user; without one the id lookup throws. A reply with success and
     * data closes the dialog; any other reply returns the profile handler's text;
     * a thrown error returns its message. `isLoading` is false on every exit.
     */
    method ChangePassword(reply: Outcome<UpdateReply>) returns (result: SaveResult, request: Option<PasswordRequest>)
      modifies this, handler.base
      ensures !isLoading
      ensures var check := FormCheck(old(currentPassword), old(newPassword), old(confirmPassword));
        check.Some? ==> result == SaveResult(false, check) && request.None?
                        && passwordModalOpen == old(passwordModalOpen) && currentPassword == old(currentPassword)
                        && newPassword == old(newPassword) && confirmPassword == old(confirmPassword)
      ensures request.Some? <==>
                FormCheck(old(currentPassword), old(newPassword), old(confirmPassword)).None? && store.user.Some?
      ensures request.Some? ==> request.value == PasswordRequest(store.user.value.id, old(currentPassword), old(newPassword))
      ensures FormCheck(old(currentPassword), old(newPassword), old(confirmPassword)).None? && store.user.None? ==>
                result == SaveResult(false, Some(NullUserMessage))
      ensures request.Some? && reply.Threw? ==> result == SaveResult(false, Some(ThrownText(reply.message)))
      ensures request.Some? && reply.Returned? && reply.value.success && reply.value.data.Some? ==>
                result == SaveResult(true, None) && !passwordModalOpen
                && currentPassword == "" && newPassword == "" && confirmPassword == ""
                && !showCurrentPassword && !showNewPassword && !showConfirmPassword
                && handler.base.errorMessage.None?
      ensures request.Some? && reply.Returned? && !(reply.value.success && reply.value.data.Some?) ==>
                result == SaveResult(false, Some(UpdateFailureText(reply.value.error)))
                && handler.base.errorMessage == result.error && handler.base.error == reply.value.error
      ensures !(request.Some? && reply.Returned? && reply.value.success && reply.value.data.Some?) ==>
                passwordModalOpen == old(passwordModalOpen) && currentPassword == old(currentPassword)
                && newPassword == old(newPassword) && confirmPassword == old(confirmPassword)
                && showCurrentPassword == old(showCurrentPassword) && showNewPassword == old(showNewPassword)
                && showConfirmPassword == old(showConfirmPassword)
      ensures !(request.Some? && reply.Returned?) ==>
                handler.base.error == old(handler.base.error) && handler.base.errorMessage == old(handler.base.errorMessage)
    {
      isLoading := true;
      request := None;
      var check := FormCheck(currentPassword, newPassword, confirmPassword);
      if check.Some? {
        result := SaveResult(false, check);
      } else if store.user.None? {
        result := SaveResult(false, Some(NullUserMessage));
      } else {
        request := Some(PasswordRequest(store.user.value.id, currentPassword, newPassword));
        if reply.Threw? {
          result := SaveResult(false, Some(ThrownText(reply.message)));
        } else if reply.value.success && reply.value.data.Some? {
          ClosePasswordModal();
          result := SaveResult(true, None);
        } else {
          var errorMessage := handler.Handle(Update, reply.value.error, None);
          result := SaveResult(false, Some(errorMessage));
        }
      }
      isLoading := false;
    }
  }

  /** Toggling a visibility flag twice restores it. */
  method ToggleTwice(d: PasswordDialog) returns (before: bool, after: bool)
    modifies d
    ensures after == before
  {
    before := d.showNewPassword;
    d.ToggleNewPasswordVisibility();
    d.ToggleNewPasswordVisibility();
    after := d.showNewPassword;
  }
}
