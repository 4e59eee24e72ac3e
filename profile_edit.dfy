/**
 * The profile-edit dialog (`useProfileEdit`): the name and email fields, their
 * rules, and `saveProfile`, which sends only the fields that changed and copies
 * them into the signed-in user when the server accepts them.
 *
 * The server's reply is a parameter, as for the password dialog; notifications
 * are not modelled.
 */
module ProfileEdit {
  import opened Base
  import opened Types
  import opened ProfileErrors
  import Validation
  import UserStore
  import opened PasswordChange

  /** `rules.minLength`: empty is allowed, otherwise at least two characters. */
  function MinLength(v: string): (r: RuleResult)
    ensures r.Pass? <==> v == "" || |v| >= 2
  {
    if v == "" || |v| >= 2 then Pass else Fail("Minimum 2 characters required")
  }

  /** `rules.email`: empty is allowed, otherwise the address pattern must match. */
  function EmailRule(v: string): (r: RuleResult)
    ensures r.Pass? <==> v == "" || Validation.EmailPattern(v)
  {
    if v == "" then Pass
    else if Validation.EmailPattern(v) then Pass
    else Fail("Please enter a valid email address")
  }

  /** `updateData`: the fields of the request, each present or left out. */
  datatype ProfilePatch = ProfilePatch(name: Option<string>, email: Option<string>)

  /**
   * A field is sent when it is non-empty and differs from the signed-in user's
   * (any non-empty value differs when nobody is signed in).
   */
  function Changed(value: string, stored: Option<string>): (r: Option<string>)
    ensures r.Some? <==> value != "" && stored != Some(value)
    ensures r.Some? ==> r.value == value
  {
    if value != "" && stored != Some(value) then Some(value) else None
  }

  function UpdateData(name: string, email: string, user: Option<User>): ProfilePatch
  {
    ProfilePatch(Changed(name, if user.Some? then Some(user.value.name) else None),
                 Changed(email, if user.Some? then Some(user.value.email) else None))
  }

  /** The request with the user id it goes to. */
  datatype ProfileRequest = ProfileRequest(userId: int, patch: ProfilePatch)

  /** The signed-in user after a successful save: the sent fields, and the new timestamp when one came back. */
  function Saved(u: User, patch: ProfilePatch, data: UpdatedUser): (r: User)
    ensures r.id == u.id && r.role == u.role && r.blacklisted == u.blacklisted && r.createdAt == u.createdAt
    ensures r.name == (if patch.name.Some? then patch.name.value else u.name)
    ensures r.email == (if patch.email.Some? then patch.email.value else u.email)
    ensures r.updatedAt == (if TruthyStr(data.updatedAt) then data.updatedAt.value else u.updatedAt)
  {
    Overlay(u, UserPatch(patch.email, patch.name, None, None, if TruthyStr(data.updatedAt) then data.updatedAt else None))
  }

  /** Unchanged or emptied fields give an empty diff, so nothing is sent. */
  lemma UnchangedFormSendsNothing(u: User, name: string, email: string)
    requires name == "" || name == u.name
    requires email == "" || email == u.email
    ensures UpdateData(name, email, Some(u)) == ProfilePatch(None, None)
  {
  }

  /** Saving what was sent changes the user's name and email to the form's values. */
  lemma SavedTakesFormValues(u: User, name: string, email: string, data: UpdatedUser)
    requires name != "" && email != ""
    ensures var r := Saved(u, UpdateData(name, email, Some(u)), data);
      r.name == name && r.email == email
  {
  }

  class ProfileDialog {
    var editModalOpen: bool
    var isLoading: bool
    var name: string
    var email: string
    const store: UserStore.UserStore
    const handler: ProfileErrorHandler

    constructor(store: UserStore.UserStore, handler: ProfileErrorHandler)
      ensures this.store == store && this.handler == handler
      ensures !editModalOpen && !isLoading && name == "" && email == ""
    {
      this.store := store;
      this.handler := handler;
      editModalOpen := false;
      isLoading := false;
      name := "";
      email := "";
    }

    /** `openEditModal()`: the fields copied from the signed-in user ('' without one), the dialog open. */
    method OpenEditModal()
      modifies this, handler.base
      ensures editModalOpen && isLoading == old(isLoading)
      ensures name == (if store.user.Some? then store.user.value.name else "")
      ensures email == (if store.user.Some? then store.user.value.email else "")
      ensures handler.base.error.None? && handler.base.errorMessage.None?
    {
      name := if store.user.Some? then store.user.value.name else "";
      email := if store.user.Some? then store.user.value.email else "";
      handler.base.ClearError();
      editModalOpen := true;
    }

    /** `closeEditModal()`: closed, with empty fields. */
    method CloseEditModal()
      modifies this, handler.base
      ensures !editModalOpen && name == "" && email == "" && isLoading == old(isLoading)
      ensures handler.base.error.None? && handler.base.errorMessage.None?
    {
      editModalOpen := false;
      name := "";
      email := "";
      handler.base.ClearError();
    }

    /**
     * `saveProfile()`. An empty diff closes the dialog and succeeds without a
     * request. Otherwise the diff is sent for the signed-in user (without one the
     * id lookup throws). A reply with success and data writes the sent fields, and
     * a truthy new timestamp, into the signed-in user and closes the dialog; any
     * other reply returns the profile handler's text; a thrown error its message.
     * `isLoading` is false on every exit.
     */
    method SaveProfile(reply: Outcome<UpdateReply>) returns (result: SaveResult, request: Option<ProfileRequest>)
      modifies this, handler.base, store
      ensures !isLoading
      ensures var patch := UpdateData(old(name), old(email), old(store.user));
        && (patch == ProfilePatch(None, None) ==>
              result == SaveResult(true, None) && request.None? && !editModalOpen && name == "" && email == ""
              && store.user == old(store.user))
        && (request.Some? <==> patch != ProfilePatch(None, None) && old(store.user).Some?)
        && (request.Some? ==> request.value == ProfileRequest(old(store.user).value.id, patch))
        && (patch != ProfilePatch(None, None) && old(store.user).None? ==>
              result == SaveResult(false, Some(NullUserMessage)) && store.user.None?)
        && (request.Some? && reply.Threw? ==>
              result == SaveResult(false, Some(ThrownText(reply.message))) && store.user == old(store.user))
        && (request.Some? && reply.Returned? && reply.value.success && reply.value.data.Some? ==>
              result == SaveResult(true, None) && !editModalOpen && name == "" && email == ""
              && store.user == Some(Saved(old(store.user).value, patch, reply.value.data.value)))
        && (request.Some? && reply.Returned? && !(reply.value.success && reply.value.data.Some?) ==>
              result == SaveResult(false, Some(UpdateFailureText(reply.value.error))) && store.user == old(store.user))
      ensures store.token == old(store.token) && store.isLoading == old(store.isLoading) && store.error == old(store.error)
      ensures result.success ==> !editModalOpen && name == "" && email == ""
                                 && handler.base.error.None? && handler.base.errorMessage.None?
      ensures !result.success ==> editModalOpen == old(editModalOpen) && name == old(name) && email == old(email)
      ensures !result.success && request.Some? && reply.Returned? ==>
                handler.base.error == reply.value.error && handler.base.errorMessage == result.error
      ensures !result.success && !(request.Some? && reply.Returned?) ==>
                handler.base.error == old(handler.base.error) && handler.base.errorMessage == old(handler.base.errorMessage)
    {
      isLoading := true;
      request := None;
      var updateData := UpdateData(name, email, store.user);
      if updateData == ProfilePatch(None, None) {
        CloseEditModal();
        result := SaveResult(true, None);
      } else if store.user.None? {
        result := SaveResult(false, Some(NullUserMessage));
      } else {
        request := Some(ProfileRequest(store.user.value.id, updateData));
        if reply.Threw? {
          result := SaveResult(false, Some(ThrownText(reply.message)));
        } else if reply.value.success && reply.value.data.Some? {
          store.user := Some(Saved(store.user.value, updateData, reply.value.data.value));
          CloseEditModal();
          result := SaveResult(true, None);
        } else {
          var errorMessage := handler.Handle(Update, reply.value.error, None);
          result := SaveResult(false, Some(errorMessage));
        }
      }
      isLoading := false;
    }
  }
}
