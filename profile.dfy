/** The profile settings page: its own, stricter username validator, changing the username and
    the password, and deleting the account behind a typed confirmation. */
module Profile {
  import opened Js
  import opened Backend
  import AuthForm

  // ---------------------------------------------------------------------------------------
  // Username validation (profile page)

  /** A character of the class `[a-zA-Z0-9]`. */
  predicate IsAlphanumeric(c: char)
  {
    ('a' <= c <= 'z') || ('A' <= c <= 'Z') || ('0' <= c <= '9')
  }

  predicate AllAlphanumeric(s: string)
  {
    forall i :: 0 <= i < |s| ==> IsAlphanumeric(s[i])
  }

  const UsernameTooShort: string := "Username must be at least 3 characters"
  const UsernameTooLong: string := "Username must be at most 20 characters"
  const UsernameBadChars: string := "Username can only contain letters and numbers"

  /** `validateUsername` of the profile page: the length is checked before the characters, and
      there is no separate check for the empty string. */
  function ValidateUsername(username: string): (r: Completion<()>)
    ensures r.Returns? <==> 3 <= |username| <= 20 && AllAlphanumeric(username)
    ensures |username| < 3 ==> r == Throws(UsernameTooShort)
    ensures |username| > 20 ==> r == Throws(UsernameTooLong)
    ensures 3 <= |username| <= 20 && !AllAlphanumeric(username) ==> r == Throws(UsernameBadChars)
  {
    if |username| < 3 then Throws(UsernameTooShort)
    else if |username| > 20 then Throws(UsernameTooLong)
    else if !AllAlphanumeric(username) then Throws(UsernameBadChars)
    else Returns(())
  }

  /** Every name the profile page accepts, sign-up accepts too; the names sign-up accepts and
      the profile page refuses are exactly those holding an underscore. */
  lemma ProfileStricterThanSignUp(username: string)
    ensures ValidateUsername(username).Returns? ==> AuthForm.ValidateUsername(username).Returns?
    ensures AuthForm.ValidateUsername(username).Returns? && ValidateUsername(username).Throws? <==>
              AuthForm.ValidateUsername(username).Returns? && '_' in username
  {
    if AuthForm.ValidateUsername(username).Returns? {
      if '_' in username {
        var k :| 0 <= k < |username| && username[k] == '_';
        assert !IsAlphanumeric(username[k]);
      } else {
        forall i | 0 <= i < |username|
          ensures IsAlphanumeric(username[i])
        {
          assert AuthForm.IsUsernameChar(username[i]);
          assert username[i] != '_';
        }
      }
    }
    if ValidateUsername(username).Returns? {
      forall i | 0 <= i < |username|
        ensures AuthForm.IsUsernameChar(username[i])
      {
        assert IsAlphanumeric(username[i]);
      }
    }
  }

  /** A name a user can sign up with and then not set again on the profile page. */
  lemma UnderscoreNameAcceptedOnlyAtSignUp()
    ensures AuthForm.ValidateUsername("abc_").Returns?
    ensures ValidateUsername("abc_") == Throws(UsernameBadChars)
  {
    ProfileStricterThanSignUp("abc_");
  }

  // ---------------------------------------------------------------------------------------
  // The page

  const UsernameTaken: string := "Username is already taken"
  const UsernameUpdated: string := "Username updated successfully"
  const PasswordTooShort: string := "Password must be at least 6 characters"
  const PasswordMismatch: string := "Passwords do not match"
  const PasswordUpdated: string := "Password updated successfully"
  const DeleteWord: string := "DELETE"
  const DeletePrompt: string := "Please type DELETE to confirm account deletion"
  const DeleteFailedPrefix: string := "Failed to delete account: "

  /** The backend calls the page makes. */
  datatype Call =
    | FindOtherProfile(username: string, excludedId: string)   // a profile with this name and another id
    | UpdateProfileName(id: string, username: string, updatedAt: Option<string>)   // `updated_at` is written too
    | UpdatePassword(password: string)
    | DeleteUserAccount(userId: string)
    | SignOut

  class Settings {
    /** The signed-in user's id, fixed for the life of the page. */
    const userId: string
    var loading: bool
    var error: Option<string>
    var success: Option<string>
    var username: string
    var newPassword: string
    var confirmNewPassword: string
    var showDeleteConfirm: bool
    var deleteConfirmText: string

    constructor (userId: string)
      ensures this.userId == userId
      ensures !loading && error == None && success == None
      ensures username == "" && newPassword == "" && confirmNewPassword == ""
      ensures !showDeleteConfirm && deleteConfirmText == ""
    {
      this.userId := userId;
      loading, error, success := false, None, None;
      username, newPassword, confirmNewPassword := "", "", "";
      showDeleteConfirm, deleteConfirmText := false, "";
    }

    /** `getProfile` settles: the stored name fills the username field; a failed query is
        only logged. */
    method OnProfileLoaded(query: SingleRow<string>)
      modifies this`username
      ensures query.Row? ==> username == query.row
      ensures query.QueryError? ==> username == old(username)
    {
      if query.Row? {
        username := query.row;
      }
    }

    /** At most one of the red error banner and the green success banner has a message. */
    predicate OneBanner()
      reads this
    {
      error == None || success == None
    }

    /** `updateUsername`: validate, look for another profile holding the name, update it (the
        update also writes a null `updated_at`). The query's own error is not looked at, so a
        failed lookup lets the update through. */
    method UpdateUsername(check: SingleRow<string>, update: Ack) returns (calls: seq<Call>)
      modifies this`loading, this`error, this`success
      ensures !loading && OneBanner()
      ensures ValidateUsername(username).Throws? ==>
                calls == [] && error == Some(ValidateUsername(username).message) && success == None
      ensures ValidateUsername(username).Returns? ==> |calls| >= 1 && calls[0] == FindOtherProfile(username, userId)
      ensures ValidateUsername(username).Returns? && check.Row? ==>
                calls == [FindOtherProfile(username, userId)] && error == Some(UsernameTaken) && success == None
      ensures UpdateProfileName(userId, username, None) in calls <==> ValidateUsername(username).Returns? && !check.Row?
      ensures ValidateUsername(username).Returns? && !check.Row? ==>
                calls == [FindOtherProfile(username, userId), UpdateProfileName(userId, username, None)]
      ensures success.Some? <==> ValidateUsername(username).Returns? && !check.Row? && update.Ok?
      ensures success.Some? ==> success == Some(UsernameUpdated) && error == None
      ensures ValidateUsername(username).Returns? && !check.Row? && update.Err? ==>
                error == Some(update.message) && success == None
    {
      error, success := None, None;
      loading := true;
      calls := [];
      var valid := ValidateUsername(username);
      if valid.Throws? {
        error := Some(valid.message);
      } else {
        calls := [FindOtherProfile(username, userId)];
        if check.Row? {
          error := Some(UsernameTaken);
        } else {
          calls := calls + [UpdateProfileName(userId, username, None)];
          if update.Err? {
            error := Some(update.message);
          } else {
            success := Some(UsernameUpdated);
          }
        }
      }
      loading := false;
    }

    /** `updatePassword`: the length is checked before the confirmation, the backend is called
        only when both pass, and a successful change empties both fields. */
    method UpdatePasswordSubmit(update: Ack) returns (calls: seq<Call>)
      modifies this`loading, this`error, this`success, this`newPassword, this`confirmNewPassword
      ensures !loading && OneBanner()
      ensures |old(newPassword)| < 6 ==> calls == [] && error == Some(PasswordTooShort)
      ensures |old(newPassword)| >= 6 && old(newPassword) != old(confirmNewPassword) ==>
                calls == [] && error == Some(PasswordMismatch)
      ensures calls != [] <==> |old(newPassword)| >= 6 && old(newPassword) == old(confirmNewPassword)
      ensures calls != [] ==> calls == [UpdatePassword(old(newPassword))]
      ensures success.Some? <==> calls != [] && update.Ok?
      ensures success.Some? ==> success == Some(PasswordUpdated) && error == None &&
                                newPassword == "" && confirmNewPassword == ""
      ensures success.None? ==> newPassword == old(newPassword) && confirmNewPassword == old(confirmNewPassword)
      ensures calls != [] && update.Err? ==> error == Some(update.message)
    {
      error, success := None, None;
      loading := true;
      calls := [];
      if |newPassword| < 6 {
        error := Some(PasswordTooShort);
      } else if newPassword != confirmNewPassword {
        error := Some(PasswordMismatch);
      } else {
        calls := [UpdatePassword(newPassword)];
        if update.Err? {
          error := Some(update.message);
        } else {
          newPassword, confirmNewPassword := "", "";
          success := Some(PasswordUpdated);
        }
      }
      loading := false;
    }

    /** `deleteAccount`: without the exact word "DELETE" only the error changes; otherwise the
        account is deleted and the user signed out, and `loading` stays set because the page is
        about to go away. */
    method DeleteAccount(rpc: Ack) returns (calls: seq<Call>)
      modifies this`loading, this`error, this`success
      ensures old(deleteConfirmText) != DeleteWord ==>
                calls == [] && error == Some(DeletePrompt) &&
                success == old(success) && loading == old(loading)
      ensures old(deleteConfirmText) == DeleteWord ==>
                success == None && |calls| >= 1 && calls[0] == DeleteUserAccount(userId)
      ensures old(deleteConfirmText) == DeleteWord && rpc.Err? ==>
                calls == [DeleteUserAccount(userId)] && error == Some(DeleteFailedPrefix + rpc.message) && !loading
      ensures old(deleteConfirmText) == DeleteWord && rpc.Ok? ==>
                calls == [DeleteUserAccount(userId), SignOut] && error == None && loading
      ensures SignOut in calls <==> old(deleteConfirmText) == DeleteWord && rpc.Ok?
    {
      calls := [];
      if deleteConfirmText != DeleteWord {
        error := Some(DeletePrompt);
        return;
      }
      error, success := None, None;
      loading := true;
      calls := [DeleteUserAccount(userId)];
      if rpc.Err? {
        error := Some(DeleteFailedPrefix + rpc.message);
        loading := false;
      } else {
        calls := calls + [SignOut];
      }
    }

    /** The "Delete Account" button shows the confirmation. */
    method OpenDeleteConfirm()
      modifies this`showDeleteConfirm
      ensures showDeleteConfirm
    {
      showDeleteConfirm := true;
    }

    /** "Cancel" hides the confirmation and empties the typed text. */
    method CancelDelete()
      modifies this`showDeleteConfirm, this`deleteConfirmText
      ensures !showDeleteConfirm && deleteConfirmText == ""
    {
      showDeleteConfirm := false;
      deleteConfirmText := "";
    }
  }

  /** The confirmation gate does not clear the success banner: after a password change, a
      deletion attempt with the wrong word shows both banners at once. */
  method BothBannersAfterRefusedDelete() returns (error: Option<string>, success: Option<string>)
    ensures error == Some(DeletePrompt) && success == Some(PasswordUpdated)
  {
    var page := new Settings("u1");
    page.newPassword, page.confirmNewPassword := "secret1", "secret1";
    var _ := page.UpdatePasswordSubmit(Ok(()));
    page.OpenDeleteConfirm();
    page.deleteConfirmText := "delete";
    var _ := page.DeleteAccount(Ok(()));
    error, success := page.error, page.success;
  }
}
