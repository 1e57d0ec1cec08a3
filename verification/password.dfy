/** The change-password modal: the new/confirm match check, the request it
    sends, and the loading flag around it. */
module ChangePassword {
  import opened Js

  /** The URL of the update: the build's `VITE_API_URL`, or the local
      development server when it is unset or empty. */
  function PasswordUrl(envApiUrl: Str): (url: string)
    ensures Truthy(envApiUrl) ==> url == envApiUrl.value + "/auth/update-password"
    ensures !Truthy(envApiUrl) ==> url == "http://localhost:5001/api/auth/update-password"
  {
    OrDefault(envApiUrl, "http://localhost:5001/api") + "/auth/update-password"
  }

  /** The update request: its URL and a body of exactly the old and the new
      password. */
  datatype PasswordRequest = PasswordRequest(url: string, oldPassword: string, newPassword: string)

  class PasswordModal {
    var oldPassword: string
    var newPassword: string
    var confirmPassword: string
    var loading: bool
    /** Whether `onClose` has been called. */
    var closed: bool

    constructor ()
      ensures oldPassword == "" && newPassword == "" && confirmPassword == ""
      ensures !loading && !closed
    {
      oldPassword := "";
      newPassword := "";
      confirmPassword := "";
      loading := false;
      closed := false;
    }

    /** Typing into the three fields. */
    method Edit(oldPassword': string, newPassword': string, confirmPassword': string)
      modifies this
      ensures oldPassword == oldPassword' && newPassword == newPassword' && confirmPassword == confirmPassword'
      ensures loading == old(loading) && closed == old(closed)
    {
      oldPassword := oldPassword';
      newPassword := newPassword';
      confirmPassword := confirmPassword';
    }

    /** The start of `handleSubmit`: a new password that differs from its
        confirmation is rejected before anything is sent and nothing changes;
        otherwise loading starts and the request carries the old password and
        the new one, which was typed identically twice. The three inputs are
        `required`, so the browser submits the form only when none is empty. */
    method Submit(envApiUrl: Str) returns (request: Option<PasswordRequest>)
      requires oldPassword != "" && newPassword != "" && confirmPassword != ""
      modifies this
      ensures request.None? <==> old(newPassword) != old(confirmPassword)
      ensures request.None? ==> loading == old(loading)
      ensures request.Some? ==> loading
      ensures request.Some? ==> request.value == PasswordRequest(PasswordUrl(envApiUrl), oldPassword, newPassword)
      ensures request.Some? ==> request.value.newPassword == confirmPassword
      ensures request.Some? ==> request.value.oldPassword != "" && request.value.newPassword != ""
      ensures oldPassword == old(oldPassword) && newPassword == old(newPassword)
      ensures confirmPassword == old(confirmPassword) && closed == old(closed)
    {
      if newPassword != confirmPassword {
        return None;
      }
      loading := true;
      request := Some(PasswordRequest(PasswordUrl(envApiUrl), oldPassword, newPassword));
    }

    /** The end of `handleSubmit`: loading ends either way, and the modal is
        closed only after a successful update. */
    method Settle(ok: bool)
      modifies this
      ensures !loading
      ensures closed == (old(closed) || ok)
      ensures oldPassword == old(oldPassword) && newPassword == old(newPassword)
      ensures confirmPassword == old(confirmPassword)
    {
      if ok {
        closed := true;
      }
      loading := false;
    }
  }
}
