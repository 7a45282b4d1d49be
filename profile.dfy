/**
 * The profile screen (src/components/ProfileClient.tsx): the avatar upload,
 * which sends the base64 part of the chosen file's data URL, and the
 * password form.
 */
module Profile {
  import opened Wrappers
  import opened Js
  import opened Actions

  /** The position of the first `c` in `s`, or -1. */
  function IndexOf(s: string, c: char): (i: int)
    ensures -1 <= i < |s|
    ensures i == -1 <==> c !in s
    ensures i >= 0 ==> s[i] == c && c !in s[..i]
  {
    if |s| == 0 then -1
    else if s[0] == c then 0
    else
      var j := IndexOf(s[1..], c);
      if j < 0 then -1
      else
        assert s[..j + 1] == [s[0]] + s[1..][..j];
        j + 1
  }

  /** The text before the first `c`, or all of `s` when there is none. */
  function UpTo(s: string, c: char): (r: string)
    ensures c !in r
    ensures |r| <= |s| && s[..|r|] == r
    ensures |r| < |s| ==> s[|r|] == c
  {
    var i := IndexOf(s, c);
    if i < 0 then s else s[..i]
  }

  /** `dataUrl.split(',')[1]`: the second comma-separated field, undefined when there is no comma. */
  function RawBase64(dataUrl: string): (r: Json)
    ensures r == Undefined <==> ',' !in dataUrl
    ensures r != Undefined ==> r.Str? && ',' !in r.s
  {
    var i := IndexOf(dataUrl, ',');
    if i < 0 then Undefined else Str(UpTo(dataUrl[i + 1..], ','))
  }

  /**
   * The payload of a data URL `header,payload` is exactly the payload,
   * whatever follows a second comma.
   */
  lemma RawBase64OfDataUrl(header: string, payload: string, rest: string)
    requires ',' !in header && ',' !in payload
    ensures RawBase64(header + "," + payload) == Str(payload)
    ensures RawBase64(header + "," + payload + "," + rest) == Str(payload)
  {
    var u := header + "," + payload;
    assert u[..|header|] == header && u[|header|] == ',';
    assert IndexOf(u, ',') == |header|;
    assert u[|header| + 1..] == payload;
    var v := header + "," + payload + "," + rest;
    assert v[..|header|] == header && v[|header|] == ',';
    assert IndexOf(v, ',') == |header|;
    var tail := v[|header| + 1..];
    assert tail == payload + "," + rest;
    assert tail[..|payload|] == payload && tail[|payload|] == ',';
    assert IndexOf(tail, ',') == |payload|;
  }

  const PasswordUpdatedText := "Password updated successfully"
  const PasswordFailedText := "Failed to update password"

  /** The body of the password update. */
  function PasswordBody(current: string, next: string): (b: Json)
    ensures Field(b, "current_password") == Str(current) && Field(b, "new_password") == Str(next)
  {
    Obj(map["current_password" := Str(current), "new_password" := Str(next)])
  }

  class ProfileView {
    var avatar: Json
    var avatarLoading: bool
    var currentPassword: string
    var newPassword: string
    var passwordLoading: bool
    var passwordMessage: Json
    var passwordSuccess: bool

    constructor (user: Json)
      ensures avatar == Field(user, "avatar") && !avatarLoading
      ensures currentPassword == "" && newPassword == "" && !passwordLoading
      ensures passwordMessage == Str("") && !passwordSuccess
    {
      avatar := Field(user, "avatar");
      avatarLoading := false;
      currentPassword := "";
      newPassword := "";
      passwordLoading := false;
      passwordMessage := Str("");
      passwordSuccess := false;
    }

    /**
     * `handleAvatarChange`, with `file` the data URL the reader produces.
     * Without a file nothing happens. Otherwise the base64 part is sent;
     * success shows the returned avatar or else the data URL itself, and
     * failure keeps the avatar. A rejected call, or a success with a null
     * record, throws inside the reader callback and leaves loading on.
     */
    method HandleAvatarChange(file: Option<string>, call: Settled<Envelope>) returns (sent: Option<Mutation>)
      modifies this
      ensures file.None? ==> sent.None? && avatar == old(avatar) && avatarLoading == old(avatarLoading)
      ensures file.Some? ==> sent == Some(UpdateAvatar(RawBase64(file.value)))
      ensures file.Some? && call.Resolved? && call.value.success && !Nullish(call.value.data) ==>
        avatar == Or(Field(call.value.data, "avatar"), Str(file.value)) && !avatarLoading
      ensures file.Some? && call.Resolved? && !call.value.success ==> avatar == old(avatar) && !avatarLoading
      ensures file.Some? && (call.Rejected? || (call.value.success && Nullish(call.value.data))) ==>
        avatar == old(avatar) && avatarLoading
      ensures currentPassword == old(currentPassword) && newPassword == old(newPassword)
      ensures passwordLoading == old(passwordLoading) && passwordMessage == old(passwordMessage)
      ensures passwordSuccess == old(passwordSuccess)
    {
      if file.None? {
        return None;
      }
      avatarLoading := true;
      var dataUrl := file.value;
      sent := Some(UpdateAvatar(RawBase64(dataUrl)));
      if call.Rejected? {
        return;
      }
      var result := call.value;
      if result.success {
        var returned := Prop(result.data, "avatar");
        if returned.Threw? {
          return;
        }
        avatar := Or(returned.value, Str(dataUrl));
      }
      avatarLoading := false;
    }

    /**
     * `handlePasswordUpdate`: message cleared and flag lowered before the
     * call; success raises the flag, shows the fixed text and clears both
     * fields; failure shows the action's message or the fallback and keeps
     * them. A rejected call leaves loading on.
     */
    method HandlePasswordUpdate(call: Settled<Envelope>) returns (sent: Mutation)
      modifies this
      ensures sent == UpdatePassword(PasswordBody(old(currentPassword), old(newPassword)))
      ensures call.Rejected? ==>
        passwordLoading && passwordMessage == Str("") && !passwordSuccess &&
        currentPassword == old(currentPassword) && newPassword == old(newPassword)
      ensures call.Resolved? && call.value.success ==>
        !passwordLoading && passwordSuccess && passwordMessage == Str(PasswordUpdatedText) &&
        currentPassword == "" && newPassword == ""
      ensures call.Resolved? && !call.value.success ==>
        !passwordLoading && !passwordSuccess && passwordMessage == Or(call.value.message, Str(PasswordFailedText)) &&
        currentPassword == old(currentPassword) && newPassword == old(newPassword)
      ensures avatar == old(avatar) && avatarLoading == old(avatarLoading)
    {
      passwordLoading := true;
      passwordMessage := Str("");
      passwordSuccess := false;
      sent := UpdatePassword(PasswordBody(currentPassword, newPassword));
      if call.Rejected? {
        return;
      }
      var result := call.value;
      if result.success {
        passwordSuccess := true;
        passwordMessage := Str(PasswordUpdatedText);
        currentPassword := "";
        newPassword := "";
      } else {
        passwordSuccess := false;
        passwordMessage := Or(result.message, Str(PasswordFailedText));
      }
      passwordLoading := false;
    }
  }

  /**
   * Through the action, a failed password update shows the upstream's
   * message when it has one, and the action's own fallback otherwise.
   */
  lemma PasswordFailureText(fields: Json, jar: Jar, reply: Transport.Reply)
    requires Mutate(UpdatePassword(fields), jar, reply).Sent?
    requires !Mutate(UpdatePassword(fields), jar, reply).result.success
    ensures Or(Mutate(UpdatePassword(fields), jar, reply).result.message, Str(PasswordFailedText)) ==
      Transport.FailureMessage(reply, PasswordFailedText)
  {
  }
}
