/** Two helpers of the login page: the username proposed at registration,
    derived from the e-mail address, and the message shown when signing in
    or registering fails. */
module LoginComponent {
  import opened Wrappers
  import opened JavaStrings

  /** The characters `[a-zA-Z0-9._-]` a derived username keeps. */
  predicate UsernameChar(c: char) {
    ('a' <= c <= 'z') || ('A' <= c <= 'Z') || ('0' <= c <= '9') || c == '.' || c == '_' || c == '-'
  }

  /** `email.split('@')[0]`: the text before the first `@`, or all of it. */
  function LocalPart(email: string): (r: string)
    ensures r <= email && '@' !in r
    ensures |r| < |email| ==> email[|r|] == '@'
  {
    var at := IndexOf(email, '@');
    if at == -1 then email else email[..at]
  }

  /** `replace(/[^a-zA-Z0-9._-]/g, '')`: the username characters of `s`, in
      order. */
  function KeepUsernameChars(s: string): (r: string)
    ensures |r| <= |s|
    ensures forall i :: 0 <= i < |r| ==> UsernameChar(r[i])
  {
    if |s| == 0 then ""
    else (if UsernameChar(s[0]) then [s[0]] else []) + KeepUsernameChars(s[1..])
  }

  /** `deriveUsername`: the local part (or `user` when it is empty), cleaned,
      cut to 32 characters, and `user` again if nothing is left. */
  function DeriveUsername(email: string): (r: string)
    ensures 1 <= |r| <= 32
    ensures forall i :: 0 <= i < |r| ==> UsernameChar(r[i])
  {
    var localPart := if LocalPart(email) == "" then "user" else LocalPart(email);
    var kept := KeepUsernameChars(localPart);
    var cleaned := if |kept| <= 32 then kept else kept[..32];
    if cleaned == "" then "user" else cleaned
  }

  /** Cleaning keeps a string made only of username characters as it is. */
  lemma {:induction false} KeepClean(s: string)
    requires forall i :: 0 <= i < |s| ==> UsernameChar(s[i])
    ensures KeepUsernameChars(s) == s
  {
    if |s| > 0 {
      KeepClean(s[1..]);
    }
  }

  /** One character is kept exactly when it is a username character. */
  lemma {:induction false} KeepOne(c: char)
    ensures KeepUsernameChars([c]) == (if UsernameChar(c) then [c] else [])
  {
    assert [c][1..] == [];
  }

  /** The replace works character by character: cleaning a concatenation
      cleans each part, in order. */
  lemma {:induction false} KeepAppend(a: string, b: string)
    ensures KeepUsernameChars(a + b) == KeepUsernameChars(a) + KeepUsernameChars(b)
    decreases |a|
  {
    if |a| == 0 {
      assert a + b == b;
    } else {
      assert (a + b)[1..] == a[1..] + b;
      KeepAppend(a[1..], b);
    }
  }

  /** Only the text before the first `@` matters: the domain never reaches
      the username. */
  lemma {:induction false} UsesOnlyLocalPart(localPart: string, domain: string)
    requires '@' !in localPart
    ensures DeriveUsername(localPart + "@" + domain) == DeriveUsername(localPart)
  {
    var email := localPart + "@" + domain;
    assert email[|localPart|] == '@' && email[..|localPart|] == localPart;
    assert LocalPart(email) == localPart;
  }

  /** A local part already made of at most 32 username characters is the
      username. */
  lemma {:induction false} CleanLocalPartKept(localPart: string, domain: string)
    requires 1 <= |localPart| <= 32
    requires forall i :: 0 <= i < |localPart| ==> UsernameChar(localPart[i])
    ensures DeriveUsername(localPart + "@" + domain) == localPart
  {
    assert '@' !in localPart by {
      assert forall i :: 0 <= i < |localPart| ==> localPart[i] != '@';
    }
    UsesOnlyLocalPart(localPart, domain);
    KeepClean(localPart);
  }

  /** An address whose local part has no username character at all, such as
      `+@x`, falls back to `user`. */
  lemma {:induction false} NothingLeftFallsBack(email: string)
    requires forall i :: 0 <= i < |LocalPart(email)| ==> !UsernameChar(LocalPart(email)[i])
    requires LocalPart(email) != ""
    ensures DeriveUsername(email) == "user"
  {
    NoneKept(LocalPart(email));
  }

  lemma {:induction false} NoneKept(s: string)
    requires forall i :: 0 <= i < |s| ==> !UsernameChar(s[i])
    ensures KeepUsernameChars(s) == ""
  {
    if |s| > 0 {
      NoneKept(s[1..]);
    }
  }

  /** What the page knows of a failed request: the HTTP status and the
      server's `error.message`, either of which may be missing. */
  datatype ApiError = ApiError(status: Option<int>, message: Option<string>)

  const EmailInUse: string := "This email is already in use."
  const WrongCredentials: string := "Incorrect email or password."
  const GenericFailure: string := "Something went wrong. Please try again."

  /** The message lower-cased, or "" when there is none. Only ASCII letters
      are lowered: no other character lowers to text that could complete one
      of the searched words. */
  function LoweredMessage(err: ApiError): string {
    if err.message.None? then "" else AsciiLowerString(err.message.value)
  }

  /** A conflict status, or a message that mentions the e-mail together with
      "already", "exist" or "used". */
  predicate EmailAlreadyUsed(err: ApiError) {
    err.status == Some(409)
    || (Contains(LoweredMessage(err), "email")
        && (Contains(LoweredMessage(err), "already") || Contains(LoweredMessage(err), "exist")
            || Contains(LoweredMessage(err), "used")))
  }

  /** `toFriendlyError`. */
  function ToFriendlyError(err: ApiError, isRegister: bool): (r: string)
    ensures r in {EmailInUse, WrongCredentials, GenericFailure}
    ensures isRegister ==> r != WrongCredentials
    ensures !isRegister ==> r != EmailInUse
    ensures isRegister && err.status == Some(409) ==> r == EmailInUse
  {
    if isRegister && EmailAlreadyUsed(err) then EmailInUse
    else if !isRegister && err.status == Some(401) then WrongCredentials
    else GenericFailure
  }

  /** Exactly one of the three messages is shown: the e-mail conflict only
      when registering, wrong credentials only on a 401 when signing in, and
      the generic message in every other case. */
  lemma {:induction false} FriendlyErrorCases(err: ApiError, isRegister: bool)
    ensures ToFriendlyError(err, isRegister) == EmailInUse <==> isRegister && EmailAlreadyUsed(err)
    ensures ToFriendlyError(err, isRegister) == WrongCredentials <==> !isRegister && err.status == Some(401)
    ensures ToFriendlyError(err, isRegister) == GenericFailure <==>
              !(isRegister && EmailAlreadyUsed(err)) && !(!isRegister && err.status == Some(401))
  {
    assert EmailInUse != WrongCredentials && EmailInUse != GenericFailure && WrongCredentials != GenericFailure by {
      assert EmailInUse[0] != WrongCredentials[0] && EmailInUse[0] != GenericFailure[0];
      assert WrongCredentials[0] != GenericFailure[0];
    }
  }
}
