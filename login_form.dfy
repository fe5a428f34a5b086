/** The login card (components/login-form.tsx): an `error` query parameter left by
    the callback becomes a destructive toast whose description comes from a small
    table with a generic fallback; the button starts the context's `login` and is
    disabled while loading. */
module LoginForm {
  import opened Common
  import CallbackHandler

  /** The three codes the callback page sends, with their messages. */
  const ERROR_MESSAGES: map<string, string> := map[
    "invalid_state" := "Authentication failed: Invalid state",
    "no_code" := "Authentication failed: No code received",
    "authentication_failed" := "Authentication failed. Please try again."
  ]

  const FALLBACK := "An unexpected error occurred"

  /** The names a plain object literal inherits from `Object.prototype`. Reading one
      of them with `obj[name]` yields a function (or, for `__proto__`, an object),
      never `undefined`. */
  const PROTOTYPE_MEMBERS: set<string> := {
    "constructor", "hasOwnProperty", "isPrototypeOf", "propertyIsEnumerable",
    "toLocaleString", "toString", "valueOf", "__proto__",
    "__defineGetter__", "__defineSetter__", "__lookupGetter__", "__lookupSetter__"
  }

  /** A toast description: a message, or an inherited member that is not a string. */
  datatype Description = Message(text: string) | InheritedMember(name: string)

  /** `errorMessages[error] || fallback` as written: the lookup on the object literal
      also finds inherited members, which are truthy, so the fallback is skipped. */
  function DescriptionAsWritten(error: string): (d: Description)
    ensures error in ERROR_MESSAGES ==> d == Message(ERROR_MESSAGES[error])
    ensures error !in ERROR_MESSAGES && error !in PROTOTYPE_MEMBERS ==> d == Message(FALLBACK)
    ensures d.InheritedMember? <==> error in PROTOTYPE_MEMBERS
  {
    if error in ERROR_MESSAGES then Message(ERROR_MESSAGES[error])
    else if error in PROTOTYPE_MEMBERS then InheritedMember(error)
    else Message(FALLBACK)
  }

  /** The table consulted for its own keys only: every code gets a message. */
  function Describe(error: string): (message: string)
    ensures error in ERROR_MESSAGES ==> message == ERROR_MESSAGES[error]
    ensures error !in ERROR_MESSAGES ==> message == "An unexpected error occurred"
    ensures message in ERROR_MESSAGES.Values || message == FALLBACK
  {
    if error in ERROR_MESSAGES then ERROR_MESSAGES[error] else FALLBACK
  }

  /** `/login?error=toString` shows no message at all in the code as written. */
  lemma InheritedNameSkipsFallback()
    ensures DescriptionAsWritten("toString") == InheritedMember("toString")
    ensures DescriptionAsWritten("toString") != Message(FALLBACK)
    ensures Describe("toString") == FALLBACK
  {
    assert "toString" !in ERROR_MESSAGES by {
      assert ERROR_MESSAGES.Keys == {"invalid_state", "no_code", "authentication_failed"};
    }
  }

  /** The corrected lookup agrees with the code as written on every code that is not
      an inherited member name. */
  lemma DescribeAgreesOffPrototype(error: string)
    requires error !in PROTOTYPE_MEMBERS
    ensures DescriptionAsWritten(error) == Message(Describe(error))
  {
  }

  datatype Variant = Default | Destructive

  datatype Toast = Toast(variant: Variant, title: string, description: string)

  /** The effect on `searchParams`: a toast only for a non-empty `error`. Its
      description is the corrected lookup `Describe`; the code as written differs
      only on inherited member names (see `DescriptionAsWritten`). */
  function ErrorToast(error: Option<string>): (t: Option<Toast>)
    ensures t.Some? <==> Truthy(error)
    ensures t.Some? ==>
      t.value.variant == Destructive && t.value.title == "Authentication Error" && t.value.description == Describe(error.value)
    // Off the inherited names the description is what the code as written shows.
    ensures t.Some? && error.value !in PROTOTYPE_MEMBERS ==>
      DescriptionAsWritten(error.value) == Message(t.value.description)
  {
    if Truthy(error) then Some(Toast(Destructive, "Authentication Error", Describe(error.value))) else None
  }

  /** The login button: disabled while loading, with the matching label. */
  datatype Button = Button(caption: string, disabled: bool)

  function LoginButton(isLoading: bool): (b: Button)
    ensures b.disabled == isLoading
    ensures b.caption == (if isLoading then "Connecting..." else "Login with Github")
  {
    Button(if isLoading then "Connecting..." else "Login with Github", isLoading)
  }

  /** Every redirect the callback page issues on its own (not forwarding the
      provider's error) lands on a specific message rather than the fallback. */
  lemma CallbackCodesHaveMessages()
    ensures CallbackHandler.INVALID_STATE_PATH == CallbackHandler.LOGIN_ERROR_PATH + "invalid_state"
      && Describe("invalid_state") == "Authentication failed: Invalid state"
    ensures CallbackHandler.NO_CODE_PATH == CallbackHandler.LOGIN_ERROR_PATH + "no_code"
      && Describe("no_code") == "Authentication failed: No code received"
    ensures CallbackHandler.FAILED_PATH == CallbackHandler.LOGIN_ERROR_PATH + "authentication_failed"
      && Describe("authentication_failed") == "Authentication failed. Please try again."
  {
  }
}
