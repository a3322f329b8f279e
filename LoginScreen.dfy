/**
 * The password form of `Login`. A submit clears the error and shows the spinner, waits for
 * the authentication reply, then either stores a fresh session and tells the parent, or
 * shows an error; the spinner stops on every path. The reply and the clock are parameters.
 */
module LoginScreen {
  import opened Wrappers
  import opened BrowserStorage
  import NumberText
  import Session

  const WrongPasswordMessage: string := "Senha incorreta"
  const ConnectionErrorMessage: string := "Erro na conexão com o servidor"

  /** What awaiting the authentication call produced: a decoded body, or an exception. */
  datatype AuthReply = Replied(success: bool, message: Option<string>) | Threw

  predicate Accepted(reply: AuthReply)
  {
    reply.Replied? && reply.success
  }

  /** `response.message || "Senha incorreta"`: an absent or empty message falls back. */
  function RejectionMessage(message: Option<string>): string
  {
    if message.Some? && message.value != "" then message.value else WrongPasswordMessage
  }

  /** The error text a completed submit leaves, starting from the cleared error. */
  function ErrorAfterSubmit(reply: AuthReply): string
  {
    match reply
    case Threw => ConnectionErrorMessage
    case Replied(success, message) => if success then "" else RejectionMessage(message)
  }

  /** `disabled={loading || !senha}`. */
  function SubmitDisabled(loading: bool, senha: string): bool
  {
    loading || senha == ""
  }

  /** An error is shown after a submit exactly when the password was not accepted. */
  lemma ErrorShownIffRejected(reply: AuthReply)
    ensures ErrorAfterSubmit(reply) != "" <==> !Accepted(reply)
  {
  }

  /** A rejection shows the server's message verbatim when it has one, and "Senha incorreta" otherwise. */
  lemma RejectionMessageCases(reply: AuthReply)
    requires reply.Replied? && !reply.success
    ensures reply.message.Some? && reply.message.value != "" ==> ErrorAfterSubmit(reply) == reply.message.value
    ensures reply.message.None? || reply.message == Some("") ==> ErrorAfterSubmit(reply) == WrongPasswordMessage
  {
  }

  /** A thrown call shows the connection error, the same text the auth service uses when it swallows a network failure. */
  lemma ThrowShowsConnectionError()
    ensures ErrorAfterSubmit(Threw) == ConnectionErrorMessage
    ensures ErrorAfterSubmit(Replied(false, Some(ConnectionErrorMessage))) == ErrorAfterSubmit(Threw)
  {
  }

  /** A wrong password answered with "Senha incorreta" keeps the gate closed and shows that message. */
  lemma ScenarioWrongPassword()
    ensures !Accepted(Replied(false, Some("Senha incorreta")))
    ensures ErrorAfterSubmit(Replied(false, Some("Senha incorreta"))) == "Senha incorreta"
  {
  }

  /** While a submit is in flight the button is disabled, and it is enabled again only for a non-empty password. */
  lemma SubmitGuard(loading: bool, senha: string)
    ensures loading ==> SubmitDisabled(loading, senha)
    ensures !SubmitDisabled(loading, senha) <==> !loading && |senha| > 0
  {
  }

  /** The session a successful submit stores is accepted by the gate's check until two minutes have passed. */
  lemma AcceptedSubmitOpensGate(store: map<string, string>, now: int, later: int)
    ensures Session.Check(Session.LoggedIn(store, now), later).authenticated <==> later - now < Session.SessionTtl
  {
    Session.LoginThenCheck(store, now, later);
  }

  /** The state of one `Login` component, over the page's shared storage. */
  class LoginForm {
    var senha: string
    var showPassword: bool
    var loading: bool
    var error: string
    const storage: LocalStorage

    constructor (storage: LocalStorage)
      ensures this.storage == storage
      ensures senha == "" && !showPassword && !loading && error == ""
    {
      this.storage := storage;
      senha := "";
      showPassword := false;
      loading := false;
      error := "";
    }

    /** The password field's `onChange`. */
    method SetSenha(value: string)
      modifies this
      ensures senha == value
      ensures showPassword == old(showPassword) && loading == old(loading) && error == old(error)
    {
      senha := value;
    }

    /** The eye button: show or hide the password. */
    method TogglePassword()
      modifies this
      ensures showPassword == !old(showPassword)
      ensures senha == old(senha) && loading == old(loading) && error == old(error)
    {
      showPassword := !showPassword;
    }

    /** The part of `handleSubmit` before the `await`: spinner on, error cleared. */
    method BeginSubmit()
      modifies this
      ensures loading && error == ""
      ensures senha == old(senha) && showPassword == old(showPassword)
    {
      loading := true;
      error := "";
    }

    /**
     * The part after the `await`. On acceptance both session keys are written and the
     * parent's `onLoginSuccess` is called (the result says whether it was); otherwise the
     * store is untouched and the error is set. `finally` turns the spinner off.
     */
    method FinishSubmit(reply: AuthReply, now: int) returns (calledOnLoginSuccess: bool)
      modifies this, storage
      ensures calledOnLoginSuccess == Accepted(reply)
      ensures storage.items == if Accepted(reply) then Session.LoggedIn(old(storage.items), now) else old(storage.items)
      ensures error == if Accepted(reply) then old(error) else ErrorAfterSubmit(reply)
      ensures !loading
      ensures senha == old(senha) && showPassword == old(showPassword)
    {
      calledOnLoginSuccess := false;
      match reply {
        case Threw =>
          error := ConnectionErrorMessage;
        case Replied(success, message) =>
          if success {
            storage.SetItem(Session.AuthKey, "true");
            storage.SetItem(Session.TimestampKey, NumberText.ToText(now));
            calledOnLoginSuccess := true;
          } else {
            error := RejectionMessage(message);
          }
      }
      loading := false;
    }

    /** The whole `handleSubmit`, with the reply it awaited and the time it read. */
    method HandleSubmit(reply: AuthReply, now: int) returns (calledOnLoginSuccess: bool)
      modifies this, storage
      ensures calledOnLoginSuccess == Accepted(reply)
      ensures storage.items == if Accepted(reply) then Session.LoggedIn(old(storage.items), now) else old(storage.items)
      ensures error == ErrorAfterSubmit(reply)
      ensures !loading
      ensures senha == old(senha) && showPassword == old(showPassword)
    {
      BeginSubmit();
      calledOnLoginSuccess := FinishSubmit(reply, now);
    }

    /**
     * Submitting the form: nothing happens while the button is disabled (the default button
     * of a form blocks implicit submission when disabled); otherwise `handleSubmit` runs.
     */
    method SubmitForm(reply: AuthReply, now: int) returns (submitted: bool, calledOnLoginSuccess: bool)
      modifies this, storage
      ensures submitted == !SubmitDisabled(old(loading), old(senha))
      ensures !submitted ==> (!calledOnLoginSuccess && storage.items == old(storage.items) &&
                              loading == old(loading) && error == old(error))
      ensures submitted ==> (calledOnLoginSuccess == Accepted(reply) && !loading && error == ErrorAfterSubmit(reply) &&
                             storage.items == if Accepted(reply) then Session.LoggedIn(old(storage.items), now) else old(storage.items))
      ensures senha == old(senha) && showPassword == old(showPassword)
    {
      submitted := !SubmitDisabled(loading, senha);
      calledOnLoginSuccess := false;
      if submitted {
        calledOnLoginSuccess := HandleSubmit(reply, now);
      }
    }
  }
}
