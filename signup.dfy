/** The sign-up page: password-length check, then the auth-configuration
    check, then account creation with the provider's error codes turned into
    messages. */
module SignUp {
  import opened Wrappers

  const PasswordTooShortMessage := "A senha deve ter no mínimo 6 caracteres."
  const ConfigErrorMessage := "Erro na configuração da autenticação. Tente novamente mais tarde."
  const EmailInUseMessage := "Este e-mail já está em uso."
  const InvalidEmailMessage := "Formato de e-mail inválido."
  const WeakPasswordMessage := "A senha é muito fraca. Tente uma senha mais forte."
  const GenericMessage := "Ocorreu um erro ao realizar o cadastro. Tente novamente."

  /** The provider codes that get a message of their own. */
  const KnownCodes: set<string> := {"auth/email-already-in-use", "auth/invalid-email", "auth/weak-password"}

  /** The message for a failed sign-up; `code` is absent when the error has no
      `code` property. */
  function ErrorMessage(code: Option<string>): (m: string)
    ensures code == Some("auth/email-already-in-use") ==> m == EmailInUseMessage
    ensures code == Some("auth/invalid-email") ==> m == InvalidEmailMessage
    ensures code == Some("auth/weak-password") ==> m == WeakPasswordMessage
  {
    if code == Some("auth/email-already-in-use") then EmailInUseMessage
    else if code == Some("auth/invalid-email") then InvalidEmailMessage
    else if code == Some("auth/weak-password") then WeakPasswordMessage
    else GenericMessage
  }

  /** Any other code, and a missing one, gets the generic message, and only they do. */
  lemma GenericMessageIffUnknownCode(code: Option<string>)
    ensures ErrorMessage(code) == GenericMessage <==> code.None? || code.value !in KnownCodes
  {
  }

  /** Distinct known codes give distinct messages, so the message tells the
      code back. */
  lemma ErrorMessageInjectiveOnKnownCodes(a: string, b: string)
    requires a in KnownCodes && b in KnownCodes
    ensures ErrorMessage(Some(a)) == ErrorMessage(Some(b)) <==> a == b
  {
  }

  /** What the provider does with the request. */
  datatype Outcome =
    | Created
    | CreateFailed(code: Option<string>)
    | ProfileFailed(code: Option<string>)

  class CadastroPage {
    var nome: string
    var email: string
    var senha: string
    var error: Option<string>
    var loading: bool
    /** The display name given to the new account. */
    var profileName: Option<string>
    /** Where the router was sent. */
    var redirectTo: Option<string>

    constructor()
      ensures nome == "" && email == "" && senha == "" && error == None && !loading
      ensures profileName == None && redirectTo == None
    {
      nome := "";
      email := "";
      senha := "";
      error := None;
      loading := false;
      profileName := None;
      redirectTo := None;
    }

    /** `handleCadastro`. `attempted` says whether an account creation was
        requested. */
    method HandleCadastro(authAvailable: bool, outcome: Outcome) returns (attempted: bool)
      modifies this
      ensures attempted <==> |senha| >= 6 && authAvailable
      ensures |senha| < 6 ==> error == Some(PasswordTooShortMessage) && loading == old(loading)
      ensures |senha| >= 6 && !authAvailable ==> error == Some(ConfigErrorMessage) && !loading
      ensures attempted ==> !loading
      ensures attempted && outcome.Created? ==>
        error == None && profileName == Some(nome) && redirectTo == Some("/login")
      ensures attempted && !outcome.Created? ==>
        error == Some(ErrorMessage(outcome.code)) && profileName == old(profileName)
        && redirectTo == old(redirectTo)
      ensures !attempted ==> profileName == old(profileName) && redirectTo == old(redirectTo)
      ensures nome == old(nome) && email == old(email) && senha == old(senha)
    {
      error := None;
      if |senha| < 6 {
        error := Some(PasswordTooShortMessage);
        return false;
      }
      if !authAvailable {
        error := Some(ConfigErrorMessage);
        loading := false;
        return false;
      }
      loading := true;
      attempted := true;
      match outcome {
        case Created =>
          profileName := Some(nome);
          redirectTo := Some("/login");
        case CreateFailed(code) =>
          error := Some(ErrorMessage(code));
        case ProfileFailed(code) =>
          error := Some(ErrorMessage(code));
      }
      loading := false;
    }
  }
}
