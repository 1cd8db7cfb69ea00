/**
 * What every protected page derives from the session: the account type (PF,
 * a person, or PJ, a company), the PF gate of the employees page, the e-mail
 * that scopes per-account storage, and the company profile of the session.
 */
module Shared {
  import opened Outcomes
  import opened Auth

  /** What `bloquearAcessoPF` does to the visitor: let them stay, or send them back to the home page. */
  datatype Destino = Permanecer | RedirecionarInicio

  /**
   * `obterTipoConta`: the session's account type; PJ when there is no
   * session or when the session has none (a session from before the
   * distinction existed).
   */
  function ObterTipoConta(sessao: Option<Sessao>): (r: string)
    ensures r != []
    ensures sessao.Some? && sessao.value.tipoConta.Some? && sessao.value.tipoConta.value != [] ==> r == sessao.value.tipoConta.value
    ensures sessao.None? || sessao.value.tipoConta.None? || sessao.value.tipoConta.value == [] ==> r == "PJ"
  {
    if sessao.Some? then TipoContaOuPJ(sessao.value.tipoConta) else "PJ"
  }

  /** `ehPessoaFisica`: only a session that says PF is PF; a missing session or type never is. */
  function EhPessoaFisica(sessao: Option<Sessao>): (r: bool)
    ensures r <==> sessao.Some? && sessao.value.tipoConta == Some("PF")
  {
    ObterTipoConta(sessao) == "PF"
  }

  /** `bloquearAcessoPF` as a decision: PF accounts are sent away from the employees page, everyone else stays. */
  function BloquearAcessoPF(sessao: Option<Sessao>): (r: Destino)
    ensures r == RedirecionarInicio <==> sessao.Some? && sessao.value.tipoConta == Some("PF")
  {
    if EhPessoaFisica(sessao) then RedirecionarInicio else Permanecer
  }

  /** `obterEmailUsuario`: the session's e-mail, or the empty string without a session. */
  function ObterEmailUsuario(sessao: Option<Sessao>): (r: string)
    ensures sessao.Some? ==> r == sessao.value.email
    ensures sessao.None? ==> r == []
  {
    if sessao.Some? then sessao.value.email else ""
  }

  /**
   * After a login, the session's account type is PF exactly when the account
   * was registered as PF, and the per-account storage e-mail is the e-mail
   * typed at login, trimmed and lower-cased.
   */
  lemma SessaoDoLogin(usuarios: seq<Usuario>, emailDigitado: string, senha: string)
    requires Autenticar(usuarios, emailDigitado, senha).Ok?
    ensures var u := Autenticar(usuarios, emailDigitado, senha).value;
      (EhPessoaFisica(Some(CriarSessao(u))) <==> u.tipoConta == Some("PF")) &&
      ObterEmailUsuario(Some(CriarSessao(u))) == NormalizarEmail(emailDigitado)
  {
  }

  /**
   * Registration, login and the PF gate together: an account registered as
   * PF is kept out of the employees page, any other type is let in, and the
   * session carries a company profile exactly when the account was registered as PJ.
   */
  lemma CadastroDefineAcesso(usuarios: seq<Usuario>, f: FormularioCadastro, emailDigitado: string)
    requires ValidarCadastro(f, usuarios).Pass?
    requires NormalizarEmail(emailDigitado) == NormalizarEmail(f.email)
    ensures var a := Autenticar(usuarios + [NovoUsuario(f)], emailDigitado, f.senha);
      a.Ok? &&
      (BloquearAcessoPF(Some(CriarSessao(a.value))) == RedirecionarInicio <==> f.tipoConta == "PF") &&
      (CriarSessao(a.value).empresa.Some? <==> f.tipoConta == "PJ")
  {
    CadastroPermiteLogin(usuarios, f, emailDigitado);
  }

  /** The shared page state: the company profile loaded from the session (`dadosEmpresa`). */
  class Compartilhado {
    var dadosEmpresa: Option<Empresa>

    /** Before loading, there is no company profile (`let dadosEmpresa = null`). */
    constructor ()
      ensures dadosEmpresa == None
    {
      dadosEmpresa := None;
    }

    /**
     * `carregarEmpresa`: with a session, the profile becomes the session's
     * company (None when it has none); without a session it is left as it was.
     */
    method CarregarEmpresa(sessao: Option<Sessao>)
      modifies this
      ensures dadosEmpresa == if sessao.Some? then sessao.value.empresa else old(dadosEmpresa)
    {
      if sessao.Some? {
        dadosEmpresa := sessao.value.empresa;
      }
    }
  }
}
