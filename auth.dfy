/**
 * The login page: the list of registered accounts, registration with its
 * ordered validation chain, login, the session it creates, and the CNPJ
 * (Brazilian company tax id) helpers of the registration form.
 */
module Auth {
  import opened Outcomes
  import opened Seqs
  import opened Texto

  /** The company profile of a PJ (company) account. `tipo` is the company category, such as "MEI". */
  datatype Empresa = Empresa(nome: string, cnpj: string, tipo: string)

  /**
   * A stored account. `tipoConta` is None for accounts written before the
   * PF/PJ distinction existed; `empresa` is present only for PJ accounts.
   */
  datatype Usuario = Usuario(nome: string, email: string, senha: string, tipoConta: Option<string>, empresa: Option<Empresa>)

  /** The active session. It has no password field. `tipoConta` may be None in a session written by older code. */
  datatype Sessao = Sessao(nome: string, email: string, tipoConta: Option<string>, empresa: Option<Empresa>)

  /** The fields of the registration form, as typed. */
  datatype FormularioCadastro = FormularioCadastro(
    nome: string, email: string, senha: string, confirmar: string, tipoConta: string,
    nomeEmpresa: string, cnpj: string, tipoEmpresa: string)

  /** Why a registration was refused, one value per message of the form. */
  datatype ErroCadastro = CamposPessoais | SenhaCurta | SenhasDiferentes | CamposEmpresa | CnpjInvalido | EmailExistente

  /** Why a login was refused. An unknown e-mail and a wrong password give the same value. */
  datatype ErroLogin = CamposVazios | CredenciaisInvalidas

  // ---------------------------------------------------------------- CNPJ

  /** `validarCnpjSimples`: the text holds exactly 14 digit characters; check digits are not computed. */
  function ValidarCnpjSimples(cnpj: string): (r: bool)
    ensures r <==> Count(cnpj, IsDigit) == 14
  {
    FilterLength(cnpj, IsDigit);
    |Digits(cnpj)| == 14
  }

  /** The progressive mask `00.000.000/0000-00` that `formatarCnpj` applies to at most 14 digits. */
  function MascaraCnpj(v: string): string
    requires |v| <= 14
  {
    if |v| > 12 then v[..2] + "." + v[2..5] + "." + v[5..8] + "/" + v[8..12] + "-" + v[12..]
    else if |v| > 8 then v[..2] + "." + v[2..5] + "." + v[5..8] + "/" + v[8..]
    else if |v| > 5 then v[..2] + "." + v[2..5] + "." + v[5..]
    else if |v| > 2 then v[..2] + "." + v[2..]
    else v
  }

  /** `formatarCnpj`: keep the first 14 digits of the field and mask them; the result never exceeds 18 characters. */
  function FormatarCnpj(entrada: string): (r: string)
    ensures |r| <= 18
  {
    MascaraCnpj(Take(Digits(entrada), 14))
  }

  /** The mask only inserts separators: stripping them gives back the digits. */
  lemma MascaraCnpjDigitos(v: string)
    requires |v| <= 14
    requires forall k :: 0 <= k < |v| ==> IsDigit(v[k])
    ensures Digits(MascaraCnpj(v)) == v
  {
    if |v| <= 2 {
      DigitsOfDigits(v);
    } else {
      var a := v[..2];
      DigitsOfDigits(a);
      if |v| <= 5 {
        DigitsSeparated(a, '.', v[2..]);
        assert a + v[2..] == v;
      } else {
        var b := a + "." + v[2..5];
        DigitsSeparated(a, '.', v[2..5]);
        assert Digits(b) == v[..5];
        if |v| <= 8 {
          DigitsSeparated(b, '.', v[5..]);
          assert v[..5] + v[5..] == v;
        } else {
          var c := b + "." + v[5..8];
          DigitsSeparated(b, '.', v[5..8]);
          assert v[..5] + v[5..8] == v[..8];
          if |v| <= 12 {
            DigitsSeparated(c, '/', v[8..]);
            assert v[..8] + v[8..] == v;
          } else {
            var d := c + "/" + v[8..12];
            DigitsSeparated(c, '/', v[8..12]);
            assert v[..8] + v[8..12] == v[..12];
            DigitsSeparated(d, '-', v[12..]);
            assert v[..12] + v[12..] == v;
          }
        }
      }
    }
  }

  /** Round trip: the digits of the masked field are the first (at most 14) digits that were typed. */
  lemma FormatarCnpjDigitos(entrada: string)
    ensures Digits(FormatarCnpj(entrada)) == Take(Digits(entrada), 14)
  {
    MascaraCnpjDigitos(Take(Digits(entrada), 14));
  }

  /** Masking an already masked field changes nothing, so the mask can run on every keystroke. */
  lemma FormatarCnpjIdempotente(entrada: string)
    ensures FormatarCnpj(FormatarCnpj(entrada)) == FormatarCnpj(entrada)
  {
    FormatarCnpjDigitos(entrada);
  }

  /**
   * With 14 or more digits typed the field reads `00.000.000/0000-00`: 18
   * characters, the separators in their places, digits everywhere else; and
   * the validator accepts exactly these masked fields.
   */
  lemma FormatarCnpjCompleto(entrada: string)
    ensures ValidarCnpjSimples(FormatarCnpj(entrada)) <==> |Digits(entrada)| >= 14
    ensures |Digits(entrada)| >= 14 ==>
      var r := FormatarCnpj(entrada);
      |r| == 18 && r[2] == '.' && r[6] == '.' && r[10] == '/' && r[15] == '-' &&
      forall k :: 0 <= k < 18 && k !in {2, 6, 10, 15} ==> IsDigit(r[k])
  {
    FormatarCnpjDigitos(entrada);
    FilterLength(FormatarCnpj(entrada), IsDigit);
  }

  // ---------------------------------------------------------------- registration

  /** How both forms read an e-mail field: `trim()` then `toLowerCase()`. */
  function NormalizarEmail(email: string): string
  {
    ToLower(Trim(email))
  }

  /** Some stored account has exactly this e-mail. */
  predicate EmailCadastrado(usuarios: seq<Usuario>, email: string)
  {
    exists i :: 0 <= i < |usuarios| && usuarios[i].email == email
  }

  /** The four personal fields are filled (name and e-mail after trimming). */
  predicate CamposPessoaisPreenchidos(f: FormularioCadastro)
  {
    Trim(f.nome) != [] && NormalizarEmail(f.email) != [] && f.senha != [] && f.confirmar != []
  }

  /** The three company fields are filled (name and CNPJ after trimming). */
  predicate CamposEmpresaPreenchidos(f: FormularioCadastro)
  {
    Trim(f.nomeEmpresa) != [] && Trim(f.cnpj) != [] && f.tipoEmpresa != []
  }

  /** Every check that looks only at the form passes; the order of the checks plays no part here. */
  predicate FormularioValido(f: FormularioCadastro)
  {
    CamposPessoaisPreenchidos(f) && |f.senha| >= 4 && f.senha == f.confirmar &&
    (f.tipoConta == "PJ" ==> CamposEmpresaPreenchidos(f) && ValidarCnpjSimples(Trim(f.cnpj)))
  }

  /**
   * The validation chain of `cadastrarUsuario`. A registration passes exactly
   * when the form is valid and its e-mail is new; each error is reported
   * only when every earlier check passed, so the duplicate e-mail, checked
   * last, is reported only for an otherwise valid form.
   */
  function ValidarCadastro(f: FormularioCadastro, usuarios: seq<Usuario>): (r: Outcome<ErroCadastro>)
    ensures r.Pass? <==> FormularioValido(f) && !EmailCadastrado(usuarios, NormalizarEmail(f.email))
    ensures r == Fail(EmailExistente) <==> FormularioValido(f) && EmailCadastrado(usuarios, NormalizarEmail(f.email))
    ensures r == Fail(CamposPessoais) <==> !CamposPessoaisPreenchidos(f)
    ensures r == Fail(SenhaCurta) <==> CamposPessoaisPreenchidos(f) && |f.senha| < 4
    ensures r == Fail(SenhasDiferentes) <==> CamposPessoaisPreenchidos(f) && |f.senha| >= 4 && f.senha != f.confirmar
    ensures r == Fail(CamposEmpresa) <==>
      CamposPessoaisPreenchidos(f) && |f.senha| >= 4 && f.senha == f.confirmar &&
      f.tipoConta == "PJ" && !CamposEmpresaPreenchidos(f)
    ensures r == Fail(CnpjInvalido) <==>
      CamposPessoaisPreenchidos(f) && |f.senha| >= 4 && f.senha == f.confirmar &&
      f.tipoConta == "PJ" && CamposEmpresaPreenchidos(f) && !ValidarCnpjSimples(Trim(f.cnpj))
  {
    if !CamposPessoaisPreenchidos(f) then Fail(CamposPessoais)
    else if |f.senha| < 4 then Fail(SenhaCurta)
    else if f.senha != f.confirmar then Fail(SenhasDiferentes)
    else if f.tipoConta == "PJ" && !CamposEmpresaPreenchidos(f) then Fail(CamposEmpresa)
    else if f.tipoConta == "PJ" && !ValidarCnpjSimples(Trim(f.cnpj)) then Fail(CnpjInvalido)
    else if EmailCadastrado(usuarios, NormalizarEmail(f.email)) then Fail(EmailExistente)
    else Pass
  }

  /** The account a successful registration stores: e-mail normalised, and a company profile exactly for PJ. */
  function NovoUsuario(f: FormularioCadastro): (u: Usuario)
    ensures u.nome == Trim(f.nome)
    ensures u.email == NormalizarEmail(f.email) && u.senha == f.senha && u.tipoConta == Some(f.tipoConta)
    ensures u.empresa.Some? <==> f.tipoConta == "PJ"
    ensures u.empresa.Some? ==> u.empresa.value == Empresa(Trim(f.nomeEmpresa), Trim(f.cnpj), f.tipoEmpresa)
  {
    Usuario(Trim(f.nome), NormalizarEmail(f.email), f.senha, Some(f.tipoConta),
            if f.tipoConta == "PJ" then Some(Empresa(Trim(f.nomeEmpresa), Trim(f.cnpj), f.tipoEmpresa)) else None)
  }

  /** Two accounts whose e-mails differ, the relation that all stored pairs satisfy. */
  function EmailsDistintos(a: Usuario, b: Usuario): bool
  {
    a.email != b.email
  }

  /**
   * Registering two accounts whose e-mails differ only in case or in
   * surrounding blanks: the second is refused as a duplicate.
   */
  lemma DuplicataIgnoraCaixa(usuarios: seq<Usuario>, primeiro: FormularioCadastro, segundo: FormularioCadastro)
    requires ValidarCadastro(primeiro, usuarios).Pass?
    requires FormularioValido(segundo)
    requires NormalizarEmail(segundo.email) == NormalizarEmail(primeiro.email)
    ensures ValidarCadastro(segundo, usuarios + [NovoUsuario(primeiro)]) == Fail(EmailExistente)
  {
    var s := usuarios + [NovoUsuario(primeiro)];
    assert s[|usuarios|].email == NormalizarEmail(segundo.email);
  }

  // ---------------------------------------------------------------- login and session

  /** The position of the first stored account with this e-mail, the one the search loops stop at. */
  function PrimeiroComEmail(usuarios: seq<Usuario>, email: string): (r: Option<nat>)
    ensures r.None? <==> !EmailCadastrado(usuarios, email)
    ensures r.Some? ==> r.value < |usuarios| && usuarios[r.value].email == email
    ensures r.Some? ==> forall j :: 0 <= j < r.value ==> usuarios[j].email != email
  {
    if usuarios == [] then None
    else if usuarios[0].email == email then Some(0)
    else
      var rest := PrimeiroComEmail(usuarios[1..], email);
      assert forall j :: 1 <= j < |usuarios| ==> usuarios[j] == usuarios[1..][j - 1];
      if rest.None? then None else Some(rest.value + 1)
  }

  /**
   * The decision of `fazerLogin`. Blank fields are refused first; after that
   * the only refusal is the single "e-mail or password incorrect" value,
   * whether no account has the e-mail or the password differs. On success the
   * account is the first one with the e-mail, and its password matches.
   */
  function Autenticar(usuarios: seq<Usuario>, emailDigitado: string, senha: string): (r: Result<Usuario, ErroLogin>)
    ensures NormalizarEmail(emailDigitado) == [] || senha == [] ==> r == Err(CamposVazios)
    ensures NormalizarEmail(emailDigitado) != [] && senha != [] && r.Err? ==> r.error == CredenciaisInvalidas
    ensures r.Ok? <==>
      NormalizarEmail(emailDigitado) != [] && senha != [] &&
      PrimeiroComEmail(usuarios, NormalizarEmail(emailDigitado)).Some? &&
      usuarios[PrimeiroComEmail(usuarios, NormalizarEmail(emailDigitado)).value].senha == senha
    ensures r.Ok? ==> r.value == usuarios[PrimeiroComEmail(usuarios, NormalizarEmail(emailDigitado)).value]
  {
    var email := NormalizarEmail(emailDigitado);
    if email == [] || senha == [] then Err(CamposVazios)
    else
      var achado := PrimeiroComEmail(usuarios, email);
      if achado.None? then Err(CredenciaisInvalidas)
      else if usuarios[achado.value].senha != senha then Err(CredenciaisInvalidas)
      else Ok(usuarios[achado.value])
  }

  /** An unknown e-mail and a known e-mail with the wrong password are refused with the same value. */
  lemma LoginNaoRevelaEmail(usuarios: seq<Usuario>, desconhecido: string, senha1: string, conhecido: string, senha2: string)
    requires NormalizarEmail(desconhecido) != [] && NormalizarEmail(conhecido) != []
    requires senha1 != [] && senha2 != []
    requires !EmailCadastrado(usuarios, NormalizarEmail(desconhecido))
    requires EmailCadastrado(usuarios, NormalizarEmail(conhecido))
    requires usuarios[PrimeiroComEmail(usuarios, NormalizarEmail(conhecido)).value].senha != senha2
    ensures Autenticar(usuarios, desconhecido, senha1) == Autenticar(usuarios, conhecido, senha2) == Err(CredenciaisInvalidas)
  {
    assert !Autenticar(usuarios, desconhecido, senha1).Ok?;
    assert !Autenticar(usuarios, conhecido, senha2).Ok?;
  }

  /**
   * Registration then login: after a successful registration, logging in
   * with the same password and the e-mail typed in any case finds the new account.
   */
  lemma CadastroPermiteLogin(usuarios: seq<Usuario>, f: FormularioCadastro, emailDigitado: string)
    requires ValidarCadastro(f, usuarios).Pass?
    requires NormalizarEmail(emailDigitado) == NormalizarEmail(f.email)
    ensures Autenticar(usuarios + [NovoUsuario(f)], emailDigitado, f.senha) == Ok(NovoUsuario(f))
  {
    var email := NormalizarEmail(emailDigitado);
    assert FormularioValido(f) && !EmailCadastrado(usuarios, email);
    assert email != [] && f.senha != [];
    PrimeiroAposAcrescentar(usuarios, NovoUsuario(f));
  }

  /** An account appended with an e-mail no earlier account has is the first match for that e-mail. */
  lemma PrimeiroAposAcrescentar(usuarios: seq<Usuario>, novo: Usuario)
    requires !EmailCadastrado(usuarios, novo.email)
    ensures PrimeiroComEmail(usuarios + [novo], novo.email) == Some(|usuarios|)
  {
    var s := usuarios + [novo];
    assert forall j :: 0 <= j < |usuarios| ==> s[j] == usuarios[j];
    assert s[|usuarios|] == novo;
    assert EmailCadastrado(s, novo.email);
  }

  /** `tipoConta || 'PJ'`: a missing or empty account type reads as PJ. */
  function TipoContaOuPJ(tipo: Option<string>): string
  {
    if tipo.Some? && tipo.value != [] then tipo.value else "PJ"
  }

  /**
   * `criarSessao`: the session copies the name, the e-mail and the company
   * profile, never the password, and always has an account type, PJ when the
   * account had none.
   */
  function CriarSessao(u: Usuario): (s: Sessao)
    ensures s.nome == u.nome && s.email == u.email && s.empresa == u.empresa
    ensures s.tipoConta.Some? && s.tipoConta.value != []
    ensures s.tipoConta == Some("PF") <==> u.tipoConta == Some("PF")
    ensures u.tipoConta.Some? && u.tipoConta.value != [] ==> s.tipoConta == u.tipoConta
    ensures u.tipoConta.None? || u.tipoConta == Some("") ==> s.tipoConta == Some("PJ")
  {
    Sessao(u.nome, u.email, Some(TipoContaOuPJ(u.tipoConta)), u.empresa)
  }

  /** The accounts kept by the browser and the session of whoever is logged in. */
  class Contas {
    var usuarios: seq<Usuario>
    var sessao: Option<Sessao>

    /** No two stored accounts share an e-mail, as registration refuses duplicates. */
    ghost predicate Valid()
      reads this
    {
      Pairwise(usuarios, EmailsDistintos)
    }

    /** The page's start: the accounts and the session as loaded from storage. */
    constructor (salvos: seq<Usuario>, sessaoSalva: Option<Sessao>)
      ensures usuarios == salvos && sessao == sessaoSalva
    {
      usuarios := salvos;
      sessao := sessaoSalva;
    }

    /** The search loop both forms run over the accounts: the first position with the e-mail, if any. */
    method BuscarPorEmail(email: string) returns (r: Option<nat>)
      ensures r == PrimeiroComEmail(usuarios, email)
    {
      r := None;
      var i := 0;
      while i < |usuarios|
        invariant 0 <= i <= |usuarios|
        invariant forall j :: 0 <= j < i ==> usuarios[j].email != email
      {
        if usuarios[i].email == email {
          r := Some(i);
          break;
        }
        i := i + 1;
      }
    }

    /**
     * `cadastrarUsuario`: runs the validation chain; on success appends the
     * new account at the end and keeps every e-mail distinct; on any refusal
     * the account list is as it was.
     */
    method CadastrarUsuario(f: FormularioCadastro) returns (r: Outcome<ErroCadastro>)
      modifies this`usuarios
      ensures r == ValidarCadastro(f, old(usuarios))
      ensures usuarios == if r.Pass? then old(usuarios) + [NovoUsuario(f)] else old(usuarios)
      ensures old(Valid()) ==> Valid()
    {
      var nome := Trim(f.nome);
      var email := NormalizarEmail(f.email);
      if nome == [] || email == [] || f.senha == [] || f.confirmar == [] {
        return Fail(CamposPessoais);
      }
      if |f.senha| < 4 {
        return Fail(SenhaCurta);
      }
      if f.senha != f.confirmar {
        return Fail(SenhasDiferentes);
      }
      if f.tipoConta == "PJ" {
        if Trim(f.nomeEmpresa) == [] || Trim(f.cnpj) == [] || f.tipoEmpresa == [] {
          return Fail(CamposEmpresa);
        }
        if !ValidarCnpjSimples(Trim(f.cnpj)) {
          return Fail(CnpjInvalido);
        }
      }
      var existente := BuscarPorEmail(email);
      if existente.Some? {
        return Fail(EmailExistente);
      }
      var novo := NovoUsuario(f);
      if Valid() {
        forall y | y in usuarios ensures EmailsDistintos(y, novo) {
          var k :| 0 <= k < |usuarios| && usuarios[k] == y;
        }
        PairwiseAppend(usuarios, novo, EmailsDistintos);
      }
      usuarios := usuarios + [novo];
      r := Pass;
    }

    /**
     * `fazerLogin`: on success the session is made from the first account with
     * the e-mail; on any refusal the session is left as it was.
     */
    method FazerLogin(emailDigitado: string, senha: string) returns (r: Outcome<ErroLogin>)
      modifies this`sessao
      ensures var a := Autenticar(usuarios, emailDigitado, senha);
        (r.Pass? <==> a.Ok?) && (a.Err? ==> r == Fail(a.error)) &&
        sessao == if a.Ok? then Some(CriarSessao(a.value)) else old(sessao)
    {
      var email := NormalizarEmail(emailDigitado);
      if email == [] || senha == [] {
        return Fail(CamposVazios);
      }
      var achado := BuscarPorEmail(email);
      if achado.None? {
        return Fail(CredenciaisInvalidas);
      }
      var u := usuarios[achado.value];
      if u.senha != senha {
        return Fail(CredenciaisInvalidas);
      }
      sessao := Some(CriarSessao(u));
      r := Pass;
    }

    /** `fazerLogout`: a confirmed logout removes the session; otherwise nothing changes. */
    method FazerLogout(confirmado: bool)
      modifies this`sessao
      ensures sessao == if confirmado then None else old(sessao)
    {
      if !confirmado {
        return;
      }
      sessao := None;
    }
  }
}
