/**
 * The employees page of a company account: the job titles (`cargos`), the
 * employees (`funcionarios`), the MEI cap of one employee, and the CPF
 * (Brazilian personal tax id) mask of the employee form.
 */
module Funcionarios {
  import opened Outcomes
  import opened Seqs
  import opened Texto
  import opened Auth

  /** A job title. Employees copy its name; they do not refer to its id. */
  datatype Cargo = Cargo(id: string, nome: string)

  /** An employee. `cpf` is the field as typed (trimmed), mask included; `data` is the creation time. */
  datatype Funcionario = Funcionario(id: string, nome: string, cpf: string, cargo: string, vinculo: string, salario: real, data: string)

  /** The fields of the employee form; `salario` is None when `parseFloat` gave NaN. */
  datatype FormularioFuncionario = FormularioFuncionario(nome: string, cpf: string, cargo: string, vinculo: string, salario: Option<real>)

  /** Why a job title was not added: a blank name is ignored, a repeated one is refused. */
  datatype ErroCargo = NomeVazio | CargoExistente

  /** Why an employee was not added, one value per alert of the form. */
  datatype ErroFuncionario = LimiteMEI | CamposIncompletos | CpfInvalido

  /** The company category whose employee count is capped at one. */
  const Mei: string := "MEI"

  // ---------------------------------------------------------------- job titles

  /** Two titles whose names differ even ignoring case, the relation all stored pairs satisfy. */
  function NomesDistintos(a: Cargo, b: Cargo): bool
  {
    ToLower(a.nome) != ToLower(b.nome)
  }

  /** Some stored title has this name, ignoring case. */
  predicate CargoCadastrado(cargos: seq<Cargo>, nome: string)
  {
    exists i :: 0 <= i < |cargos| && ToLower(cargos[i].nome) == ToLower(nome)
  }

  /**
   * The checks of `adicionarCargo`: a title is added exactly when its
   * trimmed name is not blank and no stored title has it, ignoring case.
   */
  function ValidarCargo(cargos: seq<Cargo>, nomeDigitado: string): (r: Outcome<ErroCargo>)
    ensures r.Pass? <==> Trim(nomeDigitado) != [] && !CargoCadastrado(cargos, Trim(nomeDigitado))
    ensures r == Fail(NomeVazio) <==> Trim(nomeDigitado) == []
  {
    var nome := Trim(nomeDigitado);
    if nome == [] then Fail(NomeVazio)
    else if CargoCadastrado(cargos, nome) then Fail(CargoExistente)
    else Pass
  }

  /** The `cargo.id !== id` test of `removerCargo` as a predicate for `Filter`. */
  function OutroCargo(id: string): Cargo -> bool
  {
    (c: Cargo) => c.id != id
  }

  /**
   * The titles `removerCargo` leaves: every title with the id is dropped, the
   * others keep their order, and an absent id changes nothing.
   */
  function SemCargo(cargos: seq<Cargo>, id: string): (r: seq<Cargo>)
    ensures Subsequence(r, cargos)
    ensures forall x :: multiset(r)[x] == if x.id == id then 0 else multiset(cargos)[x]
    ensures (forall c :: c in cargos ==> c.id != id) ==> r == cargos
  {
    FilterSubsequence(cargos, OutroCargo(id));
    FilterCount(cargos, OutroCargo(id));
    FilterIdentity(cargos, OutroCargo(id));
    Filter(cargos, OutroCargo(id))
  }

  /** Adding a title that passed the checks keeps all title names distinct ignoring case. */
  lemma CargoNovoMantemNomesDistintos(cargos: seq<Cargo>, nomeDigitado: string, id: string)
    requires Pairwise(cargos, NomesDistintos)
    requires ValidarCargo(cargos, nomeDigitado).Pass?
    ensures Pairwise(cargos + [Cargo(id, Trim(nomeDigitado))], NomesDistintos)
  {
    var novo := Cargo(id, Trim(nomeDigitado));
    forall y | y in cargos ensures NomesDistintos(y, novo) {
      var k :| 0 <= k < |cargos| && cargos[k] == y;
    }
    PairwiseAppend(cargos, novo, NomesDistintos);
  }

  /** Removing titles keeps the remaining names distinct ignoring case. */
  lemma SemCargoMantemNomesDistintos(cargos: seq<Cargo>, id: string)
    requires Pairwise(cargos, NomesDistintos)
    ensures Pairwise(SemCargo(cargos, id), NomesDistintos)
  {
    FilterPairwise(cargos, OutroCargo(id), NomesDistintos);
  }

  // ---------------------------------------------------------------- employees

  /** `verificarLimiteMEI`: the cap is reached when the company is an MEI that already has an employee. */
  function VerificarLimiteMEI(empresa: Option<Empresa>, funcionarios: seq<Funcionario>): (r: bool)
    ensures r <==> empresa.Some? && empresa.value.tipo == Mei && |funcionarios| >= 1
  {
    if empresa.None? then false
    else empresa.value.tipo == Mei && |funcionarios| >= 1
  }

  /** Every field of the employee form is filled and the salary is a positive number. */
  predicate CamposFuncionarioPreenchidos(f: FormularioFuncionario)
  {
    Trim(f.nome) != [] && Trim(f.cpf) != [] && f.cargo != [] && f.vinculo != [] &&
    f.salario.Some? && f.salario.value > 0.0
  }

  /**
   * The checks of `adicionarFuncionario`, in their order: the MEI cap decides
   * before any field is looked at; then the fields; then the CPF must hold
   * exactly 11 digits.
   */
  function ValidarFuncionario(empresa: Option<Empresa>, funcionarios: seq<Funcionario>, f: FormularioFuncionario)
    : (r: Outcome<ErroFuncionario>)
    ensures r == Fail(LimiteMEI) <==> VerificarLimiteMEI(empresa, funcionarios)
    ensures r == Fail(CamposIncompletos) <==> !VerificarLimiteMEI(empresa, funcionarios) && !CamposFuncionarioPreenchidos(f)
    ensures r.Pass? <==>
      !VerificarLimiteMEI(empresa, funcionarios) && CamposFuncionarioPreenchidos(f) && Count(Trim(f.cpf), IsDigit) == 11
    ensures r == Fail(CpfInvalido) <==>
      !VerificarLimiteMEI(empresa, funcionarios) && CamposFuncionarioPreenchidos(f) && Count(Trim(f.cpf), IsDigit) != 11
  {
    FilterLength(Trim(f.cpf), IsDigit);
    if VerificarLimiteMEI(empresa, funcionarios) then Fail(LimiteMEI)
    else if !CamposFuncionarioPreenchidos(f) then Fail(CamposIncompletos)
    else if |Digits(Trim(f.cpf))| != 11 then Fail(CpfInvalido)
    else Pass
  }

  /** The record a successful `adicionarFuncionario` stores. */
  function NovoFuncionario(f: FormularioFuncionario, id: string, data: string): (n: Funcionario)
    requires f.salario.Some?
    ensures n.id == id && n.salario == f.salario.value && n.nome == Trim(f.nome) && n.cpf == Trim(f.cpf)
    ensures n.cargo == f.cargo && n.vinculo == f.vinculo && n.data == data
  {
    Funcionario(id, Trim(f.nome), Trim(f.cpf), f.cargo, f.vinculo, f.salario.value, data)
  }

  /** The `func.id !== id` test of `removerFuncionario` as a predicate for `Filter`. */
  function OutroFuncionario(id: string): Funcionario -> bool
  {
    (x: Funcionario) => x.id != id
  }

  /**
   * The employees `removerFuncionario` leaves: every record with the id is
   * dropped, the others keep their order, and an absent id changes nothing.
   */
  function SemFuncionario(funcionarios: seq<Funcionario>, id: string): (r: seq<Funcionario>)
    ensures Subsequence(r, funcionarios)
    ensures forall x :: multiset(r)[x] == if x.id == id then 0 else multiset(funcionarios)[x]
    ensures (forall x :: x in funcionarios ==> x.id != id) ==> r == funcionarios
  {
    FilterSubsequence(funcionarios, OutroFuncionario(id));
    FilterCount(funcionarios, OutroFuncionario(id));
    FilterIdentity(funcionarios, OutroFuncionario(id));
    Filter(funcionarios, OutroFuncionario(id))
  }

  /** An MEI company never gets past one employee by adding: with at most one before, there is at most one after. */
  lemma LimiteMEIPreservado(empresa: Option<Empresa>, funcionarios: seq<Funcionario>, f: FormularioFuncionario, id: string, data: string)
    requires empresa.Some? && empresa.value.tipo == Mei && |funcionarios| <= 1
    ensures ValidarFuncionario(empresa, funcionarios, f).Pass? ==> |funcionarios + [NovoFuncionario(f, id, data)]| <= 1
  {
  }

  /** The cap decides even for a form that would otherwise be accepted in full. */
  lemma LimiteMEIAntesDosCampos(empresa: Option<Empresa>, funcionarios: seq<Funcionario>, f: FormularioFuncionario)
    requires empresa.Some? && empresa.value.tipo == Mei && |funcionarios| == 1
    ensures ValidarFuncionario(empresa, funcionarios, f) == Fail(LimiteMEI)
    ensures ValidarFuncionario(empresa, [], f).Pass? <==> CamposFuncionarioPreenchidos(f) && Count(Trim(f.cpf), IsDigit) == 11
  {
  }

  // ---------------------------------------------------------------- CPF mask

  /** The progressive mask `000.000.000-00` that `formatarCpf` applies to at most 11 digits. */
  function MascaraCpf(v: string): string
    requires |v| <= 11
  {
    if |v| > 9 then v[..3] + "." + v[3..6] + "." + v[6..9] + "-" + v[9..]
    else if |v| > 6 then v[..3] + "." + v[3..6] + "." + v[6..]
    else if |v| > 3 then v[..3] + "." + v[3..]
    else v
  }

  /** `formatarCpf`: keep the first 11 digits of the field and mask them; the result never exceeds 14 characters. */
  function FormatarCpf(entrada: string): (r: string)
    ensures |r| <= 14
  {
    MascaraCpf(Take(Digits(entrada), 11))
  }

  /** The mask only inserts separators: stripping them gives back the digits. */
  lemma MascaraCpfDigitos(v: string)
    requires |v| <= 11
    requires forall k :: 0 <= k < |v| ==> IsDigit(v[k])
    ensures Digits(MascaraCpf(v)) == v
  {
    if |v| <= 3 {
      DigitsOfDigits(v);
    } else {
      var a := v[..3];
      DigitsOfDigits(a);
      if |v| <= 6 {
        DigitsSeparated(a, '.', v[3..]);
        assert a + v[3..] == v;
      } else {
        var b := a + "." + v[3..6];
        DigitsSeparated(a, '.', v[3..6]);
        assert Digits(b) == v[..6];
        if |v| <= 9 {
          DigitsSeparated(b, '.', v[6..]);
          assert v[..6] + v[6..] == v;
        } else {
          var c := b + "." + v[6..9];
          DigitsSeparated(b, '.', v[6..9]);
          assert v[..6] + v[6..9] == v[..9];
          DigitsSeparated(c, '-', v[9..]);
          assert v[..9] + v[9..] == v;
        }
      }
    }
  }

  /** Round trip: the digits of the masked field are the first (at most 11) digits that were typed. */
  lemma FormatarCpfDigitos(entrada: string)
    ensures Digits(FormatarCpf(entrada)) == Take(Digits(entrada), 11)
  {
    MascaraCpfDigitos(Take(Digits(entrada), 11));
  }

  /** Masking an already masked field changes nothing, so the mask can run on every keystroke. */
  lemma FormatarCpfIdempotente(entrada: string)
    ensures FormatarCpf(FormatarCpf(entrada)) == FormatarCpf(entrada)
  {
    FormatarCpfDigitos(entrada);
  }

  /**
   * With 11 or more digits typed the field reads `000.000.000-00`: 14
   * characters, separators in their places, digits everywhere else; and it
   * then has the 11 digits the employee check asks for.
   */
  lemma FormatarCpfCompleto(entrada: string)
    ensures Count(FormatarCpf(entrada), IsDigit) == 11 <==> |Digits(entrada)| >= 11
    ensures |Digits(entrada)| >= 11 ==>
      var r := FormatarCpf(entrada);
      |r| == 14 && r[3] == '.' && r[7] == '.' && r[11] == '-' &&
      forall k :: 0 <= k < 14 && k !in {3, 7, 11} ==> IsDigit(r[k])
  {
    FormatarCpfDigitos(entrada);
    FilterLength(FormatarCpf(entrada), IsDigit);
  }

  // ---------------------------------------------------------------- page state

  /** The employees page's state for the logged-in account. */
  class Equipe {
    var cargos: seq<Cargo>
    var funcionarios: seq<Funcionario>

    /** No two titles have names equal ignoring case, as `adicionarCargo` refuses such a name. */
    ghost predicate Valid()
      reads this
    {
      Pairwise(cargos, NomesDistintos)
    }

    /** The page's start: titles and employees as loaded from the account's storage keys. */
    constructor (cargosSalvos: seq<Cargo>, funcionariosSalvos: seq<Funcionario>)
      ensures cargos == cargosSalvos && funcionarios == funcionariosSalvos
    {
      cargos := cargosSalvos;
      funcionarios := funcionariosSalvos;
    }

    /** The duplicate-title loop of `adicionarCargo`: does a stored title have this name, ignoring case? */
    method CargoExiste(nome: string) returns (existe: bool)
      ensures existe <==> CargoCadastrado(cargos, nome)
    {
      existe := false;
      var alvo := ToLower(nome);
      var i := 0;
      while i < |cargos|
        invariant 0 <= i <= |cargos|
        invariant forall j :: 0 <= j < i ==> ToLower(cargos[j].nome) != alvo
      {
        if ToLower(cargos[i].nome) == alvo {
          existe := true;
          break;
        }
        i := i + 1;
      }
    }

    /**
     * `adicionarCargo`: a blank or repeated name leaves the titles as they
     * were; otherwise the new title is appended at the end.
     */
    method AdicionarCargo(nomeDigitado: string, id: string) returns (r: Outcome<ErroCargo>)
      requires forall c :: c in cargos ==> c.id != id
      modifies this`cargos
      ensures r == ValidarCargo(old(cargos), nomeDigitado)
      ensures cargos == if r.Pass? then old(cargos) + [Cargo(id, Trim(nomeDigitado))] else old(cargos)
      ensures old(Valid()) ==> Valid()
    {
      var nome := Trim(nomeDigitado);
      if nome == [] {
        return Fail(NomeVazio);
      }
      var existe := CargoExiste(nome);
      if existe {
        return Fail(CargoExistente);
      }
      if Valid() {
        CargoNovoMantemNomesDistintos(cargos, nomeDigitado, id);
      }
      cargos := cargos + [Cargo(id, nome)];
      r := Pass;
    }

    /** `removerCargo`: drops the title with the id; employees that copied its name are untouched. */
    method RemoverCargo(id: string)
      modifies this`cargos
      ensures cargos == SemCargo(old(cargos), id)
      ensures funcionarios == old(funcionarios)
      ensures old(Valid()) ==> Valid()
    {
      if Valid() {
        SemCargoMantemNomesDistintos(cargos, id);
      }
      cargos := SemCargo(cargos, id);
    }

    /**
     * `adicionarFuncionario`: runs the checks with the company profile loaded
     * for the session; a refusal leaves the employees as they were, success
     * appends exactly one record at the end, and an MEI company keeps at most
     * one employee.
     */
    method AdicionarFuncionario(empresa: Option<Empresa>, f: FormularioFuncionario, id: string, data: string)
      returns (r: Outcome<ErroFuncionario>)
      requires forall x :: x in funcionarios ==> x.id != id
      modifies this`funcionarios
      ensures r == ValidarFuncionario(empresa, old(funcionarios), f)
      ensures funcionarios == if r.Pass? then old(funcionarios) + [NovoFuncionario(f, id, data)] else old(funcionarios)
      ensures empresa.Some? && empresa.value.tipo == Mei && old(|funcionarios|) <= 1 ==> |funcionarios| <= 1
      ensures cargos == old(cargos)
    {
      r := ValidarFuncionario(empresa, funcionarios, f);
      if r.Pass? {
        funcionarios := funcionarios + [NovoFuncionario(f, id, data)];
      }
    }

    /** `removerFuncionario`: without confirmation nothing changes; with it the record with the id goes. */
    method RemoverFuncionario(id: string, confirmado: bool)
      modifies this`funcionarios
      ensures funcionarios == if confirmado then SemFuncionario(old(funcionarios), id) else old(funcionarios)
      ensures cargos == old(cargos)
    {
      if !confirmado {
        return;
      }
      funcionarios := SemFuncionario(funcionarios, id);
    }
  }
}
