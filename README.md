# Controle de finanças — verified model of the bookkeeping core

This project models the bookkeeping layer of a small client-side finance
tracker, written in Dafny and checked by Dafny's verifier. The tracker has
four parts:

- **Ledger** (`financeiro.js`). A list of income (`entrada`) and expense
  entries, most recent first. Entries are added with validation, removed by
  id or cleared with confirmation, filtered by kind, and summed into income,
  expense and balance totals.
- **Account store** (`auth.js`). Registration runs an ordered validation
  chain that ends in a duplicate check on the trimmed, lower-cased e-mail.
  Login is a first-match lookup whose two refusals look the same. Login then
  creates a session, and a missing account type means PJ. The CNPJ
  (company tax id) validator and its progressive input mask are also modelled.
- **Roster** (`funcionarios.js`). Job titles are unique ignoring case.
  Employees are checked against the MEI cap of one employee before any field
  is validated, then for required fields and an 11-digit CPF (personal tax
  id). The progressive CPF mask is also modelled.
- **Access policy** (`shared.js`). What pages derive from the session: the
  account type (PF, a person, or PJ, a company), the PF gate of the
  employees page, the e-mail that scopes per-account storage, and the
  company profile.

Modules:

- `Outcomes` (`outcomes.dfy`): the Option, Result and Outcome types.
- `Seqs` (`seqs.dfy`): `Array.prototype.filter` as `Filter`, with
  order-preservation, multiplicity and pairwise-invariant facts.
- `Texto` (`texto.dfy`): the string primitives the source uses. These are
  ECMAScript `trim`, ASCII `toLowerCase`, `replace(/\D/g, '')` and `substring(0, n)`.
- `Financeiro` (`financeiro.dfy`): the ledger.
- `Auth` (`auth.dfy`): the account store.
- `Funcionarios` (`funcionarios.dfy`): the roster.
- `Shared` (`shared.dfy`): the access policy.

**How the source's state is modelled**

- Each mutable module-level store becomes a class with `seq` fields:
  - `transacoes` is in `Livro`;
  - the user list and the session are in `Contas`;
  - `cargos` and `funcionarios` are in `Equipe`;
  - `dadosEmpresa` is in `Compartilhado`.
- Each page operation is a method whose `ensures` gives the new state in
  terms of the old one.
- The search loops are methods proved equal to specification functions:
  - the login and duplicate-e-mail loops, in `Contas.BuscarPorEmail`;
  - the duplicate-title loop, in `Equipe.CargoExiste`;
  - the summary accumulator loop, in `Livro.CalcularResumo`.

**Inputs from the browser.** Things the source gets from the browser become
parameters of the model:

- the answer to `confirm()` is a `bool`;
- the fresh id from `gerarId()` and the timestamp from `new Date()` are
  strings, and each add requires that the id is not already stored;
- the result of `parseFloat` is an `Option<real>`, where `None` stands for NaN;
- the session and the company profile are values.

## Model

| member | source | states |
|---|---|---|
| Seqs.Filter | controle_de_financas/financeiro.js:180-182 | the filter returns no more elements than it was given, and an element is in the result exactly when it is in the input and passes the test |
| Seqs.FilterSubsequence | controle_de_financas/financeiro.js:180-182 | the elements a filter keeps appear in the order they had |
| Seqs.FilterCount | controle_de_financas/funcionarios.js:111-113 | a filter keeps every copy of an element that passes and no copy of one that fails |
| Seqs.FilterIdentity | controle_de_financas/funcionarios.js:288-290 | a filter that every element passes returns its input unchanged |
| Seqs.FilterNone | controle_de_financas/financeiro.js:241-243 | a filter that no element passes returns the empty list |
| Seqs.FilterAppend | controle_de_financas/financeiro.js:241-243 | filtering a concatenation is the concatenation of the filtered parts |
| Seqs.FilterLength | controle_de_financas/auth.js:157-158 | the length of a filter's result is the number of elements that pass, which turns "count of digits" into "length of the digit string" |
| Seqs.FilterPairwise | controle_de_financas/funcionarios.js:111-113 | a relation that holds between every pair of a list still holds after filtering it |
| Seqs.PairwiseAppend | controle_de_financas/auth.js:298 | appending an element related to every earlier one keeps a pairwise relation |
| Texto.TrimStart | controle_de_financas/financeiro.js:145 | removes exactly the leading whitespace (the ECMAScript WhiteSpace and LineTerminator characters); the result is a suffix of the input |
| Texto.TrimEnd | controle_de_financas/financeiro.js:145 | removes exactly the trailing whitespace; the result is a prefix of the input |
| Texto.Trim | controle_de_financas/financeiro.js:145 | the result is the slice of the input that has only whitespace before and after it; it is empty exactly when the input is all whitespace, and otherwise starts and ends with a character that is not whitespace |
| Texto.ToLower | controle_de_financas/auth.js:224 | keeps the length; every ASCII capital becomes its lower-case letter, every other character stays, and no capital is left |
| Texto.Digits | controle_de_financas/auth.js:157 | `replace(/\D/g, '')` leaves only digit characters |
| Texto.Take | controle_de_financas/auth.js:136 | `substring(0, n)` is the prefix of length min(n, length) |
| Texto.DigitsJoin | controle_de_financas/auth.js:139-147 | stripping non-digits from two pieces joined by a separator that is not a digit gives the two digit strings joined |
| Texto.DigitsOfDigits | controle_de_financas/auth.js:135 | stripping non-digits from a digit string changes nothing |
| Texto.DigitsSeparated | controle_de_financas/auth.js:139-147 | a non-digit separator followed by digits contributes exactly those digits |
| Financeiro.ObterTransacoesFiltradas | controle_de_financas/financeiro.js:236-244 | "todas" returns the list unchanged; any other filter returns a subsequence holding exactly the entries of that kind, with every copy of them |
| Financeiro.SemTransacao | controle_de_financas/financeiro.js:180-182 | every entry with the id is dropped, every other entry is kept with its multiplicity and order, and an absent id changes nothing |
| Financeiro.SomaAppend | controle_de_financas/financeiro.js:216-222 | the sum of all amounts adds up over a concatenation |
| Financeiro.TotaisSomam | controle_de_financas/financeiro.js:216-222 | every entry counts toward exactly one total, so income plus expense equals the sum of all amounts |
| Financeiro.EntradasSaoFiltro | controle_de_financas/financeiro.js:216-222 | the income total is the sum of the amounts the "entrada" filter shows |
| Financeiro.TotaisAposInserir | controle_de_financas/financeiro.js:161 | inserting at the head adds the amount to the total of its kind and leaves the other total unchanged |
| Financeiro.TotaisNaoNegativos | controle_de_financas/financeiro.js:149 | with only positive amounts stored, neither total is negative |
| Financeiro.RemoverDesfazInsercao | controle_de_financas/financeiro.js:175-182 | removing the fresh id of an entry just inserted restores the previous list |
| Financeiro.Livro.constructor | controle_de_financas/financeiro.js:63-66 | the ledger starts with the list loaded from storage |
| Financeiro.Livro.AdicionarTransacao | controle_de_financas/financeiro.js:142-168 | refused, with the list unchanged, exactly when the trimmed description is empty, the amount is NaN or the amount is ≤ 0; otherwise the new entry is at index 0 and the old entries follow in order; the totals move by the new amount; only positive amounts are ever stored |
| Financeiro.Livro.RemoverTransacao | controle_de_financas/financeiro.js:175-186 | declining confirmation changes nothing; confirming leaves exactly the filtered list; the positive-amounts invariant is kept |
| Financeiro.Livro.LimparTudo | controle_de_financas/financeiro.js:193-205 | an empty list stays empty; a confirmed request empties the list, and a declined one changes nothing |
| Financeiro.Livro.CalcularResumo | controle_de_financas/financeiro.js:212-229 | the loop's totals are the income and expense totals of the list, the balance is income minus expense, the two totals sum to all amounts, and with only positive amounts stored neither total is negative |
| Auth.ValidarCnpjSimples | controle_de_financas/auth.js:156-159 | true exactly when the text holds 14 digit characters |
| Auth.FormatarCnpj | controle_de_financas/auth.js:134-150 | the masked field is at most 18 characters |
| Auth.MascaraCnpjDigitos | controle_de_financas/auth.js:139-147 | the mask only inserts separators: stripping non-digits from the masked digit string gives it back |
| Auth.FormatarCnpjDigitos | controle_de_financas/auth.js:135-149 | round trip: the digits of the output are the first min(14, n) digits of the input |
| Auth.FormatarCnpjIdempotente | controle_de_financas/auth.js:134-150 | masking an already masked field changes nothing |
| Auth.FormatarCnpjCompleto | controle_de_financas/auth.js:134-159 | the validator accepts the masked field exactly when 14 or more digits were typed; then the field is `00.000.000/0000-00`, 18 characters with separators at positions 2, 6, 10 and 15 and digits everywhere else |
| Auth.ValidarCadastro | controle_de_financas/auth.js:229-279 | the chain in its order: each error is reported exactly when its own check is the first to fail (missing personal field, password under 4 characters, password differs from confirmation, then for PJ a missing company field or a CNPJ without 14 digits); a duplicate e-mail is reported exactly for an otherwise valid form; it passes exactly when the form is valid and the normalised e-mail is new |
| Auth.NovoUsuario | controle_de_financas/auth.js:282-296 | the stored account has the trimmed name, the normalised e-mail, the typed password and type, and a company profile (the trimmed company fields) exactly when its type is PJ |
| Auth.DuplicataIgnoraCaixa | controle_de_financas/auth.js:268-279 | after a registration, a valid form whose e-mail differs only in case or surrounding blanks is refused as a duplicate |
| Auth.PrimeiroComEmail | controle_de_financas/auth.js:346-351 | finds no account exactly when no account has the e-mail; otherwise an account with it, and no earlier one has it |
| Auth.Autenticar | controle_de_financas/auth.js:330-363 | blank fields are refused first; after that the only refusal is "invalid credentials"; success exactly when the first account with the normalised e-mail has the given password, and then it is that account |
| Auth.LoginNaoRevelaEmail | controle_de_financas/auth.js:353-363 | an unknown e-mail and a known e-mail with the wrong password give the same refusal |
| Auth.CadastroPermiteLogin | controle_de_financas/auth.js:282-351 | after a successful registration, logging in with the same password and the e-mail typed in any case returns the new account |
| Auth.PrimeiroAposAcrescentar | controle_de_financas/auth.js:346-351 | an account appended with an e-mail no earlier account has is the one the first-match search finds |
| Auth.CriarSessao | controle_de_financas/auth.js:113-124 | the session copies the name, e-mail and company profile and has no password; a present non-empty account type is copied, and a missing or empty one becomes PJ; so the type is never empty and is PF exactly when the account is PF |
| Auth.Contas.constructor | controle_de_financas/auth.js:97-100 | the store starts with the accounts and session loaded from storage |
| Auth.Contas.BuscarPorEmail | controle_de_financas/auth.js:346-351 | the search loop with early exit returns the first position holding the e-mail |
| Auth.Contas.CadastrarUsuario | controle_de_financas/auth.js:219-299 | the outcome is the validation chain's; on success exactly one account is appended at the end, and on refusal nothing changes; stored e-mails stay pairwise distinct |
| Auth.Contas.FazerLogin | controle_de_financas/auth.js:330-366 | succeeds exactly when authentication does, and then the session is the one created from the account found; a refusal reports the authentication error and leaves the session as it was |
| Auth.Contas.FazerLogout | controle_de_financas/shared.js:223-229 | a declined confirmation keeps the session; a confirmed one removes it |
| Funcionarios.ValidarCargo | controle_de_financas/funcionarios.js:75-90 | a title is accepted exactly when its trimmed name is non-empty and no stored title has it ignoring case; a blank name is the first refusal |
| Funcionarios.SemCargo | controle_de_financas/funcionarios.js:110-113 | every title with the id is dropped, every other one is kept in order, and an absent id changes nothing |
| Funcionarios.CargoNovoMantemNomesDistintos | controle_de_financas/funcionarios.js:78-97 | appending an accepted title keeps all title names distinct ignoring case |
| Funcionarios.SemCargoMantemNomesDistintos | controle_de_financas/funcionarios.js:110-113 | removing titles keeps the names distinct ignoring case |
| Funcionarios.VerificarLimiteMEI | controle_de_financas/funcionarios.js:163-170 | true exactly when a company profile exists, its category is MEI, and there is at least one employee |
| Funcionarios.ValidarFuncionario | controle_de_financas/funcionarios.js:234-257 | the checks in their order: the cap error exactly when the cap is reached; the missing-fields error exactly when the cap is not reached and a field is empty or the salary is NaN or ≤ 0; the CPF error exactly when only the 11-digit CPF check fails; it passes exactly when all checks pass |
| Funcionarios.NovoFuncionario | controle_de_financas/funcionarios.js:259-267 | the stored record has the id, the trimmed name and CPF, the chosen title name and employment type as given, the parsed salary and the creation time |
| Funcionarios.SemFuncionario | controle_de_financas/funcionarios.js:288-290 | every employee with the id is dropped, every other one is kept in order, and an absent id changes nothing |
| Funcionarios.LimiteMEIPreservado | controle_de_financas/funcionarios.js:235-269 | for an MEI company with at most one employee, an accepted add leaves at most one |
| Funcionarios.LimiteMEIAntesDosCampos | controle_de_financas/funcionarios.js:234-238 | with the cap reached, the add is refused for the cap whatever the form holds, including a form that would otherwise pass |
| Funcionarios.FormatarCpf | controle_de_financas/funcionarios.js:212-225 | the masked field is at most 14 characters |
| Funcionarios.MascaraCpfDigitos | controle_de_financas/funcionarios.js:216-222 | the mask only inserts separators: stripping non-digits from the masked digit string gives it back |
| Funcionarios.FormatarCpfDigitos | controle_de_financas/funcionarios.js:213-224 | round trip: the digits of the output are the first min(11, n) digits of the input |
| Funcionarios.FormatarCpfIdempotente | controle_de_financas/funcionarios.js:212-225 | masking an already masked field changes nothing |
| Funcionarios.FormatarCpfCompleto | controle_de_financas/funcionarios.js:212-225 | the output has 11 digits exactly when 11 or more were typed, which is what the employee check demands; then the field is `000.000.000-00` |
| Funcionarios.Equipe.constructor | controle_de_financas/funcionarios.js:47-64 | the page starts with the titles and employees loaded from storage |
| Funcionarios.Equipe.CargoExiste | controle_de_financas/funcionarios.js:79-85 | the loop reports a duplicate exactly when a stored title has the name ignoring case |
| Funcionarios.Equipe.AdicionarCargo | controle_de_financas/funcionarios.js:72-97 | the outcome is the title check's; on success the title is appended at the end, and otherwise nothing changes; names stay distinct ignoring case |
| Funcionarios.Equipe.RemoverCargo | controle_de_financas/funcionarios.js:110-118 | titles become the filtered list, employees are untouched, and names stay distinct |
| Funcionarios.Equipe.AdicionarFuncionario | controle_de_financas/funcionarios.js:231-269 | the outcome is the employee check's; on success exactly one record is appended at the end, and otherwise nothing changes; an MEI company keeps at most one employee; titles are untouched |
| Funcionarios.Equipe.RemoverFuncionario | controle_de_financas/funcionarios.js:283-290 | declining confirmation changes nothing; confirming leaves exactly the filtered list; titles are untouched |
| Shared.ObterTipoConta | controle_de_financas/shared.js:46-53 | the session's account type when present and non-empty; PJ when it is absent or empty, or when there is no session; never empty |
| Shared.EhPessoaFisica | controle_de_financas/shared.js:58-60 | true exactly when there is a session whose type is PF, so a session with no type is never PF |
| Shared.BloquearAcessoPF | controle_de_financas/shared.js:96-100 | redirects exactly when the session's type is PF; everyone else stays |
| Shared.ObterEmailUsuario | controle_de_financas/shared.js:125-131 | the session's e-mail, or the empty string with no session |
| Shared.SessaoDoLogin | controle_de_financas/auth.js:113-126 | after a login, the session is PF exactly when the account is PF, and the storage e-mail is the one typed at login, normalised |
| Shared.CadastroDefineAcesso | controle_de_financas/shared.js:96-100 | a new account can log in; it is kept out of the employees page exactly when it registered as PF, and its session has a company profile exactly when it registered as PJ |
| Shared.Compartilhado.constructor | controle_de_financas/shared.js:38 | there is no company profile before loading |
| Shared.Compartilhado.CarregarEmpresa | controle_de_financas/shared.js:188-194 | with a session, the profile becomes the session's company, or none if it has none; with no session it is left as it was |

## Left out

- Rendering and view glue are not modelled. This covers the DOM: lists,
  chips, selects, counters, the MEI banner, and the disabled or hidden
  toggles. It also covers the tab and account-type toggles of the login page.
- The employee select of the ledger form is not modelled. It only fills in
  the form's fields.
- localStorage and JSON are not modelled. Each store is an in-memory `seq`,
  and the per-account storage keys are not modelled. Loading appears only as
  the constructors' parameters.
- Session persistence is not modelled. `criarSessao` writes the session to
  storage, and `Contas.FazerLogin` assigns it to a field.
- `confirm()` is not modelled; its answer is a `bool` parameter.
- `alert()`, the status messages, `setTimeout` and `window.location`
  redirects are not modelled. Each refusal is an error value, and
  `bloquearAcessoPF` returns a `Destino`.
- The route guards `verificarAutenticacao` (shared.js) and `verificarSessao`
  (auth.js) are left out. They are redirects that run on page load.
- `aplicarControleAcesso` is left out. It only hides navigation elements.
- `gerarId`, `new Date()`, `formatarMoeda`, `formatarDataHora` and
  `escapeHTML` are left out. They are nondeterministic or foreign library
  calls. Ids and timestamps are parameters, and each add requires the id to
  be fresh.
- The canvas donut chart and its percentages are left out. They are float
  rendering.
- The theme preference and its event are left out.
- `parseFloat` and JavaScript float arithmetic are not modelled. Amounts and
  salaries are exact `real`s, and `None` stands for NaN. Float rounding in the
  summary is not captured, and neither is an `Infinity` amount, which the
  source would accept.
- `filtroAtual` is not modelled as a variable. The filter is a parameter of
  `ObterTransacoesFiltradas`, and `aplicarFiltro` only assigns it and
  re-renders.
- Texto.ToLower: models `toLowerCase` for ASCII letters only. Non-ASCII
  letters are left unchanged, so two e-mails or titles that differ only in
  accented capitals count as distinct here.
- Auth.ValidarCadastro: measures the password in Unicode code points.
  JavaScript counts UTF-16 units, so the two differ only for characters
  outside the Basic Multilingual Plane.
- Financeiro.Livro.Valid: the positive-amount invariant is stated as
  preserved (`old(Valid()) ==> Valid()`), not assumed. Data loaded from
  storage is not validated by the source. The same holds for
  Auth.Contas.Valid (distinct e-mails) and Funcionarios.Equipe.Valid
  (distinct titles).
- Account type: in `Usuario` and `Sessao`, `None` stands for an account with no type, as
  written by older versions. Every path that reads it treats a missing or
  empty type as PJ.
