/**
 * The ledger page: the list of income and expense entries (`transacoes`),
 * the operations that change it, the summary of totals and the filtered view.
 * Entries are kept most recent first; a kind other than "entrada" counts as
 * an expense in the summary.
 */
module Financeiro {
  import opened Outcomes
  import opened Seqs
  import opened Texto

  /** One ledger entry. `data` is the creation time as the ISO text the page stores. */
  datatype Transacao = Transacao(id: string, descricao: string, valor: real, tipo: string, data: string)

  /** What `calcularResumo` returns. */
  datatype Resumo = Resumo(totalEntradas: real, totalSaidas: real, saldo: real)

  /** The kind that counts as income. */
  const Entrada: string := "entrada"

  /** The filter value that shows every entry. */
  const Todas: string := "todas"

  /** The test `transacao.tipo === tipo` as a predicate for `Filter`. */
  function DoTipo(tipo: string): Transacao -> bool
  {
    (t: Transacao) => t.tipo == tipo
  }

  /** The test `transacao.id !== id` as a predicate for `Filter`. */
  function OutroId(id: string): Transacao -> bool
  {
    (t: Transacao) => t.id != id
  }

  /** Sum of the income amounts, accumulated from the first entry to the last. */
  function TotalEntradas(s: seq<Transacao>): real
  {
    if s == [] then 0.0
    else TotalEntradas(s[..|s| - 1]) + (if s[|s| - 1].tipo == Entrada then s[|s| - 1].valor else 0.0)
  }

  /** Sum of the amounts of every entry that is not income, accumulated from the first entry to the last. */
  function TotalSaidas(s: seq<Transacao>): real
  {
    if s == [] then 0.0
    else TotalSaidas(s[..|s| - 1]) + (if s[|s| - 1].tipo == Entrada then 0.0 else s[|s| - 1].valor)
  }

  /** Sum of all amounts, whatever their kind. */
  function Soma(s: seq<Transacao>): real
  {
    if s == [] then 0.0 else s[0].valor + Soma(s[1..])
  }

  /**
   * `obterTransacoesFiltradas`: the whole list for "todas"; otherwise exactly
   * the entries of the chosen kind, every copy of them, in store order.
   */
  function ObterTransacoesFiltradas(s: seq<Transacao>, filtro: string): (r: seq<Transacao>)
    ensures filtro == Todas ==> r == s
    ensures filtro != Todas ==> Subsequence(r, s)
    ensures filtro != Todas ==> forall x :: x in r ==> x.tipo == filtro
    ensures filtro != Todas ==> forall x :: multiset(r)[x] == if x.tipo == filtro then multiset(s)[x] else 0
  {
    if filtro == Todas then s
    else
      FilterSubsequence(s, DoTipo(filtro));
      FilterCount(s, DoTipo(filtro));
      Filter(s, DoTipo(filtro))
  }

  /**
   * The list `removerTransacao` leaves: every entry with the id is dropped,
   * the others keep their order, and an absent id changes nothing.
   */
  function SemTransacao(s: seq<Transacao>, id: string): (r: seq<Transacao>)
    ensures Subsequence(r, s)
    ensures forall x :: multiset(r)[x] == if x.id == id then 0 else multiset(s)[x]
    ensures (forall t :: t in s ==> t.id != id) ==> r == s
  {
    FilterSubsequence(s, OutroId(id));
    FilterCount(s, OutroId(id));
    FilterIdentity(s, OutroId(id));
    Filter(s, OutroId(id))
  }

  /** Sums add up over a concatenation. */
  lemma {:induction false} SomaAppend(a: seq<Transacao>, b: seq<Transacao>)
    ensures Soma(a + b) == Soma(a) + Soma(b)
  {
    if a != [] {
      assert (a + b)[1..] == a[1..] + b;
      SomaAppend(a[1..], b);
    } else {
      assert a + b == b;
    }
  }

  /** Every entry counts toward exactly one of the two totals, so together they are the sum of all amounts. */
  lemma {:induction false} TotaisSomam(s: seq<Transacao>)
    ensures TotalEntradas(s) + TotalSaidas(s) == Soma(s)
  {
    if s != [] {
      var init := s[..|s| - 1];
      TotaisSomam(init);
      assert s == init + [s[|s| - 1]];
      SomaAppend(init, [s[|s| - 1]]);
    }
  }

  /** The income total is the sum of the list the "entrada" filter shows. */
  lemma {:induction false} EntradasSaoFiltro(s: seq<Transacao>)
    ensures TotalEntradas(s) == Soma(ObterTransacoesFiltradas(s, Entrada))
  {
    if s != [] {
      var init, last := s[..|s| - 1], s[|s| - 1];
      EntradasSaoFiltro(init);
      assert s == init + [last];
      FilterAppend(init, [last], DoTipo(Entrada));
      assert [last][1..] == [];
      assert Filter([last], DoTipo(Entrada)) == (if last.tipo == Entrada then [last] else []) + Filter([], DoTipo(Entrada));
      SomaAppend(Filter(init, DoTipo(Entrada)), Filter([last], DoTipo(Entrada)));
    }
  }

  /** Inserting an entry at the head adds its amount to the total of its kind and leaves the other total alone. */
  lemma {:induction false} TotaisAposInserir(x: Transacao, s: seq<Transacao>)
    ensures TotalEntradas([x] + s) == TotalEntradas(s) + (if x.tipo == Entrada then x.valor else 0.0)
    ensures TotalSaidas([x] + s) == TotalSaidas(s) + (if x.tipo == Entrada then 0.0 else x.valor)
  {
    if s != [] {
      var init := s[..|s| - 1];
      TotaisAposInserir(x, init);
      assert ([x] + s)[..|[x] + s| - 1] == [x] + init;
    } else {
      assert [x] + s == [x];
      assert [x][..0] == [];
    }
  }

  /** With only positive amounts stored, neither total can be negative. */
  lemma {:induction false} TotaisNaoNegativos(s: seq<Transacao>)
    requires forall t :: t in s ==> t.valor > 0.0
    ensures TotalEntradas(s) >= 0.0 && TotalSaidas(s) >= 0.0
  {
    if s != [] {
      assert forall t :: t in s[..|s| - 1] ==> t in s;
      TotaisNaoNegativos(s[..|s| - 1]);
      assert s[|s| - 1] in s;
    }
  }

  /** Removing the id of an entry just inserted with a fresh id gives back the list as it was. */
  lemma RemoverDesfazInsercao(x: Transacao, s: seq<Transacao>)
    requires forall t :: t in s ==> t.id != x.id
    ensures SemTransacao([x] + s, x.id) == s
  {
    var s' := [x] + s;
    assert s'[1..] == s;
    assert Filter(s', OutroId(x.id)) == [] + Filter(s, OutroId(x.id));
    FilterIdentity(s, OutroId(x.id));
  }

  /** The ledger page's state: the entry list, most recent first. */
  class Livro {
    var transacoes: seq<Transacao>

    /** Only positive amounts are stored, as `adicionarTransacao` admits no other. */
    ghost predicate Valid()
      reads this
    {
      forall t :: t in transacoes ==> t.valor > 0.0
    }

    /** The page's start: the list as loaded from storage. */
    constructor (salvas: seq<Transacao>)
      ensures transacoes == salvas
    {
      transacoes := salvas;
    }

    /**
     * `adicionarTransacao`: a blank description (after trimming), an amount
     * that did not parse, or one that is not positive is refused with nothing
     * changed; otherwise the new entry goes to the head of the list.
     */
    method AdicionarTransacao(descricao: string, valor: Option<real>, tipo: string, id: string, data: string)
      returns (adicionada: bool)
      requires forall t :: t in transacoes ==> t.id != id
      modifies this
      ensures adicionada <==> Trim(descricao) != [] && valor.Some? && valor.value > 0.0
      ensures transacoes == if adicionada then [Transacao(id, Trim(descricao), valor.value, tipo, data)] + old(transacoes)
                            else old(transacoes)
      ensures adicionada ==> TotalEntradas(transacoes) == old(TotalEntradas(transacoes)) + (if tipo == Entrada then valor.value else 0.0)
      ensures adicionada ==> TotalSaidas(transacoes) == old(TotalSaidas(transacoes)) + (if tipo == Entrada then 0.0 else valor.value)
      ensures old(Valid()) ==> Valid()
    {
      var texto := Trim(descricao);
      if texto == [] || valor.None? || valor.value <= 0.0 {
        return false;
      }
      var nova := Transacao(id, texto, valor.value, tipo, data);
      TotaisAposInserir(nova, transacoes);
      transacoes := [nova] + transacoes;
      adicionada := true;
    }

    /** `removerTransacao`: without confirmation nothing changes; with it every entry with the id goes. */
    method RemoverTransacao(id: string, confirmado: bool)
      modifies this
      ensures transacoes == if confirmado then SemTransacao(old(transacoes), id) else old(transacoes)
      ensures old(Valid()) ==> Valid()
    {
      if !confirmado {
        return;
      }
      transacoes := SemTransacao(transacoes, id);
    }

    /** `limparTudo`: an empty list is left as it is without asking; otherwise a confirmed request empties it. */
    method LimparTudo(confirmado: bool)
      modifies this
      ensures transacoes == if confirmado then [] else old(transacoes)
      ensures old(Valid()) ==> Valid()
    {
      if |transacoes| == 0 {
        return;
      }
      if !confirmado {
        return;
      }
      transacoes := [];
    }

    /**
     * `calcularResumo`: one pass over the list adding income to one total and
     * everything else to the other; the balance is their difference.
     */
    method CalcularResumo() returns (r: Resumo)
      ensures r.totalEntradas == TotalEntradas(transacoes)
      ensures r.totalSaidas == TotalSaidas(transacoes)
      ensures r.saldo == r.totalEntradas - r.totalSaidas
      ensures r.totalEntradas + r.totalSaidas == Soma(transacoes)
    ensures Valid() ==> r.totalEntradas >= 0.0 && r.totalSaidas >= 0.0
    {
      var entradas, saidas := 0.0, 0.0;
      var i := 0;
      while i < |transacoes|
        invariant 0 <= i <= |transacoes|
        invariant entradas == TotalEntradas(transacoes[..i])
        invariant saidas == TotalSaidas(transacoes[..i])
      {
        assert transacoes[..i + 1][..i] == transacoes[..i];
        if transacoes[i].tipo == Entrada {
          entradas := entradas + transacoes[i].valor;
        } else {
          saidas := saidas + transacoes[i].valor;
        }
        i := i + 1;
      }
      assert transacoes[..i] == transacoes;
      TotaisSomam(transacoes);
      if Valid() {
        TotaisNaoNegativos(transacoes);
      }
      r := Resumo(entradas, saidas, entradas - saidas);
    }
  }
}
