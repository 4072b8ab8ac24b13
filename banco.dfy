/**
 * The SQLite store of the inventory system (database.py), as an object over
 * three in-memory tables.
 *
 * Each table is a sequence of rows in rowid order; `AUTOINCREMENT` is a
 * next-id counter per table that starts at 1, grows by one per inserted row
 * and is never reused (a failed insert leaves it as it was). Timestamps are
 * natural numbers given by the caller's clock (`agora`). Each method is one
 * statement and one commit of the source; nothing here is a transaction.
 */
module Banco {
  import opened Modelos
  import opened Ordenacao

  /** A value, or the message of the ValueError the source raises. */
  datatype Resultado<T> = Sucesso(valor: T) | Falha(mensagem: string)

  // ---------------------------------------------------------------------------
  // Table constraints (create_tables)
  // ---------------------------------------------------------------------------

  /** Two client rows, the first stored before the second, that the table admits side by side. */
  predicate ClientesCompativeis(a: Cliente, b: Cliente) {
    && a.id < b.id
    && a.telefone != b.telefone
    && (a.documento.Some? ==> a.documento != b.documento)
  }

  /** `clientes`: ids from 1 below the counter, increasing; unique phone; unique document when present. */
  ghost predicate ClientesValidos(cs: seq<Cliente>, proximo: nat) {
    && proximo >= 1
    && (forall i :: 0 <= i < |cs| ==> 1 <= cs[i].id < proximo)
    && (forall i, j :: 0 <= i < j < |cs| ==> ClientesCompativeis(cs[i], cs[j]))
  }

  /** Two equipment rows, the first stored before the second, that the table admits side by side. */
  predicate EquipamentosCompativeis(a: Equipamento, b: Equipamento) {
    a.id < b.id && a.numeroSerie != b.numeroSerie
  }

  /** `equipamentos`: ids from 1 below the counter, increasing; unique serial number. */
  ghost predicate EquipamentosValidos(es: seq<Equipamento>, proximo: nat) {
    && proximo >= 1
    && (forall i :: 0 <= i < |es| ==> 1 <= es[i].id < proximo)
    && (forall i, j :: 0 <= i < j < |es| ==> EquipamentosCompativeis(es[i], es[j]))
  }

  /** `historico_posse`: increasing ids below the counter. */
  ghost predicate HistoricoValido(hs: seq<HistoricoPosse>, proximo: nat) {
    && proximo >= 1
    && (forall i :: 0 <= i < |hs| ==> 1 <= hs[i].id < proximo)
    && (forall i, j :: 0 <= i < j < |hs| ==> hs[i].id < hs[j].id)
  }

  // ---------------------------------------------------------------------------
  // The ledger invariant (kept by the movement form, not by the store)
  // ---------------------------------------------------------------------------

  /** No equipment has two open custody records. */
  ghost predicate UmAbertoPorEquipamento(hs: seq<HistoricoPosse>) {
    forall i, j :: 0 <= i < j < |hs| && hs[i].EstaAtivo() && hs[j].EstaAtivo() ==>
      hs[i].equipamentoId != hs[j].equipamentoId
  }

  /** Some stored equipment has this id. */
  predicate TemEquipamento(es: seq<Equipamento>, id: nat) {
    exists j :: 0 <= j < |es| && es[j].id == id
  }

  /** Every custody record names a stored equipment. */
  ghost predicate HistoricoReferenciaEquipamentos(hs: seq<HistoricoPosse>, es: seq<Equipamento>) {
    forall i :: 0 <= i < |hs| ==> TemEquipamento(es, hs[i].equipamentoId)
  }

  // ---------------------------------------------------------------------------
  // Row-level operations the statements perform
  // ---------------------------------------------------------------------------

  /** `DELETE FROM clientes WHERE id = ?`. */
  function RemoverCliente(cs: seq<Cliente>, id: nat): (r: seq<Cliente>)
    ensures forall c :: c in r <==> c in cs && c.id != id
    ensures forall c :: multiset(r)[c] == if c.id != id then multiset(cs)[c] else 0
    ensures |r| <= |cs|
  {
    if cs == [] then []
    else
      assert cs == [cs[0]] + cs[1..];
      (if cs[0].id == id then [] else [cs[0]]) + RemoverCliente(cs[1..], id)
  }

  /** Deleting rows keeps the table's constraints. */
  lemma {:induction false} RemoverClienteValido(cs: seq<Cliente>, id: nat, proximo: nat)
    requires ClientesValidos(cs, proximo)
    ensures ClientesValidos(RemoverCliente(cs, id), proximo)
  {
    if cs != [] {
      RemoverClienteValido(cs[1..], id, proximo);
      var resto := RemoverCliente(cs[1..], id);
      if cs[0].id != id {
        forall c | c in resto
          ensures ClientesCompativeis(cs[0], c)
        {
          var k :| 0 <= k < |cs[1..]| && cs[1..][k] == c;
          assert cs[k + 1] == c;
        }
        PrefixarClienteValido(cs[0], resto, proximo);
        assert RemoverCliente(cs, id) == [cs[0]] + resto;
      } else {
        assert RemoverCliente(cs, id) == resto;
      }
    }
  }

  /** A row that fits before every row of a valid table can be put in front of it. */
  lemma PrefixarClienteValido(c: Cliente, cs: seq<Cliente>, proximo: nat)
    requires ClientesValidos(cs, proximo)
    requires 1 <= c.id < proximo
    requires forall d :: d in cs ==> ClientesCompativeis(c, d)
    ensures ClientesValidos([c] + cs, proximo)
  {
    var r := [c] + cs;
    forall i, j | 0 <= i < j < |r|
      ensures ClientesCompativeis(r[i], r[j])
    {
      assert r[j] == cs[j - 1];
      if i > 0 {
        assert r[i] == cs[i - 1];
      }
    }
  }

  /** Appending a row that fits beside every stored one keeps the constraints. */
  lemma AnexarClienteValido(cs: seq<Cliente>, c: Cliente, proximo: nat)
    requires ClientesValidos(cs, proximo)
    requires c.id == proximo
    requires forall i :: 0 <= i < |cs| ==> cs[i].telefone != c.telefone
    requires c.documento.Some? ==> forall i :: 0 <= i < |cs| ==> cs[i].documento != c.documento
    ensures ClientesValidos(cs + [c], proximo + 1)
  {
    var r := cs + [c];
    forall i, j | 0 <= i < j < |r|
      ensures ClientesCompativeis(r[i], r[j])
    {
      if j == |cs| {
        assert r[i] == cs[i] && r[j] == c;
      } else {
        assert r[i] == cs[i] && r[j] == cs[j];
      }
    }
  }

  /** Appending an equipment with a new serial keeps the constraints. */
  lemma AnexarEquipamentoValido(es: seq<Equipamento>, e: Equipamento, proximo: nat)
    requires EquipamentosValidos(es, proximo)
    requires e.id == proximo
    requires forall i :: 0 <= i < |es| ==> es[i].numeroSerie != e.numeroSerie
    ensures EquipamentosValidos(es + [e], proximo + 1)
  {
    var r := es + [e];
    forall i, j | 0 <= i < j < |r|
      ensures EquipamentosCompativeis(r[i], r[j])
    {
      if j == |es| {
        assert r[i] == es[i] && r[j] == e;
      } else {
        assert r[i] == es[i] && r[j] == es[j];
      }
    }
  }

  /**
   * The keyword arguments of atualizar_equipamento: `None` leaves a column
   * alone, `Some(v)` writes `v` (for nullable columns `v` may itself be None).
   */
  datatype AlteracaoEquipamento = AlteracaoEquipamento(
    numeroSerie: Option<string>,
    tipo: Option<string>,
    marca: Option<Option<string>>,
    modelo: Option<Option<string>>,
    statusAtual: Option<string>,
    dataGarantia: Option<Option<string>>,
    observacoes: Option<Option<string>>)
  {
    /** No keyword argument at all: the source would build `UPDATE ... SET  WHERE`, a syntax error. */
    predicate Vazia() {
      numeroSerie.None? && tipo.None? && marca.None? && modelo.None? && statusAtual.None?
        && dataGarantia.None? && observacoes.None?
    }
  }

  function Escolher<V>(o: Option<V>, atual: V): V {
    match o
    case None => atual
    case Some(v) => v
  }

  /** One row after `UPDATE equipamentos SET ...`. */
  function Aplicar(e: Equipamento, a: AlteracaoEquipamento): (r: Equipamento)
    ensures r.id == e.id && r.dataRegistro == e.dataRegistro
    ensures a.numeroSerie.None? ==> r.numeroSerie == e.numeroSerie
    ensures a.statusAtual.Some? ==> r.statusAtual == a.statusAtual.value
    ensures a.statusAtual.None? ==> r.statusAtual == e.statusAtual
  {
    Equipamento(e.id, Escolher(a.numeroSerie, e.numeroSerie), Escolher(a.tipo, e.tipo),
      Escolher(a.marca, e.marca), Escolher(a.modelo, e.modelo), e.dataRegistro,
      Escolher(a.statusAtual, e.statusAtual), Escolher(a.dataGarantia, e.dataGarantia),
      Escolher(a.observacoes, e.observacoes))
  }

  /** The change `atualizar_status_equipamento` passes on: only `status_atual`. */
  function SoStatus(status: string): (a: AlteracaoEquipamento)
    ensures !a.Vazia()
    ensures forall e: Equipamento :: Aplicar(e, a) == e.(statusAtual := status)
  {
    AlteracaoEquipamento(None, None, None, None, Some(status), None, None)
  }

  /** `UPDATE equipamentos SET ... WHERE id = ?`: every row with that id, and no other, changes. */
  function AtualizarLinhas(es: seq<Equipamento>, id: nat, a: AlteracaoEquipamento): (r: seq<Equipamento>)
    ensures |r| == |es|
    ensures forall i :: 0 <= i < |es| && es[i].id != id ==> r[i] == es[i]
    ensures forall i :: 0 <= i < |es| && es[i].id == id ==> r[i] == Aplicar(es[i], a)
  {
    seq(|es|, i requires 0 <= i < |es| => if es[i].id == id then Aplicar(es[i], a) else es[i])
  }

  /** `UPDATE historico_posse SET data_fim = ? WHERE id = ?`. */
  function FecharLinhas(hs: seq<HistoricoPosse>, id: nat, fim: nat): (r: seq<HistoricoPosse>)
    ensures |r| == |hs|
    ensures forall i :: 0 <= i < |hs| && hs[i].id != id ==> r[i] == hs[i]
    ensures forall i :: 0 <= i < |hs| && hs[i].id == id ==> r[i] == hs[i].(dataFim := Some(fim))
  {
    seq(|hs|, i requires 0 <= i < |hs| => if hs[i].id == id then hs[i].(dataFim := Some(fim)) else hs[i])
  }

  /** Closing records never opens one, so it keeps the single-open rule. */
  lemma FecharMantemUmAberto(hs: seq<HistoricoPosse>, id: nat, fim: nat)
    requires UmAbertoPorEquipamento(hs)
    ensures UmAbertoPorEquipamento(FecharLinhas(hs, id, fim))
  {
    var r := FecharLinhas(hs, id, fim);
    forall i, j | 0 <= i < j < |r| && r[i].EstaAtivo() && r[j].EstaAtivo()
      ensures r[i].equipamentoId != r[j].equipamentoId
    {
      assert hs[i].EstaAtivo() && hs[j].EstaAtivo();
    }
  }

  // ---------------------------------------------------------------------------
  // get_estatisticas: GROUP BY ... COUNT(*)
  // ---------------------------------------------------------------------------

  /** `SELECT k, COUNT(*) ... GROUP BY k` over the column values `s`. */
  function Contagem(s: seq<string>): (m: map<string, nat>)
    ensures m.Keys == set k | k in s
    ensures forall k :: k in m ==> m[k] > 0
    ensures forall k :: k in m ==> m[k] == multiset(s)[k]
  {
    if s == [] then map[]
    else
      var m := Contagem(s[..|s| - 1]);
      var k := s[|s| - 1];
      assert s == s[..|s| - 1] + [k];
      m[k := (if k in m then m[k] else 0) + 1]
  }

  /** The sum of a dictionary's values. */
  ghost function SomaValores(m: map<string, nat>): nat
    decreases |m.Keys|
  {
    if m == map[] then 0
    else
      var k :| k in m;
      m[k] + SomaValores(m - {k})
  }

  /** Any key can be taken out first. */
  lemma {:induction false} SomaValoresSem(m: map<string, nat>, k: string)
    requires k in m
    ensures SomaValores(m) == m[k] + SomaValores(m - {k})
    decreases |m.Keys|
  {
    var k' :| k' in m && SomaValores(m) == m[k'] + SomaValores(m - {k'});
    if k' != k {
      assert (m - {k'}).Keys == m.Keys - {k'};
      assert (m - {k}).Keys == m.Keys - {k};
      SomaValoresSem(m - {k'}, k);
      SomaValoresSem(m - {k}, k');
      assert m - {k'} - {k} == m - {k} - {k'};
    }
  }

  /** Setting one key to `v` moves the sum by `v` less the key's old value. */
  lemma SomaValoresAtualizar(m: map<string, nat>, k: string, v: nat)
    ensures SomaValores(m[k := v]) + (if k in m then m[k] else 0) == SomaValores(m) + v
  {
    var m' := m[k := v];
    SomaValoresSem(m', k);
    assert m' - {k} == m - {k};
    if k in m {
      SomaValoresSem(m, k);
    } else {
      assert m - {k} == m;
    }
  }

  /** The counts of all groups add up to the number of rows. */
  lemma {:induction false} SomaContagem(s: seq<string>)
    ensures SomaValores(Contagem(s)) == |s|
  {
    if s != [] {
      var p := s[..|s| - 1];
      var k := s[|s| - 1];
      var m := Contagem(p);
      SomaContagem(p);
      ContagemUltimo(s);
      SomaValoresAtualizar(m, k, (if k in m then m[k] else 0) + 1);
    }
  }

  /** The last row adds one to its group. */
  lemma ContagemUltimo(s: seq<string>)
    requires s != []
    ensures var m, k := Contagem(s[..|s| - 1]), s[|s| - 1];
      Contagem(s) == m[k := (if k in m then m[k] else 0) + 1]
  {
  }

  /** The dictionary get_estatisticas returns. */
  datatype Estatisticas = Estatisticas(
    totalClientes: nat,
    totalEquipamentos: nat,
    porStatus: map<string, nat>,
    porTipo: map<string, nat>)

  function Status(es: seq<Equipamento>): (r: seq<string>)
    ensures |r| == |es| && forall i :: 0 <= i < |es| ==> r[i] == es[i].statusAtual
  {
    seq(|es|, i requires 0 <= i < |es| => es[i].statusAtual)
  }

  function Tipos(es: seq<Equipamento>): (r: seq<string>)
    ensures |r| == |es| && forall i :: 0 <= i < |es| ==> r[i] == es[i].tipo
  {
    seq(|es|, i requires 0 <= i < |es| => es[i].tipo)
  }

  // ---------------------------------------------------------------------------
  // LIKE predicates of the searches
  // ---------------------------------------------------------------------------

  /** LIKE on a nullable column: NULL never matches. */
  predicate ContemOpcional(campo: Option<string>, termo: string) {
    campo.Some? && Contem(campo.value, termo)
  }

  /** `nome LIKE ? OR telefone LIKE ? OR documento LIKE ?` with `%termo%`. */
  predicate ClienteCasa(c: Cliente, termo: string) {
    Contem(c.nome, termo) || Contem(c.telefone, termo) || ContemOpcional(c.documento, termo)
  }

  /** `numero_serie LIKE ? OR tipo LIKE ? OR marca LIKE ? OR modelo LIKE ?` with `%termo%`. */
  predicate EquipamentoCasa(e: Equipamento, termo: string) {
    Contem(e.numeroSerie, termo) || Contem(e.tipo, termo)
      || ContemOpcional(e.marca, termo) || ContemOpcional(e.modelo, termo)
  }

  /** Python's `if status:` — a status filter that is given and not empty. */
  predicate FiltraStatus(status: Option<string>) {
    status.Some? && status.value != []
  }

  /** One row of buscar_equipamentos_cliente_ativo: the equipment and the open record's columns. */
  datatype PosseAtiva = PosseAtiva(
    equipamento: Equipamento,
    dataInicio: nat,
    acao: string,
    observacoes: Option<string>)

  /** SELECT DISTINCT: the first copy of each row, in order. */
  function Distintos<T(==, !new)>(s: seq<T>): (r: seq<T>)
    ensures forall x :: x in r <==> x in s
    ensures forall i, j :: 0 <= i < j < |r| ==> r[i] != r[j]
  {
    if s == [] then []
    else
      var r := Distintos(s[..|s| - 1]);
      var x := s[|s| - 1];
      assert s == s[..|s| - 1] + [x];
      if x in r then r else r + [x]
  }

  // ---------------------------------------------------------------------------
  // ORDER BY keys
  // ---------------------------------------------------------------------------

  /** `ORDER BY nome`. */
  predicate NomeAntes(a: Cliente, b: Cliente) {
    TextoAntes(a.nome, b.nome)
  }

  /** `ORDER BY data_registro DESC`. */
  predicate RegistradoDepois(a: Equipamento, b: Equipamento) {
    a.dataRegistro >= b.dataRegistro
  }

  /** `ORDER BY data_inicio DESC` over custody records. */
  predicate IniciadoDepois(a: HistoricoPosse, b: HistoricoPosse) {
    a.dataInicio >= b.dataInicio
  }

  /** `ORDER BY h.data_inicio DESC` over joined rows. */
  predicate PosseIniciadaDepois(a: PosseAtiva, b: PosseAtiva) {
    a.dataInicio >= b.dataInicio
  }

  lemma NomeAntesPreordem()
    ensures PreordemTotal(NomeAntes)
  {
    forall a: Cliente, b: Cliente
      ensures NomeAntes(a, b) || NomeAntes(b, a)
    {
      TextoAntesTotal(a.nome, b.nome);
    }
    forall a: Cliente, b: Cliente, c: Cliente | NomeAntes(a, b) && NomeAntes(b, c)
      ensures NomeAntes(a, c)
    {
      TextoAntesTransitivo(a.nome, b.nome, c.nome);
    }
  }

  lemma RegistradoDepoisPreordem()
    ensures PreordemTotal(RegistradoDepois)
  {
  }

  lemma IniciadoDepoisPreordem()
    ensures PreordemTotal(IniciadoDepois)
  {
  }

  /** The first record of `ORDER BY data_inicio DESC` is one of the rows and started last. */
  lemma MaisRecentePrimeiro(s: seq<HistoricoPosse>)
    ensures Ordenar(s, IniciadoDepois) == [] <==> s == []
    ensures Ordenar(s, IniciadoDepois) != [] ==>
      && Ordenar(s, IniciadoDepois)[0] in s
      && forall h :: h in s ==> h.dataInicio <= Ordenar(s, IniciadoDepois)[0].dataInicio
  {
    IniciadoDepoisPreordem();
    OrdenarCorreto(s, IniciadoDepois);
    var o := Ordenar(s, IniciadoDepois);
    if o != [] {
      assert o[0] in o;
      forall h | h in s
        ensures h.dataInicio <= o[0].dataInicio
      {
        var k :| 0 <= k < |o| && o[k] == h;
        if k > 0 {
          assert IniciadoDepois(o[0], o[k]);
        }
      }
    }
  }

  lemma PosseIniciadaDepoisPreordem()
    ensures PreordemTotal(PosseIniciadaDepois)
  {
  }

  class Database {
    var clientes: seq<Cliente>
    var equipamentos: seq<Equipamento>
    var historico: seq<HistoricoPosse>
    /** The next AUTOINCREMENT id of each table. */
    var proximoCliente: nat
    var proximoEquipamento: nat
    var proximoHistorico: nat

    ghost predicate Valid()
      reads this
    {
      && ClientesValidos(clientes, proximoCliente)
      && EquipamentosValidos(equipamentos, proximoEquipamento)
      && HistoricoValido(historico, proximoHistorico)
    }

    /** The ledger invariant the movement form keeps. */
    ghost predicate LivroConsistente()
      reads this`historico, this`equipamentos
    {
      UmAbertoPorEquipamento(historico) && HistoricoReferenciaEquipamentos(historico, equipamentos)
    }

    /** create_tables on a new database file. */
    constructor ()
      ensures Valid() && LivroConsistente()
      ensures clientes == [] && equipamentos == [] && historico == []
      ensures proximoCliente == 1 && proximoEquipamento == 1 && proximoHistorico == 1
    {
      clientes := [];
      equipamentos := [];
      historico := [];
      proximoCliente := 1;
      proximoEquipamento := 1;
      proximoHistorico := 1;
    }

    predicate ExisteEquipamento(id: nat)
      reads this`equipamentos
    {
      TemEquipamento(equipamentos, id)
    }

    // ------------------------------------------------------------- clientes

    predicate TelefoneEmUso(telefone: string)
      reads this`clientes
    {
      exists i :: 0 <= i < |clientes| && clientes[i].telefone == telefone
    }

    /** SQL's UNIQUE lets NULL repeat: only a present document can clash. */
    predicate DocumentoEmUso(documento: Option<string>)
      reads this`clientes
    {
      documento.Some? && exists i :: 0 <= i < |clientes| && clientes[i].documento == documento
    }

    /** inserir_cliente. */
    method InserirCliente(nome: string, telefone: string, email: Option<string>, endereco: Option<string>,
                          documento: Option<string>, setor: Option<string>, agora: nat)
      returns (r: Resultado<nat>)
      requires Valid()
      modifies this
      ensures Valid()
      ensures old(TelefoneEmUso(telefone)) && !old(DocumentoEmUso(documento)) ==>
        r == Falha("Erro ao inserir cliente: UNIQUE constraint failed: clientes.telefone")
      ensures !old(TelefoneEmUso(telefone)) && old(DocumentoEmUso(documento)) ==>
        r == Falha("Erro ao inserir cliente: UNIQUE constraint failed: clientes.documento")
      // When both collide the engine names one of the two indexes; which one is not fixed here.
      ensures old(TelefoneEmUso(telefone)) && old(DocumentoEmUso(documento)) ==>
        || r == Falha("Erro ao inserir cliente: UNIQUE constraint failed: clientes.telefone")
        || r == Falha("Erro ao inserir cliente: UNIQUE constraint failed: clientes.documento")
      ensures r.Falha? ==> unchanged(this)
      ensures r.Sucesso? <==> !old(TelefoneEmUso(telefone)) && !old(DocumentoEmUso(documento))
      ensures r.Sucesso? ==>
        && r.valor == old(proximoCliente)
        && clientes == old(clientes) + [Cliente(r.valor, nome, telefone, email, endereco, documento, setor, agora)]
        && proximoCliente == old(proximoCliente) + 1
        && equipamentos == old(equipamentos) && historico == old(historico)
        && proximoEquipamento == old(proximoEquipamento) && proximoHistorico == old(proximoHistorico)
    {
      if TelefoneEmUso(telefone) {
        return Falha("Erro ao inserir cliente: UNIQUE constraint failed: clientes.telefone");
      }
      if DocumentoEmUso(documento) {
        return Falha("Erro ao inserir cliente: UNIQUE constraint failed: clientes.documento");
      }
      var id := proximoCliente;
      AnexarClienteValido(clientes, Cliente(id, nome, telefone, email, endereco, documento, setor, agora), id);
      clientes := clientes + [Cliente(id, nome, telefone, email, endereco, documento, setor, agora)];
      proximoCliente := proximoCliente + 1;
      r := Sucesso(id);
    }

    /** The client has a record whose data_fim is NULL. */
    predicate ClienteTemPosseAberta(clienteId: nat)
      reads this`historico
    {
      exists i :: 0 <= i < |historico| && historico[i].clienteId == Some(clienteId) && historico[i].EstaAtivo()
    }

    /**
     * deletar_cliente: refused while the client holds an open record. The
     * history keeps the client's id (SQLite does not enforce the foreign key
     * unless asked to).
     */
    method DeletarCliente(clienteId: nat) returns (ok: bool)
      requires Valid()
      modifies this
      ensures Valid()
      ensures ok <==> !old(ClienteTemPosseAberta(clienteId))
      ensures ok ==> clientes == RemoverCliente(old(clientes), clienteId)
      ensures !ok ==> clientes == old(clientes)
      ensures equipamentos == old(equipamentos) && historico == old(historico)
      ensures proximoCliente == old(proximoCliente) && proximoEquipamento == old(proximoEquipamento)
      ensures proximoHistorico == old(proximoHistorico)
    {
      if ClienteTemPosseAberta(clienteId) {
        return false;
      }
      RemoverClienteValido(clientes, clienteId, proximoCliente);
      clientes := RemoverCliente(clientes, clienteId);
      return true;
    }

    /** buscar_clientes: matching rows ordered by name. */
    function BuscarClientes(termo: string): (r: seq<Cliente>)
      reads this`clientes
      ensures forall c :: c in r <==> c in clientes && ClienteCasa(c, termo)
      ensures forall c :: multiset(r)[c] == if ClienteCasa(c, termo) then multiset(clientes)[c] else 0
      ensures Ordenada(r, NomeAntes)
    {
      var selecionados := Filtrar(clientes, (c: Cliente) => ClienteCasa(c, termo));
      NomeAntesPreordem();
      OrdenarCorreto(selecionados, NomeAntes);
      Ordenar(selecionados, NomeAntes)
    }

    // --------------------------------------------------------- equipamentos

    predicate SerieEmUso(numeroSerie: string)
      reads this`equipamentos
    {
      exists i :: 0 <= i < |equipamentos| && equipamentos[i].numeroSerie == numeroSerie
    }

    /** inserir_equipamento. */
    method InserirEquipamento(numeroSerie: string, tipo: string, marca: Option<string>, modelo: Option<string>,
                              statusAtual: string, dataGarantia: Option<string>, observacoes: Option<string>,
                              agora: nat)
      returns (r: Resultado<nat>)
      requires Valid()
      modifies this
      ensures Valid()
      ensures r.Falha? <==> old(SerieEmUso(numeroSerie))
      ensures r.Falha? ==> r.mensagem == "Número de série já cadastrado: " + numeroSerie && unchanged(this)
      ensures r.Sucesso? ==>
        && r.valor == old(proximoEquipamento)
        && equipamentos == old(equipamentos)
             + [Equipamento(r.valor, numeroSerie, tipo, marca, modelo, agora, statusAtual, dataGarantia, observacoes)]
        && proximoEquipamento == old(proximoEquipamento) + 1
        && clientes == old(clientes) && historico == old(historico)
        && proximoCliente == old(proximoCliente) && proximoHistorico == old(proximoHistorico)
    {
      if SerieEmUso(numeroSerie) {
        return Falha("Número de série já cadastrado: " + numeroSerie);
      }
      var id := proximoEquipamento;
      AnexarEquipamentoValido(equipamentos,
        Equipamento(id, numeroSerie, tipo, marca, modelo, agora, statusAtual, dataGarantia, observacoes), id);
      equipamentos := equipamentos
        + [Equipamento(id, numeroSerie, tipo, marca, modelo, agora, statusAtual, dataGarantia, observacoes)];
      proximoEquipamento := proximoEquipamento + 1;
      r := Sucesso(id);
    }

    /** inserir_equipamento with only serial and type: the remaining parameters keep their defaults. */
    method InserirEquipamentoPadrao(numeroSerie: string, tipo: string, agora: nat) returns (r: Resultado<nat>)
      requires Valid()
      modifies this
      ensures Valid()
      ensures r.Falha? <==> old(SerieEmUso(numeroSerie))
      ensures r.Falha? ==> r.mensagem == "Número de série já cadastrado: " + numeroSerie && unchanged(this)
      ensures r.Sucesso? ==>
        && r.valor == old(proximoEquipamento)
        && equipamentos == old(equipamentos) + [NovoEquipamento(r.valor, numeroSerie, tipo, agora)]
        && equipamentos[|equipamentos| - 1].statusAtual == "Em Estoque"
        && proximoEquipamento == old(proximoEquipamento) + 1
        && clientes == old(clientes) && historico == old(historico)
        && proximoCliente == old(proximoCliente) && proximoHistorico == old(proximoHistorico)
    {
      r := InserirEquipamento(numeroSerie, tipo, None, None, StatusPadrao.Rotulo(), None, None, agora);
    }

    /** The update would give row `id` a serial number another row already has. */
    predicate ConflitoSerie(id: nat, a: AlteracaoEquipamento)
      reads this`equipamentos
    {
      && a.numeroSerie.Some?
      && ExisteEquipamento(id)
      && exists j :: 0 <= j < |equipamentos| && equipamentos[j].id != id
                    && equipamentos[j].numeroSerie == a.numeroSerie.value
    }

    /**
     * atualizar_equipamento: an IntegrityError (a serial clash) gives false and
     * changes nothing; an id with no row updates nothing and still gives true.
     */
    method AtualizarEquipamento(id: nat, a: AlteracaoEquipamento) returns (ok: bool)
      requires Valid()
      requires !a.Vazia()
      modifies this
      ensures Valid()
      ensures ok <==> !old(ConflitoSerie(id, a))
      ensures ok ==> equipamentos == AtualizarLinhas(old(equipamentos), id, a)
      ensures !ok ==> equipamentos == old(equipamentos)
      ensures clientes == old(clientes) && historico == old(historico)
      ensures proximoCliente == old(proximoCliente) && proximoEquipamento == old(proximoEquipamento)
      ensures proximoHistorico == old(proximoHistorico)
    {
      if ConflitoSerie(id, a) {
        return false;
      }
      var novos := AtualizarLinhas(equipamentos, id, a);
      forall i, j | 0 <= i < j < |novos|
        ensures EquipamentosCompativeis(novos[i], novos[j])
      {
        assert EquipamentosCompativeis(equipamentos[i], equipamentos[j]);
        if equipamentos[i].id == id {
          assert equipamentos[j].id != id;
        } else if equipamentos[j].id == id {
          assert equipamentos[i].id != id;
        }
      }
      equipamentos := novos;
      return true;
    }

    /** atualizar_status_equipamento: writes only `status_atual` of that equipment. */
    method AtualizarStatusEquipamento(id: nat, status: string) returns (ok: bool)
      requires Valid()
      modifies this
      ensures Valid()
      ensures ok
      ensures |equipamentos| == |old(equipamentos)|
      ensures forall i :: 0 <= i < |equipamentos| ==>
        equipamentos[i] == if old(equipamentos[i]).id == id then old(equipamentos[i]).(statusAtual := status)
                           else old(equipamentos[i])
      ensures clientes == old(clientes) && historico == old(historico)
      ensures proximoCliente == old(proximoCliente) && proximoEquipamento == old(proximoEquipamento)
      ensures proximoHistorico == old(proximoHistorico)
    {
      ok := AtualizarEquipamento(id, SoStatus(status));
    }

    /** buscar_equipamentos: matching rows, optionally of one status, newest first. */
    function BuscarEquipamentos(termo: string, status: Option<string>): (r: seq<Equipamento>)
      reads this`equipamentos
      ensures forall e :: e in r <==>
        e in equipamentos && EquipamentoCasa(e, termo) && (FiltraStatus(status) ==> e.statusAtual == status.value)
      ensures FiltraStatus(status) ==> forall e :: e in r ==> e.statusAtual == status.value
      ensures forall e :: multiset(r)[e] ==
                           if EquipamentoCasa(e, termo) && (FiltraStatus(status) ==> e.statusAtual == status.value)
                           then multiset(equipamentos)[e] else 0
      ensures Ordenada(r, RegistradoDepois)
    {
      var selecionados := Filtrar(equipamentos, (e: Equipamento) =>
        EquipamentoCasa(e, termo) && (FiltraStatus(status) ==> e.statusAtual == status.value));
      RegistradoDepoisPreordem();
      OrdenarCorreto(selecionados, RegistradoDepois);
      Ordenar(selecionados, RegistradoDepois)
    }

    // ------------------------------------------------------------ historico

    /** inserir_historico: appends one open record; it closes nothing. */
    method InserirHistorico(equipamentoId: nat, acao: string, usuario: string, clienteId: Option<nat>,
                            dataInicio: Option<nat>, observacoes: Option<string>, agora: nat)
      returns (id: nat)
      requires Valid()
      modifies this
      ensures Valid()
      ensures id == old(proximoHistorico)
      ensures historico == old(historico) + [NovoHistorico(id, equipamentoId, clienteId,
        (if dataInicio.Some? then dataInicio.value else agora), acao, usuario, observacoes)]
      ensures proximoHistorico == old(proximoHistorico) + 1
      ensures clientes == old(clientes) && equipamentos == old(equipamentos)
      ensures proximoCliente == old(proximoCliente) && proximoEquipamento == old(proximoEquipamento)
    {
      var inicio := if dataInicio.Some? then dataInicio.value else agora;
      id := proximoHistorico;
      historico := historico + [NovoHistorico(id, equipamentoId, clienteId, inicio, acao, usuario, observacoes)];
      proximoHistorico := proximoHistorico + 1;
    }

    /** finalizar_historico: sets data_fim of that record (even if already set); always true. */
    method FinalizarHistorico(historicoId: nat, dataFim: Option<nat>, agora: nat) returns (ok: bool)
      requires Valid()
      modifies this
      ensures Valid()
      ensures ok
      ensures historico == FecharLinhas(old(historico), historicoId,
        if dataFim.Some? then dataFim.value else agora)
      ensures clientes == old(clientes) && equipamentos == old(equipamentos)
      ensures proximoCliente == old(proximoCliente) && proximoEquipamento == old(proximoEquipamento)
      ensures proximoHistorico == old(proximoHistorico)
    {
      var fim := if dataFim.Some? then dataFim.value else agora;
      historico := FecharLinhas(historico, historicoId, fim);
      return true;
    }

    /** buscar_historico_equipamento: that equipment's records, newest first. */
    function BuscarHistoricoEquipamento(equipamentoId: nat): (r: seq<HistoricoPosse>)
      reads this`historico
      ensures forall h :: h in r <==> h in historico && h.equipamentoId == equipamentoId
      ensures forall h :: multiset(r)[h] == if h.equipamentoId == equipamentoId then multiset(historico)[h] else 0
      ensures Ordenada(r, IniciadoDepois)
    {
      var selecionados := Filtrar(historico, (h: HistoricoPosse) => h.equipamentoId == equipamentoId);
      IniciadoDepoisPreordem();
      OrdenarCorreto(selecionados, IniciadoDepois);
      Ordenar(selecionados, IniciadoDepois)
    }

    /** buscar_historico_cliente: that client's records whose equipment exists (inner join), newest first. */
    function BuscarHistoricoCliente(clienteId: nat): (r: seq<HistoricoPosse>)
      reads this`historico, this`equipamentos
      ensures forall h :: h in r <==>
        h in historico && h.clienteId == Some(clienteId) && ExisteEquipamento(h.equipamentoId)
      ensures forall h :: multiset(r)[h] ==
                           if h.clienteId == Some(clienteId) && ExisteEquipamento(h.equipamentoId)
                           then multiset(historico)[h] else 0
      ensures Ordenada(r, IniciadoDepois)
    {
      var es := equipamentos;
      var selecionados := Filtrar(historico, (h: HistoricoPosse) =>
        h.clienteId == Some(clienteId) && TemEquipamento(es, h.equipamentoId));
      IniciadoDepoisPreordem();
      OrdenarCorreto(selecionados, IniciadoDepois);
      Ordenar(selecionados, IniciadoDepois)
    }

    /** The equipment has an open record. */
    predicate TemAberto(equipamentoId: nat)
      reads this`historico
    {
      exists i :: 0 <= i < |historico| && historico[i].equipamentoId == equipamentoId && historico[i].EstaAtivo()
    }

    /**
     * buscar_historico_ativo_equipamento: none exactly when the equipment has
     * no open record; otherwise an open record of it that started last.
     */
    function BuscarHistoricoAtivoEquipamento(equipamentoId: nat): (r: Option<HistoricoPosse>)
      reads this`historico
      ensures r.None? <==> !TemAberto(equipamentoId)
      ensures r.Some? ==>
        && r.value in historico && r.value.equipamentoId == equipamentoId && r.value.EstaAtivo()
        && forall h :: h in historico && h.equipamentoId == equipamentoId && h.EstaAtivo() ==>
             h.dataInicio <= r.value.dataInicio
    {
      var abertos := Filtrar(historico, (h: HistoricoPosse) => h.equipamentoId == equipamentoId && h.EstaAtivo());
      var ordenados := Ordenar(abertos, IniciadoDepois);
      MaisRecentePrimeiro(abertos);
      if ordenados == [] then
        assert forall i :: 0 <= i < |historico| ==> historico[i] !in abertos;
        None
      else
        Some(ordenados[0])
    }

    /**
     * buscar_equipamentos_cliente_ativo: one distinct row per open record of
     * the client whose equipment exists, newest first.
     */
    function BuscarEquipamentosClienteAtivo(clienteId: nat): (r: seq<PosseAtiva>)
      reads this`historico, this`equipamentos
      ensures forall p :: p in r <==>
        exists h, e :: h in historico && e in equipamentos && Junta(h, e, clienteId) && p == Linha(h, e)
      ensures forall i, j :: 0 <= i < j < |r| ==> r[i] != r[j]
      ensures Ordenada(r, PosseIniciadaDepois)
    {
      var unicas := Distintos(Juncao(clienteId));
      PosseIniciadaDepoisPreordem();
      OrdenarCorreto(unicas, PosseIniciadaDepois);
      var r := Ordenar(unicas, PosseIniciadaDepois);
      SemRepeticaoPermutacao(unicas, r);
      r
    }

    /** The join rows of buscar_equipamentos_cliente_ativo before DISTINCT and ORDER BY. */
    function Juncao(clienteId: nat): (r: seq<PosseAtiva>)
      reads this`historico, this`equipamentos
      ensures forall p :: p in r <==>
        exists h, e :: h in historico && e in equipamentos && Junta(h, e, clienteId) && p == Linha(h, e)
    {
      JuncaoDe(historico, equipamentos, clienteId)
    }

    /** get_estatisticas. */
    function GetEstatisticas(): (r: Estatisticas)
      reads this`clientes, this`equipamentos
      ensures r.totalClientes == |clientes| && r.totalEquipamentos == |equipamentos|
      ensures r.porStatus.Keys == set e | e in equipamentos :: e.statusAtual
      ensures r.porTipo.Keys == set e | e in equipamentos :: e.tipo
      ensures forall k :: k in r.porStatus ==> r.porStatus[k] == multiset(Status(equipamentos))[k]
      ensures forall k :: k in r.porTipo ==> r.porTipo[k] == multiset(Tipos(equipamentos))[k]
    {
      var st := Status(equipamentos);
      var tp := Tipos(equipamentos);
      assert (set k | k in st) == set e | e in equipamentos :: e.statusAtual by {
        forall k | k in st ensures exists e :: e in equipamentos && e.statusAtual == k {
          var i :| 0 <= i < |st| && st[i] == k;
          assert equipamentos[i] in equipamentos;
        }
        forall e | e in equipamentos ensures e.statusAtual in st {
          var i :| 0 <= i < |equipamentos| && equipamentos[i] == e;
          assert st[i] == e.statusAtual;
        }
      }
      assert (set k | k in tp) == set e | e in equipamentos :: e.tipo by {
        forall k | k in tp ensures exists e :: e in equipamentos && e.tipo == k {
          var i :| 0 <= i < |tp| && tp[i] == k;
          assert equipamentos[i] in equipamentos;
        }
        forall e | e in equipamentos ensures e.tipo in tp {
          var i :| 0 <= i < |equipamentos| && equipamentos[i] == e;
          assert tp[i] == e.tipo;
        }
      }
      Estatisticas(|clientes|, |equipamentos|, Contagem(st), Contagem(tp))
    }

    /** In get_estatisticas, the per-status counts add up to the number of equipments. */
    lemma PorStatusSomaTotal()
      ensures SomaValores(GetEstatisticas().porStatus) == GetEstatisticas().totalEquipamentos
      ensures SomaValores(GetEstatisticas().porTipo) == GetEstatisticas().totalEquipamentos
    {
      SomaContagem(Status(equipamentos));
      SomaContagem(Tipos(equipamentos));
    }

    /** The empty search box, `'%%'`, lists every client. */
    lemma BuscarClientesVazio()
      ensures forall c :: c in BuscarClientes("") <==> c in clientes
      ensures multiset(BuscarClientes("")) == multiset(clientes)
    {
      forall c ensures ClienteCasa(c, "") {
        ContemVazio(c.nome);
      }
    }

    /** Typing more of a client search term only narrows the list. */
    lemma BuscarClientesEstreita(termo: string, mais: string)
      ensures forall c :: c in BuscarClientes(termo + mais) ==> c in BuscarClientes(termo)
    {
      forall c | c in BuscarClientes(termo + mais) ensures ClienteCasa(c, termo) {
        if Contem(c.nome, termo + mais) {
          ContemPrefixoDoTermo(c.nome, termo, mais);
        } else if Contem(c.telefone, termo + mais) {
          ContemPrefixoDoTermo(c.telefone, termo, mais);
        } else {
          ContemPrefixoDoTermo(c.documento.value, termo, mais);
        }
      }
    }

    /** The empty search box with no status filter lists every equipment. */
    lemma BuscarEquipamentosVazio()
      ensures forall e :: e in BuscarEquipamentos("", None) <==> e in equipamentos
      ensures multiset(BuscarEquipamentos("", None)) == multiset(equipamentos)
    {
      forall e ensures EquipamentoCasa(e, "") {
        ContemVazio(e.numeroSerie);
      }
    }

    /** Typing more of an equipment search term only narrows the list, whatever the status filter. */
    lemma BuscarEquipamentosEstreita(termo: string, mais: string, status: Option<string>)
      ensures forall e :: e in BuscarEquipamentos(termo + mais, status) ==> e in BuscarEquipamentos(termo, status)
    {
      forall e | e in BuscarEquipamentos(termo + mais, status) ensures EquipamentoCasa(e, termo) {
        if Contem(e.numeroSerie, termo + mais) {
          ContemPrefixoDoTermo(e.numeroSerie, termo, mais);
        } else if Contem(e.tipo, termo + mais) {
          ContemPrefixoDoTermo(e.tipo, termo, mais);
        } else if e.marca.Some? && Contem(e.marca.value, termo + mais) {
          ContemPrefixoDoTermo(e.marca.value, termo, mais);
        } else {
          ContemPrefixoDoTermo(e.modelo.value, termo, mais);
        }
      }
    }
  }

  /** The join condition: an open record of the client and the equipment it names. */
  predicate Junta(h: HistoricoPosse, e: Equipamento, clienteId: nat) {
    h.clienteId == Some(clienteId) && h.EstaAtivo() && e.id == h.equipamentoId
  }

  /** The selected columns of one joined pair. */
  function Linha(h: HistoricoPosse, e: Equipamento): PosseAtiva {
    PosseAtiva(e, h.dataInicio, h.acao, h.observacoes)
  }

  /** The join, over explicit tables. */
  function JuncaoDe(hs: seq<HistoricoPosse>, es: seq<Equipamento>, clienteId: nat): (r: seq<PosseAtiva>)
    ensures forall p :: p in r <==> exists h, e :: h in hs && e in es && Junta(h, e, clienteId) && p == Linha(h, e)
  {
    if hs == [] then []
    else
      assert hs == [hs[0]] + hs[1..];
      (if hs[0].clienteId == Some(clienteId) && hs[0].EstaAtivo() then LinhasDe(hs[0], es, clienteId) else [])
        + JuncaoDe(hs[1..], es, clienteId)
  }

  /** The rows one open record joins to: one per stored equipment with its id. */
  function LinhasDe(h: HistoricoPosse, es: seq<Equipamento>, clienteId: nat): (r: seq<PosseAtiva>)
    requires h.clienteId == Some(clienteId) && h.EstaAtivo()
    ensures forall p :: p in r <==> exists e :: e in es && Junta(h, e, clienteId) && p == Linha(h, e)
  {
    if es == [] then []
    else
      assert es == [es[0]] + es[1..];
      (if es[0].id == h.equipamentoId then [Linha(h, es[0])] else []) + LinhasDe(h, es[1..], clienteId)
  }

  /** A rearrangement of a sequence without repeats has no repeats. */
  lemma SemRepeticaoPermutacao<T>(s: seq<T>, r: seq<T>)
    requires forall i, j :: 0 <= i < j < |s| ==> s[i] != s[j]
    requires multiset(r) == multiset(s)
    ensures forall i, j :: 0 <= i < j < |r| ==> r[i] != r[j]
  {
    forall i, j | 0 <= i < j < |r|
      ensures r[i] != r[j]
    {
      if r[i] == r[j] {
        assert r == r[..i] + [r[i]] + r[i + 1..j] + [r[j]] + r[j + 1..];
        assert multiset(r)[r[i]] >= 2;
        SemRepeticaoUma(s, r[i]);
        assert false;
      }
    }
  }

  /** In a sequence without repeats every element occurs once. */
  lemma {:induction false} SemRepeticaoUma<T>(s: seq<T>, x: T)
    requires forall i, j :: 0 <= i < j < |s| ==> s[i] != s[j]
    ensures multiset(s)[x] <= 1
  {
    if s != [] {
      SemRepeticaoUma(s[1..], x);
      assert s == [s[0]] + s[1..];
      if s[0] == x {
        assert x !in s[1..];
      }
    }
  }
}
