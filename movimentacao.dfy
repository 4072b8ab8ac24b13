/**
 * The movement form (gui/movimentacao_form.py): the action-to-status table,
 * the form check, and the three store calls that record a movement.
 *
 * Combo selections are plain ids: `None` when the combo text is not one of
 * the loaded entries. The clock is two parameters, one per `datetime.now()`
 * the store reads (closing, then opening).
 */
module Movimentacao {
  import opened Modelos
  import opened Validadores
  import opened Banco

  // ---------------------------------------------------------------------------
  // _determinar_status
  // ---------------------------------------------------------------------------

  /** The status an equipment takes after an action (the client argument plays no part). */
  function DeterminarStatus(acao: AcaoHistorico): (s: StatusEquipamento)
    ensures s == ComCliente <==> acao == Entrega || acao == Transferencia
    ensures s == EmManutencao <==> acao == Manutencao || acao == Reparo
    ensures s == Baixado <==> acao == Baixa
    ensures s == EmEstoque <==> acao == Devolucao || acao == Cadastro
  {
    match acao
    case Entrega => ComCliente
    case Devolucao => EmEstoque
    case Manutencao | Reparo => EmManutencao
    case Transferencia => ComCliente
    case Baixa => Baixado
    case _ => EmEstoque
  }

  /** No movement puts an equipment "Em Reparo" or "Devolvido". */
  lemma DeterminarStatusNuncaReparoOuDevolvido(acao: AcaoHistorico)
    ensures DeterminarStatus(acao) != EmReparo && DeterminarStatus(acao) != Devolvido
  {
  }

  // ---------------------------------------------------------------------------
  // _on_acao_change and _validar_campos
  // ---------------------------------------------------------------------------

  /** The client field the form shows for an action. */
  datatype CampoCliente = Oculto | Destino | Origem

  /** _on_acao_change: destination (required) for Entrega and Transferência, origin for Devolução. */
  function CampoClienteDe(acao: Option<AcaoHistorico>): (c: CampoCliente)
    ensures c == Destino <==> acao == Some(Entrega) || acao == Some(Transferencia)
    ensures c == Origem <==> acao == Some(Devolucao)
  {
    match acao
    case Some(Entrega) => Destino
    case Some(Transferencia) => Destino
    case Some(Devolucao) => Origem
    case _ => Oculto
  }

  /** The form's inputs; `acao` is None while the combo shows its placeholder. */
  datatype FormMovimentacao = FormMovimentacao(
    acao: Option<AcaoHistorico>,
    equipamento: Option<nat>,
    usuario: string,
    observacoes: string,
    cliente: Option<nat>)

  /** The actions for which a destination client must be chosen. */
  predicate ExigeCliente(acao: AcaoHistorico) {
    acao == Entrega || acao == Transferencia
  }

  /** _validar_campos: the first failing check's message, or None when the form may be recorded. */
  function ValidarCampos(f: FormMovimentacao): (erro: Option<string>)
    ensures erro.None? <==>
      && f.acao.Some? && f.equipamento.Some? && Strip(f.usuario) != []
      && (ExigeCliente(f.acao.value) ==> f.cliente.Some?)
  {
    if f.acao.None? then Some("Selecione o tipo de movimentação")
    else if f.equipamento.None? then Some("Selecione um equipamento")
    else if Strip(f.usuario) == [] then Some("Informe seu nome")
    else if ExigeCliente(f.acao.value) && f.cliente.None? then Some("Selecione o cliente de destino")
    else None
  }

  /** The client is required exactly when the form shows it as the destination. */
  lemma ClienteExigidoSeDestino(f: FormMovimentacao)
    requires f.acao.Some? && f.equipamento.Some? && Strip(f.usuario) != []
    ensures ValidarCampos(f) == Some("Selecione o cliente de destino") <==>
      CampoClienteDe(f.acao) == Destino && f.cliente.None?
  {
  }

  /** The forms' `texto.strip() or None`. */
  function LimpoOuNulo(texto: string): (r: Option<string>)
    ensures r.None? <==> Strip(texto) == []
    ensures r.Some? ==> r.value == Strip(texto)
  {
    if Strip(texto) == [] then None else Some(Strip(texto))
  }

  // ---------------------------------------------------------------------------
  // The ledger after one movement
  // ---------------------------------------------------------------------------

  /** Closes the found open record, if any. */
  function FecharSeAberto(hs: seq<HistoricoPosse>, ativo: Option<HistoricoPosse>, fim: nat): (r: seq<HistoricoPosse>)
    ensures |r| == |hs|
  {
    match ativo
    case None => hs
    case Some(h) => FecharLinhas(hs, h.id, fim)
  }

  /** An open record of `eq`, or none when it has none: what buscar_historico_ativo_equipamento gives. */
  ghost predicate AtivoDe(hs: seq<HistoricoPosse>, eq: nat, ativo: Option<HistoricoPosse>) {
    match ativo
    case None => forall h :: h in hs && h.equipamentoId == eq ==> !h.EstaAtivo()
    case Some(a) => a in hs && a.equipamentoId == eq && a.EstaAtivo()
  }

  /** Closing the equipment's open record keeps the ledger invariant and leaves it with no open record. */
  lemma FecharDeixaSemAberto(hs: seq<HistoricoPosse>, es: seq<Equipamento>, eq: nat,
                             ativo: Option<HistoricoPosse>, fim: nat)
    requires UmAbertoPorEquipamento(hs) && HistoricoReferenciaEquipamentos(hs, es)
    requires AtivoDe(hs, eq, ativo)
    ensures UmAbertoPorEquipamento(FecharSeAberto(hs, ativo, fim))
    ensures HistoricoReferenciaEquipamentos(FecharSeAberto(hs, ativo, fim), es)
    ensures AtivoDe(FecharSeAberto(hs, ativo, fim), eq, None)
  {
    var fechado := FecharSeAberto(hs, ativo, fim);
    forall i | 0 <= i < |fechado| && fechado[i].equipamentoId == eq
      ensures !fechado[i].EstaAtivo()
    {
      match ativo
      case None =>
        assert fechado[i] == hs[i] && hs[i] in hs;
      case Some(a) =>
        var k :| 0 <= k < |hs| && hs[k] == a;
        if hs[i].EstaAtivo() {
          AbertoUnico(hs, i, k);
        }
    }
    forall h | h in fechado && h.equipamentoId == eq
      ensures !h.EstaAtivo()
    {
      var i :| 0 <= i < |fechado| && fechado[i] == h;
    }
    forall i, j | 0 <= i < j < |fechado| && fechado[i].EstaAtivo() && fechado[j].EstaAtivo()
      ensures fechado[i].equipamentoId != fechado[j].equipamentoId
    {
      assert hs[i].EstaAtivo() && hs[j].EstaAtivo();
    }
    forall i | 0 <= i < |fechado|
      ensures TemEquipamento(es, fechado[i].equipamentoId)
    {
      assert fechado[i].equipamentoId == hs[i].equipamentoId;
    }
  }

  /**
   * Appending an open record of an existing equipment that has no open record
   * keeps the ledger invariant and makes the new record its only open one.
   */
  lemma AnexarAberto(hs: seq<HistoricoPosse>, es: seq<Equipamento>, novo: HistoricoPosse)
    requires UmAbertoPorEquipamento(hs) && HistoricoReferenciaEquipamentos(hs, es)
    requires AtivoDe(hs, novo.equipamentoId, None)
    requires novo.EstaAtivo() && TemEquipamento(es, novo.equipamentoId)
    ensures UmAbertoPorEquipamento(hs + [novo])
    ensures HistoricoReferenciaEquipamentos(hs + [novo], es)
    ensures forall h :: h in hs + [novo] && h.equipamentoId == novo.equipamentoId && h.EstaAtivo() ==> h == novo
  {
    var r := hs + [novo];
    forall i, j | 0 <= i < j < |r| && r[i].EstaAtivo() && r[j].EstaAtivo()
      ensures r[i].equipamentoId != r[j].equipamentoId
    {
      assert r[i] == hs[i] && r[i] in hs;
    }
    forall i | 0 <= i < |r|
      ensures TemEquipamento(es, r[i].equipamentoId)
    {
      if i < |hs| {
        assert r[i] == hs[i];
      }
    }
    forall h | h in r && h.equipamentoId == novo.equipamentoId && h.EstaAtivo()
      ensures h == novo
    {
      var i :| 0 <= i < |r| && r[i] == h;
    }
  }

  /**
   * Closing the equipment's open record and appending a new open one keeps the
   * ledger invariant, and leaves the new record as the equipment's only open one.
   */
  lemma MovimentoMantemLivro(hs: seq<HistoricoPosse>, es: seq<Equipamento>,
                             eq: nat, ativo: Option<HistoricoPosse>, fim: nat, novo: HistoricoPosse)
    requires UmAbertoPorEquipamento(hs) && HistoricoReferenciaEquipamentos(hs, es)
    requires AtivoDe(hs, eq, ativo)
    requires novo.EstaAtivo() && novo.equipamentoId == eq
    requires TemEquipamento(es, eq)
    ensures UmAbertoPorEquipamento(FecharSeAberto(hs, ativo, fim) + [novo])
    ensures HistoricoReferenciaEquipamentos(FecharSeAberto(hs, ativo, fim) + [novo], es)
    ensures forall h :: h in FecharSeAberto(hs, ativo, fim) + [novo] && h.equipamentoId == eq && h.EstaAtivo() ==>
      h == novo
  {
    FecharDeixaSemAberto(hs, es, eq, ativo, fim);
    AnexarAberto(FecharSeAberto(hs, ativo, fim), es, novo);
  }

  /** Under the single-open rule, two open records of one equipment are the same record. */
  lemma AbertoUnico(hs: seq<HistoricoPosse>, i: nat, k: nat)
    requires UmAbertoPorEquipamento(hs)
    requires i < |hs| && k < |hs| && hs[i].EstaAtivo() && hs[k].EstaAtivo()
    requires hs[i].equipamentoId == hs[k].equipamentoId
    ensures i == k
  {
  }

  /** Updating columns other than the id keeps every record's equipment reference. */
  lemma ReferenciaAposAtualizar(hs: seq<HistoricoPosse>, es: seq<Equipamento>, id: nat, a: AlteracaoEquipamento)
    requires HistoricoReferenciaEquipamentos(hs, es)
    ensures HistoricoReferenciaEquipamentos(hs, AtualizarLinhas(es, id, a))
  {
    var novos := AtualizarLinhas(es, id, a);
    forall i | 0 <= i < |hs|
      ensures TemEquipamento(novos, hs[i].equipamentoId)
    {
      var j :| 0 <= j < |es| && es[j].id == hs[i].equipamentoId;
      assert novos[j] == (if es[j].id == id then Aplicar(es[j], a) else es[j]);
      assert 0 <= j < |novos| && novos[j].id == hs[i].equipamentoId;
    }
  }

  /** With a clock that does not run backwards, the closed record ends no later than the new one starts. */
  lemma FimAntesDoInicio(hs: seq<HistoricoPosse>, ativo: HistoricoPosse, agoraFim: nat, agoraInicio: nat,
                         novo: HistoricoPosse)
    requires ativo in hs
    requires agoraFim <= agoraInicio && novo.dataInicio == agoraInicio
    ensures forall h :: h in FecharSeAberto(hs, Some(ativo), agoraFim) && h.id == ativo.id ==>
      h.dataFim.Some? && h.dataFim.value <= novo.dataInicio
  {
    var r := FecharSeAberto(hs, Some(ativo), agoraFim);
    forall h | h in r && h.id == ativo.id
      ensures h.dataFim == Some(agoraFim)
    {
      var i :| 0 <= i < |r| && r[i] == h;
    }
  }

  // ---------------------------------------------------------------------------
  // _registrar_movimentacao
  // ---------------------------------------------------------------------------

  /** The success text of the status label. */
  function MensagemSucesso(numeroSerie: string, status: StatusEquipamento): string {
    "Movimentação registrada! " + numeroSerie + " → " + status.Rotulo()
  }

  /** The stored row with that id. */
  function EquipamentoComId(es: seq<Equipamento>, id: nat): (r: Option<Equipamento>)
    ensures r.Some? <==> TemEquipamento(es, id)
    ensures r.Some? ==> r.value in es && r.value.id == id
  {
    if es == [] then None
    else if es[0].id == id then Some(es[0])
    else
      var r := EquipamentoComId(es[1..], id);
      assert forall j :: 1 <= j < |es| ==> es[j] == es[1..][j - 1];
      r
  }

  /** Only `status_atual` changes, so the updated equipment carries the new status. */
  lemma StatusAposAtualizar(es: seq<Equipamento>, id: nat, status: string)
    ensures forall e :: e in AtualizarLinhas(es, id, SoStatus(status)) && e.id == id ==> e.statusAtual == status
  {
    var r := AtualizarLinhas(es, id, SoStatus(status));
    forall e | e in r && e.id == id
      ensures e.statusAtual == status
    {
      var i :| 0 <= i < |r| && r[i] == e;
      assert es[i].id == id;
    }
  }

  /** When the new record is the equipment's only open one, the store's lookup finds it. */
  lemma AtivoEhNovo(db: Database, eq: nat, novo: HistoricoPosse)
    requires novo in db.historico && novo.equipamentoId == eq && novo.EstaAtivo()
    requires forall h :: h in db.historico && h.equipamentoId == eq && h.EstaAtivo() ==> h == novo
    ensures db.BuscarHistoricoAtivoEquipamento(eq) == Some(novo)
  {
    var k :| 0 <= k < |db.historico| && db.historico[k] == novo;
    assert db.TemAberto(eq);
  }

  /** The first two store calls of a movement: find the equipment's open record and close it. */
  method FecharAtivo(db: Database, eq: nat, agoraFim: nat) returns (ativo: Option<HistoricoPosse>)
    requires db.Valid() && db.LivroConsistente()
    modifies db
    ensures db.Valid() && db.LivroConsistente()
    ensures ativo == old(db.BuscarHistoricoAtivoEquipamento(eq))
    ensures db.historico == FecharSeAberto(old(db.historico), ativo, agoraFim)
    ensures AtivoDe(db.historico, eq, None)
    ensures db.equipamentos == old(db.equipamentos) && db.clientes == old(db.clientes)
    ensures db.proximoCliente == old(db.proximoCliente) && db.proximoEquipamento == old(db.proximoEquipamento)
    ensures db.proximoHistorico == old(db.proximoHistorico)
  {
    ghost var hs0 := db.historico;
    ativo := db.BuscarHistoricoAtivoEquipamento(eq);
    assert AtivoDe(hs0, eq, ativo);
    if ativo.Some? {
      var _ := db.FinalizarHistorico(ativo.value.id, None, agoraFim);
    }
    FecharDeixaSemAberto(hs0, db.equipamentos, eq, ativo, agoraFim);
  }

  /**
   * inserir_historico for an equipment with no open record: the new record
   * becomes its only open one, which the store's lookup then returns.
   */
  method AbrirRegistro(db: Database, eq: nat, acao: AcaoHistorico, usuario: string, cliente: Option<nat>,
                       obs: Option<string>, agora: nat)
    requires db.Valid() && db.LivroConsistente() && db.ExisteEquipamento(eq)
    requires AtivoDe(db.historico, eq, None)
    modifies db
    ensures db.Valid() && db.LivroConsistente()
    ensures var novo := NovoHistorico(old(db.proximoHistorico), eq, cliente, agora, acao.Rotulo(), usuario, obs);
      && db.historico == old(db.historico) + [novo]
      && db.BuscarHistoricoAtivoEquipamento(eq) == Some(novo)
      && forall h :: h in db.historico && h.equipamentoId == eq && h.EstaAtivo() ==> h == novo
    ensures db.equipamentos == old(db.equipamentos) && db.clientes == old(db.clientes)
    ensures db.proximoCliente == old(db.proximoCliente) && db.proximoEquipamento == old(db.proximoEquipamento)
    ensures db.proximoHistorico == old(db.proximoHistorico) + 1
  {
    ghost var hs0 := db.historico;
    var id := db.InserirHistorico(eq, acao.Rotulo(), usuario, cliente, None, obs, agora);
    ghost var novo := NovoHistorico(id, eq, cliente, agora, acao.Rotulo(), usuario, obs);
    AnexarAberto(hs0, db.equipamentos, novo);
    AtivoEhNovo(db, eq, novo);
  }

  /** atualizar_status_equipamento keeps the ledger invariant: no record changes and no id moves. */
  method GravarStatus(db: Database, eq: nat, status: string)
    requires db.Valid() && db.LivroConsistente()
    modifies db
    ensures db.Valid() && db.LivroConsistente()
    ensures db.equipamentos == AtualizarLinhas(old(db.equipamentos), eq, SoStatus(status))
    ensures db.historico == old(db.historico) && db.clientes == old(db.clientes)
    ensures db.proximoCliente == old(db.proximoCliente) && db.proximoEquipamento == old(db.proximoEquipamento)
    ensures db.proximoHistorico == old(db.proximoHistorico)
  {
    ghost var es0 := db.equipamentos;
    var _ := db.AtualizarStatusEquipamento(eq, status);
    assert db.equipamentos == AtualizarLinhas(es0, eq, SoStatus(status));
    ReferenciaAposAtualizar(db.historico, es0, eq, SoStatus(status));
  }

  /**
   * The three store calls of a movement: close the equipment's open record,
   * open a new one, write the status the action implies.
   */
  method Movimentar(db: Database, eq: nat, acao: AcaoHistorico, usuario: string, cliente: Option<nat>,
                    obs: Option<string>, agoraFim: nat, agoraInicio: nat)
    requires db.Valid() && db.LivroConsistente() && db.ExisteEquipamento(eq)
    modifies db
    ensures db.Valid() && db.LivroConsistente()
    ensures var novo := NovoHistorico(old(db.proximoHistorico), eq, cliente, agoraInicio, acao.Rotulo(), usuario, obs);
      && db.historico == FecharSeAberto(old(db.historico), old(db.BuscarHistoricoAtivoEquipamento(eq)), agoraFim)
                         + [novo]
      && db.BuscarHistoricoAtivoEquipamento(eq) == Some(novo)
    ensures db.equipamentos == AtualizarLinhas(old(db.equipamentos), eq, SoStatus(DeterminarStatus(acao).Rotulo()))
    ensures db.clientes == old(db.clientes)
    ensures db.proximoCliente == old(db.proximoCliente) && db.proximoEquipamento == old(db.proximoEquipamento)
    ensures db.proximoHistorico == old(db.proximoHistorico) + 1
  {
    var _ := FecharAtivo(db, eq, agoraFim);
    AbrirRegistro(db, eq, acao, usuario, cliente, obs, agoraInicio);
    GravarStatus(db, eq, DeterminarStatus(acao).Rotulo());
  }

  /**
   * _registrar_movimentacao: a form that fails its check changes nothing;
   * otherwise one movement is recorded with the trimmed user and notes.
   */
  method RegistrarMovimentacao(db: Database, f: FormMovimentacao, agoraFim: nat, agoraInicio: nat)
    returns (r: Resultado<string>)
    requires db.Valid() && db.LivroConsistente()
    requires f.equipamento.Some? ==> db.ExisteEquipamento(f.equipamento.value)
    modifies db
    ensures db.Valid() && db.LivroConsistente()
    ensures ValidarCampos(f).Some? ==> r == Falha(ValidarCampos(f).value) && unchanged(db)
    ensures ValidarCampos(f).None? ==>
      var eq := f.equipamento.value;
      var acao := f.acao.value;
      var novo := NovoHistorico(old(db.proximoHistorico), eq, f.cliente, agoraInicio, acao.Rotulo(),
                                Strip(f.usuario), LimpoOuNulo(f.observacoes));
      && db.historico == FecharSeAberto(old(db.historico), old(db.BuscarHistoricoAtivoEquipamento(eq)), agoraFim)
                         + [novo]
      && db.BuscarHistoricoAtivoEquipamento(eq) == Some(novo)
      && db.equipamentos == AtualizarLinhas(old(db.equipamentos), eq, SoStatus(DeterminarStatus(acao).Rotulo()))
      && (forall e :: e in db.equipamentos && e.id == eq ==> e.statusAtual == DeterminarStatus(acao).Rotulo())
      && db.clientes == old(db.clientes)
      && db.proximoCliente == old(db.proximoCliente) && db.proximoEquipamento == old(db.proximoEquipamento)
      && db.proximoHistorico == old(db.proximoHistorico) + 1
      && r == Sucesso(MensagemSucesso(EquipamentoComId(old(db.equipamentos), eq).value.numeroSerie,
                                      DeterminarStatus(acao)))
  {
    var erro := ValidarCampos(f);
    if erro.Some? {
      return Falha(erro.value);
    }
    var eq := f.equipamento.value;
    var serie := EquipamentoComId(db.equipamentos, eq).value.numeroSerie;
    ghost var es0 := db.equipamentos;
    Movimentar(db, eq, f.acao.value, Strip(f.usuario), f.cliente, LimpoOuNulo(f.observacoes), agoraFim, agoraInicio);
    StatusAposAtualizar(es0, eq, DeterminarStatus(f.acao.value).Rotulo());
    r := Sucesso(MensagemSucesso(serie, DeterminarStatus(f.acao.value)));
  }

  /** Recording is not idempotent: the same form twice leaves two new records. */
  method RegistrarDuasVezes(db: Database, f: FormMovimentacao, t1: nat, t2: nat, t3: nat, t4: nat)
    requires db.Valid() && db.LivroConsistente()
    requires ValidarCampos(f).None? && db.ExisteEquipamento(f.equipamento.value)
    modifies db
    ensures db.Valid() && db.LivroConsistente()
    ensures var eq, acao := f.equipamento.value, f.acao.value;
      var primeiro := NovoHistorico(old(db.proximoHistorico), eq, f.cliente, t2, acao.Rotulo(),
                                    Strip(f.usuario), LimpoOuNulo(f.observacoes));
      var segundo := NovoHistorico(old(db.proximoHistorico) + 1, eq, f.cliente, t4, acao.Rotulo(),
                                   Strip(f.usuario), LimpoOuNulo(f.observacoes));
      && |db.historico| == |old(db.historico)| + 2
      && db.historico[|old(db.historico)|] == primeiro.(dataFim := Some(t3))
      && db.historico[|old(db.historico)| + 1] == segundo
      && db.BuscarHistoricoAtivoEquipamento(eq) == Some(segundo)
    ensures db.proximoCliente == old(db.proximoCliente) && db.proximoEquipamento == old(db.proximoEquipamento)
    ensures db.proximoHistorico == old(db.proximoHistorico) + 2
    ensures db.clientes == old(db.clientes)
  {
    ghost var n := |db.historico|;
    var _ := RegistrarMovimentacao(db, f, t1, t2);
    ghost var hs1 := db.historico;
    assert |hs1| == n + 1;
    var _ := RegistrarMovimentacao(db, f, t3, t4);
    assert db.historico[n] == FecharLinhas(hs1, hs1[n].id, t3)[n];
  }
}
