/**
 * The equipment form (gui/equipamento_form.py): its field check and the save
 * action, which either edits the selected equipment in place or registers a
 * new one together with its first custody record.
 *
 * The type and status combos are read-only, so the status is a
 * `StatusEquipamento`; the type stays text because the form compares it with
 * the placeholder. The client combo gives an id or nothing.
 */
module CadastroEquipamento {
  import opened Modelos
  import opened Validadores
  import opened Banco
  import opened Movimentacao

  /** The form's inputs, as typed or chosen. */
  datatype FormEquipamento = FormEquipamento(
    numeroSerie: string,
    tipo: string,
    marca: string,
    modelo: string,
    status: StatusEquipamento,
    garantia: string,
    observacoes: string,
    cliente: Option<nat>)

  /** What the status label shows afterwards. */
  datatype Aviso = Cadastrado(numeroSerie: string, id: nat) | Atualizado(numeroSerie: string) | Erro(mensagem: string)

  // ---------------------------------------------------------------------------
  // _validar_campos
  // ---------------------------------------------------------------------------

  /** A real type is chosen: not empty and not the combo's placeholder. */
  predicate TipoEscolhido(tipo: string) {
    tipo != [] && tipo != PlaceholderTipo
  }

  /** Every type the combo offers counts as chosen. */
  lemma TiposOferecidosEscolhidos(tipo: string)
    requires tipo in TodosTipos()
    ensures TipoEscolhido(tipo)
  {
  }

  /** _validar_campos: the serial's message first, then the type's; None lets the save go on. */
  function ValidarCamposEquipamento(f: FormEquipamento): (erro: Option<string>)
    ensures erro.None? <==> |Strip(f.numeroSerie)| >= 3 && TipoEscolhido(f.tipo)
    ensures |Strip(f.numeroSerie)| < 3 ==> erro.Some? && erro.value != "Tipo de equipamento é obrigatório"
  {
    StripIdempotente(f.numeroSerie);
    NumeroSerieValidoSe(Strip(f.numeroSerie));
    match ValidarNumeroSerie(Strip(f.numeroSerie))
    case Invalido(mensagem) =>
      assert mensagem == "Número de série é obrigatório" || mensagem == "Número de série muito curto";
      Some(mensagem)
    case Valido =>
      if !TipoEscolhido(f.tipo) then Some("Tipo de equipamento é obrigatório") else None
  }

  // ---------------------------------------------------------------------------
  // The first custody record of a new equipment
  // ---------------------------------------------------------------------------

  /** Python's `if cliente_id:` — a client is given and its id is not 0. */
  predicate ClienteEscolhido(cliente: Option<nat>) {
    cliente.Some? && cliente.value != 0
  }

  /** Entrega when a client receives the new equipment, Cadastro otherwise. */
  function AcaoInicial(f: FormEquipamento): (a: AcaoHistorico)
    ensures a == Entrega <==> ClienteEscolhido(f.cliente)
    ensures a == Cadastro <==> !ClienteEscolhido(f.cliente)
  {
    if ClienteEscolhido(f.cliente) then Entrega else Cadastro
  }

  /** The status a new equipment ends with: forced to "Com o Cliente" when a client receives it. */
  function StatusInicial(f: FormEquipamento): (s: StatusEquipamento)
    ensures ClienteEscolhido(f.cliente) ==> s == ComCliente
    ensures !ClienteEscolhido(f.cliente) ==> s == f.status
  {
    if ClienteEscolhido(f.cliente) then ComCliente else f.status
  }

  /**
   * The initial status agrees with the movement table's status for the
   * initial action exactly when a client receives the equipment or the user
   * left the status at "Em Estoque".
   */
  lemma StatusInicialConcorda(f: FormEquipamento)
    ensures StatusInicial(f) == DeterminarStatus(AcaoInicial(f)) <==>
      ClienteEscolhido(f.cliente) || f.status == EmEstoque
  {
  }

  /** The notes of the first record: the form's notes after "Cadastro inicial: ", if any. */
  function NotaInicial(obs: Option<string>): (nota: string)
    ensures nota == "Cadastro inicial" <==> obs.None?
    ensures obs.Some? ==>
      (|nota| >= 18 && nota[..18] == "Cadastro inicial: " && nota[18..] == obs.value)
  {
    match obs
    case None => "Cadastro inicial"
    case Some(o) =>
      assert |"Cadastro inicial: " + o| > |"Cadastro inicial"|;
      "Cadastro inicial: " + o
  }

  /** The keyword arguments the edit path passes: every column the form shows. */
  function AlteracaoDe(f: FormEquipamento): (a: AlteracaoEquipamento)
    ensures !a.Vazia()
    ensures forall e: Equipamento :: Aplicar(e, a) == Equipamento(e.id, Strip(f.numeroSerie), f.tipo,
      LimpoOuNulo(f.marca), LimpoOuNulo(f.modelo), e.dataRegistro, f.status.Rotulo(),
      LimpoOuNulo(f.garantia), LimpoOuNulo(f.observacoes))
  {
    AlteracaoEquipamento(Some(Strip(f.numeroSerie)), Some(f.tipo), Some(LimpoOuNulo(f.marca)),
      Some(LimpoOuNulo(f.modelo)), Some(f.status.Rotulo()), Some(LimpoOuNulo(f.garantia)),
      Some(LimpoOuNulo(f.observacoes)))
  }

  /** The row a successful insert appends, before any status change. */
  function LinhaNova(f: FormEquipamento, id: nat, agora: nat): Equipamento {
    Equipamento(id, Strip(f.numeroSerie), f.tipo, LimpoOuNulo(f.marca), LimpoOuNulo(f.modelo), agora,
      f.status.Rotulo(), LimpoOuNulo(f.garantia), LimpoOuNulo(f.observacoes))
  }

  // ---------------------------------------------------------------------------
  // Facts about a freshly inserted equipment
  // ---------------------------------------------------------------------------

  /** Updating the status of the last row, whose id no earlier row has, changes that row only. */
  lemma AtualizarUltima(es: seq<Equipamento>, e: Equipamento, status: string)
    requires forall i :: 0 <= i < |es| ==> es[i].id != e.id
    ensures AtualizarLinhas(es + [e], e.id, SoStatus(status)) == es + [e.(statusAtual := status)]
  {
    var r := AtualizarLinhas(es + [e], e.id, SoStatus(status));
    assert forall i :: 0 <= i < |es| ==> r[i] == (es + [e])[i] == es[i];
  }

  /** No record names an id at or above the equipment counter. */
  lemma RegistrosAbaixoDoContador(hs: seq<HistoricoPosse>, es: seq<Equipamento>, proximo: nat)
    requires HistoricoReferenciaEquipamentos(hs, es) && EquipamentosValidos(es, proximo)
    ensures forall h :: h in hs ==> h.equipamentoId < proximo
  {
    forall h | h in hs
      ensures h.equipamentoId < proximo
    {
      var i :| 0 <= i < |hs| && hs[i] == h;
      assert TemEquipamento(es, hs[i].equipamentoId);
    }
  }

  /** Appending an equipment keeps every record's reference. */
  lemma ReferenciaAposAnexar(hs: seq<HistoricoPosse>, es: seq<Equipamento>, e: Equipamento)
    requires HistoricoReferenciaEquipamentos(hs, es)
    ensures HistoricoReferenciaEquipamentos(hs, es + [e])
  {
    forall i | 0 <= i < |hs|
      ensures TemEquipamento(es + [e], hs[i].equipamentoId)
    {
      var j :| 0 <= j < |es| && es[j].id == hs[i].equipamentoId;
      assert (es + [e])[j] == es[j];
    }
  }

  // ---------------------------------------------------------------------------
  // _salvar_equipamento
  // ---------------------------------------------------------------------------

  /**
   * The rows of the insert path: the equipment, then (with a client) its
   * status forced to "Com o Cliente". A serial already stored stops it
   * before anything is written.
   */
  method InserirLinha(db: Database, f: FormEquipamento, agoraRegistro: nat) returns (r: Resultado<nat>)
    requires db.Valid() && db.LivroConsistente()
    modifies db
    ensures db.Valid() && db.LivroConsistente()
    ensures old(db.SerieEmUso(Strip(f.numeroSerie))) ==>
      r == Falha("Número de série já cadastrado: " + Strip(f.numeroSerie)) && unchanged(db)
    ensures !old(db.SerieEmUso(Strip(f.numeroSerie))) ==>
      && r == Sucesso(old(db.proximoEquipamento))
      && db.equipamentos == old(db.equipamentos)
           + [LinhaNova(f, r.valor, agoraRegistro).(statusAtual := StatusInicial(f).Rotulo())]
      && db.historico == old(db.historico) && db.clientes == old(db.clientes)
      && db.proximoEquipamento == old(db.proximoEquipamento) + 1
      && db.proximoCliente == old(db.proximoCliente) && db.proximoHistorico == old(db.proximoHistorico)
      && forall h :: h in db.historico ==> h.equipamentoId != r.valor
  {
    r := db.InserirEquipamento(Strip(f.numeroSerie), f.tipo, LimpoOuNulo(f.marca), LimpoOuNulo(f.modelo),
                               f.status.Rotulo(), LimpoOuNulo(f.garantia), LimpoOuNulo(f.observacoes), agoraRegistro);
    if r.Falha? {
      return;
    }
    var id := r.valor;
    ghost var es0 := old(db.equipamentos);
    var linha := LinhaNova(f, id, agoraRegistro);
    RegistrosAbaixoDoContador(db.historico, es0, id);
    ReferenciaAposAnexar(db.historico, es0, linha);
    if ClienteEscolhido(f.cliente) {
      ForcarStatus(db, es0, linha, ComCliente.Rotulo());
    }
  }

  /** atualizar_status_equipamento on the row just appended: only that row's status changes. */
  method ForcarStatus(db: Database, ghost es0: seq<Equipamento>, linha: Equipamento, status: string)
    requires db.Valid() && db.LivroConsistente()
    requires db.equipamentos == es0 + [linha]
    requires forall i :: 0 <= i < |es0| ==> es0[i].id != linha.id
    modifies db
    ensures db.Valid() && db.LivroConsistente()
    ensures db.equipamentos == es0 + [linha.(statusAtual := status)]
    ensures db.historico == old(db.historico) && db.clientes == old(db.clientes)
    ensures db.proximoCliente == old(db.proximoCliente) && db.proximoEquipamento == old(db.proximoEquipamento)
    ensures db.proximoHistorico == old(db.proximoHistorico)
  {
    var _ := db.AtualizarStatusEquipamento(linha.id, status);
    AtualizarUltima(es0, linha, status);
    ReferenciaAposAtualizar(db.historico, es0 + [linha], linha.id, SoStatus(status));
  }

  /**
   * The insert path: the equipment row, its status, and one open record by
   * "Sistema" that is now the equipment's current custody.
   */
  method Cadastrar(db: Database, f: FormEquipamento, agoraRegistro: nat, agoraInicio: nat) returns (aviso: Aviso)
    requires db.Valid() && db.LivroConsistente()
    modifies db
    ensures db.Valid() && db.LivroConsistente()
    ensures old(db.SerieEmUso(Strip(f.numeroSerie))) ==>
      aviso == Erro("Número de série já cadastrado: " + Strip(f.numeroSerie)) && unchanged(db)
    ensures !old(db.SerieEmUso(Strip(f.numeroSerie))) ==>
      var id := old(db.proximoEquipamento);
      var registro := NovoHistorico(old(db.proximoHistorico), id, f.cliente, agoraInicio, AcaoInicial(f).Rotulo(),
                                    "Sistema", Some(NotaInicial(LimpoOuNulo(f.observacoes))));
      && aviso == Cadastrado(Strip(f.numeroSerie), id)
      && db.equipamentos == old(db.equipamentos)
           + [LinhaNova(f, id, agoraRegistro).(statusAtual := StatusInicial(f).Rotulo())]
      && db.historico == old(db.historico) + [registro]
      && db.BuscarHistoricoAtivoEquipamento(id) == Some(registro)
      && db.clientes == old(db.clientes)
      && db.proximoEquipamento == old(db.proximoEquipamento) + 1
      && db.proximoHistorico == old(db.proximoHistorico) + 1
      && db.proximoCliente == old(db.proximoCliente)
  {
    var inserido := InserirLinha(db, f, agoraRegistro);
    if inserido.Falha? {
      return Erro(inserido.mensagem);
    }
    var id := inserido.valor;
    assert TemEquipamento(db.equipamentos, id) by {
      assert db.equipamentos[|db.equipamentos| - 1].id == id;
    }
    AbrirRegistro(db, id, AcaoInicial(f), "Sistema", f.cliente, Some(NotaInicial(LimpoOuNulo(f.observacoes))),
                  agoraInicio);
    aviso := Cadastrado(Strip(f.numeroSerie), id);
  }

  /**
   * _salvar_equipamento as written. Editing writes every column, status
   * included, and touches no custody record; the notice says "atualizado"
   * even when the store refused the update because the serial was taken.
   */
  method SalvarEquipamento(db: Database, f: FormEquipamento, editando: Option<nat>,
                           agoraRegistro: nat, agoraInicio: nat)
    returns (aviso: Aviso)
    requires db.Valid() && db.LivroConsistente()
    modifies db
    ensures db.Valid() && db.LivroConsistente()
    ensures ValidarCamposEquipamento(f).Some? ==> aviso == Erro(ValidarCamposEquipamento(f).value) && unchanged(db)
    ensures ValidarCamposEquipamento(f).None? && editando.Some? ==>
      && aviso == Atualizado(Strip(f.numeroSerie))
      && (old(db.ConflitoSerie(editando.value, AlteracaoDe(f))) ==> db.equipamentos == old(db.equipamentos))
      && (!old(db.ConflitoSerie(editando.value, AlteracaoDe(f))) ==>
            db.equipamentos == AtualizarLinhas(old(db.equipamentos), editando.value, AlteracaoDe(f)))
      && db.historico == old(db.historico) && db.clientes == old(db.clientes)
      && db.proximoCliente == old(db.proximoCliente) && db.proximoEquipamento == old(db.proximoEquipamento)
      && db.proximoHistorico == old(db.proximoHistorico)
    ensures ValidarCamposEquipamento(f).None? && editando.None? && old(db.SerieEmUso(Strip(f.numeroSerie))) ==>
      aviso == Erro("Número de série já cadastrado: " + Strip(f.numeroSerie)) && unchanged(db)
    ensures ValidarCamposEquipamento(f).None? && editando.None? && !old(db.SerieEmUso(Strip(f.numeroSerie))) ==>
      var id := old(db.proximoEquipamento);
      var registro := NovoHistorico(old(db.proximoHistorico), id, f.cliente, agoraInicio, AcaoInicial(f).Rotulo(),
                                    "Sistema", Some(NotaInicial(LimpoOuNulo(f.observacoes))));
      && aviso == Cadastrado(Strip(f.numeroSerie), id)
      && db.equipamentos == old(db.equipamentos)
           + [LinhaNova(f, id, agoraRegistro).(statusAtual := StatusInicial(f).Rotulo())]
      && db.historico == old(db.historico) + [registro]
      && db.BuscarHistoricoAtivoEquipamento(id) == Some(registro)
      && db.clientes == old(db.clientes)
      && db.proximoEquipamento == old(db.proximoEquipamento) + 1
      && db.proximoHistorico == old(db.proximoHistorico) + 1
      && db.proximoCliente == old(db.proximoCliente)
  {
    var erro := ValidarCamposEquipamento(f);
    if erro.Some? {
      return Erro(erro.value);
    }
    if editando.Some? {
      var _ := db.AtualizarEquipamento(editando.value, AlteracaoDe(f));
      ReferenciaAposAtualizar(db.historico, old(db.equipamentos), editando.value, AlteracaoDe(f));
      aviso := Atualizado(Strip(f.numeroSerie));
    } else {
      aviso := Cadastrar(db, f, agoraRegistro, agoraInicio);
    }
  }

  /** The edit path reporting the store's refusal instead of success. */
  method SalvarEquipamentoCorrigido(db: Database, f: FormEquipamento, editando: Option<nat>,
                                    agoraRegistro: nat, agoraInicio: nat)
    returns (aviso: Aviso)
    requires db.Valid() && db.LivroConsistente()
    modifies db
    ensures db.Valid() && db.LivroConsistente()
    ensures ValidarCamposEquipamento(f).Some? ==> aviso == Erro(ValidarCamposEquipamento(f).value) && unchanged(db)
    ensures ValidarCamposEquipamento(f).None? && editando.Some? ==>
      && (aviso.Atualizado? <==> !old(db.ConflitoSerie(editando.value, AlteracaoDe(f))))
      && (aviso.Atualizado? ==> db.equipamentos == AtualizarLinhas(old(db.equipamentos), editando.value, AlteracaoDe(f)))
      && (!aviso.Atualizado? ==>
            aviso == Erro("Número de série já cadastrado: " + Strip(f.numeroSerie))
            && db.equipamentos == old(db.equipamentos))
      && db.historico == old(db.historico) && db.clientes == old(db.clientes)
      && db.proximoCliente == old(db.proximoCliente) && db.proximoEquipamento == old(db.proximoEquipamento)
      && db.proximoHistorico == old(db.proximoHistorico)
    ensures ValidarCamposEquipamento(f).None? && editando.None? && old(db.SerieEmUso(Strip(f.numeroSerie))) ==>
      aviso == Erro("Número de série já cadastrado: " + Strip(f.numeroSerie)) && unchanged(db)
    ensures ValidarCamposEquipamento(f).None? && editando.None? && !old(db.SerieEmUso(Strip(f.numeroSerie))) ==>
      var id := old(db.proximoEquipamento);
      var registro := NovoHistorico(old(db.proximoHistorico), id, f.cliente, agoraInicio, AcaoInicial(f).Rotulo(),
                                    "Sistema", Some(NotaInicial(LimpoOuNulo(f.observacoes))));
      && aviso == Cadastrado(Strip(f.numeroSerie), id)
      && db.equipamentos == old(db.equipamentos)
           + [LinhaNova(f, id, agoraRegistro).(statusAtual := StatusInicial(f).Rotulo())]
      && db.historico == old(db.historico) + [registro]
      && db.BuscarHistoricoAtivoEquipamento(id) == Some(registro)
      && db.clientes == old(db.clientes)
      && db.proximoEquipamento == old(db.proximoEquipamento) + 1
      && db.proximoHistorico == old(db.proximoHistorico) + 1
      && db.proximoCliente == old(db.proximoCliente)
  {
    var erro := ValidarCamposEquipamento(f);
    if erro.Some? {
      return Erro(erro.value);
    }
    if editando.Some? {
      var ok := db.AtualizarEquipamento(editando.value, AlteracaoDe(f));
      ReferenciaAposAtualizar(db.historico, old(db.equipamentos), editando.value, AlteracaoDe(f));
      if ok {
        aviso := Atualizado(Strip(f.numeroSerie));
      } else {
        aviso := Erro("Número de série já cadastrado: " + Strip(f.numeroSerie));
      }
    } else {
      aviso := Cadastrar(db, f, agoraRegistro, agoraInicio);
    }
  }
}
