/**
 * Entities and constant lists of the inventory system (models.py).
 *
 * Status and action names are closed sets in the user interface (read-only
 * combo boxes over `todos()`), so they are datatypes here; the store keeps
 * them as text, which is why each carries its label.
 */
module Modelos {

  datatype Option<T> = None | Some(value: T)

  // ---------------------------------------------------------------------------
  // Constant lists
  // ---------------------------------------------------------------------------

  /** StatusEquipamento: the possible states of an equipment. */
  datatype StatusEquipamento = EmEstoque | ComCliente | EmReparo | Devolvido | Baixado | EmManutencao
  {
    /** The text the store keeps in `status_atual`. */
    function Rotulo(): string {
      match this
      case EmEstoque => "Em Estoque"
      case ComCliente => "Com o Cliente"
      case EmReparo => "Em Reparo"
      case Devolvido => "Devolvido"
      case Baixado => "Baixado"
      case EmManutencao => "Em Manutenção"
    }
  }

  /** AcaoHistorico: the kinds of custody movement. */
  datatype AcaoHistorico = Cadastro | Entrega | Devolucao | Manutencao | Reparo | Transferencia | Baixa
  {
    /** The text the store keeps in `acao`. */
    function Rotulo(): string {
      match this
      case Cadastro => "Cadastro"
      case Entrega => "Entrega"
      case Devolucao => "Devolução"
      case Manutencao => "Manutenção"
      case Reparo => "Reparo"
      case Transferencia => "Transferência"
      case Baixa => "Baixa"
    }
  }

  /** StatusEquipamento.todos(): the six statuses, in the combo's order. */
  function TodosStatus(): (r: seq<StatusEquipamento>)
    ensures |r| == 6
    ensures forall i, j :: 0 <= i < j < |r| ==> r[i] != r[j]
  {
    [EmEstoque, ComCliente, EmReparo, Devolvido, Baixado, EmManutencao]
  }

  /** AcaoHistorico.todos(): the seven actions, in the combo's order. */
  function TodasAcoes(): (r: seq<AcaoHistorico>)
    ensures |r| == 7
    ensures forall i, j :: 0 <= i < j < |r| ==> r[i] != r[j]
    ensures r[0] == Cadastro && r[6] == Baixa
  {
    [Cadastro, Entrega, Devolucao, Manutencao, Reparo, Transferencia, Baixa]
  }

  /** Every status is offered by the status combo. */
  lemma TodosStatusCompleto(s: StatusEquipamento)
    ensures s in TodosStatus()
  {
    var r := TodosStatus();
    match s
    case EmEstoque => assert r[0] == s;
    case ComCliente => assert r[1] == s;
    case EmReparo => assert r[2] == s;
    case Devolvido => assert r[3] == s;
    case Baixado => assert r[4] == s;
    case EmManutencao => assert r[5] == s;
  }

  /** Every action is offered by the action combo. */
  lemma TodasAcoesCompleto(a: AcaoHistorico)
    ensures a in TodasAcoes()
  {
    var r := TodasAcoes();
    match a
    case Cadastro => assert r[0] == a;
    case Entrega => assert r[1] == a;
    case Devolucao => assert r[2] == a;
    case Manutencao => assert r[3] == a;
    case Reparo => assert r[4] == a;
    case Transferencia => assert r[5] == a;
    case Baixa => assert r[6] == a;
  }

  /** TipoEquipamento.todos(): the equipment types offered by the type combo. */
  function TodosTipos(): (r: seq<string>)
    ensures |r| == 10
    ensures forall t :: t in r ==> t != [] && t != PlaceholderTipo
  {
    ["Notebook", "Desktop", "Smartphone", "Tablet", "Impressora",
     "Monitor", "Roteador", "Switch", "Servidor", "Outro"]
  }

  /** Text shown by an action or type combo before anything is chosen. */
  const PlaceholderTipo: string := "Selecione o tipo..."

  /** Different statuses are stored as different texts. */
  lemma RotuloStatusInjetivo(a: StatusEquipamento, b: StatusEquipamento)
    ensures a.Rotulo() == b.Rotulo() <==> a == b
  {
  }

  /** Different actions are stored as different texts. */
  lemma RotuloAcaoInjetivo(a: AcaoHistorico, b: AcaoHistorico)
    ensures a.Rotulo() == b.Rotulo() <==> a == b
  {
  }

  // ---------------------------------------------------------------------------
  // Records
  // ---------------------------------------------------------------------------

  /**
   * A row of `clientes`. Timestamps are seconds on the store's clock
   * (the source's "%Y-%m-%d %H:%M:%S" text sorts the same way).
   */
  datatype Cliente = Cliente(
    id: nat,
    nome: string,
    telefone: string,
    email: Option<string>,
    endereco: Option<string>,
    documento: Option<string>,
    setor: Option<string>,
    dataCadastro: nat)

  /** A row of `equipamentos` (valor_estimado is not modelled). */
  datatype Equipamento = Equipamento(
    id: nat,
    numeroSerie: string,
    tipo: string,
    marca: Option<string>,
    modelo: Option<string>,
    dataRegistro: nat,
    statusAtual: string,
    dataGarantia: Option<string>,
    observacoes: Option<string>)

  /** The status a new equipment gets when none is given. */
  const StatusPadrao: StatusEquipamento := EmEstoque

  /** A row of `historico_posse`: one custody record of one equipment. */
  datatype HistoricoPosse = HistoricoPosse(
    id: nat,
    equipamentoId: nat,
    clienteId: Option<nat>,
    dataInicio: nat,
    dataFim: Option<nat>,
    acao: string,
    usuarioResponsavel: string,
    observacoes: Option<string>)
  {
    /** esta_ativo: the record is still open. */
    predicate EstaAtivo() {
      dataFim == None
    }
  }

  /** A custody record as it is created: the end date is not yet known. */
  function NovoHistorico(id: nat, equipamentoId: nat, clienteId: Option<nat>, dataInicio: nat,
                         acao: string, usuario: string, observacoes: Option<string>): (h: HistoricoPosse)
    ensures h.EstaAtivo()
    ensures h.id == id && h.equipamentoId == equipamentoId && h.clienteId == clienteId
    ensures h.dataInicio == dataInicio && h.acao == acao
    ensures h.usuarioResponsavel == usuario && h.observacoes == observacoes
  {
    HistoricoPosse(id, equipamentoId, clienteId, dataInicio, None, acao, usuario, observacoes)
  }

  /** A new Equipamento with only serial and type given. */
  function NovoEquipamento(id: nat, numeroSerie: string, tipo: string, dataRegistro: nat): (e: Equipamento)
    ensures e.statusAtual == "Em Estoque"
    ensures e.id == id && e.numeroSerie == numeroSerie && e.tipo == tipo
    ensures e.marca == None && e.modelo == None && e.observacoes == None
  {
    Equipamento(id, numeroSerie, tipo, None, None, dataRegistro, StatusPadrao.Rotulo(), None, None)
  }

  // ---------------------------------------------------------------------------
  // HistoricoPosse.to_dict
  // ---------------------------------------------------------------------------

  /** A value of the dictionary: a number, a text or None. */
  datatype Campo = Numero(n: nat) | Texto(t: string) | Nulo

  function CampoNumero(o: Option<nat>): Campo {
    match o
    case None => Nulo
    case Some(n) => Numero(n)
  }

  function CampoTexto(o: Option<string>): Campo {
    match o
    case None => Nulo
    case Some(t) => Texto(t)
  }

  /** The keys of HistoricoPosse.to_dict. */
  const ChavesHistorico: set<string> :=
    {"equipamento_id", "cliente_id", "data_inicio", "data_fim", "acao", "usuario_responsavel", "observacoes"}

  /** HistoricoPosse.to_dict: the seven persisted fields, keyed by column name. */
  function ParaDicionario(h: HistoricoPosse): (d: map<string, Campo>)
    ensures d.Keys == ChavesHistorico
    ensures "id" !in d
    ensures d["equipamento_id"] == Numero(h.equipamentoId)
    ensures d["data_fim"] == Nulo <==> h.EstaAtivo()
  {
    map["equipamento_id" := Numero(h.equipamentoId),
        "cliente_id" := CampoNumero(h.clienteId),
        "data_inicio" := Numero(h.dataInicio),
        "data_fim" := CampoNumero(h.dataFim),
        "acao" := Texto(h.acao),
        "usuario_responsavel" := Texto(h.usuarioResponsavel),
        "observacoes" := CampoTexto(h.observacoes)]
  }

  /** to_dict forgets only the id: two records that differ in nothing else give the same dictionary. */
  lemma ParaDicionarioIgnoraId(h: HistoricoPosse, novoId: nat)
    ensures ParaDicionario(h.(id := novoId)) == ParaDicionario(h)
  {
  }

  /** ... and it keeps everything else: equal dictionaries mean equal records up to the id. */
  lemma ParaDicionarioInjetivo(a: HistoricoPosse, b: HistoricoPosse)
    requires ParaDicionario(a) == ParaDicionario(b)
    ensures a.(id := b.id) == b
  {
    assert ParaDicionario(a)["cliente_id"] == ParaDicionario(b)["cliente_id"];
    assert ParaDicionario(a)["data_inicio"] == ParaDicionario(b)["data_inicio"];
    assert ParaDicionario(a)["data_fim"] == ParaDicionario(b)["data_fim"];
    assert ParaDicionario(a)["acao"] == ParaDicionario(b)["acao"];
    assert ParaDicionario(a)["usuario_responsavel"] == ParaDicionario(b)["usuario_responsavel"];
    assert ParaDicionario(a)["observacoes"] == ParaDicionario(b)["observacoes"];
  }
}
