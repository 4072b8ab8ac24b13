# fastech_OS custody ledger in Dafny

fastech_OS is a desktop inventory system for an IT shop. It keeps three SQLite
tables: clients (`clientes`), equipment (`equipamentos`) and custody history
(`historico_posse`). Every custody movement appends a record to the history and
updates the equipment's `status_atual`. Delivery, return, maintenance, repair,
transfer and retirement are all such movements. This project models the core of
that ledger and proves properties of it:

- `validadores.dfy` (module `Validadores`) models the validators and
  formatters of `utils/validators.py`. These are the CPF and CNPJ check digits,
  the phone and serial-number rules, and the CPF, CNPJ and phone masks.
- `validadores_exemplos.dfy` (module `ValidadoresExemplos`) holds the
  validators' own example vectors, proved.
- `modelos.dfy` (module `Modelos`) models the entities and constant lists of
  `models.py`.
- `ordenacao.dfy` (module `Ordenacao`) models what the store's queries rely on:
  `ORDER BY` as a sorted permutation and `LIKE '%term%'` as an ASCII
  case-insensitive substring match.
- `banco.dfy` (module `Banco`) models `database.py`. The store is a class
  `Database` whose fields are the three tables plus their `AUTOINCREMENT`
  counters. Its methods change those fields as the SQL statements do, and its
  queries are functions over the tables.
- `movimentacao.dfy` (module `Movimentacao`) models the movement form
  `gui/movimentacao_form.py`. This covers validation, the action-to-status
  table, and the register operation: close the open record, append the new
  one, update the status.
- `cadastro_equipamento.dfy` (module `CadastroEquipamento`) models the
  save operation of the equipment form `gui/equipamento_form.py`. It covers
  both the insert path with its initial history record and the edit path.

Modelling decisions:

- **Clock.** Timestamps are natural numbers, and `datetime.now()` and
  `CURRENT_TIMESTAMP` are passed in as parameters. A movement reads the clock
  twice, once to close the old record and once to open the new one, so it
  takes two parameters.
  `Movimentacao.FimAntesDoInicio` shows that the old record's end is at or
  before the new record's start when the clock does not go backwards.
- **Ledger invariant.** `Valid()` states the schema constraints:
  - ids are below their counter and pairwise distinct;
  - `telefone` is unique;
  - `documento` is unique among non-NULL values;
  - `numero_serie` is unique.

  `LivroConsistente()` states the ledger invariant the forms keep: at most one
  open record per equipment, and every record names an equipment that exists.
  The form operations preserve it, and so does every store method except
  `Banco.Database.InserirHistorico`, which appends an open record without
  closing the equipment's earlier one. The movement form calls it after
  closing that record; the registration form calls it for an equipment it
  has just inserted, which has no record yet.
- **Status agreement is not an invariant.** An equipment's status need not
  agree with its open record:
  - the insert path stores a status the user chose even without a client;
  - the edit path writes `status_atual` directly.

  The model therefore proves agreement per operation instead. After a movement,
  the equipment's status is `DeterminarStatus` of the action. At registration,
  the status agrees exactly when a client was chosen or the status is
  "Em Estoque" (`CadastroEquipamento.StatusInicialConcorda`).
- **Foreign keys.** SQLite does not enforce foreign keys unless a pragma turns
  them on, and `database.py` never turns it on. So deleting a client neither
  cascades nor sets `cliente_id` to NULL, and the history keeps the old id.
  `Banco.Database.DeletarCliente` leaves the history untouched for this reason.
- **Client on a movement.** The movement form records the selected client
  whatever the action, as the code does (gui/movimentacao_form.py:426-430).
  For actions other than delivery, transfer and return the client frame is
  hidden with `pack_forget()` (gui/movimentacao_form.py:359), but the earlier
  selection stays in the combo and is still read. A client id that
  Python treats as false (id 0) counts as "no client", as `if cliente_id:` does
  at gui/equipamento_form.py:414.
- **Insert conflicts.** When a client insert breaks both UNIQUE constraints,
  the model promises only that the message names one of the two columns.
  Which index SQLite checks first is not fixed by `database.py`.

## Model

| member | source | states |
|---|---|---|
| Validadores.SoDigitos | utils/validators.py:18 | `re.sub(r'\D', '', s)`: the result holds only digits and is no longer than the input |
| Validadores.SoDigitosConcat | utils/validators.py:18 | removing non-digits distributes over concatenation |
| Validadores.SoDigitosDeDigitos | utils/validators.py:18 | a text of digits is left as it is |
| Validadores.StripCorta | utils/validators.py:172-175 | `strip()` returns a slice of the input with only whitespace cut from both ends, and the slice neither starts nor ends with whitespace |
| Validadores.StripIdempotente | utils/validators.py:175 | stripping twice is stripping once |
| Validadores.StripDeEspacos | utils/validators.py:172 | an all-whitespace text strips to empty, so `not numero_serie.strip()` holds |
| Validadores.DigitoVerificador | utils/validators.py:29-32 | a check digit is 0..9, and it is 0 exactly when the weighted sum mod 11 is below 2 |
| Validadores.PesosDecrescentes | utils/validators.py:30 | the CPF weights `peso_inicial - i` |
| Validadores.CompletarCpf | utils/validators.py:34-40 | appending the two CPF check digits to 9 digits gives 11 digits with the base as prefix |
| Validadores.DigitosCpfConferem | utils/validators.py:34-40 | eleven digits are the completion of their first nine iff both check digits match |
| Validadores.ValidarCpf | utils/validators.py:9-42 | an empty CPF is accepted; a wrong digit count gives "CPF deve ter 11 dígitos"; every other refusal is "CPF inválido". Validity itself is stated by `CpfValidoSeCompleto`, `CpfSoVeDigitos` and `VaziosOpcionais` |
| Validadores.CpfValidoSeCompleto | utils/validators.py:9-42 | a non-empty CPF is valid iff its digits number 11, are not all equal, and end in the check digits of their first nine |
| Validadores.CompletarCpfValido | utils/validators.py:9-42 | every 9-digit base that is not all one digit, completed with its check digits, is a valid CPF |
| Validadores.CompletarCnpj | utils/validators.py:64-80 | appending the two CNPJ check digits (weights 5432987652 and 65432987652) to 12 digits gives 14 digits with the base as prefix |
| Validadores.DigitosCnpjConferem | utils/validators.py:74-80 | fourteen digits are the completion of their first twelve iff both check digits match |
| Validadores.ValidarCnpj | utils/validators.py:45-82 | an empty CNPJ is accepted; a wrong digit count gives "CNPJ deve ter 14 dígitos"; every other refusal is "CNPJ inválido". Validity itself is stated by `CnpjValidoSeCompleto`, `CnpjSoVeDigitos` and `VaziosOpcionais` |
| Validadores.CnpjValidoSeCompleto | utils/validators.py:45-82 | a non-empty CNPJ is valid iff its digits number 14, are not all equal, and end in the check digits of their first twelve |
| Validadores.CompletarCnpjValido | utils/validators.py:45-82 | every 12-digit base that is not all one digit, completed with its check digits, is a valid CNPJ |
| Validadores.VaziosOpcionais | utils/validators.py:14-15 | an empty CPF, CNPJ or document is accepted, and an empty phone is refused with "Telefone é obrigatório" |
| Validadores.ValidarDocumento | utils/validators.py:85-100 | a refusal is "CPF inválido", "CNPJ inválido" or the CPF-or-CNPJ length message, never the CPF or CNPJ length messages, because the digit count picks the check; validity is stated by `DocumentoCpfOuCnpj` |
| Validadores.DocumentoCpfOuCnpj | utils/validators.py:85-100 | a document is valid iff it is valid as a CPF or as a CNPJ |
| Validadores.CpfSoVeDigitos | utils/validators.py:17-18 | the CPF verdict depends only on the digits, so punctuation never changes it |
| Validadores.CnpjSoVeDigitos | utils/validators.py:53-54 | the CNPJ verdict depends only on the digits |
| Validadores.ValidarTelefone | utils/validators.py:103-123 | an accepted phone has 10 or 11 digits; a refusal is one of "Telefone é obrigatório", "Telefone deve ter 10 ou 11 dígitos", "DDD inválido"; validity is stated by `TelefoneValidoSe` |
| Validadores.TelefoneValidoSe | utils/validators.py:103-123 | a phone is valid iff it has 10 or 11 digits and its area code (first two digits) is between 11 and 99 |
| Validadores.ValidarNumeroSerie | utils/validators.py:170-178 | at least three characters after `strip()` are accepted; a refusal is "Número de série é obrigatório" or "Número de série muito curto"; the converse is `NumeroSerieValidoSe` |
| Validadores.NumeroSerieValidoSe | utils/validators.py:170-178 | a serial number is valid iff it has at least 3 characters once stripped |
| Validadores.FormatarCpf | utils/validators.py:142-147 | with 11 digits the result has the mask's length, otherwise it is the input; digits and layout are stated by `FormatarCpfCorreto` |
| Validadores.FormatarCpfCorreto | utils/validators.py:142-147 | `formatar_cpf` keeps the digits and fits `###.###.###-##` when there are 11; otherwise it returns the input unchanged |
| Validadores.PontuarCpfCorreto | utils/validators.py:146 | the CPF mask keeps the digits and fits `###.###.###-##` |
| Validadores.FormatarCnpj | utils/validators.py:150-155 | with 14 digits the result has the mask's length, otherwise it is the input; digits and layout are stated by `FormatarCnpjCorreto` |
| Validadores.FormatarCnpjCorreto | utils/validators.py:150-155 | `formatar_cnpj` keeps the digits and fits `##.###.###/####-##` when there are 14; otherwise it returns the input unchanged |
| Validadores.PontuarCnpjCorreto | utils/validators.py:154 | the CNPJ mask keeps the digits and fits `##.###.###/####-##` |
| Validadores.FormatarTelefone | utils/validators.py:158-167 | with 11 or 10 digits the result has the mobile or landline mask's length, otherwise it is the input; digits and layout are stated by `FormatarTelefoneCorreto` |
| Validadores.FormatarTelefoneCorreto | utils/validators.py:158-167 | `formatar_telefone` keeps the digits and fits `(##) #####-####` for 11 or `(##) ####-####` for 10; otherwise it returns the input unchanged |
| Validadores.PontuarTelefoneCorreto | utils/validators.py:162-165 | the phone masks keep the digits and fit the mobile or landline pattern |
| Validadores.FormatarTelefoneIdempotente | utils/validators.py:158-167 | formatting a formatted phone changes nothing |
| Validadores.FormatarCpfIdempotente | utils/validators.py:142-147 | formatting a formatted CPF changes nothing |
| Validadores.FormatarCnpjIdempotente | utils/validators.py:150-155 | formatting a formatted CNPJ changes nothing |
| Validadores.FormatarTelefonePreservaValidade | utils/validators.py:103-167 | formatting never changes a phone's verdict |
| Validadores.FormatarCpfPreservaValidade | utils/validators.py:9-147 | formatting never changes a CPF's verdict |
| Validadores.FormatarCnpjPreservaValidade | utils/validators.py:45-155 | formatting never changes a CNPJ's verdict |
| ValidadoresExemplos.CpfExemploCompleto | utils/validators.py:187 | the check digits of 123456789 are 0 and 9 |
| ValidadoresExemplos.CpfExemploDigitos | utils/validators.py:187 | 12345678909 is a valid CPF |
| ValidadoresExemplos.CpfExemploPontuado | utils/validators.py:202 | `formatar_cpf("12345678909")` is "123.456.789-09" |
| ValidadoresExemplos.ExemploCpfRepetido | utils/validators.py:188 | every CPF whose digits are eleven 1s is refused as "CPF inválido" |
| ValidadoresExemplos.CpfPontuadoValido | utils/validators.py:187 | `validar_cpf("123.456.789-09")` is valid |
| ValidadoresExemplos.CpfRepetidoPontuado | utils/validators.py:188 | `validar_cpf("111.111.111-11")` is refused with "CPF inválido" |
| ValidadoresExemplos.CnpjExemploCompleto | utils/validators.py:191 | the check digits of 112223330001 are 8 and 1 |
| ValidadoresExemplos.CnpjExemploDigitos | utils/validators.py:191 | 11222333000181 is a valid CNPJ |
| ValidadoresExemplos.CnpjExemploPontuado | utils/validators.py:191 | the punctuated form of that CNPJ is "11.222.333/0001-81" |
| ValidadoresExemplos.CnpjPontuadoValido | utils/validators.py:191 | `validar_cnpj("11.222.333/0001-81")` is valid |
| ValidadoresExemplos.ExemploTelefoneCurto | utils/validators.py:195 | "123" is refused with "Telefone deve ter 10 ou 11 dígitos" |
| Modelos.TodosStatus | models.py:117-126 | six distinct statuses |
| Modelos.TodosStatusCompleto | models.py:117-126 | every status is in the list |
| Modelos.TodasAcoes | models.py:158-178 | seven distinct actions, from "Cadastro" to "Baixa" |
| Modelos.TodasAcoesCompleto | models.py:158-178 | every action is in the list |
| Modelos.TodosTipos | models.py:129-155 | ten equipment types, none empty and none the combo placeholder |
| Modelos.RotuloStatusInjetivo | models.py:108-116 | two statuses are stored as the same text iff they are the same status |
| Modelos.RotuloAcaoInjetivo | models.py:158-170 | two actions are stored as the same text iff they are the same action |
| Modelos.HistoricoPosse.EstaAtivo | models.py:101-104 | no ensures of its own: a record is open iff `data_fim` is None; used by `NovoHistorico`, `ParaDicionario` and the ledger invariant |
| Modelos.NovoHistorico | models.py:68-88 | a new custody record is open (`data_fim` None) and carries the given fields |
| Modelos.NovoEquipamento | models.py:37-65 | an equipment created without a status is "Em Estoque" |
| Modelos.ParaDicionario | models.py:89-99 | `to_dict` has exactly the seven column keys and no `id`; `data_fim` is None iff the record is active |
| Modelos.ParaDicionarioIgnoraId | models.py:89-99 | `to_dict` ignores the id |
| Modelos.ParaDicionarioInjetivo | models.py:89-99 | equal dictionaries come from records that are equal up to the id |
| Ordenacao.OrdenarCorreto | database.py:110 | `ORDER BY`: the result is sorted by the key and holds exactly the selected rows |
| Ordenacao.OrdenarOrdena | database.py:186 | sorting by a total preorder yields a sorted sequence |
| Ordenacao.OrdenarMesmosElementos | database.py:186 | sorting neither adds nor drops rows |
| Ordenacao.InserirOrdenada | database.py:186 | inserting into a sorted sequence keeps it sorted |
| Ordenacao.TextoAntesTotal | database.py:110 | the text order compares every pair |
| Ordenacao.TextoAntesTransitivo | database.py:110 | the text order is transitive |
| Ordenacao.TextoAntesAntissimetrico | database.py:110 | texts ordered both ways are equal |
| Ordenacao.ContemVazio | database.py:106 | the empty search term, `'%%'`, matches every text |
| Ordenacao.ContemPrefixoDoTermo | database.py:106-109 | a text that matches a term also matches every prefix of it, so typing more only narrows a search |
| Ordenacao.ContemEstende | database.py:106-109 | `%termo%` matches anywhere: a matching text still matches with anything added before or after it |
| Ordenacao.ContemIgnoraCaixa | database.py:106-109 | LIKE ignores ASCII case: folding text and term to lower case changes no match, in either direction |
| Ordenacao.Filtrar | database.py:109 | `WHERE` keeps exactly the rows that satisfy the condition, each as many times as it is stored, and no other |
| Banco.RemoverCliente | database.py:139 | `DELETE ... WHERE id = ?` keeps exactly the rows with another id, each as many times as it is stored |
| Banco.RemoverClienteValido | database.py:139 | deleting a client keeps the client table's constraints |
| Banco.AnexarClienteValido | database.py:32-38 | appending a row with the next id and unused phone and document keeps the constraints |
| Banco.AnexarEquipamentoValido | database.py:45-58 | appending a row with the next id and an unused serial keeps the constraints |
| Banco.Aplicar | database.py:191-203 | an UPDATE keeps the id and registration date; the status becomes the given value when `status_atual` is among the columns, and stays otherwise |
| Banco.SoStatus | database.py:205-207 | updating only `status_atual` changes that column alone |
| Banco.AtualizarLinhas | database.py:196-200 | `UPDATE ... WHERE id = ?` changes the rows with that id and no others |
| Banco.FecharLinhas | database.py:229-233 | `UPDATE historico_posse SET data_fim` closes the record with that id and changes no other record |
| Banco.FecharMantemUmAberto | database.py:226-235 | closing a record keeps "at most one open record per equipment" |
| Banco.Contagem | database.py:315-320 | `GROUP BY` yields exactly the keys that occur, each with the number of its occurrences |
| Banco.SomaContagem | database.py:315-328 | the group counts add up to the number of rows |
| Banco.Distintos | database.py:275 | `DISTINCT` keeps every row once and no others |
| Banco.NomeAntesPreordem | database.py:110 | ordering by name is a total preorder |
| Banco.RegistradoDepoisPreordem | database.py:186 | `data_registro DESC` is a total preorder |
| Banco.IniciadoDepoisPreordem | database.py:244 | `data_inicio DESC` is a total preorder |
| Banco.PosseIniciadaDepoisPreordem | database.py:279 | `data_inicio DESC` over joined rows is a total preorder |
| Banco.MaisRecentePrimeiro | database.py:265-267 | `ORDER BY data_inicio DESC LIMIT 1` yields nothing iff there are no rows, and otherwise a row that started last |
| Banco.Database.constructor | database.py:27-76 | a new store has empty tables, counters at 1, and satisfies both invariants |
| Banco.Database.InserirCliente | database.py:85-96 | a taken `telefone` fails with the UNIQUE message naming `telefone`, a taken `documento` with the one naming `documento`, both taken with one of the two, changing nothing; otherwise appends the row with the next id; succeeds iff neither constraint is hit |
| Banco.Database.DeletarCliente | database.py:128-141 | deletes iff the client has no open custody record, and leaves every other table alone |
| Banco.Database.ClienteTemPosseAberta | database.py:131-137 | no ensures of its own: `COUNT(*) > 0` over the client's records with `data_fim IS NULL`; `DeletarCliente` states its meaning |
| Banco.Database.BuscarClientes | database.py:104-112 | exactly the clients whose name, phone or document contains the term, each as often as it is stored, sorted by name |
| Banco.Database.BuscarClientesVazio | database.py:104-112 | the default empty term lists every client, as the same multiset as the table |
| Banco.Database.BuscarClientesEstreita | database.py:104-112 | every client found by a longer term is found by its prefix |
| Banco.Database.InserirEquipamento | database.py:145-159 | fails with "Número de série já cadastrado: " and the serial iff the serial is in use, changing nothing; otherwise appends the row with the next id |
| Banco.Database.InserirEquipamentoPadrao | database.py:45-58 | a taken serial fails with its message and changes nothing; otherwise the row is appended with the next id, "Em Estoque" and no brand, model or notes, and only the equipment counter moves |
| Banco.Database.AtualizarEquipamento | database.py:191-203 | succeeds iff the new serial collides with no other row, and then updates only that row |
| Banco.Database.AtualizarStatusEquipamento | database.py:205-207 | changes only the status of the rows with that id |
| Banco.Database.BuscarEquipamentos | database.py:173-189 | exactly the equipment matching the term, and the status when one is given, each as often as it is stored, newest registration first |
| Banco.Database.BuscarEquipamentosVazio | database.py:173-189 | the empty term without a status filter lists every equipment, as the same multiset as the table |
| Banco.Database.BuscarEquipamentosEstreita | database.py:173-189 | under the same status filter, every equipment found by a longer term is found by its prefix |
| Banco.Database.InserirHistorico | database.py:211-224 | appends one open record with the next id and changes nothing else |
| Banco.Database.FinalizarHistorico | database.py:226-235 | closes the record with that id at the given or current time and changes nothing else |
| Banco.Database.BuscarHistoricoEquipamento | database.py:237-246 | exactly the records of the equipment, each as often as it is stored, newest first |
| Banco.Database.BuscarHistoricoCliente | database.py:248-257 | exactly the client's records whose equipment exists (inner join), each as often as it is stored, newest first |
| Banco.Database.BuscarHistoricoAtivoEquipamento | database.py:259-270 | None iff the equipment has no open record; otherwise an open record of it with the latest start |
| Banco.Database.BuscarEquipamentosClienteAtivo | database.py:272-281 | exactly the joined rows of the client's open records, each once, newest first |
| Banco.Database.GetEstatisticas | database.py:302-330 | totals are the table sizes; the status and type keys are exactly the values that occur, each counted with the number of equipment rows carrying it |
| Banco.Database.PorStatusSomaTotal | database.py:314-328 | the per-status and per-type counts each add up to the number of equipment |
| Movimentacao.DeterminarStatus | gui/movimentacao_form.py:464-477 | the status after a movement, as an iff for each status |
| Movimentacao.DeterminarStatusNuncaReparoOuDevolvido | gui/movimentacao_form.py:464-477 | no movement sets "Em Reparo" or "Devolvido" |
| Movimentacao.CampoClienteDe | gui/movimentacao_form.py:348-360 | the client field is the destination iff the action is delivery or transfer, and the origin iff it is a return |
| Movimentacao.ValidarCampos | gui/movimentacao_form.py:386-414 | no error iff an action, an equipment and a non-blank user are given and, for delivery or transfer, a client |
| Movimentacao.ClienteExigidoSeDestino | gui/movimentacao_form.py:407-412 | with the other fields filled, the destination-client error appears iff the action needs a destination and none is selected |
| Movimentacao.LimpoOuNulo | gui/movimentacao_form.py:423 | `strip() or None`: None iff the text is blank, otherwise the stripped text |
| Movimentacao.FecharSeAberto | gui/movimentacao_form.py:433-436 | closing the previous record keeps the history's length |
| Movimentacao.MovimentoMantemLivro | gui/movimentacao_form.py:433-448 | close then append keeps one open record per equipment and valid references, and the new record is the equipment's only open one |
| Movimentacao.FecharDeixaSemAberto | gui/movimentacao_form.py:433-436 | closing the open record keeps the ledger invariant and leaves the equipment with no open record |
| Movimentacao.AnexarAberto | database.py:211-224 | appending an open record for an existing equipment that has none keeps the ledger invariant, and the new record is its only open one |
| Movimentacao.ReferenciaAposAtualizar | database.py:191-207 | updating equipment rows keeps every history reference valid |
| Movimentacao.FimAntesDoInicio | gui/movimentacao_form.py:433-448 | the closed record ends no later than the new one starts |
| Movimentacao.StatusAposAtualizar | gui/movimentacao_form.py:451 | after the status update, the equipment has the new status |
| Movimentacao.AtivoEhNovo | gui/movimentacao_form.py:433-448 | after a movement, the active-record query returns the new record |
| Movimentacao.EquipamentoComId | database.py:161-165 | the lookup by id succeeds iff the equipment exists, and returns that row |
| Movimentacao.FecharAtivo | gui/movimentacao_form.py:433-436 | looks up the open record, closes it at the given time, and leaves the equipment with no open record; no other table and no counter changes |
| Movimentacao.AbrirRegistro | gui/movimentacao_form.py:442-448 | appends the new open record with the next id, which the active-record query then returns; the history counter moves by one, nothing else changes |
| Movimentacao.GravarStatus | gui/movimentacao_form.py:451 | updates only the status of that equipment and keeps the ledger invariant; no counter changes |
| Movimentacao.Movimentar | gui/movimentacao_form.py:433-451 | the history becomes the old history with the open record closed plus the new record, which the active query returns; the equipment takes the action's status; only the history counter moves, by one |
| Movimentacao.RegistrarMovimentacao | gui/movimentacao_form.py:416-462 | invalid input returns the first validation error and changes nothing; otherwise the movement is recorded with the next history id and the success message names the serial and the new status |
| Movimentacao.MensagemSucesso | gui/movimentacao_form.py:453-455 | no ensures of its own: the success text with serial and status label; `RegistrarMovimentacao` states when it is shown |
| Movimentacao.RegistrarDuasVezes | gui/movimentacao_form.py:416-462 | two valid movements append two records with consecutive ids: the first closed when the second opens, the second the active one; the history counter moves by two |
| CadastroEquipamento.TiposOferecidosEscolhidos | gui/equipamento_form.py:93-101 | every type the combo offers passes the type check |
| CadastroEquipamento.ValidarCamposEquipamento | gui/equipamento_form.py:346-362 | no error iff the stripped serial has at least 3 characters and a type is chosen; the serial is checked first |
| CadastroEquipamento.TipoEscolhido | gui/equipamento_form.py:358 | no ensures of its own: a type is chosen iff it is neither empty nor the placeholder; stated by `ValidarCamposEquipamento` and `TiposOferecidosEscolhidos` |
| CadastroEquipamento.AcaoInicial | gui/equipamento_form.py:413-415 | the first record is a delivery iff a client is chosen, otherwise a registration |
| CadastroEquipamento.ClienteEscolhido | gui/equipamento_form.py:414 | no ensures of its own: Python's `if cliente_id:`, false for None and for id 0; stated by `AcaoInicial` and `StatusInicial` |
| CadastroEquipamento.StatusInicial | gui/equipamento_form.py:373-417 | with a client the status is "Com o Cliente", otherwise the chosen status |
| CadastroEquipamento.StatusInicialConcorda | gui/equipamento_form.py:407-425 | the initial status agrees with the initial action iff a client was chosen or the status is "Em Estoque" |
| CadastroEquipamento.NotaInicial | gui/equipamento_form.py:424 | the note is "Cadastro inicial" iff there are no observations, otherwise "Cadastro inicial: " followed by them |
| CadastroEquipamento.AlteracaoDe | gui/equipamento_form.py:394-404 | the edit rewrites every edited column of the row and keeps its id and registration date |
| CadastroEquipamento.AtualizarUltima | gui/equipamento_form.py:417 | updating the status of a row just appended changes only that row |
| CadastroEquipamento.RegistrosAbaixoDoContador | gui/equipamento_form.py:419-425 | no history record names an equipment id not yet allocated |
| CadastroEquipamento.ReferenciaAposAnexar | gui/equipamento_form.py:408-410 | appending equipment keeps every history reference valid |
| CadastroEquipamento.InserirLinha | gui/equipamento_form.py:408-417 | a duplicate serial changes nothing; otherwise one row is appended with the next id and the initial status, and only the equipment counter moves |
| CadastroEquipamento.ForcarStatus | gui/equipamento_form.py:414-417 | with a client, only the new row's status becomes "Com o Cliente"; no counter changes |
| CadastroEquipamento.Cadastrar | gui/equipamento_form.py:407-427 | a duplicate serial reports the error and changes nothing; otherwise one equipment and one open record are added with the next ids, and the active query returns that record |
| CadastroEquipamento.SalvarEquipamento | gui/equipamento_form.py:364-433 | as written: the edit path reports success even when the update was refused, and moves no counter; the insert path refuses a taken serial changing nothing, otherwise stores the row with its initial status and one open "Sistema" record that becomes the current custody, each with the next id |
| CadastroEquipamento.SalvarEquipamentoCorrigido | gui/equipamento_form.py:364-433 | the edit reports success iff the new serial collides with no other equipment, otherwise the serial error with the row unchanged, and moves no counter; the insert path as in `SalvarEquipamento` |

## Left out

- `validar_email` (utils/validators.py:126-139): its regular expression is not modelled, and no form in this core calls it.
- `valor_estimado`, a float column, is not modelled. Nor is its parse at gui/equipamento_form.py:377, which can raise before the `try`.
- User-interface widgets, combo dictionaries, CSV export, backup (database.py:285-300) and configuration are input and output only.
- The Flet and tab variants of the forms (`*_flet.py`, `movimentacoes*.py`) duplicate the two modelled forms.
- `atualizar_cliente`, `buscar_cliente_por_id` and `buscar_equipamento_por_serie` are not part of this model. No modelled operation calls them.
- Banco.Database.BuscarClientes, BuscarEquipamentos: `%` and `_` inside the search term are matched literally, not as LIKE wildcards.
- Ordenacao.OrdenarCorreto: SQL leaves the order of rows with equal keys open, so only sortedness and membership are promised.
- Banco.Database.BuscarHistoricoEquipamento, BuscarHistoricoCliente, BuscarEquipamentosClienteAtivo: the display columns taken from the joined table are left out. Examples are `cliente_nome`, `numero_serie` and `status_atual` in the history query.
- Banco.Database.AtualizarEquipamento: an update with no column to set is excluded by its precondition. With no keyword argument the source builds `SET  WHERE` and SQLite raises `OperationalError` (database.py:193-198), which the `except sqlite3.IntegrityError` at database.py:202 does not catch. No form sends an empty update.
- Movimentacao.RegistrarMovimentacao: the "Erro ao registrar" exception path is not modelled, because no store call in the model can fail on this path. Transactions and concurrent access are not modelled either.
- Movimentacao.DeterminarStatus: the unused client-id parameter of `_determinar_status` is dropped.
- CadastroEquipamento.Cadastrar: the success text "... cadastrado! (ID: n)" is modelled as `Aviso.Cadastrado(serie, id)` rather than as the formatted string.
- Banco.Database.InserirCliente: when both `telefone` and `documento` collide, the message is promised to name one of the two columns, not which one. The order in which SQLite checks the UNIQUE indexes is an engine detail outside `database.py`.
- Validadores.SoDigitos: only the ASCII digits '0' to '9' count as digits. Python's `\D` and `int()` also accept other Unicode decimal digits (Arabic-Indic, fullwidth and so on). The restriction carries through every validator and formatter built on `SoDigitos`: `ValidarCpf`, `ValidarCnpj`, `ValidarDocumento`, `ValidarTelefone`, `FormatarCpf`, `FormatarCnpj` and `FormatarTelefone`.
- `data_registro` and `data_cadastro` take `CURRENT_TIMESTAMP` from the store's clock, which is passed in as a parameter.

## Findings

| source | as written | input that shows it | evidently intended | confidence | as-written member | corrected member |
|---|---|---|---|---|---|---|
| gui/equipamento_form.py:392-405 | the edit path ignores the `False` that `atualizar_equipamento` returns on a UNIQUE conflict and shows "Equipamento '…' atualizado!" | editing an equipment so that its serial is the serial of another equipment: the row is not changed, yet success is reported | report the conflict as an error, as the insert path does | medium, not executed | CadastroEquipamento.SalvarEquipamento | CadastroEquipamento.SalvarEquipamentoCorrigido |
