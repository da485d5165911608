# clinica-estima: the appointment core, in Dafny

clinica-estima is a Django application that runs the agenda of a therapy clinic. It books patients with therapists, confirms sessions, marks absences and replaces absent patients. It also records the clinical note of a session, clears days and a patient's future bookings, reports monthly attendance, and imports patients from a CSV file. This project models that core and proves properties of the model.

The modules follow the application's files:

- `Wrappers`: `Option`.
- `Calendar`: civil dates as Python ordinals (`date.toordinal()`), weekdays with Monday = 0, and the week and month arithmetic of the list views.
- `Roles`: `is_admin`, `is_terapeuta` and `is_dono` over a user's authenticated flag, superuser flag and group names. It also defines the caller's own therapist profile (`request.user.terapeuta`).
- `Models`: the records `Paciente` and `Agendamento` and the status and billing-type enumerations.
  - The CPF and phone validators.
  - `objects.ativos()` (the rows not soft-deleted) and the default ordering `(data, hora_inicio)`.
  - The conflict rule `verificar_conflito`, with half-open overlap, and the no-overlap invariant it protects.
  - The generic queryset filter `Filtro` and its counting lemmas.
- `Agenda`: the appointment table with its clinical notes (`Consulta`, one per appointment) as the class `Banco`, with the ORM operations the views use (`create`, `save`, `delete`, `update(deletado=True)`, `get_or_create`).
- `Utils`: `criar_agendamentos_em_lote`, the weekly batch creator, as a loop proved against the specification function `LoteAte`. It also holds `setup_grupos`, as the class `Grupos`.
- `Views`: the state-changing views. Each is a function from the table and the request to the response and the new table. Beside it is a method on a `Banco` proved equal to that function.
- `Listas`: the date ranges of `lista_agendamentos` and `lista_consultas_geral`, and the rows of `lista_agendamentos`.
- `Reports`: the counts of `relatorio_mensal` and `relatorio_pacientes`.
- `Importer`: the `importar_pacientes` command, as the class `Cadastro` over the patient table: cleaning, skipping rows, upserting, and the counters.

Times are minutes since midnight (`Minute`, 0..1439). The current instant is always an input: `agora` in minutes since the ordinal epoch, or the day `hoje` plus a minute. Which statuses block a slot is the parameter `bloqueia`, a constant of the table. `models.py` defines no such list.

`core/tests.py:27` expects an appointment created without an end time to end one hour after its start. The code that fills that default is not in `core/models.py`, where `hora_fim` is nullable (line 60). The model takes the default as given (see "## Left out"). There are five statuses (`core/models.py:46-52`). The code has no rooms and no recurring slots beyond the weekly batch.

The `models.py` file has drifted from the code that calls it:

- It lacks `deletado`, `tipo_padrao`, `tipo_atendimento`, `ativo`, `objects.ativos()`, `verificar_conflito` and the default `hora_fim`.
- Its `cpf` and `data_nascimento` are not nullable, yet the importer stores `None` in both.

These are modelled the way the views, `utils.py`, the importer and the tests use them: `cpf` and the birth date are optional and a null CPF never collides.

Two behaviours of the code are proved as they are:

- `reposicao_agendamento` looks the row up among all rows, deleted ones included, with no status and no conflict check. A slot already replaced can be replaced again, and two active bookings of the same slot result (`Views.ReposicaoRepetida`).
- `realizar_consulta` admits callers with no role (see Findings). `Views.Realizacao` takes the access rule as a parameter. With `ComoEscrita` it is the view as the code stands, and `Views.RealizacaoSemPerfil` shows a Financeiro-only user completing a note there. With `Corrigida` it applies the corrected test.

## Model

| member | source | states |
|---|---|---|
| Roles.UnauthenticatedHasNoRole | core/decorators.py:4-22 | a signed-in check comes first: an anonymous user is neither admin, therapist nor owner |
| Roles.SuperuserHasEveryRole | core/decorators.py:4-22 | a signed-in superuser holds all three roles |
| Roles.DonoIsAdmin | core/decorators.py:4-22 | every owner ('Donos') is an admin, because 'Donos' is in the admin group list |
| Roles.TherapistOnly | core/decorators.py:4-22 | a user only in 'Terapeutas' is a therapist and neither admin nor owner |
| Roles.FinanceOrNoGroupHasNoRole | core/decorators.py:4-22 | a user only in 'Financeiro', or in no group, holds none of the three roles |
| Calendar.WeekStart | core/views.py:166-168 | `hoje - weekday()` is a Monday no later than today and at most six days before it |
| Calendar.WeekStartUnique | core/views.py:166-168 | that Monday is the only Monday whose week (Monday..Sunday) holds today |
| Calendar.WeekEndIsSunday | core/views.py:168 | the week start plus six days is a Sunday |
| Calendar.MonthEndViaDay28 | core/views.py:172-174 | day 28 plus four days, minus that date's day, is the last day of the current month |
| Calendar.MonthEndVia32Days | core/views.py:446-448 | day 1 plus 32 days, set to day 1, minus one day, is the last day of the current month |
| Calendar.InMonthExactly | core/views.py:593-595 | `data__month=m, data__year=y` selects exactly the ordinals of the dates of that month |
| Models.ParseStatus | core/models.py:46-52 | a stored status code stands for the status whose code it is, and any other string for none |
| Models.StatusCodeRoundTrip | core/models.py:46-52 | every one of the five statuses reads back from its stored code |
| Models.DefaultFim | core/tests.py:19-28 | a missing end time is one hour after the start, on the 24-hour clock |
| Models.NovoAgendamento | core/utils.py:45-53 | `objects.create` stores every given field, and a given end as it is. A missing end takes the assumed default of `DefaultFim` |
| Models.CriacaoDefaults | core/tests.py:19-28 | a 14:00 booking with no end ends at 15:00, starts as AGUARDANDO and is not deleted |
| Models.OrdemPorInicio | core/models.py:65-74 | ordering by (data, hora_inicio) is ordering by `data_hora_inicio`, the combined start instant |
| Models.OrdemTotal | core/models.py:65 | that ordering is total and transitive |
| Models.Inserir | core/models.py:65 | inserting a row into an ordered list adds exactly that row |
| Models.InserirOrdenado | core/models.py:65 | inserting into an ordered list keeps it ordered |
| Models.Ordenar | core/models.py:65 | a query's rows in the default order are ordered and a permutation of the rows |
| Models.BuscarPaciente | core/views.py:274 | `Paciente.objects.get(id=...)` finds a patient with that id, or there is none |
| Models.Ativos | core/tests.py:30-44 | the active view holds every non-deleted row and no deleted one |
| Models.SoftDeleteManager | core/tests.py:30-44 | the active view keeps the live row and hides the deleted one |
| Models.ConflitoExiste | core/tests.py:46-64 | a conflict exists iff some active row in a blocking status, of the same therapist and day, overlaps the half-open interval |
| Models.ConflitoHorario | core/tests.py:46-64 | 10:30-11:30 clashes with an existing 10:00-11:00; 11:00-12:00 does not |
| Models.ColidemSimetrica | core/tests.py:46-64 | the overlap of two bookings is symmetric and agrees with the conflict check of either against the other |
| Models.AnexarSemConflito | core/utils.py:35-53 | appending a row the conflict check let through keeps the table free of overlaps |
| Models.TrocaPreserva | core/views.py:286-288 | saving a row that frees its slot, or keeps the slot it held, keeps the table free of overlaps |
| Models.FiltroSemSobreposicao | core/views.py:348 | any selection of rows of a table free of overlaps, such as after a delete, is free of overlaps |
| Agenda.Buscar | core/views.py:252 | `get_object_or_404(Agendamento, id=...)` finds a row with that id, deleted or not, or there is none |
| Agenda.BuscarAtivo | core/views.py:312 | the same lookup on `ativos()` finds a live row with that id, or every row with that id is deleted |
| Agenda.Salvo | core/views.py:286-288 | `save()` keeps the number of rows and every id in its place, and leaves each row with another id as it was |
| Agenda.SalvoConteudo | core/views.py:286-288 | after `save()` the table holds only `a` and rows it held before, and it holds `a` whenever a row had its id |
| Agenda.Removido | core/views.py:348 | `delete()` leaves exactly the rows with another id |
| Agenda.MarcadosDeletados | core/views.py:419 | `update(deletado=True)` keeps every field but the flag, and a row ends up deleted iff it already was or was selected |
| Agenda.RemocaoValida | core/models.py:78 | deleting a row together with its note (`on_delete=CASCADE`) keeps ids distinct and every note tied to a row |
| Agenda.MarcadosSemSobreposicao | core/views.py:419 | soft-deleting rows only frees slots |
| Agenda.Banco.Criar | core/utils.py:45-53 | `create` appends the new row with the next id and the defaults, and changes nothing else |
| Agenda.Banco.Salvar | core/views.py:318-319 | `save()` of an existing row updates that row in the table |
| Agenda.Banco.Excluir | core/views.py:348 | `delete()` removes the row and its note |
| Agenda.Banco.MarcarDeletados | core/views.py:419 | the bulk update marks the selected rows deleted |
| Agenda.Banco.ObterOuCriarConsulta | core/views.py:368 | `Consulta.get_or_create` adds an empty note unless one exists |
| Agenda.Banco.SalvarConsulta | core/views.py:383-385 | the note form stores the text of that appointment's note |
| Utils.LoteContagem | core/utils.py:26-56 | after k candidates, `criados + len(conflitos) == k` |
| Utils.LoteConflitosEmOrdem | core/utils.py:29-43 | every conflict date is a candidate `data_base + 7*i`, and conflicts are listed in strictly increasing date order |
| Utils.LoteDecisao | core/utils.py:35-54 | a candidate is a conflict iff the check against the table at its turn was true, iff no row was created for it |
| Utils.LoteCresce | core/utils.py:24-54 | the table grows by exactly `criados` rows at the end; old rows are untouched; new rows carry the form's fields, AGUARDANDO, the patient's type and consecutive ids |
| Utils.LoteSemSobreposicao | core/utils.py:35-54 | a table free of overlaps before the batch is free of overlaps after it |
| Utils.CriarAgendamentosEmLote | core/utils.py:9-56 | the loop over `repeticoes + 1` weeks leaves the table, the next id and both results as the specification `LoteAte` says |
| Utils.TentaCandidata | core/utils.py:30-54 | one candidate date either is appended to the conflicts, or is created as a new AGUARDANDO row with the next id, exactly as one step `Passo` of `LoteAte` says |
| Utils.ComGrupo | core/utils.py:61 | `get_or_create` of a group makes it present, keeps every other group, and adds at most one |
| Utils.ComGrupoDistintos | core/utils.py:61-64 | `get_or_create` never duplicates a name and keeps existing names in place |
| Utils.SetupGruposIdempotente | core/utils.py:60-64 | after `setup_grupos` the four groups exist without duplicates, earlier groups stay in place, and a second call adds nothing |
| Utils.Grupos.ObterOuCriar | core/utils.py:61 | the group list becomes the `get_or_create` of that name |
| Utils.Grupos.SetupGrupos | core/utils.py:60-64 | the group list becomes the one after the four `get_or_create` calls |
| Views.ReposicaoEfeito | core/views.py:250-298 | the replacement happens iff the caller is signed in, admin or own therapist, the slot starts strictly after now, and a POST names an existing patient. Otherwise nothing changes. On success exactly one row is added (same therapist, date, start, end; AGUARDANDO; the substitute's type), the old row becomes FALTA and deleted, and every other row stays |
| Views.ReposicaoSemSobreposicao | core/views.py:276-288 | a replacement of a row that held its slot keeps the table free of overlaps |
| Views.ReposicaoRepetida | core/views.py:252 | because the lookup includes deleted rows, replacing the same slot twice succeeds both times and leaves two colliding bookings |
| Views.ReposicaoAgendamento | core/views.py:250-306 | the view's steps on the table give the response and the new table of `Reposicao` |
| Views.AlterarStatusEfeito | core/views.py:310-338 | confirm or mark-absent happens iff the caller is signed in, admin or own therapist, and the row is active. Then that row alone gets the new status; otherwise nothing changes |
| Views.AlterarStatusSemSobreposicao | core/views.py:318-334 | a status change to a non-blocking status, or of a row already blocking, keeps the table free of overlaps |
| Views.ConfirmarAgendamento | core/views.py:310-323 | `confirmar_agendamento` performs `AlterarStatus` with CONFIRMADO |
| Views.MarcarFalta | core/views.py:325-338 | `marcar_falta` performs `AlterarStatus` with FALTA |
| Views.MudarStatus | core/views.py:310-338 | find the active row, test access, assign and save is `AlterarStatus` |
| Views.ExclusaoEfeito | core/views.py:340-353 | the hard delete happens iff the caller is signed in, admin or own therapist, and the row is active. Then the row and its note are gone and all others stay, with the table valid and free of overlaps |
| Views.ExcluirAgendamento | core/views.py:340-353 | the view's steps give `Exclusao` |
| Views.ProntuarioAbertoSemPerfil | core/views.py:359-366 | as written, a signed-in Financeiro-only user passes the note's access test although holding no role |
| Views.ProntuarioSoDonoOuTerapeuta | core/views.py:359-366 | the corrected test admits only an owner or the appointment's own therapist, never a non-owner admin. It agrees with the written test for every caller with a role, and differs from it exactly for signed-in callers with none |
| Views.RealizacaoEfeito | core/views.py:355-392 | for the written rule and for the corrected one: a refused caller or missing active row changes nothing. An admitted one gets the (possibly empty) note created. A valid POST stores the text and marks that row alone REALIZADO, changing its type only for an owner who picked one |
| Views.RealizacaoSemPerfil | core/views.py:355-392 | with the written rule a signed-in Financeiro-only user completes the note of any active appointment, and the text is stored; with the corrected rule the same request is refused and changes nothing |
| Views.RealizarConsulta | core/views.py:355-404 | the view's steps, the written checks of lines 359-366 or the corrected test as `regra` says, give `Realizacao` |
| Views.LimpezaEfeito | core/views.py:406-422 | rows are neither added nor removed. A row changes only by becoming deleted, and only if it was active, on the given date, not REALIZADO, and the caller is admin or its own therapist. Callers with no role change nothing. Afterwards no such row is active unless REALIZADO |
| Views.LimpezaLiberaHorarios | core/views.py:411-419 | clearing a day keeps the table free of overlaps, and, when REALIZADO does not block, leaves no conflict in the caller's scope that day |
| Views.LimparDia | core/views.py:406-422 | the view's steps give `Limpeza` |
| Views.LimpezaFuturaEfeito | core/views.py:519-540 | only on POST, for a known patient and an admin or therapist, a row changes only by becoming deleted. Only this patient's active, non-REALIZADO rows strictly after (today, now) in the caller's scope change; afterwards none of them is active unless REALIZADO |
| Views.ExcluirAgendamentosFuturos | core/views.py:519-540 | the view's steps give `LimpezaFutura` |
| Listas.PeriodoAgendamentos | core/views.py:164-174 | the range is today; or the Monday..Sunday week holding today; or the explicit range; or the first to the last day of the current month |
| Listas.PeriodoConsultas | core/views.py:438-448 | the same choices, and its month range also ends on the last day of the current month |
| Listas.PeriodosIguais | core/views.py:438-448 | both list views choose the same range for every request |
| Listas.PeriodoPadrao | core/views.py:166-174 | the default ranges hold today; the week range is the only Monday..Sunday span that does; the month range holds exactly the dates of the current month |
| Listas.ListaAgendamentos | core/views.py:176-193 | the list holds exactly the active rows in range that the caller may see and that match the filters, each once, in (data, hora_inicio) order |
| Listas.ListaVaziaSemPerfil | core/views.py:180-184 | a caller who is neither admin nor therapist sees no row |
| Reports.EscopoRelatorio | core/views.py:610-628 | an admin gets the whole clinic, a non-admin therapist with a profile only their own rows, and everyone else is sent away |
| Reports.RelatorioSemPerfil | core/views.py:626-628 | a user outside the admin, owner and therapist groups, or a non-admin with no profile, gets no report |
| Reports.SemanasOpcoes | core/views.py:579-589 | one week option per calendar row, from its first to its last date |
| Reports.SemanaEscolhida | core/views.py:600-608 | a week filter applies iff its index is within the option list, and then it is that week |
| Reports.Totalizar | core/views.py:630-633 | the total counts every base row, and done plus missed never exceeds it |
| Reports.Estatisticas | core/views.py:641-653 | one line per analysed therapist, in order |
| Reports.RelatorioMensal | core/views.py:568-653 | there is a report iff the caller has a scope, and its done plus missed never exceed its total |
| Reports.SemanaForaDaLista | core/views.py:600-608 | a week index outside the list leaves the report unfiltered |
| Reports.SemanaRestringe | core/views.py:600-608 | a week filter never raises any of the three totals |
| Reports.EstatisticasAtivas | core/views.py:641-645 | the per-therapist table ignores deleted rows |
| Reports.RelatorioIgnoraExcluidos | core/views.py:593-597 | the whole monthly report is the same over the active rows as over all rows |
| Reports.RelatorioAnexo | core/views.py:593-633 | one more row raises the totals by one, and the done or missed count by its status, exactly when it is live, in the month and week, not AGUARDANDO and in scope |
| Reports.EstatisticaIndividual | core/views.py:617-633 | for a therapist the table is one line whose counts equal the report's totals |
| Reports.SomaDaClinica | core/views.py:614-653 | for an admin, over distinct therapists that cover the rows, the table's done and missed sum to the totals |
| Reports.Contagem | core/views.py:709-712 | a patient's missed plus done never exceed the patient's total |
| Reports.Atende | core/views.py:701 | a therapist sees a patient iff some row joins them |
| Reports.Ranking | core/views.py:690-723 | the ranking holds a line for every eligible patient with a positive total, and only lines of eligible patients, each with total > 0 and missed plus done ≤ total |
| Reports.RelatorioPacientes | core/views.py:676-723 | there is a ranking iff the caller has a scope, and every line has total > 0 and missed plus done ≤ total |
| Reports.ContagemAnexo | core/views.py:709-712 | one more row raises a patient's counts exactly when it is theirs, live, in the month and in scope |
| Reports.RankingIgnoraOutros | core/views.py:697-701 | a therapist's ranking ignores rows of other therapists |
| Reports.RankingIgnoraExcluidos | core/views.py:691-695 | the ranking ignores deleted rows |
| Importer.SemEspacoInicial | core/management/commands/importar_pacientes.py:50 | the leading whitespace removed: the longest suffix that does not start with whitespace |
| Importer.SemEspacoFinal | core/management/commands/importar_pacientes.py:50 | the trailing whitespace removed: the longest prefix that does not end with whitespace |
| Importer.StripFixo | core/management/commands/importar_pacientes.py:50 | a string without whitespace at either end is its own `strip()` |
| Importer.Digitos | core/management/commands/importar_pacientes.py:51 | `re.sub('[^0-9]', '', s)` keeps exactly the digits |
| Importer.LimpaCpf | core/management/commands/importar_pacientes.py:50-52 | the cleaned CPF exists iff the stripped field has exactly 11 digits, and then it is those digits and valid for the CPF column |
| Importer.LimpaTelefone | core/management/commands/importar_pacientes.py:68-75 | the cleaned phone exists iff the digits number 10 or 11, and then it is those digits; the result is always valid for the phone column |
| Importer.CpfLimpoFixo | core/models.py:8-17 | cleaning a CPF that already passes the CPF validator gives it back unchanged |
| Importer.TelefoneLimpoFixo | core/models.py:19-29 | cleaning a phone that already passes the phone validator gives it back unchanged |
| Importer.MinusculaChar | core/management/commands/importar_pacientes.py:78 | `lower()` of a character: A-Z and the Latin-1 capitals À-Þ shift by 32, except '×', which stays. Every other character outside those ranges stays, and no ASCII capital is left |
| Importer.Minusculas | core/management/commands/importar_pacientes.py:78 | `lower()` keeps the length and leaves no ASCII capital. Each ASCII or Latin-1 capital becomes its small letter, while '×' and every non-letter stay |
| Importer.MinusculasIdempotente | core/management/commands/importar_pacientes.py:78 | lowering twice is lowering once |
| Importer.TipoDe | core/management/commands/importar_pacientes.py:79 | a key missing from `DE_PARA_TIPO` gives PARTICULAR |
| Importer.TipoDeCodigo | core/management/commands/importar_pacientes.py:28-34 | every stored type code, in any case, maps back to its type; 'CONVÊNIO' maps to CONVENIO |
| Importer.TipoAusente | core/management/commands/importar_pacientes.py:78 | a row with no type column gets PARTICULAR |
| Importer.LinhaDados | core/management/commands/importar_pacientes.py:43-87 | a row is skipped iff it has fewer than 7 fields or a blank titled name; otherwise its name is the titled, stripped name field and is not blank, its birth date is the parse of the stripped date field, and its CPF, phone and type are the cleaned fields |
| Importer.LinhaPulada | core/management/commands/importar_pacientes.py:43-47 | a skipped row leaves the table and both counters as they were |
| Importer.Atualizado | core/management/commands/importar_pacientes.py:89-92 | the update keeps every id, CPF and active flag. It leaves patients without that CPF unchanged and gives the CPF's holder the row's name, birth date, phone and type |
| Importer.ImportarLinhas | core/management/commands/importar_pacientes.py:41-103 | `contador_sucesso + contador_erros` never exceeds the number of data rows |
| Importer.ImportarContagem | core/management/commands/importar_pacientes.py:41-103 | `contador_sucesso + contador_erros` is exactly the number of rows not skipped |
| Importer.NomeNoMaximoUm | core/management/commands/importar_pacientes.py:93-96 | when no two patients without a CPF share a name, `get_or_create(nome=..., cpf=None)` matches at most one |
| Importer.NomesUnicosPreservados | core/management/commands/importar_pacientes.py:89-96 | every successful upsert keeps the names of patients without a CPF unique |
| Importer.GravarSemErro | core/management/commands/importar_pacientes.py:89-96 | with unique CPFs and unique CPF-less names the upsert of a row succeeds and keeps both properties |
| Importer.PassoSemErro | core/management/commands/importar_pacientes.py:43-103 | on such a table no row is counted as an error, and both properties are kept |
| Importer.ImportarSemErros | core/management/commands/importar_pacientes.py:41-103 | an import into such a table ends with `contador_erros == 0`, `contador_sucesso` equal to the rows not skipped, and both properties kept |
| Importer.CpfNoMaximoUm | core/models.py:8-10 | with unique CPFs at most one patient holds a given CPF |
| Importer.UpsertPorCpf | core/management/commands/importar_pacientes.py:89-92 | with unique CPFs the upsert by CPF succeeds. Afterwards exactly one patient holds the CPF, with the row's values, and CPFs stay unique. A patient is added iff none held it |
| Importer.CpfsUnicosPreservados | core/models.py:8-10 | both upserts keep CPFs unique |
| Importer.GravarValido | core/models.py:8-29 | an upsert of valid values into a valid table leaves every patient valid |
| Importer.ValidadePreservada | core/management/commands/importar_pacientes.py:82-96 | processing any row keeps every patient's CPF and phone valid |
| Importer.ObterPorNome | core/management/commands/importar_pacientes.py:93-96 | without a CPF, one existing patient of that name without CPF is left untouched, none leads to exactly one new patient, and several are an error |
| Importer.ImportarPreservaChave | core/management/commands/importar_pacientes.py:41-103 | a patient found by a CPF, or by name with no CPF, is still found after any import |
| Importer.ImportarDeixaChaves | core/management/commands/importar_pacientes.py:41-103 | after an import every imported row's key (CPF, or name without CPF) is present |
| Importer.ImportarSemCriacao | core/management/commands/importar_pacientes.py:41-103 | when every row's key is already present, an import creates no patient |
| Importer.Reimportacao | core/management/commands/importar_pacientes.py:41-103 | importing the same rows a second time creates no new patient |
| Importer.Cadastro.AtualizarOuCriar | core/management/commands/importar_pacientes.py:89-92 | `update_or_create(cpf=...)` on the table is `PorCpf`, failing on several holders |
| Importer.Cadastro.ObterOuCriar | core/management/commands/importar_pacientes.py:93-96 | `get_or_create(nome=..., cpf=None)` on the table is `PorNome`, failing on several matches |
| Importer.Cadastro.Importar | core/management/commands/importar_pacientes.py:39-103 | the header row is dropped, and the loop leaves the table and both counters as `ImportarLinhas` over the data rows says |

## Left out

- HTML rendering, messages, redirects and query-string building: the views return a `Resposta` tag instead.
- Time zones: `make_aware`, `localtime` and the UTC `timezone.now()`. The current day and minute are inputs.
- Floating-point rates: `taxa_faltas_geral`, `taxa_falta`, and the ordering of the monthly table and of the ranking. `Reports.Ranking` keeps patient order.
- `busca_nome` and `q` (`icontains`, case-folding) are not modelled. The list filters by therapist, type and status only.
- `str.title` and `datetime.strptime` in the importer are function parameters (`titulo`, `data`). Reading the CSV file, the file-not-found message and stdout are left out.
- `Importer.Espaco` and `Importer.MinusculaChar`: `strip()` is modelled only for space, `\t`, `\n`, `\r`, `\x0b` and `\x0c`, and `lower()` only for ASCII and Latin-1 letters. Python also strips `\x1c`-`\x1f`, `\x85`, `\xa0` and other Unicode spaces. The Unicode case and space tables are beyond this model.
- `\d` in the validators means ASCII digits only.
- `Models.DefaultFim` and `Models.NovoAgendamento`: the code that gives a missing `hora_fim` its default is not part of this model. The one-hour default comes from `core/tests.py:27` only. The result for starts from 23:00 on, which wraps past midnight, is an assumption.
- Request values arrive already parsed into their types. Raw strings are not modelled. A `filtro_tipo` or `filtro_status` outside the choices gives an empty list (`core/views.py:190-193`), which `Option<Tipo>` and `Option<Status>` cannot express. An unchecked `tipo_atendimento_select` is stored as given (`core/views.py:389-390`), while `novoTipo` is a `Tipo`. A non-numeric `paciente` raises (`core/views.py:274`), while `Pedido.Post` carries an int.
- Forms are not modelled. `Utils.CriarAgendamentosEmLote` requires `0 <= repeticoes <= 48`, the form's bounds. The form's `hora_fim` is taken as present: `Utils.CriarAgendamentosEmLote` takes `fim: Minute`. The field is nullable (`core/models.py:60`), so a blank end reaches `verificar_conflito` and `create` as `None` (`core/utils.py:21`, `39`, `50`). That case is not modelled. The field is optional (`core/forms.py:32-37`), so a blank `repeticoes` reaches `range(0, repeticoes + 1)` (`core/utils.py:29`) as `None` and raises. The model has no such input.
- `Utils.CriarAgendamentosEmLote`: conflict dates are ordinals, not `'%d/%m'` strings.
- `Reports.RelatorioMensal` requires a month 1..12 and a year ≥ 1. Outside that range `calendar.monthdatescalendar` raises. The month's week rows are an input (`SemanasOpcoes` takes them as given).
- `Reports.RelatorioMensal`: Python dates end at 9999-12-31, and that limit is not modelled. For a year from 10000, or for December 9999, whose last calendar week spills past the limit, `monthdatescalendar` raises OverflowError (`core/views.py:577`). The model gives a report instead.
- `Reports.RelatorioPacientes`: for a year of 0 or less, or from 10000, the `agendamento__data__year` lookup (`core/views.py:693`) raises ValueError, because Django builds a date of that year. The model returns an empty ranking instead.
- `Utils.CriarAgendamentosEmLote`: a candidate past 9999-12-31 makes `data_base + timedelta(weeks=i)` (`core/utils.py:30`) raise OverflowError, and the view's `transaction.atomic` (`core/views.py:230-231`) rolls the batch back. `base` is an unbounded ordinal, so the model creates those rows.
- `Calendar.AddDays` and `Calendar.ValidDate`: dates have a lower limit, year 1, but no upper limit at 9999-12-31. The OverflowError and ValueError that Python raises beyond that limit are not modelled.
- The monthly report's and the ranking's exception when the therapist profile is missing become "no report", the same as a refused caller.
- `Listas.VisivelNaLista`, `Views.AlvoLimpeza` and `Views.AlvoFuturo`: for a user in 'Terapeutas' who has no therapist profile, `request.user.terapeuta` raises in `lista_agendamentos` (`core/views.py:182`), `limpar_dia` (`core/views.py:415`) and `excluir_agendamentos_futuros` (`core/views.py:531`). The model selects no row there instead.
- `lista_consultas_geral` is modelled only for its date range. Its row list (newest first, the same filters) is not.
- `cadastrar_equipe`, `dashboard`, the patient views and `novo_agendamento` are not part of this model, except for the batch creator it calls.
- Transactions, the `except Exception` catch-alls of the views and the concurrent double-booking race are not modelled.
- `Listas.ListaVaziaSemPerfil` is stated as "no row is in the list" rather than as equality with the empty list.
- `Importer.Cadastro.Importar` requires at least one row, the header. `next()` on an empty file raises before the loop.
- `Importer.ImportarLinhas`: the only row error modelled is an upsert that finds several matching patients. Database errors of other kinds are not modelled.

## Findings

| source | as written | input that shows it | evidently intended | confidence | as-written member | corrected member |
|---|---|---|---|---|---|---|
| core/views.py:359-366 | the note view refuses only non-owner admins and therapists who are not the appointment's; everyone else passes | a signed-in user only in 'Financeiro' (or in no group) opening any appointment's note | only the owners and the appointment's own therapist read and complete a clinical note | not executed | Views.ProntuarioAbertoSemPerfil | Views.ProntuarioSoDonoOuTerapeuta |

`Views.Realizacao` and `Views.RealizarConsulta` take the rule as a parameter: `ComoEscrita` is the code as written, `Corrigida` the corrected test.
