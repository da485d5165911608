/**
 * The appointment lifecycle views: replacement of a patient in a booked slot
 * (`reposicao_agendamento`), confirm, mark absent, hard delete, the clinical
 * note (`realizar_consulta`), clearing a day (`limpar_dia`) and removing a
 * patient's future bookings (`excluir_agendamentos_futuros`).
 *
 * Each view is a function from the table state (and the request) to the
 * response and the new state; the method of the same view performs it on a
 * `Banco` through the table primitives and is proved equal to the function.
 * `login_required` is the first test of every view: an anonymous caller
 * changes nothing.  The current instant is an input.
 */
module Views {
  import opened Wrappers
  import opened Roles
  import opened Models
  import opened Agenda

  /** What the view answered (the rendered page or the redirect is not modelled). */
  datatype Resposta =
    | NaoAutenticado     // login_required redirects to the login page
    | NaoEncontrado      // get_object_or_404
    | AcessoNegado       // the view's own permission test redirected
    | HorarioPassado     // replacement refused for a slot not in the future
    | Formulario         // the form page (GET, or a form that did not validate)
    | SemPaciente        // replacement POST with no patient selected
    | PacienteInvalido   // replacement POST naming a patient that does not exist
    | Feito              // the action was carried out

  datatype Saida = Saida(resposta: Resposta, db: Db)

  /** The access rule of the single-row actions: an admin, or the appointment's own therapist. */
  predicate PodeGerir(c: Caller, a: Agendamento) {
    IsAdmin(c.user) || IsOwnTherapist(c, a.terapeuta)
  }

  // ---------------------------------------------------------------------------
  // reposicao_agendamento
  // ---------------------------------------------------------------------------

  /** The request of the replacement view: a GET, or a POST with the `paciente` field if filled in. */
  datatype Pedido = Get | Post(paciente: Option<int>)

  /** The row the replacement creates: the old slot, the substitute patient, AGUARDANDO, the patient's type. */
  function Substituto(d: Db, antigo: Agendamento, p: Paciente): Agendamento {
    NovoAgendamento(d.proximoId, p.id, antigo.terapeuta, antigo.data, antigo.horaInicio, Some(antigo.horaFim),
                    Aguardando, p.tipoPadrao, false)
  }

  /** `reposicao_agendamento(request, id)` at instant `agora` (minutes since the ordinal epoch). */
  function Reposicao(d: Db, pacientes: seq<Paciente>, id: int, c: Caller, agora: int, pedido: Pedido): Saida {
    if !c.user.authenticated then Saida(NaoAutenticado, d)
    else match Buscar(d.rows, id)
      case None => Saida(NaoEncontrado, d)
      case Some(antigo) =>
        if !PodeGerir(c, antigo) then Saida(AcessoNegado, d)
        else if DataHoraInicio(antigo) <= agora then Saida(HorarioPassado, d)
        else match pedido
          case Get => Saida(Formulario, d)
          case Post(None) => Saida(SemPaciente, d)
          case Post(Some(pid)) =>
            match BuscarPaciente(pacientes, pid)
            case None => Saida(PacienteInvalido, d)
            case Some(p) =>
              var velho := antigo.(status := Falta, deletado := true);
              Saida(Feito, Db(Salvo(d.rows + [Substituto(d, antigo, p)], velho), d.proximoId + 1, d.consultas))
  }

  /**
   * The replacement happens exactly for a signed-in admin or own therapist, a slot strictly in the future
   * and a POST naming an existing patient; otherwise nothing changes.  When it happens the table gains
   * exactly one row (the old slot, the substitute, AGUARDANDO, the substitute's default type), the old
   * row becomes FALTA and deleted, and every other row is as it was.
   */
  lemma ReposicaoEfeito(d: Db, pacientes: seq<Paciente>, id: int, c: Caller, agora: int, pedido: Pedido)
    requires DbValido(d)
    ensures var s := Reposicao(d, pacientes, id, c, agora, pedido);
            var antigo := Buscar(d.rows, id);
            && (s.resposta == Feito <==>
                  c.user.authenticated && antigo.Some? && PodeGerir(c, antigo.value)
                  && DataHoraInicio(antigo.value) > agora
                  && pedido.Post? && pedido.paciente.Some? && BuscarPaciente(pacientes, pedido.paciente.value).Some?)
            && (s.resposta != Feito ==> s.db == d)
            && (s.resposta == Feito ==>
                  var a := antigo.value;
                  var p := BuscarPaciente(pacientes, pedido.paciente.value).value;
                  && |s.db.rows| == |d.rows| + 1
                  && s.db.rows[|d.rows|] == Agendamento(d.proximoId, p.id, a.terapeuta, a.data, a.horaInicio, a.horaFim,
                                                        Aguardando, p.tipoPadrao, false)
                  && (forall i :: 0 <= i < |d.rows| ==>
                        s.db.rows[i] == if d.rows[i].id == id then d.rows[i].(status := Falta, deletado := true) else d.rows[i])
                  && s.db.proximoId == d.proximoId + 1 && s.db.consultas == d.consultas
                  && DbValido(s.db))
  {
    var s := Reposicao(d, pacientes, id, c, agora, pedido);
    if s.resposta == Feito {
      SubstituicaoEfeito(d, id, Buscar(d.rows, id).value, BuscarPaciente(pacientes, pedido.paciente.value).value);
    }
  }

  /** The effect of a replacement that goes ahead, on the table alone. */
  lemma SubstituicaoEfeito(d: Db, id: int, a: Agendamento, p: Paciente)
    requires DbValido(d) && Buscar(d.rows, id) == Some(a)
    ensures var rows := Salvo(d.rows + [Substituto(d, a, p)], a.(status := Falta, deletado := true));
            && |rows| == |d.rows| + 1
            && rows[|d.rows|] == Agendamento(d.proximoId, p.id, a.terapeuta, a.data, a.horaInicio, a.horaFim,
                                             Aguardando, p.tipoPadrao, false)
            && (forall i :: 0 <= i < |d.rows| ==>
                  rows[i] == if d.rows[i].id == id then d.rows[i].(status := Falta, deletado := true) else d.rows[i])
            && DbValido(Db(rows, d.proximoId + 1, d.consultas))
  {
    var novo := Substituto(d, a, p);
    var velho := a.(status := Falta, deletado := true);
    var r1 := d.rows + [novo];
    var rows := Salvo(r1, velho);
    assert a in d.rows && a.id == id;
    assert novo.id == d.proximoId && velho.id == id && id < d.proximoId;
    assert rows[|d.rows|] == novo by {
      assert r1[|d.rows|] == novo;
    }
    forall i | 0 <= i < |d.rows|
      ensures rows[i] == if d.rows[i].id == id then d.rows[i].(status := Falta, deletado := true) else d.rows[i]
    {
      assert r1[i] == d.rows[i];
      if d.rows[i].id == id {
        BuscarNoIndice(d.rows, d.proximoId, i);
      }
    }
    AnexoValido(d, novo);
    assert Buscar(r1, id).Some? by {
      assert a in r1;
    }
    SalvoValido(Db(r1, d.proximoId + 1, d.consultas), velho);
    assert Db(r1, d.proximoId + 1, d.consultas).(rows := rows) == Db(rows, d.proximoId + 1, d.consultas);
  }

  /**
   * Replacing the patient of a slot that occupied it keeps the table free of overlaps: the old row
   * frees the very slot the new one takes.  (When AGUARDANDO does not block, the new row occupies nothing.)
   */
  lemma ReposicaoSemSobreposicao(d: Db, bloqueia: set<Status>, pacientes: seq<Paciente>, id: int, c: Caller,
                                 agora: int, pedido: Pedido)
    requires DbValido(d) && SemSobreposicao(d.rows, bloqueia)
    requires Aguardando in bloqueia && Buscar(d.rows, id).Some? ==> Ocupa(Buscar(d.rows, id).value, bloqueia)
    ensures SemSobreposicao(Reposicao(d, pacientes, id, c, agora, pedido).db.rows, bloqueia)
  {
    var s := Reposicao(d, pacientes, id, c, agora, pedido);
    if s.resposta == Feito {
      var a := Buscar(d.rows, id).value;
      var p := BuscarPaciente(pacientes, pedido.paciente.value).value;
      var novo := Substituto(d, a, p);
      var velho := a.(status := Falta, deletado := true);
      var k := SalvoNoIndice(d.rows, d.proximoId, velho);
      assert Salvo(d.rows + [novo], velho) == d.rows[k := velho] + [novo];
      TrocaPreserva(d.rows, bloqueia, k, velho);
      var r2 := d.rows[k := velho];
      if Ocupa(novo, bloqueia) {
        forall x | x in r2
          ensures !ConflitaCom(x, bloqueia, a.terapeuta, a.data, a.horaInicio, a.horaFim)
        {
          var i :| 0 <= i < |r2| && r2[i] == x;
          if i != k {
            SemSobreposicaoPares(d.rows, bloqueia, k, i);
            ColidemSimetrica(a, x, bloqueia);
          }
        }
        ConflitoExiste(r2, bloqueia, a.terapeuta, a.data, a.horaInicio, a.horaFim);
      }
      AnexarSemConflito(r2, bloqueia, novo);
    }
  }

  /**
   * The lookup is on every row, deleted ones included, and the slot is not checked for conflicts: a row
   * already replaced can be replaced again, which leaves two active bookings of the same slot.
   */
  lemma ReposicaoRepetida(bloqueia: set<Status>)
    requires Aguardando in bloqueia
    ensures var a := Agendamento(1, 10, 5, 1000, 600, 660, Aguardando, Particular, false);
            var d := Db([a], 2, map[]);
            var adm := Caller(User(true, true, {}), None);
            var ps := [Paciente(20, "A", None, None, None, Particular, true), Paciente(21, "B", None, None, None, Social, true)];
            var s1 := Reposicao(d, ps, 1, adm, 0, Post(Some(20)));
            var s2 := Reposicao(s1.db, ps, 1, adm, 0, Post(Some(21)));
            && s1.resposta == Feito && SemSobreposicao(s1.db.rows, bloqueia)
            && s2.resposta == Feito && !SemSobreposicao(s2.db.rows, bloqueia)
  {
    var a := Agendamento(1, 10, 5, 1000, 600, 660, Aguardando, Particular, false);
    var d := Db([a], 2, map[]);
    var adm := Caller(User(true, true, {}), None);
    var ps := [Paciente(20, "A", None, None, None, Particular, true), Paciente(21, "B", None, None, None, Social, true)];
    var s1 := Reposicao(d, ps, 1, adm, 0, Post(Some(20)));
    assert BuscarPaciente(ps, 20) == Some(ps[0]);
    assert s1.db.rows == [a.(status := Falta, deletado := true), Agendamento(2, 20, 5, 1000, 600, 660, Aguardando, Particular, false)];
    var s2 := Reposicao(s1.db, ps, 1, adm, 0, Post(Some(21)));
    assert BuscarPaciente(ps, 21) == Some(ps[1]);
    assert Buscar(s1.db.rows, 1) == Some(s1.db.rows[0]);
    var r := s2.db.rows;
    assert r == [a.(status := Falta, deletado := true), Agendamento(2, 20, 5, 1000, 600, 660, Aguardando, Particular, false),
                 Agendamento(3, 21, 5, 1000, 600, 660, Aguardando, Social, false)];
    assert Colidem(r[1], r[2], bloqueia);
  }

  method ReposicaoAgendamento(db: Banco, pacientes: seq<Paciente>, id: int, c: Caller, agora: int, pedido: Pedido)
    returns (r: Resposta)
    requires db.Valid()
    modifies db
    ensures db.Valid()
    ensures Saida(r, db.Atual()) == Reposicao(old(db.Atual()), pacientes, id, c, agora, pedido)
  {
    if !c.user.authenticated {
      return NaoAutenticado;
    }
    var encontrado := Buscar(db.rows, id);
    if encontrado.None? {
      return NaoEncontrado;
    }
    var antigo := encontrado.value;
    if !IsAdmin(c.user) && !IsOwnTherapist(c, antigo.terapeuta) {
      return AcessoNegado;
    }
    if DataHoraInicio(antigo) <= agora {
      return HorarioPassado;
    }
    match pedido {
      case Get =>
        return Formulario;
      case Post(None) =>
        return SemPaciente;
      case Post(Some(pid)) =>
        var selecionado := BuscarPaciente(pacientes, pid);
        if selecionado.None? {
          return PacienteInvalido;
        }
        var p := selecionado.value;
        ghost var antes := db.Atual();
        var _ := db.Criar(p.id, antigo.terapeuta, antigo.data, antigo.horaInicio, Some(antigo.horaFim),
                          Aguardando, p.tipoPadrao, false);
        assert antigo in db.rows;
        db.Salvar(antigo.(status := Falta, deletado := true));
        assert db.rows == Salvo(antes.rows + [Substituto(antes, antigo, p)], antigo.(status := Falta, deletado := true));
        return Feito;
    }
  }

  // ---------------------------------------------------------------------------
  // confirmar_agendamento, marcar_falta
  // ---------------------------------------------------------------------------

  /** Set the status of an active row, for an admin or the row's own therapist. */
  function AlterarStatus(d: Db, id: int, c: Caller, novo: Status): Saida {
    if !c.user.authenticated then Saida(NaoAutenticado, d)
    else match BuscarAtivo(d.rows, id)
      case None => Saida(NaoEncontrado, d)
      case Some(a) =>
        if !PodeGerir(c, a) then Saida(AcessoNegado, d)
        else Saida(Feito, d.(rows := Salvo(d.rows, a.(status := novo))))
  }

  /**
   * The status changes exactly for a signed-in admin or own therapist and an active row; then that row,
   * and only it, gets the new status, and otherwise nothing changes.
   */
  lemma AlterarStatusEfeito(d: Db, id: int, c: Caller, novo: Status)
    requires DbValido(d)
    ensures var s := AlterarStatus(d, id, c, novo);
            var a := BuscarAtivo(d.rows, id);
            && (s.resposta == Feito <==> c.user.authenticated && a.Some? && PodeGerir(c, a.value))
            && (s.resposta != Feito ==> s.db == d)
            && (s.resposta == Feito ==>
                  && |s.db.rows| == |d.rows|
                  && (forall i :: 0 <= i < |d.rows| ==>
                        s.db.rows[i] == if d.rows[i].id == id then d.rows[i].(status := novo) else d.rows[i])
                  && (forall i :: 0 <= i < |d.rows| && d.rows[i].id == id ==> !d.rows[i].deletado)
                  && s.db.proximoId == d.proximoId && s.db.consultas == d.consultas
                  && DbValido(s.db))
  {
    var s := AlterarStatus(d, id, c, novo);
    if s.resposta == Feito {
      var a := BuscarAtivo(d.rows, id).value;
      forall i | 0 <= i < |d.rows| && d.rows[i].id == id
        ensures d.rows[i] == a
      {
        BuscarNoIndice(d.rows, d.proximoId, i);
        assert Buscar(d.rows, id).Some?;
      }
      SalvoValido(d, a.(status := novo));
    }
  }

  /**
   * A status change keeps the table free of overlaps when the new status does not block, or when the row
   * already blocked its slot.
   */
  lemma AlterarStatusSemSobreposicao(d: Db, bloqueia: set<Status>, id: int, c: Caller, novo: Status)
    requires DbValido(d) && SemSobreposicao(d.rows, bloqueia)
    requires novo in bloqueia ==> forall a :: a in d.rows && a.id == id ==> a.status in bloqueia
    ensures SemSobreposicao(AlterarStatus(d, id, c, novo).db.rows, bloqueia)
  {
    var s := AlterarStatus(d, id, c, novo);
    if s.resposta == Feito {
      var a := BuscarAtivo(d.rows, id).value;
      var k := SalvoNoIndice(d.rows, d.proximoId, a.(status := novo));
      assert d.rows[k].id == id;
      BuscarNoIndice(d.rows, d.proximoId, k);
      TrocaPreserva(d.rows, bloqueia, k, a.(status := novo));
    }
  }

  /** `confirmar_agendamento(request, id)`. */
  method ConfirmarAgendamento(db: Banco, id: int, c: Caller) returns (r: Resposta)
    requires db.Valid()
    modifies db
    ensures db.Valid()
    ensures Saida(r, db.Atual()) == AlterarStatus(old(db.Atual()), id, c, Confirmado)
  {
    r := MudarStatus(db, id, c, Confirmado);
  }

  /** `marcar_falta(request, id)`. */
  method MarcarFalta(db: Banco, id: int, c: Caller) returns (r: Resposta)
    requires db.Valid()
    modifies db
    ensures db.Valid()
    ensures Saida(r, db.Atual()) == AlterarStatus(old(db.Atual()), id, c, Falta)
  {
    r := MudarStatus(db, id, c, Falta);
  }

  /** The shared body of the two views above: find the active row, test access, assign, `save()`. */
  method MudarStatus(db: Banco, id: int, c: Caller, novo: Status) returns (r: Resposta)
    requires db.Valid()
    modifies db
    ensures db.Valid()
    ensures Saida(r, db.Atual()) == AlterarStatus(old(db.Atual()), id, c, novo)
  {
    if !c.user.authenticated {
      return NaoAutenticado;
    }
    var encontrado := BuscarAtivo(db.rows, id);
    if encontrado.None? {
      return NaoEncontrado;
    }
    var a := encontrado.value;
    if !IsAdmin(c.user) && !IsOwnTherapist(c, a.terapeuta) {
      return AcessoNegado;
    }
    db.Salvar(a.(status := novo));
    return Feito;
  }

  // ---------------------------------------------------------------------------
  // excluir_agendamento
  // ---------------------------------------------------------------------------

  /** `excluir_agendamento(request, id)`: a hard delete of an active row, cascading to its note. */
  function Exclusao(d: Db, id: int, c: Caller): Saida {
    if !c.user.authenticated then Saida(NaoAutenticado, d)
    else match BuscarAtivo(d.rows, id)
      case None => Saida(NaoEncontrado, d)
      case Some(a) =>
        if !PodeGerir(c, a) then Saida(AcessoNegado, d)
        else Saida(Feito, Db(Removido(d.rows, id), d.proximoId, d.consultas - {id}))
  }

  /**
   * The delete happens exactly for a signed-in admin or own therapist and an active row; then the row and
   * its note are gone, every other row and note stays, and the table stays valid and free of overlaps.
   */
  lemma ExclusaoEfeito(d: Db, bloqueia: set<Status>, id: int, c: Caller)
    requires DbValido(d) && SemSobreposicao(d.rows, bloqueia)
    ensures var s := Exclusao(d, id, c);
            var a := BuscarAtivo(d.rows, id);
            && (s.resposta == Feito <==> c.user.authenticated && a.Some? && PodeGerir(c, a.value))
            && (s.resposta != Feito ==> s.db == d)
            && (s.resposta == Feito ==>
                  && (forall x :: x in s.db.rows <==> x in d.rows && x.id != id)
                  && id !in s.db.consultas
                  && (forall k :: k != id ==> (k in s.db.consultas <==> k in d.consultas))
                  && DbValido(s.db))
            && SemSobreposicao(s.db.rows, bloqueia)
  {
    RemocaoValida(d, id);
    FiltroSemSobreposicao(d.rows, bloqueia, (x: Agendamento) => x.id != id);
  }

  method ExcluirAgendamento(db: Banco, id: int, c: Caller) returns (r: Resposta)
    requires db.Valid()
    modifies db
    ensures db.Valid()
    ensures Saida(r, db.Atual()) == Exclusao(old(db.Atual()), id, c)
  {
    if !c.user.authenticated {
      return NaoAutenticado;
    }
    var encontrado := BuscarAtivo(db.rows, id);
    if encontrado.None? {
      return NaoEncontrado;
    }
    if !IsAdmin(c.user) && !IsOwnTherapist(c, encontrado.value.terapeuta) {
      return AcessoNegado;
    }
    db.Excluir(id);
    return Feito;
  }

  // ---------------------------------------------------------------------------
  // realizar_consulta
  // ---------------------------------------------------------------------------

  /**
   * The request of the note view: open it (GET), or submit it; `evolucao` is the note text when the form
   * validated (None when it did not) and `novoTipo` the `tipo_atendimento_select` field, if filled in.
   */
  datatype PedidoConsulta = Abrir | Enviar(evolucao: Option<string>, novoTipo: Option<Tipo>)

  /** The access test of `realizar_consulta` as written: two refusals, everyone else passes. */
  predicate AcessoProntuarioComoEscrito(c: Caller, a: Agendamento) {
    && !(IsAdmin(c.user) && !IsDono(c.user))
    && !(!IsDono(c.user) && IsTerapeuta(c.user) && !IsOwnTherapist(c, a.terapeuta))
  }

  /** The access the view evidently intends: the owners, or the appointment's own therapist. */
  predicate AcessoProntuario(c: Caller, a: Agendamento) {
    IsDono(c.user) || (!IsAdmin(c.user) && IsTerapeuta(c.user) && IsOwnTherapist(c, a.terapeuta))
  }

  /** As written, a signed-in user in the Financeiro group only (or in no group) reaches the note of any patient. */
  lemma ProntuarioAbertoSemPerfil(a: Agendamento)
    ensures var c := Caller(User(true, false, {FINANCEIRO}), None);
            && !IsAdmin(c.user) && !IsTerapeuta(c.user) && !IsDono(c.user)
            && AcessoProntuarioComoEscrito(c, a) && !AcessoProntuario(c, a)
  {
    var c := Caller(User(true, false, {FINANCEIRO}), None);
    FinanceOrNoGroupHasNoRole(c.user);
  }

  /**
   * The corrected rule: only an owner or the appointment's own therapist gets in, never an admin who is
   * not an owner; it agrees with the rule as written for every caller with some role, and differs from
   * it exactly for signed-in callers with none.
   */
  lemma ProntuarioSoDonoOuTerapeuta(c: Caller, a: Agendamento)
    ensures AcessoProntuario(c, a) ==> c.user.authenticated && (IsDono(c.user) || IsOwnTherapist(c, a.terapeuta))
    ensures IsAdmin(c.user) && !IsDono(c.user) ==> !AcessoProntuario(c, a)
    ensures IsAdmin(c.user) || IsTerapeuta(c.user) ==> (AcessoProntuario(c, a) <==> AcessoProntuarioComoEscrito(c, a))
    ensures c.user.authenticated ==>
              (AcessoProntuarioComoEscrito(c, a) && !AcessoProntuario(c, a) <==> !IsAdmin(c.user) && !IsTerapeuta(c.user))
  {
    if IsDono(c.user) {
      DonoIsAdmin(c.user);
    }
  }

  /** Which access test the note view applies: the one the code makes, or the corrected one. */
  datatype Regra = ComoEscrita | Corrigida

  predicate Admite(regra: Regra, c: Caller, a: Agendamento) {
    match regra
    case ComoEscrita => AcessoProntuarioComoEscrito(c, a)
    case Corrigida => AcessoProntuario(c, a)
  }

  /** `realizar_consulta(request, id)`; `ComoEscrita` is the view as it stands, `Corrigida` the corrected test. */
  function Realizacao(d: Db, id: int, c: Caller, pedido: PedidoConsulta, regra: Regra): Saida {
    if !c.user.authenticated then Saida(NaoAutenticado, d)
    else match BuscarAtivo(d.rows, id)
      case None => Saida(NaoEncontrado, d)
      case Some(a) =>
        if !Admite(regra, c, a) then Saida(AcessoNegado, d)
        else
          var notas := if id in d.consultas then d.consultas else d.consultas[id := ""];
          match pedido
          case Abrir => Saida(Formulario, d.(consultas := notas))
          case Enviar(None, _) => Saida(Formulario, d.(consultas := notas))
          case Enviar(Some(texto), novoTipo) =>
            var tipo := if IsDono(c.user) && novoTipo.Some? then novoTipo.value else a.tipoAtendimento;
            Saida(Feito, Db(Salvo(d.rows, a.(status := Realizado, tipoAtendimento := tipo)), d.proximoId, notas[id := texto]))
  }

  /**
   * A refused note view changes nothing.  An admitted one makes sure the note exists (empty when new)
   * even on GET; a submitted valid form stores the text and marks the row REALIZADO, changing its type
   * only for an owner who picked one, and leaves every other row alone.
   */
  lemma RealizacaoEfeito(d: Db, id: int, c: Caller, pedido: PedidoConsulta, regra: Regra)
    requires DbValido(d)
    ensures var s := Realizacao(d, id, c, pedido, regra);
            var a := BuscarAtivo(d.rows, id);
            var admitido := c.user.authenticated && a.Some? && Admite(regra, c, a.value);
            && (!admitido ==> s.db == d)
            && (admitido ==> id in s.db.consultas && forall k :: k != id ==> (k in s.db.consultas <==> k in d.consultas))
            && (admitido && id in d.consultas && s.resposta != Feito ==> s.db == d)
            && (s.resposta == Feito <==> admitido && pedido.Enviar? && pedido.evolucao.Some?)
            && (s.resposta != Feito ==> s.db.rows == d.rows)
            && (s.resposta == Feito ==>
                  && s.db.consultas[id] == pedido.evolucao.value
                  && |s.db.rows| == |d.rows|
                  && (forall i :: 0 <= i < |d.rows| && d.rows[i].id != id ==> s.db.rows[i] == d.rows[i])
                  && (forall i :: 0 <= i < |d.rows| && d.rows[i].id == id ==>
                        && s.db.rows[i].status == Realizado
                        && s.db.rows[i].tipoAtendimento ==
                             (if IsDono(c.user) && pedido.novoTipo.Some? then pedido.novoTipo.value else d.rows[i].tipoAtendimento)
                        && s.db.rows[i] == d.rows[i].(status := Realizado, tipoAtendimento := s.db.rows[i].tipoAtendimento)))
            && DbValido(s.db)
  {
    var s := Realizacao(d, id, c, pedido, regra);
    var a := BuscarAtivo(d.rows, id);
    if !c.user.authenticated || a.None? || !Admite(regra, c, a.value) {
      assert s.db == d && s.resposta != Feito;
    } else {
      var notas := if id in d.consultas then d.consultas else d.consultas[id := ""];
      assert Buscar(d.rows, id).Some? by {
        assert a.value in d.rows;
      }
      if pedido.Enviar? && pedido.evolucao.Some? {
        var tipo := if IsDono(c.user) && pedido.novoTipo.Some? then pedido.novoTipo.value else a.value.tipoAtendimento;
        var rows := Salvo(d.rows, a.value.(status := Realizado, tipoAtendimento := tipo));
        assert s == Saida(Feito, Db(rows, d.proximoId, notas[id := pedido.evolucao.value]));
        NotaSalva(d, a.value, tipo, notas, pedido.evolucao.value);
      } else {
        assert s == Saida(Formulario, d.(consultas := notas));
      }
    }
  }

  /** Storing a note for an existing row and marking that row REALIZADO keeps the state valid and touches no other row. */
  lemma NotaSalva(d: Db, a: Agendamento, tipo: Tipo, notas: map<int, string>, texto: string)
    requires DbValido(d) && a in d.rows
    requires forall k :: k in notas ==> k in d.consultas || k == a.id
    ensures var rows := Salvo(d.rows, a.(status := Realizado, tipoAtendimento := tipo));
            && (forall i :: 0 <= i < |d.rows| && d.rows[i].id != a.id ==> rows[i] == d.rows[i])
            && (forall i :: 0 <= i < |d.rows| && d.rows[i].id == a.id ==>
                  d.rows[i] == a && rows[i] == d.rows[i].(status := Realizado, tipoAtendimento := tipo))
            && DbValido(Db(rows, d.proximoId, notas[a.id := texto]))
  {
    var b := a.(status := Realizado, tipoAtendimento := tipo);
    var rows := Salvo(d.rows, b);
    var j :| 0 <= j < |d.rows| && d.rows[j] == a;
    forall i | 0 <= i < |d.rows| && d.rows[i].id == a.id
      ensures d.rows[i] == a
    {
      assert i == j;
    }
    assert Buscar(d.rows, a.id).Some?;
    SalvoValido(d, b);
    var d1 := Db(rows, d.proximoId, d.consultas);
    assert d.(rows := rows) == d1;
    forall k | k in notas[a.id := texto]
      ensures Buscar(rows, k).Some?
    {
      if k == a.id {
        assert rows[j] in rows && rows[j].id == k;
      }
    }
  }

  /**
   * The view as it stands completes the note of any active row for a signed-in caller with no role (here
   * one only in Financeiro); the corrected test refuses that caller and leaves the state alone.
   */
  lemma RealizacaoSemPerfil(d: Db, id: int, texto: string)
    requires DbValido(d) && BuscarAtivo(d.rows, id).Some?
    ensures var c := Caller(User(true, false, {FINANCEIRO}), None);
            var pedido := Enviar(Some(texto), None);
            && Realizacao(d, id, c, pedido, ComoEscrita).resposta == Feito
            && Realizacao(d, id, c, pedido, ComoEscrita).db.consultas[id] == texto
            && Realizacao(d, id, c, pedido, Corrigida) == Saida(AcessoNegado, d)
  {
    ProntuarioAbertoSemPerfil(BuscarAtivo(d.rows, id).value);
  }

  method RealizarConsulta(db: Banco, id: int, c: Caller, pedido: PedidoConsulta, regra: Regra) returns (r: Resposta)
    requires db.Valid()
    modifies db
    ensures db.Valid()
    ensures Saida(r, db.Atual()) == Realizacao(old(db.Atual()), id, c, pedido, regra)
  {
    if !c.user.authenticated {
      return NaoAutenticado;
    }
    var encontrado := BuscarAtivo(db.rows, id);
    if encontrado.None? {
      return NaoEncontrado;
    }
    var a := encontrado.value;
    if regra == ComoEscrita {
      if IsAdmin(c.user) && !IsDono(c.user) {
        return AcessoNegado;
      }
      if !IsDono(c.user) && IsTerapeuta(c.user) && !IsOwnTherapist(c, a.terapeuta) {
        return AcessoNegado;
      }
    } else if !AcessoProntuario(c, a) {
      return AcessoNegado;
    }
    r := AtenderConsulta(db, id, a, c, pedido, regra);
  }

  /** The admitted part of `realizar_consulta`: the note is fetched or created, and a submitted form is stored. */
  method AtenderConsulta(db: Banco, id: int, a: Agendamento, c: Caller, pedido: PedidoConsulta, regra: Regra)
    returns (r: Resposta)
    requires db.Valid() && c.user.authenticated && BuscarAtivo(db.rows, id) == Some(a) && Admite(regra, c, a)
    modifies db
    ensures db.Valid()
    ensures Saida(r, db.Atual()) == Realizacao(old(db.Atual()), id, c, pedido, regra)
  {
    assert Buscar(db.rows, id).Some? by {
      assert a in db.rows;
    }
    db.ObterOuCriarConsulta(id);
    match pedido {
      case Abrir =>
        return Formulario;
      case Enviar(None, _) =>
        return Formulario;
      case Enviar(Some(texto), novoTipo) =>
        RegistrarConsulta(db, id, a, c, texto, novoTipo);
        return Feito;
    }
  }

  /** A valid submitted form: the note text is stored and the row becomes REALIZADO, with the owner's type if one was picked. */
  method RegistrarConsulta(db: Banco, id: int, a: Agendamento, c: Caller, texto: string, novoTipo: Option<Tipo>)
    requires db.Valid() && BuscarAtivo(db.rows, id) == Some(a)
    modifies db
    ensures db.Valid()
    ensures var tipo := if IsDono(c.user) && novoTipo.Some? then novoTipo.value else a.tipoAtendimento;
            && db.rows == Salvo(old(db.rows), a.(status := Realizado, tipoAtendimento := tipo))
            && db.proximoId == old(db.proximoId) && db.consultas == old(db.consultas)[id := texto]
  {
    assert Buscar(db.rows, id).Some? by {
      assert a in db.rows;
    }
    db.SalvarConsulta(id, texto);
    var tipo := a.tipoAtendimento;
    if IsDono(c.user) && novoTipo.Some? {
      tipo := novoTipo.value;
    }
    db.Salvar(a.(status := Realizado, tipoAtendimento := tipo));
  }

  // ---------------------------------------------------------------------------
  // limpar_dia
  // ---------------------------------------------------------------------------

  /** The rows `limpar_dia` soft-deletes: active, on that date, not REALIZADO, and within the caller's scope. */
  predicate AlvoLimpeza(c: Caller, data: int, a: Agendamento) {
    && !a.deletado && a.data == data && a.status != Realizado
    && (IsAdmin(c.user) || (IsTerapeuta(c.user) && IsOwnTherapist(c, a.terapeuta)))
  }

  /** `limpar_dia(request)`: `post` is the request method, `data` the `data_para_limpar` field if filled in. */
  function Limpeza(d: Db, c: Caller, post: bool, data: Option<int>): Db {
    if !c.user.authenticated || !post || data.None? then d
    else d.(rows := MarcadosDeletados(d.rows, (a: Agendamento) => AlvoLimpeza(c, data.value, a)))
  }

  /**
   * No row is added or removed, and a row changes only by becoming deleted, and only if it was active,
   * on the date given, not REALIZADO and the caller is an admin or its own therapist.  After an admin's
   * clear no active row but REALIZADO ones is left that day; after a therapist's, none of theirs.
   */
  lemma LimpezaEfeito(d: Db, c: Caller, post: bool, data: Option<int>)
    ensures var r := Limpeza(d, c, post, data);
            && |r.rows| == |d.rows| && r.proximoId == d.proximoId && r.consultas == d.consultas
            && (forall i :: 0 <= i < |d.rows| ==>
                  r.rows[i] == d.rows[i]
                  || (&& r.rows[i] == d.rows[i].(deletado := true) && post && data == Some(d.rows[i].data)
                      && !d.rows[i].deletado && d.rows[i].status != Realizado
                      && (IsAdmin(c.user) || (IsTerapeuta(c.user) && IsOwnTherapist(c, d.rows[i].terapeuta)))))
            && (!IsAdmin(c.user) && !IsTerapeuta(c.user) ==> r == d)
            && (c.user.authenticated && post && data.Some? ==>
                  forall a :: a in r.rows && a.data == data.value && !a.deletado
                              && (IsAdmin(c.user) || (IsTerapeuta(c.user) && IsOwnTherapist(c, a.terapeuta)))
                              ==> a.status == Realizado)
  {
    var r := Limpeza(d, c, post, data);
    if !IsAdmin(c.user) && !IsTerapeuta(c.user) && c.user.authenticated && post && data.Some? {
      assert r.rows == d.rows;
    }
  }

  /**
   * Clearing a day only frees slots; and when REALIZADO does not block, an admin's clear frees every slot
   * of that day and a therapist's clear frees every slot of theirs on that day.
   */
  lemma LimpezaLiberaHorarios(d: Db, bloqueia: set<Status>, c: Caller, data: int, terapeuta: int, inicio: int, fim: int)
    requires c.user.authenticated && Realizado !in bloqueia
    requires IsAdmin(c.user) || (IsTerapeuta(c.user) && c.terapeuta == Some(terapeuta))
    ensures !TemConflito(Limpeza(d, c, true, Some(data)).rows, bloqueia, terapeuta, data, inicio, fim)
    ensures SemSobreposicao(d.rows, bloqueia) ==> SemSobreposicao(Limpeza(d, c, true, Some(data)).rows, bloqueia)
  {
    LimpezaEfeito(d, c, true, Some(data));
    ConflitoExiste(Limpeza(d, c, true, Some(data)).rows, bloqueia, terapeuta, data, inicio, fim);
    if SemSobreposicao(d.rows, bloqueia) {
      MarcadosSemSobreposicao(d.rows, bloqueia, (a: Agendamento) => AlvoLimpeza(c, data, a));
    }
  }

  method LimparDia(db: Banco, c: Caller, post: bool, data: Option<int>)
    requires db.Valid()
    modifies db
    ensures db.Valid()
    ensures db.Atual() == Limpeza(old(db.Atual()), c, post, data)
  {
    if c.user.authenticated && post && data.Some? {
      db.MarcarDeletados((a: Agendamento) => AlvoLimpeza(c, data.value, a));
    }
  }

  // ---------------------------------------------------------------------------
  // excluir_agendamentos_futuros
  // ---------------------------------------------------------------------------

  /** `Q(data__gt=hoje) | Q(data=hoje, hora_inicio__gt=agora)`. */
  predicate NoFuturo(a: Agendamento, hoje: int, agora: Minute) {
    a.data > hoje || (a.data == hoje && a.horaInicio > agora)
  }

  /** The rows the view soft-deletes: the patient's active, future, not REALIZADO rows within the caller's scope. */
  predicate AlvoFuturo(c: Caller, paciente: int, hoje: int, agora: Minute, a: Agendamento) {
    && !a.deletado && a.paciente == paciente && NoFuturo(a, hoje, agora) && a.status != Realizado
    && (IsAdmin(c.user) || IsOwnTherapist(c, a.terapeuta))
  }

  /** `excluir_agendamentos_futuros(request, paciente_id)` on the day `hoje` at minute `agora`. */
  function LimpezaFutura(d: Db, pacientes: seq<Paciente>, paciente: int, c: Caller, hoje: int, agora: Minute, post: bool): Db {
    if !c.user.authenticated || BuscarPaciente(pacientes, paciente).None? then d
    else if !IsAdmin(c.user) && !IsTerapeuta(c.user) then d
    else if !post then d
    else d.(rows := MarcadosDeletados(d.rows, (a: Agendamento) => AlvoFuturo(c, paciente, hoje, agora, a)))
  }

  /**
   * Only on POST, for a known patient and an admin or a therapist: a row changes only by becoming deleted,
   * and only if it is the patient's, active, strictly in the future, not REALIZADO and in the caller's
   * scope; past rows and earlier rows of today are never touched.  Afterwards none of the patient's
   * future rows in the caller's scope is active unless REALIZADO.
   */
  lemma LimpezaFuturaEfeito(d: Db, pacientes: seq<Paciente>, paciente: int, c: Caller, hoje: int, agora: Minute, post: bool)
    ensures var r := LimpezaFutura(d, pacientes, paciente, c, hoje, agora, post);
            && |r.rows| == |d.rows| && r.proximoId == d.proximoId && r.consultas == d.consultas
            && (!post || BuscarPaciente(pacientes, paciente).None? || (!IsAdmin(c.user) && !IsTerapeuta(c.user)) ==> r == d)
            && (forall i :: 0 <= i < |d.rows| ==>
                  r.rows[i] == d.rows[i]
                  || (&& r.rows[i] == d.rows[i].(deletado := true) && post
                      && !d.rows[i].deletado && d.rows[i].paciente == paciente && d.rows[i].status != Realizado
                      && NoFuturo(d.rows[i], hoje, agora)
                      && (IsAdmin(c.user) || IsOwnTherapist(c, d.rows[i].terapeuta))))
            && (post && c.user.authenticated && BuscarPaciente(pacientes, paciente).Some? && (IsAdmin(c.user) || IsTerapeuta(c.user)) ==>
                  forall a :: a in r.rows && a.paciente == paciente && NoFuturo(a, hoje, agora) && !a.deletado
                              && (IsAdmin(c.user) || IsOwnTherapist(c, a.terapeuta))
                              ==> a.status == Realizado)
  {
  }

  method ExcluirAgendamentosFuturos(db: Banco, pacientes: seq<Paciente>, paciente: int, c: Caller, hoje: int,
                                    agora: Minute, post: bool)
    requires db.Valid()
    modifies db
    ensures db.Valid()
    ensures db.Atual() == LimpezaFutura(old(db.Atual()), pacientes, paciente, c, hoje, agora, post)
  {
    if !c.user.authenticated || BuscarPaciente(pacientes, paciente).None? {
      return;
    }
    if !IsAdmin(c.user) && !IsTerapeuta(c.user) {
      return;
    }
    if post {
      db.MarcarDeletados((a: Agendamento) => AlvoFuturo(c, paciente, hoje, agora, a));
    }
  }
}
