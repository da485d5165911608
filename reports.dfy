/**
 * The counting behind the two read-only reports: the monthly totals and the
 * per-therapist table of `relatorio_mensal`, and the per-patient ranking of
 * `relatorio_pacientes`. Rates, rounding and the ordering of the rows are
 * left to the rendering layer and are not modelled.
 */
module Reports {
  import opened Wrappers
  import opened Calendar
  import opened Roles
  import opened Models

  // ---------------------------------------------------------------------------
  // Counting helpers over filters
  // ---------------------------------------------------------------------------

  /** A filter that only keeps live rows selects the same rows from the active view. */
  lemma {:induction false} FiltroAtivos(rows: seq<Agendamento>, f: Agendamento -> bool)
    requires forall a :: f(a) ==> !a.deletado
    ensures Filtro(Ativos(rows), f) == Filtro(rows, f)
  {
    if rows != [] {
      FiltroAtivos(rows[1..], f);
      if !rows[0].deletado {
        var t := Ativos(rows[1..]);
        assert Ativos(rows) == [rows[0]] + t;
        assert ([rows[0]] + t)[0] == rows[0] && ([rows[0]] + t)[1..] == t;
      }
    }
  }

  function ComStatus(s: Status): Agendamento -> bool {
    (a: Agendamento) => a.status == s
  }

  // ---------------------------------------------------------------------------
  // Who a report covers
  // ---------------------------------------------------------------------------

  /** `data__month=mes, data__year=ano`: no date matches an impossible month. */
  predicate NoMes(o: int, ano: int, mes: int) {
    ano >= 1 && 1 <= mes <= 12 && InMonth(o, ano, mes)
  }

  /** The whole clinic, or one therapist's own rows. */
  datatype Escopo = Clinica | Individual(terapeuta: int)

  predicate NoEscopo(a: Agendamento, e: Escopo) {
    e.Individual? ==> a.terapeuta == e.terapeuta
  }

  /**
   * Both reports: an admin sees the clinic; a therapist who is not an admin sees their own rows; a
   * therapist without a profile, and anyone with neither role, is sent back (None).
   */
  function EscopoRelatorio(c: Caller): (r: Option<Escopo>)
    ensures r.None? <==> !IsAdmin(c.user) && !(IsTerapeuta(c.user) && c.terapeuta.Some?)
    ensures r.Some? && r.value.Individual? ==> !IsAdmin(c.user) && c.terapeuta == Some(r.value.terapeuta)
  {
    if IsAdmin(c.user) then Some(Clinica)
    else if IsTerapeuta(c.user) && c.terapeuta.Some? then Some(Individual(c.terapeuta.value))
    else None
  }

  /** Neither report opens for a user outside the admin and therapist groups, nor for a therapist without a profile. */
  lemma RelatorioSemPerfil(c: Caller)
    ensures (!c.user.superuser && ADMINISTRATIVO !in c.user.groups && DONOS !in c.user.groups
             && TERAPEUTAS !in c.user.groups) ==> EscopoRelatorio(c).None?
    ensures !IsAdmin(c.user) && c.terapeuta.None? ==> EscopoRelatorio(c).None?
  {
  }

  // ---------------------------------------------------------------------------
  // Monthly report
  // ---------------------------------------------------------------------------

  /** `semanas_opcoes`: each week of the month calendar as its first and last day (the labels are not modelled). */
  method SemanasOpcoes(calendario: seq<seq<int>>) returns (semanas: seq<(int, int)>)
    requires forall i :: 0 <= i < |calendario| ==> |calendario[i]| > 0
    ensures |semanas| == |calendario|
    ensures forall i :: 0 <= i < |semanas| ==> semanas[i] == (calendario[i][0], calendario[i][|calendario[i]| - 1])
  {
    semanas := [];
    for i := 0 to |calendario|
      invariant |semanas| == i
      invariant forall k :: 0 <= k < i ==> semanas[k] == (calendario[k][0], calendario[k][|calendario[k]| - 1])
    {
      var semana := calendario[i];
      semanas := semanas + [(semana[0], semana[|semana| - 1])];
    }
  }

  /** The week filter: only an index of the week list selects a week (`semana` None: absent or not a number). */
  function SemanaEscolhida(semanas: seq<(int, int)>, semana: Option<int>): (r: Option<(int, int)>)
    ensures r.Some? <==> semana.Some? && 0 <= semana.value < |semanas|
    ensures r.Some? ==> r.value == semanas[semana.value]
  {
    if semana.Some? && 0 <= semana.value < |semanas| then Some(semanas[semana.value]) else None
  }

  predicate NaJanela(o: int, janela: Option<(int, int)>) {
    janela.Some? ==> janela.value.0 <= o <= janela.value.1
  }

  /** The rows of `qs_base`: live, of the month, not AGUARDANDO, of the chosen week and of the scope. */
  predicate NaBase(a: Agendamento, ano: int, mes: int, janela: Option<(int, int)>, e: Escopo) {
    && !a.deletado && NoMes(a.data, ano, mes) && a.status != Aguardando
    && NaJanela(a.data, janela) && NoEscopo(a, e)
  }

  function BaseF(ano: int, mes: int, janela: Option<(int, int)>, e: Escopo): Agendamento -> bool {
    (a: Agendamento) => NaBase(a, ano, mes, janela, e)
  }

  datatype Totais = Totais(total: nat, realizados: nat, faltas: nat)

  /** `total_geral`, `total_realizados`, `total_faltas` of a base set: done and missed never exceed the total. */
  function Totalizar(base: seq<Agendamento>): (r: Totais)
    ensures r.total == |base|
    ensures r.realizados + r.faltas <= r.total
  {
    FiltrosDisjuntos(base, ComStatus(Realizado), ComStatus(Falta));
    Totais(|base|, |Filtro(base, ComStatus(Realizado))|, |Filtro(base, ComStatus(Falta))|)
  }

  /** The rows of `filtros_tabela` with one status (the table does not exclude AGUARDANDO). */
  function TabelaF(ano: int, mes: int, janela: Option<(int, int)>, s: Status): Agendamento -> bool {
    (a: Agendamento) => !a.deletado && NoMes(a.data, ano, mes) && NaJanela(a.data, janela) && a.status == s
  }

  function DoTerapeuta(f: Agendamento -> bool, t: int): Agendamento -> bool {
    (a: Agendamento) => f(a) && a.terapeuta == t
  }

  function ContaDe(rows: seq<Agendamento>, f: Agendamento -> bool, t: int): nat {
    |Filtro(rows, DoTerapeuta(f, t))|
  }

  datatype LinhaTerapeuta = LinhaTerapeuta(terapeuta: int, atendimentos: nat, faltas: nat)

  /** `stats_terapeutas`: per therapist analysed, the done and missed rows of the table filter. */
  function Estatisticas(rows: seq<Agendamento>, terapeutas: seq<int>, ano: int, mes: int,
                        janela: Option<(int, int)>): (r: seq<LinhaTerapeuta>)
    ensures |r| == |terapeutas|
    ensures forall i :: 0 <= i < |r| ==> r[i].terapeuta == terapeutas[i]
  {
    if terapeutas == [] then []
    else
      [LinhaTerapeuta(terapeutas[0], ContaDe(rows, TabelaF(ano, mes, janela, Realizado), terapeutas[0]),
                      ContaDe(rows, TabelaF(ano, mes, janela, Falta), terapeutas[0]))]
      + Estatisticas(rows, terapeutas[1..], ano, mes, janela)
  }

  datatype Mensal = Mensal(totais: Totais, estatisticas: seq<LinhaTerapeuta>)

  /**
   * `relatorio_mensal` for month `mes` of `ano`, the week list `semanas` and the optional `semana`
   * index; `terapeutas` are the ids of all therapists. None when the caller is sent back.
   */
  function RelatorioMensal(rows: seq<Agendamento>, terapeutas: seq<int>, c: Caller, ano: int, mes: int,
                           semanas: seq<(int, int)>, semana: Option<int>): (r: Option<Mensal>)
    requires ano >= 1 && 1 <= mes <= 12
    ensures r.None? <==> EscopoRelatorio(c).None?
    ensures r.Some? ==> r.value.totais.realizados + r.value.totais.faltas <= r.value.totais.total
  {
    match EscopoRelatorio(c)
    case None => None
    case Some(e) =>
      var janela := SemanaEscolhida(semanas, semana);
      var analisados := if e.Clinica? then terapeutas else [e.terapeuta];
      Some(Mensal(Totalizar(Filtro(rows, BaseF(ano, mes, janela, e))), Estatisticas(rows, analisados, ano, mes, janela)))
  }

  /** A week index outside the list leaves the report unfiltered. */
  lemma SemanaForaDaLista(rows: seq<Agendamento>, terapeutas: seq<int>, c: Caller, ano: int, mes: int,
                          semanas: seq<(int, int)>, idx: int)
    requires ano >= 1 && 1 <= mes <= 12
    requires !(0 <= idx < |semanas|)
    ensures RelatorioMensal(rows, terapeutas, c, ano, mes, semanas, Some(idx))
         == RelatorioMensal(rows, terapeutas, c, ano, mes, semanas, None)
  {
  }

  /** Choosing a week never raises a total above the whole month's. */
  lemma SemanaRestringe(rows: seq<Agendamento>, terapeutas: seq<int>, c: Caller, ano: int, mes: int,
                        semanas: seq<(int, int)>, semana: Option<int>)
    requires ano >= 1 && 1 <= mes <= 12
    requires EscopoRelatorio(c).Some?
    ensures var s := RelatorioMensal(rows, terapeutas, c, ano, mes, semanas, semana).value.totais;
            var m := RelatorioMensal(rows, terapeutas, c, ano, mes, semanas, None).value.totais;
            s.total <= m.total && s.realizados <= m.realizados && s.faltas <= m.faltas
  {
    var e := EscopoRelatorio(c).value;
    var janela := SemanaEscolhida(semanas, semana);
    var f, g := BaseF(ano, mes, janela, e), BaseF(ano, mes, None, e);
    FiltroMonotono(rows, f, g);
    var (sf, sg) := (Filtro(rows, f), Filtro(rows, g));
    FiltroComposto(rows, f, ComStatus(Realizado), (a: Agendamento) => f(a) && a.status == Realizado);
    FiltroComposto(rows, g, ComStatus(Realizado), (a: Agendamento) => g(a) && a.status == Realizado);
    FiltroMonotono(rows, (a: Agendamento) => f(a) && a.status == Realizado, (a: Agendamento) => g(a) && a.status == Realizado);
    FiltroComposto(rows, f, ComStatus(Falta), (a: Agendamento) => f(a) && a.status == Falta);
    FiltroComposto(rows, g, ComStatus(Falta), (a: Agendamento) => g(a) && a.status == Falta);
    FiltroMonotono(rows, (a: Agendamento) => f(a) && a.status == Falta, (a: Agendamento) => g(a) && a.status == Falta);
  }

  /** Soft-deleted rows (replaced absences among them) never count: the report over the active view is the same. */
  lemma {:induction false} EstatisticasAtivas(rows: seq<Agendamento>, terapeutas: seq<int>, ano: int, mes: int,
                                              janela: Option<(int, int)>)
    ensures Estatisticas(Ativos(rows), terapeutas, ano, mes, janela) == Estatisticas(rows, terapeutas, ano, mes, janela)
  {
    if terapeutas != [] {
      FiltroAtivos(rows, DoTerapeuta(TabelaF(ano, mes, janela, Realizado), terapeutas[0]));
      FiltroAtivos(rows, DoTerapeuta(TabelaF(ano, mes, janela, Falta), terapeutas[0]));
      EstatisticasAtivas(rows, terapeutas[1..], ano, mes, janela);
    }
  }

  lemma RelatorioIgnoraExcluidos(rows: seq<Agendamento>, terapeutas: seq<int>, c: Caller, ano: int, mes: int,
                                 semanas: seq<(int, int)>, semana: Option<int>)
    requires ano >= 1 && 1 <= mes <= 12
    ensures RelatorioMensal(Ativos(rows), terapeutas, c, ano, mes, semanas, semana)
         == RelatorioMensal(rows, terapeutas, c, ano, mes, semanas, semana)
  {
    if EscopoRelatorio(c).Some? {
      var e := EscopoRelatorio(c).value;
      var janela := SemanaEscolhida(semanas, semana);
      FiltroAtivos(rows, BaseF(ano, mes, janela, e));
      var analisados := if e.Clinica? then terapeutas else [e.terapeuta];
      EstatisticasAtivas(rows, analisados, ano, mes, janela);
    }
  }

  /**
   * Exactly the rows of the base set count: one more row adds one to the total (and to the done or missed
   * count by its status) when it is live, of the month, not AGUARDANDO, of the week and of the scope,
   * and changes nothing otherwise.
   */
  lemma RelatorioAnexo(rows: seq<Agendamento>, terapeutas: seq<int>, c: Caller, ano: int, mes: int,
                       semanas: seq<(int, int)>, semana: Option<int>, a: Agendamento)
    requires ano >= 1 && 1 <= mes <= 12
    requires EscopoRelatorio(c).Some?
    ensures var antes := RelatorioMensal(rows, terapeutas, c, ano, mes, semanas, semana).value.totais;
            var depois := RelatorioMensal(rows + [a], terapeutas, c, ano, mes, semanas, semana).value.totais;
            depois == if NaBase(a, ano, mes, SemanaEscolhida(semanas, semana), EscopoRelatorio(c).value)
                      then Totais(antes.total + 1, antes.realizados + (if a.status == Realizado then 1 else 0),
                                  antes.faltas + (if a.status == Falta then 1 else 0))
                      else antes
  {
    var e := EscopoRelatorio(c).value;
    var janela := SemanaEscolhida(semanas, semana);
    var f := BaseF(ano, mes, janela, e);
    assert RelatorioMensal(rows, terapeutas, c, ano, mes, semanas, semana).value.totais == Totalizar(Filtro(rows, f));
    assert RelatorioMensal(rows + [a], terapeutas, c, ano, mes, semanas, semana).value.totais == Totalizar(Filtro(rows + [a], f));
    TotalizarAnexo(rows, f, a);
  }

  lemma TotalizarAnexo(rows: seq<Agendamento>, f: Agendamento -> bool, a: Agendamento)
    ensures var antes := Totalizar(Filtro(rows, f));
            Totalizar(Filtro(rows + [a], f))
              == if f(a) then Totais(antes.total + 1, antes.realizados + (if a.status == Realizado then 1 else 0),
                                     antes.faltas + (if a.status == Falta then 1 else 0))
                 else antes
  {
    FiltroAnexo(rows, a, f);
    var base := Filtro(rows, f);
    if f(a) {
      assert Filtro(rows + [a], f) == base + [a];
      TotalizarUm(base, a);
    } else {
      assert Filtro(rows + [a], f) == base;
    }
  }

  lemma TotalizarUm(base: seq<Agendamento>, a: Agendamento)
    ensures var antes := Totalizar(base);
            Totalizar(base + [a]) == Totais(antes.total + 1, antes.realizados + (if a.status == Realizado then 1 else 0),
                                            antes.faltas + (if a.status == Falta then 1 else 0))
  {
    FiltroAnexo(base, a, ComStatus(Realizado));
    FiltroAnexo(base, a, ComStatus(Falta));
  }

  /** For a therapist, the single table row is their own and repeats the totals. */
  lemma EstatisticaIndividual(rows: seq<Agendamento>, terapeutas: seq<int>, c: Caller, ano: int, mes: int,
                              semanas: seq<(int, int)>, semana: Option<int>, t: int)
    requires ano >= 1 && 1 <= mes <= 12
    requires EscopoRelatorio(c) == Some(Individual(t))
    ensures var r := RelatorioMensal(rows, terapeutas, c, ano, mes, semanas, semana).value;
            r.estatisticas == [LinhaTerapeuta(t, r.totais.realizados, r.totais.faltas)]
  {
    var e := Individual(t);
    var janela := SemanaEscolhida(semanas, semana);
    FiltroComposto(rows, BaseF(ano, mes, janela, e), ComStatus(Realizado), DoTerapeuta(TabelaF(ano, mes, janela, Realizado), t));
    FiltroComposto(rows, BaseF(ano, mes, janela, e), ComStatus(Falta), DoTerapeuta(TabelaF(ano, mes, janela, Falta), t));
  }

  function SomaAtendimentos(ls: seq<LinhaTerapeuta>): nat {
    if ls == [] then 0 else ls[0].atendimentos + SomaAtendimentos(ls[1..])
  }

  function SomaFaltas(ls: seq<LinhaTerapeuta>): nat {
    if ls == [] then 0 else ls[0].faltas + SomaFaltas(ls[1..])
  }

  /** The rows of `f` summed therapist by therapist. */
  function SomaPor(rows: seq<Agendamento>, f: Agendamento -> bool, ts: seq<int>): nat {
    if ts == [] then 0 else ContaDe(rows, f, ts[0]) + SomaPor(rows, f, ts[1..])
  }

  function EmAlgum(f: Agendamento -> bool, ts: seq<int>): Agendamento -> bool {
    (a: Agendamento) => f(a) && a.terapeuta in ts
  }

  /** Counting per therapist over distinct therapists counts every row of those therapists once. */
  lemma {:induction false} ContagemPorTerapeuta(rows: seq<Agendamento>, f: Agendamento -> bool, ts: seq<int>)
    requires Distintos(ts)
    ensures SomaPor(rows, f, ts) == |Filtro(rows, EmAlgum(f, ts))|
  {
    if ts == [] {
      FiltroVazio(rows, EmAlgum(f, ts));
    } else {
      var resto := ts[1..];
      forall k | 0 <= k < |resto|
        ensures resto[k] != ts[0]
      {
        assert resto[k] == ts[k + 1];
      }
      assert ts == [ts[0]] + resto;
      FiltroParticao(rows, EmAlgum(f, ts), DoTerapeuta(f, ts[0]), EmAlgum(f, resto));
      assert Distintos(resto) by {
        forall i, j | 0 <= i < j < |resto|
          ensures resto[i] != resto[j]
        {
          assert resto[i] == ts[i + 1] && resto[j] == ts[j + 1];
        }
      }
      ContagemPorTerapeuta(rows, f, resto);
    }
  }

  lemma {:induction false} SomaEstatisticas(rows: seq<Agendamento>, ts: seq<int>, ano: int, mes: int,
                                            janela: Option<(int, int)>)
    ensures SomaAtendimentos(Estatisticas(rows, ts, ano, mes, janela)) == SomaPor(rows, TabelaF(ano, mes, janela, Realizado), ts)
    ensures SomaFaltas(Estatisticas(rows, ts, ano, mes, janela)) == SomaPor(rows, TabelaF(ano, mes, janela, Falta), ts)
  {
    if ts != [] {
      SomaEstatisticas(rows, ts[1..], ano, mes, janela);
      var r := Estatisticas(rows, ts, ano, mes, janela);
      assert r[1..] == Estatisticas(rows, ts[1..], ano, mes, janela);
    }
  }

  /**
   * For an admin, when every row's therapist is one of the distinct therapists listed, the table's
   * columns add up to the clinic's done and missed totals.
   */
  lemma SomaDaClinica(rows: seq<Agendamento>, terapeutas: seq<int>, c: Caller, ano: int, mes: int,
                      semanas: seq<(int, int)>, semana: Option<int>)
    requires ano >= 1 && 1 <= mes <= 12
    requires IsAdmin(c.user)
    requires Distintos(terapeutas)
    requires forall a :: a in rows ==> a.terapeuta in terapeutas
    ensures var r := RelatorioMensal(rows, terapeutas, c, ano, mes, semanas, semana).value;
            SomaAtendimentos(r.estatisticas) == r.totais.realizados && SomaFaltas(r.estatisticas) == r.totais.faltas
  {
    var janela := SemanaEscolhida(semanas, semana);
    var base := BaseF(ano, mes, janela, Clinica);
    SomaEstatisticas(rows, terapeutas, ano, mes, janela);
    var fr, ff := TabelaF(ano, mes, janela, Realizado), TabelaF(ano, mes, janela, Falta);
    ContagemPorTerapeuta(rows, fr, terapeutas);
    ContagemPorTerapeuta(rows, ff, terapeutas);
    var hr := (a: Agendamento) => base(a) && a.status == Realizado;
    var hf := (a: Agendamento) => base(a) && a.status == Falta;
    FiltroComposto(rows, base, ComStatus(Realizado), hr);
    FiltroComposto(rows, base, ComStatus(Falta), hf);
    FiltroIgual(rows, hr, EmAlgum(fr, terapeutas));
    FiltroIgual(rows, hf, EmAlgum(ff, terapeutas));
  }

  // ---------------------------------------------------------------------------
  // Patient ranking
  // ---------------------------------------------------------------------------

  /** The rows of `filtros_agendamento` for one patient (AGUARDANDO rows count here). */
  function RankingF(paciente: int, ano: int, mes: int, e: Escopo): Agendamento -> bool {
    (a: Agendamento) => a.paciente == paciente && !a.deletado && NoMes(a.data, ano, mes) && NoEscopo(a, e)
  }

  datatype LinhaRanking = LinhaRanking(paciente: int, total: nat, faltas: nat, realizados: nat)

  /** `total_agendado`, `total_faltas`, `total_realizados` of one patient: missed and done never exceed the total. */
  function Contagem(rows: seq<Agendamento>, paciente: int, ano: int, mes: int, e: Escopo): (l: LinhaRanking)
    ensures l.paciente == paciente
    ensures l.faltas + l.realizados <= l.total
  {
    var agendados := Filtro(rows, RankingF(paciente, ano, mes, e));
    FiltrosDisjuntos(agendados, ComStatus(Falta), ComStatus(Realizado));
    LinhaRanking(paciente, |agendados|, |Filtro(agendados, ComStatus(Falta))|, |Filtro(agendados, ComStatus(Realizado))|)
  }

  /** `pacientes_base.filter(agendamento__terapeuta=t)`: the therapist has any row with the patient, of any date or state. */
  function Atende(rows: seq<Agendamento>, t: int, paciente: int): (r: bool)
    ensures r <==> exists a :: a in rows && a.terapeuta == t && a.paciente == paciente
  {
    if rows == [] then false
    else (rows[0].terapeuta == t && rows[0].paciente == paciente) || Atende(rows[1..], t, paciente)
  }

  /** `pacientes_base`: active patients, seen by the therapist in scope, of the chosen type code if one is given. */
  predicate Elegivel(rows: seq<Agendamento>, p: Paciente, e: Escopo, tipo: Option<string>) {
    && p.ativo
    && (e.Individual? ==> Atende(rows, e.terapeuta, p.id))
    && (tipo.Some? && tipo.value != "" ==> TipoCode(p.tipoPadrao) == tipo.value)
  }

  /**
   * `ranking_pacientes` before ordering: one line per eligible patient with at least one counted row,
   * in patient order, and no other line.
   */
  function Ranking(rows: seq<Agendamento>, pacientes: seq<Paciente>, ano: int, mes: int, e: Escopo,
                   tipo: Option<string>): (r: seq<LinhaRanking>)
    ensures |r| <= |pacientes|
    ensures forall l :: l in r ==> l.total > 0 && l.faltas + l.realizados <= l.total
    ensures forall p :: p in pacientes && Elegivel(rows, p, e, tipo) && Contagem(rows, p.id, ano, mes, e).total > 0
                        ==> Contagem(rows, p.id, ano, mes, e) in r
    ensures forall l :: l in r ==> exists p :: p in pacientes && Elegivel(rows, p, e, tipo) && l == Contagem(rows, p.id, ano, mes, e)
  {
    if pacientes == [] then []
    else
      var resto := Ranking(rows, pacientes[1..], ano, mes, e, tipo);
      assert forall p :: p in pacientes[1..] ==> p in pacientes;
      var l := Contagem(rows, pacientes[0].id, ano, mes, e);
      if Elegivel(rows, pacientes[0], e, tipo) && l.total > 0 then [l] + resto else resto
  }

  /** `relatorio_pacientes` for month `mes` of `ano` and the `tipo_atend` code; None when the caller is sent back. */
  function RelatorioPacientes(rows: seq<Agendamento>, pacientes: seq<Paciente>, c: Caller, ano: int, mes: int,
                              tipo: Option<string>): (r: Option<seq<LinhaRanking>>)
    ensures r.None? <==> EscopoRelatorio(c).None?
    ensures r.Some? ==> forall l :: l in r.value ==> l.total > 0 && l.faltas + l.realizados <= l.total
  {
    match EscopoRelatorio(c)
    case None => None
    case Some(e) => Some(Ranking(rows, pacientes, ano, mes, e, tipo))
  }

  /** Exactly the rows of `filtros_agendamento` count: one more row adds one to its patient's total when it qualifies. */
  lemma ContagemAnexo(rows: seq<Agendamento>, paciente: int, ano: int, mes: int, e: Escopo, a: Agendamento)
    ensures var antes := Contagem(rows, paciente, ano, mes, e);
            var depois := Contagem(rows + [a], paciente, ano, mes, e);
            depois == if a.paciente == paciente && !a.deletado && NoMes(a.data, ano, mes) && NoEscopo(a, e)
                      then LinhaRanking(paciente, antes.total + 1, antes.faltas + (if a.status == Falta then 1 else 0),
                                        antes.realizados + (if a.status == Realizado then 1 else 0))
                      else antes
  {
    var f := RankingF(paciente, ano, mes, e);
    FiltroAnexo(rows, a, f);
    var agendados := Filtro(rows, f);
    if f(a) {
      assert Filtro(rows + [a], f) == agendados + [a];
      FiltroAnexo(agendados, a, ComStatus(Falta));
      FiltroAnexo(agendados, a, ComStatus(Realizado));
    } else {
      assert Filtro(rows + [a], f) == agendados;
    }
  }

  /** For a therapist's ranking, another therapist's rows change nothing. */
  lemma {:induction false} RankingIgnoraOutros(rows: seq<Agendamento>, pacientes: seq<Paciente>, ano: int, mes: int,
                                              t: int, tipo: Option<string>, a: Agendamento)
    requires a.terapeuta != t
    ensures Ranking(rows + [a], pacientes, ano, mes, Individual(t), tipo) == Ranking(rows, pacientes, ano, mes, Individual(t), tipo)
  {
    if pacientes != [] {
      RankingIgnoraOutros(rows, pacientes[1..], ano, mes, t, tipo, a);
      ContagemAnexo(rows, pacientes[0].id, ano, mes, Individual(t), a);
      assert Atende(rows + [a], t, pacientes[0].id) == Atende(rows, t, pacientes[0].id) by {
        assert forall x :: x in rows + [a] <==> x in rows || x == a;
      }
    }
  }

  /**
   * Soft-deleted rows never change the ranking: they count for no patient, and a therapist whose only rows
   * with a patient are deleted sees no line for them either way.
   */
  lemma {:induction false} RankingIgnoraExcluidos(rows: seq<Agendamento>, pacientes: seq<Paciente>, ano: int, mes: int,
                                                 e: Escopo, tipo: Option<string>)
    ensures Ranking(Ativos(rows), pacientes, ano, mes, e, tipo) == Ranking(rows, pacientes, ano, mes, e, tipo)
  {
    if pacientes != [] {
      RankingIgnoraExcluidos(rows, pacientes[1..], ano, mes, e, tipo);
      var p := pacientes[0];
      var f := RankingF(p.id, ano, mes, e);
      FiltroAtivos(rows, f);
      var l := Contagem(rows, p.id, ano, mes, e);
      assert Contagem(Ativos(rows), p.id, ano, mes, e) == l;
      if l.total > 0 && e.Individual? {
        var x := Filtro(rows, f)[0];
        assert x in Filtro(rows, f);
        assert x in Ativos(rows);
      }
    }
  }
}
