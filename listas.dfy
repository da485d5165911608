/**
 * The read-only list of appointments (`lista_agendamentos`) and the date
 * range both list views fall back on (`lista_agendamentos`,
 * `lista_consultas_geral`): today, the current Monday..Sunday, an explicit
 * range, or else the current month, whose last day the two views compute by
 * two different formulas.
 */
module Listas {
  import opened Wrappers
  import opened Calendar
  import opened Roles
  import opened Models

  /** The range of `lista_agendamentos`; `inicio`/`fim` are the `data_inicio`/`data_fim` parameters if given. */
  function PeriodoAgendamentos(hoje: Date, filtroHoje: bool, filtroSemana: bool, inicio: Option<int>, fim: Option<int>): (r: (int, int))
    requires ValidDate(hoje)
    ensures filtroHoje ==> r == (ToOrdinal(hoje), ToOrdinal(hoje))
    ensures !filtroHoje && filtroSemana ==> Weekday(r.0) == 0 && r.1 == r.0 + 6 && r.0 <= ToOrdinal(hoje) <= r.1
    ensures !filtroHoje && !filtroSemana && inicio.Some? && fim.Some? ==> r == (inicio.value, fim.value)
    ensures !filtroHoje && !filtroSemana && !(inicio.Some? && fim.Some?) ==>
              r == (ToOrdinal(Date(hoje.year, hoje.month, 1)), ToOrdinal(Date(hoje.year, hoje.month, DaysInMonth(hoje.year, hoje.month))))
  {
    if filtroHoje then (ToOrdinal(hoje), ToOrdinal(hoje))
    else if filtroSemana then
      var inicioSemana := WeekStart(ToOrdinal(hoje));
      (inicioSemana, inicioSemana + 6)
    else if inicio.Some? && fim.Some? then (inicio.value, fim.value)
    else (ToOrdinal(FirstOfMonth(hoje)), ToOrdinal(MonthEndViaDay28(hoje)))
  }

  /** The range of `lista_consultas_geral`: the same choices, the month end by the other formula. */
  function PeriodoConsultas(hoje: Date, filtroHoje: bool, filtroSemana: bool, inicio: Option<int>, fim: Option<int>): (r: (int, int))
    requires ValidDate(hoje)
    ensures !filtroHoje && !filtroSemana && !(inicio.Some? && fim.Some?) ==>
              r == (ToOrdinal(Date(hoje.year, hoje.month, 1)), ToOrdinal(Date(hoje.year, hoje.month, DaysInMonth(hoje.year, hoje.month))))
  {
    if filtroHoje then (ToOrdinal(hoje), ToOrdinal(hoje))
    else if filtroSemana then
      var inicioSemana := WeekStart(ToOrdinal(hoje));
      (inicioSemana, inicioSemana + 6)
    else if inicio.Some? && fim.Some? then (inicio.value, fim.value)
    else (ToOrdinal(FirstOfMonth(hoje)), ToOrdinal(MonthEndVia32Days(hoje)))
  }

  /** The two views choose the same range for every request, although they compute the month end differently. */
  lemma PeriodosIguais(hoje: Date, filtroHoje: bool, filtroSemana: bool, inicio: Option<int>, fim: Option<int>)
    requires ValidDate(hoje)
    ensures PeriodoAgendamentos(hoje, filtroHoje, filtroSemana, inicio, fim) == PeriodoConsultas(hoje, filtroHoje, filtroSemana, inicio, fim)
  {
  }

  /**
   * The default ranges hold today; the week range is the only Monday..Sunday span that does; and the month
   * range holds exactly the dates of the current month.
   */
  lemma PeriodoPadrao(hoje: Date, filtroSemana: bool)
    requires ValidDate(hoje)
    ensures var r := PeriodoAgendamentos(hoje, false, filtroSemana, None, None);
            && r.0 <= ToOrdinal(hoje) <= r.1
            && (filtroSemana ==> forall s :: Weekday(s) == 0 && s <= ToOrdinal(hoje) <= s + 6 ==> r == (s, s + 6))
            && (!filtroSemana ==> forall e :: ValidDate(e) ==>
                  (r.0 <= ToOrdinal(e) <= r.1 <==> e.year == hoje.year && e.month == hoje.month))
  {
    var r := PeriodoAgendamentos(hoje, false, filtroSemana, None, None);
    if filtroSemana {
      forall s | Weekday(s) == 0 && s <= ToOrdinal(hoje) <= s + 6
        ensures r == (s, s + 6)
      {
        WeekStartUnique(ToOrdinal(hoje), s);
      }
    } else {
      InMonthExactly(hoje);
      forall e | ValidDate(e) && e.year == hoje.year && e.month == hoje.month
        ensures r.0 <= ToOrdinal(e) <= r.1
      {
        InMonthExactly(e);
      }
    }
  }

  /** Who sees which rows of the list: an admin all (or one therapist's, if chosen), a therapist their own. */
  predicate VisivelNaLista(c: Caller, filtroTerapeuta: Option<int>, a: Agendamento) {
    if IsAdmin(c.user) then filtroTerapeuta.Some? ==> a.terapeuta == filtroTerapeuta.value
    else IsTerapeuta(c.user) && IsOwnTherapist(c, a.terapeuta)
  }

  predicate NaLista(c: Caller, inicio: int, fim: int, filtroTerapeuta: Option<int>, tipo: Option<Tipo>,
                    status: Option<Status>, a: Agendamento) {
    && !a.deletado && inicio <= a.data <= fim && VisivelNaLista(c, filtroTerapeuta, a)
    && (tipo.Some? ==> a.tipoAtendimento == tipo.value)
    && (status.Some? ==> a.status == status.value)
  }

  /**
   * `lista_agendamentos(request)` on the chosen range: the active rows of the range the caller may see
   * that match the type and status filters, each once, in (data, hora_inicio) order.
   */
  function ListaAgendamentos(rows: seq<Agendamento>, c: Caller, inicio: int, fim: int, filtroTerapeuta: Option<int>,
                             tipo: Option<Tipo>, status: Option<Status>): (r: seq<Agendamento>)
    ensures Ordenado(r)
    ensures forall a :: a in r <==> a in rows && NaLista(c, inicio, fim, filtroTerapeuta, tipo, status, a)
    ensures multiset(r) == multiset(Filtro(rows, (a: Agendamento) => NaLista(c, inicio, fim, filtroTerapeuta, tipo, status, a)))
  {
    var selecionados := Filtro(rows, (a: Agendamento) => NaLista(c, inicio, fim, filtroTerapeuta, tipo, status, a));
    var r := Ordenar(selecionados);
    assert forall a :: (a in r <==> a in multiset(r)) && (a in selecionados <==> a in multiset(selecionados));
    r
  }

  /** A caller who is neither admin nor therapist sees an empty list. */
  lemma ListaVaziaSemPerfil(rows: seq<Agendamento>, c: Caller, inicio: int, fim: int, filtroTerapeuta: Option<int>,
                            tipo: Option<Tipo>, status: Option<Status>)
    requires !IsAdmin(c.user) && !IsTerapeuta(c.user)
    ensures forall a :: a !in ListaAgendamentos(rows, c, inicio, fim, filtroTerapeuta, tipo, status)
  {
  }
}
