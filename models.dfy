/**
 * The records of the clinic: patients and appointments, the status and
 * billing-type enumerations, the field validators, the soft-delete "active"
 * view, the conflict rule and the default ordering of appointments.
 *
 * Dates are Python ordinals (see Calendar); times are minutes since midnight.
 */
module Models {
  import opened Wrappers
  import Calendar

  // ---------------------------------------------------------------------------
  // Appointment status
  // ---------------------------------------------------------------------------

  datatype Status = Aguardando | Confirmado | Realizado | Cancelado | Falta

  /** The code stored in the database for each status (the first half of STATUS_CHOICES). */
  function StatusCode(s: Status): string {
    match s
    case Aguardando => "AGUARDANDO"
    case Confirmado => "CONFIRMADO"
    case Realizado => "REALIZADO"
    case Cancelado => "CANCELADO"
    case Falta => "FALTA"
  }

  /** The status a stored code (or a `filtro_status` query value) stands for; None for any other string. */
  function ParseStatus(code: string): (r: Option<Status>)
    ensures r.Some? ==> StatusCode(r.value) == code
  {
    if code == "AGUARDANDO" then Some(Aguardando)
    else if code == "CONFIRMADO" then Some(Confirmado)
    else if code == "REALIZADO" then Some(Realizado)
    else if code == "CANCELADO" then Some(Cancelado)
    else if code == "FALTA" then Some(Falta)
    else None
  }

  lemma StatusCodeRoundTrip(s: Status)
    ensures ParseStatus(StatusCode(s)) == Some(s)
  {
  }

  /** `default='AGUARDANDO'`. */
  const DEFAULT_STATUS: Status := Aguardando

  // ---------------------------------------------------------------------------
  // Billing type (tipo_padrao of a patient, tipo_atendimento of an appointment)
  // ---------------------------------------------------------------------------

  datatype Tipo = Particular | Convenio | Social | Desconto

  function TipoCode(t: Tipo): string {
    match t
    case Particular => "PARTICULAR"
    case Convenio => "CONVENIO"
    case Social => "SOCIAL"
    case Desconto => "DESCONTO"
  }

  // ---------------------------------------------------------------------------
  // Records
  // ---------------------------------------------------------------------------

  /** A wall-clock time `time(h, m)` as minutes since midnight. */
  type Minute = m: int | 0 <= m < 1440

  datatype Paciente = Paciente(
    id: int,
    nome: string,
    cpf: Option<string>,
    nascimento: Option<Calendar.Date>,
    telefone: Option<string>,
    tipoPadrao: Tipo,
    ativo: bool)

  datatype Agendamento = Agendamento(
    id: int,
    paciente: int,
    terapeuta: int,
    data: int,
    horaInicio: Minute,
    horaFim: Minute,
    status: Status,
    tipoAtendimento: Tipo,
    deletado: bool)

  // ---------------------------------------------------------------------------
  // Field validators of Paciente
  // ---------------------------------------------------------------------------

  predicate IsDigit(c: char) {
    '0' <= c <= '9'
  }

  predicate AllDigits(s: string) {
    forall i :: 0 <= i < |s| ==> IsDigit(s[i])
  }

  /** `^\d{11}$`. */
  predicate CpfValido(s: string) {
    |s| == 11 && AllDigits(s)
  }

  /** `blank=True, null=True` and `^\d{10,11}$`. */
  predicate TelefoneValido(t: Option<string>) {
    t.None? || ((|t.value| == 10 || |t.value| == 11) && AllDigits(t.value))
  }

  predicate PacienteValido(p: Paciente) {
    (p.cpf.Some? ==> CpfValido(p.cpf.value)) && TelefoneValido(p.telefone)
  }

  /** `unique=True` on the CPF column (a null CPF does not collide). */
  predicate CpfsUnicos(ps: seq<Paciente>) {
    forall i, j :: 0 <= i < j < |ps| && ps[i].cpf.Some? ==> ps[i].cpf != ps[j].cpf
  }

  function BuscarPaciente(ps: seq<Paciente>, id: int): (r: Option<Paciente>)
    ensures r.Some? ==> r.value in ps && r.value.id == id
    ensures r.None? ==> forall p :: p in ps ==> p.id != id
  {
    if ps == [] then None
    else if ps[0].id == id then Some(ps[0])
    else BuscarPaciente(ps[1..], id)
  }

  // ---------------------------------------------------------------------------
  // Appointment defaults, start instant and ordering
  // ---------------------------------------------------------------------------

  /** Missing `hora_fim` becomes one hour after `hora_inicio`, on the 24-hour clock. */
  function DefaultFim(inicio: Minute): (fim: Minute)
    ensures inicio < 1380 ==> fim == inicio + 60
    ensures inicio >= 1380 ==> fim == inicio + 60 - 1440
  {
    (inicio + 60) % 1440
  }

  /** `Agendamento.objects.create(...)` with the model's defaults filled in. */
  function NovoAgendamento(id: int, paciente: int, terapeuta: int, data: int, inicio: Minute,
                           fim: Option<Minute>, status: Status, tipo: Tipo, deletado: bool): (a: Agendamento)
    ensures a.id == id && a.paciente == paciente && a.terapeuta == terapeuta && a.data == data
    ensures a.horaInicio == inicio && a.status == status && a.tipoAtendimento == tipo && a.deletado == deletado
    ensures fim.Some? ==> a.horaFim == fim.value
    ensures fim.None? && a.horaInicio < 1380 ==> a.horaFim == a.horaInicio + 60
    ensures fim.None? && a.horaInicio >= 1380 ==> a.horaFim == a.horaInicio - 1380
  {
    Agendamento(id, paciente, terapeuta, data, inicio,
                match fim case Some(f) => f case None => DefaultFim(inicio),
                status, tipo, deletado)
  }

  /** `test_criacao_agendamento`: 14:00 with no end gets 15:00, and the row is not deleted. */
  lemma CriacaoDefaults(id: int, paciente: int, terapeuta: int, data: int, tipo: Tipo)
    ensures var a := NovoAgendamento(id, paciente, terapeuta, data, 14 * 60, None, DEFAULT_STATUS, tipo, false);
            a.horaFim == 15 * 60 && !a.deletado && a.status == Aguardando
  {
  }

  /** `data_hora_inicio`: `datetime.combine(data, hora_inicio)`, as minutes since the ordinal epoch. */
  function DataHoraInicio(a: Agendamento): int {
    a.data * 1440 + a.horaInicio
  }

  /** `ordering = ['data', 'hora_inicio']`. */
  predicate AntesOuIgual(a: Agendamento, b: Agendamento) {
    a.data < b.data || (a.data == b.data && a.horaInicio <= b.horaInicio)
  }

  /** Ordering by (data, hora_inicio) is ordering by the combined start instant. */
  lemma OrdemPorInicio(a: Agendamento, b: Agendamento)
    ensures AntesOuIgual(a, b) <==> DataHoraInicio(a) <= DataHoraInicio(b)
  {
    if a.data < b.data {
      assert a.data * 1440 + 1440 <= b.data * 1440;
    } else if a.data > b.data {
      assert b.data * 1440 + 1440 <= a.data * 1440;
    }
  }

  lemma OrdemTotal(a: Agendamento, b: Agendamento, c: Agendamento)
    ensures AntesOuIgual(a, b) || AntesOuIgual(b, a)
    ensures AntesOuIgual(a, b) && AntesOuIgual(b, c) ==> AntesOuIgual(a, c)
  {
  }

  predicate Ordenado(s: seq<Agendamento>) {
    forall i, j :: 0 <= i < j < |s| ==> AntesOuIgual(s[i], s[j])
  }

  /** Insertion into an ordered list (the step of the ordering below). */
  function Inserir(a: Agendamento, s: seq<Agendamento>): (r: seq<Agendamento>)
    ensures multiset(r) == multiset(s) + multiset{a}
    ensures forall x :: x in r <==> x == a || x in s
  {
    if s == [] then [a]
    else if AntesOuIgual(a, s[0]) then [a] + s
    else
      assert s == [s[0]] + s[1..];
      [s[0]] + Inserir(a, s[1..])
  }

  /** An ordered list stays ordered with a row in front that comes before all of it. */
  lemma OrdenadoComCabeca(h: Agendamento, t: seq<Agendamento>)
    requires Ordenado(t) && forall x :: x in t ==> AntesOuIgual(h, x)
    ensures Ordenado([h] + t)
  {
    var r := [h] + t;
    forall i, j | 0 <= i < j < |r|
      ensures AntesOuIgual(r[i], r[j])
    {
      assert r[j] == t[j - 1];
      if i > 0 {
        assert r[i] == t[i - 1];
      }
    }
  }

  lemma {:induction false} InserirOrdenado(a: Agendamento, s: seq<Agendamento>)
    requires Ordenado(s)
    ensures Ordenado(Inserir(a, s))
  {
    if s != [] {
      assert s == [s[0]] + s[1..];
      assert forall x :: x in s[1..] ==> AntesOuIgual(s[0], x) by {
        forall x | x in s[1..]
          ensures AntesOuIgual(s[0], x)
        {
          var k :| 0 <= k < |s[1..]| && s[1..][k] == x;
          assert s[k + 1] == x;
        }
      }
      if AntesOuIgual(a, s[0]) {
        OrdenadoComCabeca(a, s);
      } else {
        InserirOrdenado(a, s[1..]);
        OrdenadoComCabeca(s[0], Inserir(a, s[1..]));
      }
    }
  }

  /** A query's rows in the model's default order: ordered, and a permutation of the rows. */
  function Ordenar(s: seq<Agendamento>): (r: seq<Agendamento>)
    ensures Ordenado(r) && multiset(r) == multiset(s)
  {
    if s == [] then []
    else
      assert s == [s[0]] + s[1..];
      InserirOrdenado(s[0], Ordenar(s[1..]));
      Inserir(s[0], Ordenar(s[1..]))
  }

  // ---------------------------------------------------------------------------
  // Filters over a table, the active view
  // ---------------------------------------------------------------------------

  /** No element occurs twice. */
  predicate Distintos<T(==)>(s: seq<T>) {
    forall i, j :: 0 <= i < j < |s| ==> s[i] != s[j]
  }

  /** `queryset.filter(...)`: the rows satisfying `f`, in table order. */
  function Filtro<T(!new)>(s: seq<T>, f: T -> bool): (r: seq<T>)
    ensures forall x :: x in r <==> x in s && f(x)
    ensures |r| <= |s|
  {
    if s == [] then []
    else if f(s[0]) then [s[0]] + Filtro(s[1..], f)
    else Filtro(s[1..], f)
  }

  /** Two disjoint filters never select more rows together than the table holds. */
  lemma {:induction false} FiltrosDisjuntos<T(!new)>(s: seq<T>, f: T -> bool, g: T -> bool)
    requires forall x :: !(f(x) && g(x))
    ensures |Filtro(s, f)| + |Filtro(s, g)| <= |s|
  {
    if s != [] {
      FiltrosDisjuntos(s[1..], f, g);
    }
  }

  /** Filtering twice is filtering once by the conjunction. */
  lemma {:induction false} FiltroComposto<T(!new)>(s: seq<T>, f: T -> bool, g: T -> bool, h: T -> bool)
    requires forall x :: h(x) == (f(x) && g(x))
    ensures Filtro(Filtro(s, f), g) == Filtro(s, h)
  {
    if s != [] {
      FiltroComposto(s[1..], f, g, h);
    }
  }

  /** Filters that agree on every row of the table select the same rows. */
  lemma {:induction false} FiltroIgual<T(!new)>(s: seq<T>, f: T -> bool, g: T -> bool)
    requires forall x :: x in s ==> f(x) == g(x)
    ensures Filtro(s, f) == Filtro(s, g)
  {
    if s != [] {
      FiltroIgual(s[1..], f, g);
    }
  }

  /** Filtering a table with one more row at the end. */
  lemma {:induction false} FiltroAnexo<T(!new)>(s: seq<T>, x: T, f: T -> bool)
    ensures Filtro(s + [x], f) == Filtro(s, f) + (if f(x) then [x] else [])
  {
    if s == [] {
      assert [x][1..] == [];
    } else {
      assert (s + [x])[0] == s[0];
      assert (s + [x])[1..] == s[1..] + [x];
      FiltroAnexo(s[1..], x, f);
    }
  }

  /** A filter that holds on no row selects nothing. */
  lemma {:induction false} FiltroVazio<T(!new)>(s: seq<T>, f: T -> bool)
    requires forall x :: x in s ==> !f(x)
    ensures Filtro(s, f) == []
  {
    if s != [] {
      assert forall x :: x in s[1..] ==> x in s;
      FiltroVazio(s[1..], f);
    }
  }

  /** A weaker filter selects at least as many rows. */
  lemma {:induction false} FiltroMonotono<T(!new)>(s: seq<T>, f: T -> bool, g: T -> bool)
    requires forall x :: f(x) ==> g(x)
    ensures |Filtro(s, f)| <= |Filtro(s, g)|
  {
    if s != [] {
      FiltroMonotono(s[1..], f, g);
    }
  }

  /** A filter that is the disjoint union of two others counts their rows together. */
  lemma {:induction false} FiltroParticao<T(!new)>(s: seq<T>, f: T -> bool, g: T -> bool, h: T -> bool)
    requires forall x :: f(x) == (g(x) || h(x))
    requires forall x :: !(g(x) && h(x))
    ensures |Filtro(s, f)| == |Filtro(s, g)| + |Filtro(s, h)|
  {
    if s != [] {
      FiltroParticao(s[1..], f, g, h);
    }
  }

  /** A filter that holds on every row keeps the whole table. */
  lemma {:induction false} FiltroTudo<T(!new)>(s: seq<T>, f: T -> bool)
    requires forall x :: x in s ==> f(x)
    ensures Filtro(s, f) == s
  {
    if s != [] {
      assert forall x :: x in s[1..] ==> x in s;
      FiltroTudo(s[1..], f);
    }
  }

  /** `Agendamento.objects.ativos()`: the rows not soft-deleted. */
  function Ativos(rows: seq<Agendamento>): (r: seq<Agendamento>)
    ensures forall a :: a in r <==> a in rows && !a.deletado
  {
    Filtro(rows, (a: Agendamento) => !a.deletado)
  }

  /** `test_soft_delete_manager`: the active view keeps the live row and hides the deleted one. */
  lemma SoftDeleteManager(a1: Agendamento, a2: Agendamento)
    requires !a1.deletado && a2.deletado
    ensures a1 in Ativos([a1, a2]) && a2 !in Ativos([a1, a2])
  {
  }

  // ---------------------------------------------------------------------------
  // Conflict rule
  // ---------------------------------------------------------------------------

  /** Half-open overlap: `existing.inicio < fim and existing.fim > inicio`. */
  predicate Sobrepoe(inicioExistente: int, fimExistente: int, inicio: int, fim: int) {
    inicioExistente < fim && fimExistente > inicio
  }

  /** A row that occupies its slot: active, and in one of the statuses that block re-booking. */
  predicate Ocupa(a: Agendamento, bloqueia: set<Status>) {
    !a.deletado && a.status in bloqueia
  }

  predicate ConflitaCom(a: Agendamento, bloqueia: set<Status>, terapeuta: int, data: int, inicio: int, fim: int) {
    Ocupa(a, bloqueia) && a.terapeuta == terapeuta && a.data == data && Sobrepoe(a.horaInicio, a.horaFim, inicio, fim)
  }

  /**
   * `Agendamento.verificar_conflito(terapeuta, data, hora_inicio, hora_fim)`.
   * Which statuses block is the parameter `bloqueia`.
   */
  function TemConflito(rows: seq<Agendamento>, bloqueia: set<Status>, terapeuta: int, data: int,
                       inicio: int, fim: int): (r: bool)
  {
    if rows == [] then false
    else ConflitaCom(rows[0], bloqueia, terapeuta, data, inicio, fim)
         || TemConflito(rows[1..], bloqueia, terapeuta, data, inicio, fim)
  }

  /** The scan finds a conflict exactly when some row of the table conflicts with the slot. */
  lemma {:induction false} ConflitoExiste(rows: seq<Agendamento>, bloqueia: set<Status>, terapeuta: int, data: int,
                                          inicio: int, fim: int)
    ensures TemConflito(rows, bloqueia, terapeuta, data, inicio, fim)
            <==> exists a :: a in rows && ConflitaCom(a, bloqueia, terapeuta, data, inicio, fim)
    decreases |rows|
  {
    if rows != [] {
      ConflitoExiste(rows[1..], bloqueia, terapeuta, data, inicio, fim);
      assert forall a :: a in rows <==> a == rows[0] || a in rows[1..];
    }
  }

  /** `test_conflito_horario`: 10:30-11:30 clashes with 10:00-11:00; 11:00-12:00 does not. */
  lemma ConflitoHorario(a: Agendamento, bloqueia: set<Status>)
    requires a.horaInicio == 10 * 60 && a.horaFim == 11 * 60 && !a.deletado && a.status == Aguardando
    requires Aguardando in bloqueia
    ensures TemConflito([a], bloqueia, a.terapeuta, a.data, 10 * 60 + 30, 11 * 60 + 30)
    ensures !TemConflito([a], bloqueia, a.terapeuta, a.data, 11 * 60, 12 * 60)
  {
    assert ConflitaCom(a, bloqueia, a.terapeuta, a.data, 10 * 60 + 30, 11 * 60 + 30);
  }

  /** Two rows that both occupy overlapping slots of the same therapist on the same day. */
  predicate Colidem(a: Agendamento, b: Agendamento, bloqueia: set<Status>) {
    Ocupa(a, bloqueia) && Ocupa(b, bloqueia) && a.terapeuta == b.terapeuta && a.data == b.data
    && Sobrepoe(a.horaInicio, a.horaFim, b.horaInicio, b.horaFim)
  }

  /** The overlap test is symmetric, so the collision relation is too. */
  lemma ColidemSimetrica(a: Agendamento, b: Agendamento, bloqueia: set<Status>)
    ensures Colidem(a, b, bloqueia) == Colidem(b, a, bloqueia)
    ensures Colidem(a, b, bloqueia) <==> Ocupa(a, bloqueia) && ConflitaCom(b, bloqueia, a.terapeuta, a.data, a.horaInicio, a.horaFim)
  {
  }

  /** The invariant the conflict check protects: no two rows of the table collide. */
  predicate SemSobreposicao(rows: seq<Agendamento>, bloqueia: set<Status>) {
    forall i, j :: 0 <= i < j < |rows| ==> !Colidem(rows[i], rows[j], bloqueia)
  }

  lemma SemSobreposicaoPares(rows: seq<Agendamento>, bloqueia: set<Status>, i: int, j: int)
    requires SemSobreposicao(rows, bloqueia) && 0 <= i < |rows| && 0 <= j < |rows| && i != j
    ensures !Colidem(rows[i], rows[j], bloqueia)
  {
    if j < i {
      ColidemSimetrica(rows[j], rows[i], bloqueia);
    }
  }

  /** Appending a row that the conflict check let through keeps the table free of overlaps. */
  lemma AnexarSemConflito(rows: seq<Agendamento>, bloqueia: set<Status>, a: Agendamento)
    requires SemSobreposicao(rows, bloqueia)
    requires Ocupa(a, bloqueia) ==> !TemConflito(rows, bloqueia, a.terapeuta, a.data, a.horaInicio, a.horaFim)
    ensures SemSobreposicao(rows + [a], bloqueia)
  {
    ConflitoExiste(rows, bloqueia, a.terapeuta, a.data, a.horaInicio, a.horaFim);
    var s := rows + [a];
    forall i, j | 0 <= i < j < |s|
      ensures !Colidem(s[i], s[j], bloqueia)
    {
      if j == |rows| {
        assert s[i] in rows;
        ColidemSimetrica(a, s[i], bloqueia);
      } else {
        assert s[i] == rows[i] && s[j] == rows[j];
      }
    }
  }

  /**
   * Replacing one row keeps the table free of overlaps when the new row does not occupy a slot, or
   * occupies the very slot the old row already occupied.
   */
  lemma TrocaPreserva(rows: seq<Agendamento>, bloqueia: set<Status>, k: int, b: Agendamento)
    requires SemSobreposicao(rows, bloqueia) && 0 <= k < |rows|
    requires !Ocupa(b, bloqueia) || (Ocupa(rows[k], bloqueia) && b.terapeuta == rows[k].terapeuta
             && b.data == rows[k].data && b.horaInicio == rows[k].horaInicio && b.horaFim == rows[k].horaFim)
    ensures SemSobreposicao(rows[k := b], bloqueia)
  {
    var s := rows[k := b];
    forall i, j | 0 <= i < j < |s|
      ensures !Colidem(s[i], s[j], bloqueia)
    {
      SemSobreposicaoPares(rows, bloqueia, i, j);
    }
  }

  /** A row that collides with nothing in a table free of overlaps can be put in front of it. */
  lemma AnteporSemColisao(x: Agendamento, t: seq<Agendamento>, bloqueia: set<Status>)
    requires SemSobreposicao(t, bloqueia)
    requires forall y :: y in t ==> !Colidem(x, y, bloqueia)
    ensures SemSobreposicao([x] + t, bloqueia)
  {
    var s := [x] + t;
    forall i, j | 0 <= i < j < |s|
      ensures !Colidem(s[i], s[j], bloqueia)
    {
      if i == 0 {
        assert s[j] in t;
      } else {
        assert s[i] == t[i - 1] && s[j] == t[j - 1];
      }
    }
  }

  /** Any selection of the rows of a table free of overlaps is free of overlaps (a hard delete, say). */
  lemma {:induction false} FiltroSemSobreposicao(rows: seq<Agendamento>, bloqueia: set<Status>, f: Agendamento -> bool)
    requires SemSobreposicao(rows, bloqueia)
    ensures SemSobreposicao(Filtro(rows, f), bloqueia)
  {
    if rows != [] {
      var t := rows[1..];
      assert SemSobreposicao(t, bloqueia) by {
        forall i, j | 0 <= i < j < |t|
          ensures !Colidem(t[i], t[j], bloqueia)
        {
          assert t[i] == rows[i + 1] && t[j] == rows[j + 1];
        }
      }
      FiltroSemSobreposicao(t, bloqueia, f);
      if f(rows[0]) {
        forall y | y in Filtro(t, f)
          ensures !Colidem(rows[0], y, bloqueia)
        {
          var j :| 0 <= j < |t| && t[j] == y;
          assert rows[j + 1] == y;
        }
        AnteporSemColisao(rows[0], Filtro(t, f), bloqueia);
      }
    }
  }
}
