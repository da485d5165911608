/**
 * `criar_agendamentos_em_lote`: one candidate per week, each either recorded
 * as a conflict or inserted as a new AGUARDANDO row, and `setup_grupos`, the
 * idempotent creation of the four permission groups.
 *
 * The batch is specified by `LoteAte`, the state after the first k weekly
 * candidates; the method's loop keeps the table equal to it, and the lemmas
 * below state what the source promises about it.
 */
module Utils {
  import opened Wrappers
  import opened Models
  import opened Agenda
  import Roles

  /** Table, next id and the two results after some candidates. */
  datatype Lote = Lote(rows: seq<Agendamento>, proximoId: int, criados: nat, conflitos: seq<int>)

  /** `data_base + timedelta(weeks=i)`, as an ordinal. */
  function Candidata(base: int, i: int): int {
    base + 7 * i
  }

  /** The fields every row the batch creates carries (the form's values, AGUARDANDO, the patient's default type). */
  predicate DoLote(a: Agendamento, p: Paciente, terapeuta: int, inicio: Minute, fim: Minute) {
    && a.paciente == p.id && a.terapeuta == terapeuta
    && a.horaInicio == inicio && a.horaFim == fim
    && a.status == Aguardando && a.tipoAtendimento == p.tipoPadrao && !a.deletado
  }

  /** The state after the candidates 0 .. k-1. */
  function LoteAte(rows: seq<Agendamento>, proximo: int, bloqueia: set<Status>, p: Paciente, terapeuta: int,
                   base: int, inicio: Minute, fim: Minute, k: nat): Lote
    decreases k
  {
    if k == 0 then Lote(rows, proximo, 0, [])
    else Passo(LoteAte(rows, proximo, bloqueia, p, terapeuta, base, inicio, fim, k - 1), bloqueia, p, terapeuta, Candidata(base, k - 1), inicio, fim)
  }

  /** One candidate date `d`: recorded as a conflict, or inserted as a new row with the next id. */
  function Passo(l: Lote, bloqueia: set<Status>, p: Paciente, terapeuta: int, d: int, inicio: Minute, fim: Minute): Lote {
    if TemConflito(l.rows, bloqueia, terapeuta, d, inicio, fim) then
      l.(conflitos := l.conflitos + [d])
    else
      var a := NovoAgendamento(l.proximoId, p.id, terapeuta, d, inicio, Some(fim), Aguardando, p.tipoPadrao, false);
      Lote(l.rows + [a], l.proximoId + 1, l.criados + 1, l.conflitos)
  }

  /** Every candidate is counted exactly once: `criados + len(conflitos)` is the number of candidates. */
  lemma {:induction false} LoteContagem(rows: seq<Agendamento>, proximo: int, bloqueia: set<Status>, p: Paciente,
                                        terapeuta: int, base: int, inicio: Minute, fim: Minute, k: nat)
    ensures var l := LoteAte(rows, proximo, bloqueia, p, terapeuta, base, inicio, fim, k);
            l.criados + |l.conflitos| == k
  {
    if k > 0 {
      LoteContagem(rows, proximo, bloqueia, p, terapeuta, base, inicio, fim, k - 1);
    }
  }

  /** `x` is the date of one of the candidates m .. k-1 (its week index is `(x - base) / 7`). */
  predicate EhCandidata(x: int, base: int, m: int, k: int) {
    m <= (x - base) / 7 < k && x == Candidata(base, (x - base) / 7)
  }

  lemma CandidataEh(base: int, w: int, m: int, k: int)
    requires m <= w < k
    ensures EhCandidata(Candidata(base, w), base, m, k)
  {
    assert (Candidata(base, w) - base) / 7 == w;
  }

  predicate Prefixo<T(==)>(a: seq<T>, b: seq<T>) {
    |a| <= |b| && b[..|a|] == a
  }

  /** The rows from index `de` on were created by candidates m .. k-1, with consecutive ids from `proximoDe`. */
  predicate NovasDoLote(rows: seq<Agendamento>, de: int, proximoDe: int, p: Paciente, terapeuta: int,
                        inicio: Minute, fim: Minute, base: int, m: int, k: int) {
    forall j :: 0 <= de <= j < |rows| ==>
      DoLote(rows[j], p, terapeuta, inicio, fim) && rows[j].id == proximoDe + (j - de)
      && EhCandidata(rows[j].data, base, m, k)
  }

  predicate ConflitosEntre(c: seq<int>, de: int, base: int, m: int, k: int) {
    forall j :: 0 <= de <= j < |c| ==> EhCandidata(c[j], base, m, k)
  }

  /** One candidate either leaves the table and the counters alone or appends one row of the batch with the next id. */
  lemma LoteUmPasso(rows: seq<Agendamento>, proximo: int, bloqueia: set<Status>, p: Paciente,
                  terapeuta: int, base: int, inicio: Minute, fim: Minute, k: nat)
    requires k > 0
    ensures var l := LoteAte(rows, proximo, bloqueia, p, terapeuta, base, inicio, fim, k - 1);
            var lk := LoteAte(rows, proximo, bloqueia, p, terapeuta, base, inicio, fim, k);
            if lk.criados == l.criados then lk.rows == l.rows && lk.proximoId == l.proximoId
            else
              && lk.criados == l.criados + 1 && lk.proximoId == l.proximoId + 1
              && lk.rows == l.rows + [lk.rows[|l.rows|]]
              && DoLote(lk.rows[|l.rows|], p, terapeuta, inicio, fim)
              && lk.rows[|l.rows|].id == l.proximoId && lk.rows[|l.rows|].data == Candidata(base, k - 1)
  {
  }

  /** Rows made by candidates m .. k-2 were made by candidates m .. k-1. */
  lemma NovasAlarga(rows: seq<Agendamento>, de: int, proximoDe: int, p: Paciente, terapeuta: int,
                    inicio: Minute, fim: Minute, base: int, m: int, k: int)
    requires NovasDoLote(rows, de, proximoDe, p, terapeuta, inicio, fim, base, m, k - 1)
    ensures NovasDoLote(rows, de, proximoDe, p, terapeuta, inicio, fim, base, m, k)
  {
    forall j | 0 <= de <= j < |rows|
      ensures EhCandidata(rows[j].data, base, m, k)
    {
      assert EhCandidata(rows[j].data, base, m, k - 1);
    }
  }

  /**
   * Between the states after m and after k candidates the table only grows at the end, by rows with
   * the batch's fields, the next ids in order, and dates of the candidates m .. k-1.
   */
  lemma {:induction false} LoteEntreLinhas(rows: seq<Agendamento>, proximo: int, bloqueia: set<Status>, p: Paciente,
                                           terapeuta: int, base: int, inicio: Minute, fim: Minute, m: nat, k: nat)
    requires m <= k
    ensures var lm := LoteAte(rows, proximo, bloqueia, p, terapeuta, base, inicio, fim, m);
            var lk := LoteAte(rows, proximo, bloqueia, p, terapeuta, base, inicio, fim, k);
            && Prefixo(lm.rows, lk.rows)
            && |lk.rows| - |lm.rows| == lk.criados - lm.criados
            && lk.proximoId - lm.proximoId == lk.criados - lm.criados
            && NovasDoLote(lk.rows, |lm.rows|, lm.proximoId, p, terapeuta, inicio, fim, base, m, k)
    decreases k - m
  {
    if m < k {
      LoteEntreLinhas(rows, proximo, bloqueia, p, terapeuta, base, inicio, fim, m, k - 1);
      LoteUmPasso(rows, proximo, bloqueia, p, terapeuta, base, inicio, fim, k);
      var lm := LoteAte(rows, proximo, bloqueia, p, terapeuta, base, inicio, fim, m);
      var l := LoteAte(rows, proximo, bloqueia, p, terapeuta, base, inicio, fim, k - 1);
      var lk := LoteAte(rows, proximo, bloqueia, p, terapeuta, base, inicio, fim, k);
      NovasAlarga(l.rows, |lm.rows|, lm.proximoId, p, terapeuta, inicio, fim, base, m, k);
      if lk.criados != l.criados {
        assert lk.rows[..|lm.rows|] == l.rows[..|lm.rows|];
        CandidataEh(base, k - 1, m, k);
        forall j | |lm.rows| <= j < |lk.rows|
          ensures DoLote(lk.rows[j], p, terapeuta, inicio, fim) && lk.rows[j].id == lm.proximoId + (j - |lm.rows|)
          ensures EhCandidata(lk.rows[j].data, base, m, k)
        {
          if j < |l.rows| {
            assert lk.rows[j] == l.rows[j];
          }
        }
      }
    }
  }

  /** Between the states after m and after k candidates the conflict list only grows at the end, by candidates m .. k-1. */
  lemma {:induction false} LoteEntreConflitos(rows: seq<Agendamento>, proximo: int, bloqueia: set<Status>, p: Paciente,
                                              terapeuta: int, base: int, inicio: Minute, fim: Minute, m: nat, k: nat)
    requires m <= k
    ensures var lm := LoteAte(rows, proximo, bloqueia, p, terapeuta, base, inicio, fim, m);
            var lk := LoteAte(rows, proximo, bloqueia, p, terapeuta, base, inicio, fim, k);
            Prefixo(lm.conflitos, lk.conflitos) && ConflitosEntre(lk.conflitos, |lm.conflitos|, base, m, k)
    decreases k - m
  {
    if m < k {
      LoteEntreConflitos(rows, proximo, bloqueia, p, terapeuta, base, inicio, fim, m, k - 1);
      var lm := LoteAte(rows, proximo, bloqueia, p, terapeuta, base, inicio, fim, m);
      var l := LoteAte(rows, proximo, bloqueia, p, terapeuta, base, inicio, fim, k - 1);
      var lk := LoteAte(rows, proximo, bloqueia, p, terapeuta, base, inicio, fim, k);
      if lk.conflitos != l.conflitos {
        assert lk.conflitos == l.conflitos + [Candidata(base, k - 1)];
        assert lk.conflitos[..|lm.conflitos|] == l.conflitos[..|lm.conflitos|];
        CandidataEh(base, k - 1, m, k);
        forall j | |lm.conflitos| <= j < |lk.conflitos|
          ensures EhCandidata(lk.conflitos[j], base, m, k)
        {
          if j < |l.conflitos| {
            assert lk.conflitos[j] == l.conflitos[j];
          }
        }
      }
    }
  }

  /**
   * The table grows by exactly `criados` rows appended after an unchanged prefix; each new row has the
   * form's patient, therapist, start and end, status AGUARDANDO, the patient's default type and the next id.
   */
  lemma LoteCresce(rows: seq<Agendamento>, proximo: int, bloqueia: set<Status>, p: Paciente,
                   terapeuta: int, base: int, inicio: Minute, fim: Minute, k: nat)
    ensures var l := LoteAte(rows, proximo, bloqueia, p, terapeuta, base, inicio, fim, k);
            && |l.rows| == |rows| + l.criados && l.rows[..|rows|] == rows && l.proximoId == proximo + l.criados
            && forall j :: |rows| <= j < |l.rows| ==>
                 DoLote(l.rows[j], p, terapeuta, inicio, fim) && l.rows[j].id == proximo + (j - |rows|)
  {
    LoteEntreLinhas(rows, proximo, bloqueia, p, terapeuta, base, inicio, fim, 0, k);
  }

  /** `conflitos` lists candidate dates only, strictly in week order. */
  lemma {:induction false} LoteConflitosEmOrdem(rows: seq<Agendamento>, proximo: int, bloqueia: set<Status>,
                                                p: Paciente, terapeuta: int, base: int, inicio: Minute,
                                                fim: Minute, k: nat)
    ensures var c := LoteAte(rows, proximo, bloqueia, p, terapeuta, base, inicio, fim, k).conflitos;
            && (forall j :: 0 <= j < |c| ==> exists w :: 0 <= w < k && c[j] == Candidata(base, w))
            && (forall i, j :: 0 <= i < j < |c| ==> c[i] < c[j])
  {
    if k > 0 {
      LoteConflitosEmOrdem(rows, proximo, bloqueia, p, terapeuta, base, inicio, fim, k - 1);
      LoteEntreConflitos(rows, proximo, bloqueia, p, terapeuta, base, inicio, fim, 0, k - 1);
      LoteEntreConflitos(rows, proximo, bloqueia, p, terapeuta, base, inicio, fim, 0, 0);
      var c0 := LoteAte(rows, proximo, bloqueia, p, terapeuta, base, inicio, fim, k - 1).conflitos;
      var c := LoteAte(rows, proximo, bloqueia, p, terapeuta, base, inicio, fim, k).conflitos;
      forall j | 0 <= j < |c0|
        ensures c0[j] < Candidata(base, k - 1)
      {
        assert EhCandidata(c0[j], base, 0, k - 1);
      }
      if c != c0 {
        assert c == c0 + [Candidata(base, k - 1)];
        forall j | 0 <= j < |c|
          ensures exists w :: 0 <= w < k && c[j] == Candidata(base, w)
        {
          if j < |c0| {
            assert c[j] == c0[j];
          } else {
            assert c[j] == Candidata(base, k - 1);
          }
        }
        forall i, j | 0 <= i < j < |c|
          ensures c[i] < c[j]
        {
          assert c[i] == c0[i];
          if j < |c0| {
            assert c[j] == c0[j];
          }
        }
      }
    }
  }

  /**
   * Candidate i (of k) is in `conflitos` exactly when the conflict check saw a clash at that point, and
   * exactly when the batch created no row for that date.
   */
  lemma LoteDecisao(rows: seq<Agendamento>, proximo: int, bloqueia: set<Status>, p: Paciente,
                    terapeuta: int, base: int, inicio: Minute, fim: Minute, k: nat, i: nat)
    requires i < k
    ensures var li := LoteAte(rows, proximo, bloqueia, p, terapeuta, base, inicio, fim, i);
            var lk := LoteAte(rows, proximo, bloqueia, p, terapeuta, base, inicio, fim, k);
            && (Candidata(base, i) in lk.conflitos <==> TemConflito(li.rows, bloqueia, terapeuta, Candidata(base, i), inicio, fim))
            && (Candidata(base, i) in lk.conflitos <==>
                  !exists j :: |rows| <= j < |lk.rows| && lk.rows[j].data == Candidata(base, i))
  {
    DecisaoConflitos(rows, proximo, bloqueia, p, terapeuta, base, inicio, fim, k, i);
    DecisaoLinhas(rows, proximo, bloqueia, p, terapeuta, base, inicio, fim, k, i);
  }

  /** Helper: a value absent from both ends of a sequence occurs in it exactly when it occurs in the middle. */
  lemma SoNoMeio<T>(c: seq<T>, a: int, b: int, x: T)
    requires 0 <= a <= b <= |c|
    requires forall j :: 0 <= j < a ==> c[j] != x
    requires forall j :: b <= j < |c| ==> c[j] != x
    ensures x in c <==> x in c[a..b]
  {
    if x in c {
      var j :| 0 <= j < |c| && c[j] == x;
      assert c[a..b][j - a] == x;
    }
  }

  /** Helper: one step of the batch, spelled out. */
  lemma LotePasso(rows: seq<Agendamento>, proximo: int, bloqueia: set<Status>, p: Paciente,
                  terapeuta: int, base: int, inicio: Minute, fim: Minute, i: nat)
    ensures var li := LoteAte(rows, proximo, bloqueia, p, terapeuta, base, inicio, fim, i);
            var l1 := LoteAte(rows, proximo, bloqueia, p, terapeuta, base, inicio, fim, i + 1);
            if TemConflito(li.rows, bloqueia, terapeuta, Candidata(base, i), inicio, fim)
            then l1.rows == li.rows && l1.conflitos == li.conflitos + [Candidata(base, i)]
            else l1.conflitos == li.conflitos && |l1.rows| == |li.rows| + 1 && l1.rows[|li.rows|].data == Candidata(base, i)
  {
  }

  /**
   * Helper on plain sequences: if `ci` is a prefix of `c1` and `c1` of `ck`, the first part holds dates of
   * earlier candidates and the last part dates of later ones, then candidate i's date occurs in `ck`
   * exactly when it occurs in the middle part.
   */
  lemma MeioDaLista(ci: seq<int>, c1: seq<int>, ck: seq<int>, base: int, i: int, k: int)
    requires Prefixo(ci, c1) && Prefixo(c1, ck)
    requires ConflitosEntre(ci, 0, base, 0, i) && ConflitosEntre(ck, |c1|, base, i + 1, k)
    ensures Candidata(base, i) in ck <==> Candidata(base, i) in c1[|ci|..]
  {
    var d := Candidata(base, i);
    CandidataEh(base, i, i, i + 1);
    assert ck[..|ci|] == ci by {
      assert ck[..|ci|] == ck[..|c1|][..|ci|];
    }
    forall j | 0 <= j < |ci|
      ensures ck[j] != d
    {
      assert ck[j] == ci[j];
      assert EhCandidata(ci[j], base, 0, i);
    }
    forall j | |c1| <= j < |ck|
      ensures ck[j] != d
    {
      assert EhCandidata(ck[j], base, i + 1, k);
    }
    SoNoMeio(ck, |ci|, |c1|, d);
    assert ck[|ci|..|c1|] == c1[|ci|..];
  }

  /** Helper on plain sequences: the same for the dates of the rows the batch appended. */
  lemma MeioDaTabela(rows: seq<Agendamento>, ri: seq<Agendamento>, r1: seq<Agendamento>, rk: seq<Agendamento>,
                     p: Paciente, terapeuta: int, inicio: Minute, fim: Minute, base: int, i: int, k: int, pi: int, p1: int)
    requires |rows| <= |ri| && Prefixo(ri, r1) && Prefixo(r1, rk)
    requires NovasDoLote(ri, |rows|, pi, p, terapeuta, inicio, fim, base, 0, i)
    requires NovasDoLote(rk, |r1|, p1, p, terapeuta, inicio, fim, base, i + 1, k)
    ensures (exists j :: |rows| <= j < |rk| && rk[j].data == Candidata(base, i)) <==>
            (exists j :: |ri| <= j < |r1| && r1[j].data == Candidata(base, i))
  {
    var d := Candidata(base, i);
    CandidataEh(base, i, i, i + 1);
    assert rk[..|ri|] == ri by {
      assert rk[..|ri|] == rk[..|r1|][..|ri|];
    }
    forall j | |rows| <= j < |ri|
      ensures rk[j].data != d
    {
      assert rk[j] == ri[j];
      assert EhCandidata(ri[j].data, base, 0, i);
    }
    forall j | |r1| <= j < |rk|
      ensures rk[j].data != d
    {
      assert EhCandidata(rk[j].data, base, i + 1, k);
    }
    forall j | |ri| <= j < |r1|
      ensures rk[j] == r1[j]
    {
      assert rk[..|r1|][j] == rk[j];
    }
  }

  /** Helper: the date of candidate i shows up in `conflitos` only from step i. */
  lemma DecisaoConflitos(rows: seq<Agendamento>, proximo: int, bloqueia: set<Status>, p: Paciente,
                         terapeuta: int, base: int, inicio: Minute, fim: Minute, k: nat, i: nat)
    requires i < k
    ensures var li := LoteAte(rows, proximo, bloqueia, p, terapeuta, base, inicio, fim, i);
            var lk := LoteAte(rows, proximo, bloqueia, p, terapeuta, base, inicio, fim, k);
            Candidata(base, i) in lk.conflitos <==> TemConflito(li.rows, bloqueia, terapeuta, Candidata(base, i), inicio, fim)
  {
    var li := LoteAte(rows, proximo, bloqueia, p, terapeuta, base, inicio, fim, i);
    var l1 := LoteAte(rows, proximo, bloqueia, p, terapeuta, base, inicio, fim, i + 1);
    var lk := LoteAte(rows, proximo, bloqueia, p, terapeuta, base, inicio, fim, k);
    LoteEntreConflitos(rows, proximo, bloqueia, p, terapeuta, base, inicio, fim, 0, i);
    LoteEntreConflitos(rows, proximo, bloqueia, p, terapeuta, base, inicio, fim, i, i + 1);
    LoteEntreConflitos(rows, proximo, bloqueia, p, terapeuta, base, inicio, fim, i + 1, k);
    LotePasso(rows, proximo, bloqueia, p, terapeuta, base, inicio, fim, i);
    MeioDaLista(li.conflitos, l1.conflitos, lk.conflitos, base, i, k);
    if !TemConflito(li.rows, bloqueia, terapeuta, Candidata(base, i), inicio, fim) {
      assert l1.conflitos[|li.conflitos|..] == [];
    } else {
      assert l1.conflitos[|li.conflitos|..] == [Candidata(base, i)];
    }
  }

  /** Helper: the date of candidate i is given to a new row only at step i, and only without a clash. */
  lemma DecisaoLinhas(rows: seq<Agendamento>, proximo: int, bloqueia: set<Status>, p: Paciente,
                      terapeuta: int, base: int, inicio: Minute, fim: Minute, k: nat, i: nat)
    requires i < k
    ensures var li := LoteAte(rows, proximo, bloqueia, p, terapeuta, base, inicio, fim, i);
            var lk := LoteAte(rows, proximo, bloqueia, p, terapeuta, base, inicio, fim, k);
            TemConflito(li.rows, bloqueia, terapeuta, Candidata(base, i), inicio, fim) <==>
              !exists j :: |rows| <= j < |lk.rows| && lk.rows[j].data == Candidata(base, i)
  {
    var l0 := LoteAte(rows, proximo, bloqueia, p, terapeuta, base, inicio, fim, 0);
    var li := LoteAte(rows, proximo, bloqueia, p, terapeuta, base, inicio, fim, i);
    var l1 := LoteAte(rows, proximo, bloqueia, p, terapeuta, base, inicio, fim, i + 1);
    var lk := LoteAte(rows, proximo, bloqueia, p, terapeuta, base, inicio, fim, k);
    LoteEntreLinhas(rows, proximo, bloqueia, p, terapeuta, base, inicio, fim, 0, i);
    LoteEntreLinhas(rows, proximo, bloqueia, p, terapeuta, base, inicio, fim, i, i + 1);
    LoteEntreLinhas(rows, proximo, bloqueia, p, terapeuta, base, inicio, fim, i + 1, k);
    LotePasso(rows, proximo, bloqueia, p, terapeuta, base, inicio, fim, i);
    assert l0.rows == rows;
    MeioDaTabela(rows, li.rows, l1.rows, lk.rows, p, terapeuta, inicio, fim, base, i, k, l0.proximoId, l1.proximoId);
    PassoDecide(rows, li.rows, l1.rows, lk.rows, Candidata(base, i),
                TemConflito(li.rows, bloqueia, terapeuta, Candidata(base, i), inicio, fim));
  }

  /** Helper on plain sequences: a step that appends nothing on a clash and one row dated `d` otherwise. */
  lemma PassoDecide(rows: seq<Agendamento>, ri: seq<Agendamento>, r1: seq<Agendamento>, rk: seq<Agendamento>,
                    d: int, conflito: bool)
    requires (exists j :: |rows| <= j < |rk| && rk[j].data == d) <==> (exists j :: |ri| <= j < |r1| && r1[j].data == d)
    requires conflito ==> |r1| == |ri|
    requires !conflito ==> |r1| == |ri| + 1 && r1[|ri|].data == d
    ensures conflito <==> !exists j :: |rows| <= j < |rk| && rk[j].data == d
  {
    if !conflito {
      assert r1[|ri|].data == d;
    }
  }

  /** Every insert is guarded by the conflict check, so a table free of overlaps stays free of them. */
  lemma {:induction false} LoteSemSobreposicao(rows: seq<Agendamento>, proximo: int, bloqueia: set<Status>,
                                               p: Paciente, terapeuta: int, base: int, inicio: Minute,
                                               fim: Minute, k: nat)
    requires SemSobreposicao(rows, bloqueia)
    ensures SemSobreposicao(LoteAte(rows, proximo, bloqueia, p, terapeuta, base, inicio, fim, k).rows, bloqueia)
  {
    if k > 0 {
      LoteSemSobreposicao(rows, proximo, bloqueia, p, terapeuta, base, inicio, fim, k - 1);
      var l := LoteAte(rows, proximo, bloqueia, p, terapeuta, base, inicio, fim, k - 1);
      var d := Candidata(base, k - 1);
      if !TemConflito(l.rows, bloqueia, terapeuta, d, inicio, fim) {
        var a := NovoAgendamento(l.proximoId, p.id, terapeuta, d, inicio, Some(fim), Aguardando, p.tipoPadrao, false);
        AnexarSemConflito(l.rows, bloqueia, a);
      }
    }
  }

  /**
   * `criar_agendamentos_em_lote(form_data, user)`: candidates for `repeticoes + 1` weeks; returns
   * `(criados, conflitos)`, the conflicting dates as ordinals.
   */
  method CriarAgendamentosEmLote(db: Banco, p: Paciente, terapeuta: int, base: int, inicio: Minute,
                                 fim: Minute, repeticoes: int) returns (criados: nat, conflitos: seq<int>)
    requires db.Valid() && 0 <= repeticoes <= 48
    modifies db
    ensures db.Valid()
    ensures var l := LoteAte(old(db.rows), old(db.proximoId), db.bloqueia, p, terapeuta, base, inicio, fim, repeticoes + 1);
            db.rows == l.rows && db.proximoId == l.proximoId && criados == l.criados && conflitos == l.conflitos
    ensures db.consultas == old(db.consultas)
  {
    ghost var rows0 := db.rows;
    ghost var proximo0 := db.proximoId;
    criados := 0;
    conflitos := [];
    for i := 0 to repeticoes + 1
      invariant db.Valid()
      invariant Lote(db.rows, db.proximoId, criados, conflitos) == LoteAte(rows0, proximo0, db.bloqueia, p, terapeuta, base, inicio, fim, i)
      invariant db.consultas == old(db.consultas)
    {
      criados, conflitos := TentaCandidata(db, p, terapeuta, base + 7 * i, inicio, fim, criados, conflitos);
    }
  }

  /** The loop body of `criar_agendamentos_em_lote` for one candidate date. */
  method TentaCandidata(db: Banco, p: Paciente, terapeuta: int, data: int, inicio: Minute, fim: Minute,
                        criados: nat, conflitos: seq<int>) returns (criados': nat, conflitos': seq<int>)
    requires db.Valid()
    modifies db
    ensures db.Valid() && db.consultas == old(db.consultas)
    ensures Lote(db.rows, db.proximoId, criados', conflitos')
            == Passo(Lote(old(db.rows), old(db.proximoId), criados, conflitos), db.bloqueia, p, terapeuta, data, inicio, fim)
  {
    criados', conflitos' := criados, conflitos;
    var temConflito := TemConflito(db.rows, db.bloqueia, terapeuta, data, inicio, fim);
    if temConflito {
      conflitos' := conflitos + [data];
    } else {
      var _ := db.Criar(p.id, terapeuta, data, inicio, Some(fim), Aguardando, p.tipoPadrao, false);
      criados' := criados + 1;
    }
  }

  // ---------------------------------------------------------------------------
  // Permission groups
  // ---------------------------------------------------------------------------

  /** `Group.objects.get_or_create(name=nome)` on the list of group names. */
  function ComGrupo(nomes: seq<string>, nome: string): (r: seq<string>)
    ensures nome in r && forall n :: n in nomes ==> n in r
    ensures |r| <= |nomes| + 1
  {
    if nome in nomes then nomes else nomes + [nome]
  }

  /** The group list after `setup_grupos`. */
  function ComGrupos(nomes: seq<string>): seq<string> {
    ComGrupo(ComGrupo(ComGrupo(ComGrupo(nomes, Roles.ADMINISTRATIVO), Roles.TERAPEUTAS), Roles.FINANCEIRO), Roles.DONOS)
  }

  /** `get_or_create` never duplicates a name and keeps the existing ones in place. */
  lemma ComGrupoDistintos(nomes: seq<string>, nome: string)
    requires Distintos(nomes)
    ensures Distintos(ComGrupo(nomes, nome))
    ensures ComGrupo(nomes, nome)[..|nomes|] == nomes
  {
  }

  /**
   * After `setup_grupos` the four groups exist, no name is duplicated, the groups there before are
   * there in place, and running it again adds nothing.
   */
  lemma SetupGruposIdempotente(nomes: seq<string>)
    requires Distintos(nomes)
    ensures var r := ComGrupos(nomes);
            && Roles.ADMINISTRATIVO in r && Roles.TERAPEUTAS in r && Roles.FINANCEIRO in r && Roles.DONOS in r
            && Distintos(r) && |nomes| <= |r| <= |nomes| + 4 && r[..|nomes|] == nomes
            && ComGrupos(r) == r
  {
    var a := ComGrupo(nomes, Roles.ADMINISTRATIVO);
    var b := ComGrupo(a, Roles.TERAPEUTAS);
    var c := ComGrupo(b, Roles.FINANCEIRO);
    var d := ComGrupo(c, Roles.DONOS);
    ComGrupoDistintos(nomes, Roles.ADMINISTRATIVO);
    ComGrupoDistintos(a, Roles.TERAPEUTAS);
    ComGrupoDistintos(b, Roles.FINANCEIRO);
    ComGrupoDistintos(c, Roles.DONOS);
    PrefixoTransitivo(nomes, a, b);
    PrefixoTransitivo(nomes, b, c);
    PrefixoTransitivo(nomes, c, d);
  }

  lemma PrefixoTransitivo<T>(x: seq<T>, y: seq<T>, z: seq<T>)
    requires Prefixo(x, y) && Prefixo(y, z)
    ensures Prefixo(x, z)
  {
    assert z[..|x|] == z[..|y|][..|x|];
  }

  class Grupos {
    var nomes: seq<string>

    constructor (nomes: seq<string>)
      ensures this.nomes == nomes
    {
      this.nomes := nomes;
    }

    method ObterOuCriar(nome: string)
      modifies this
      ensures nomes == ComGrupo(old(nomes), nome)
    {
      if nome !in nomes {
        nomes := nomes + [nome];
      }
    }

    /** `setup_grupos()`. */
    method SetupGrupos()
      modifies this
      ensures nomes == ComGrupos(old(nomes))
    {
      ObterOuCriar(Roles.ADMINISTRATIVO);
      ObterOuCriar(Roles.TERAPEUTAS);
      ObterOuCriar(Roles.FINANCEIRO);
      ObterOuCriar(Roles.DONOS);
    }
  }
}
