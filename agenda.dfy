/**
 * The appointment table and its clinical notes (`Consulta`, one per
 * appointment, keyed by the appointment id), with the ORM operations the
 * views and the batch creator use: `objects.create`, `save()`, `delete()`
 * (cascading to the note), `queryset.update(deletado=True)` and
 * `Consulta.objects.get_or_create`.
 */
module Agenda {
  import opened Wrappers
  import opened Models

  /** Ids are positive, below the next id to hand out, and distinct. */
  predicate IdsValidos(rows: seq<Agendamento>, proximo: int) {
    && (forall i :: 0 <= i < |rows| ==> 1 <= rows[i].id < proximo)
    && (forall i, j :: 0 <= i < j < |rows| ==> rows[i].id != rows[j].id)
  }

  /** The whole state of the table: rows, the next id, and the note text per appointment id. */
  datatype Db = Db(rows: seq<Agendamento>, proximoId: int, consultas: map<int, string>)

  predicate DbValido(d: Db) {
    && IdsValidos(d.rows, d.proximoId)
    && d.proximoId >= 1
    && (forall k :: k in d.consultas ==> Buscar(d.rows, k).Some?)
  }

  /** `get_object_or_404(Agendamento, id=id)`: any row, deleted or not. */
  function Buscar(rows: seq<Agendamento>, id: int): (r: Option<Agendamento>)
    ensures r.Some? ==> r.value in rows && r.value.id == id
    ensures r.None? ==> forall a :: a in rows ==> a.id != id
  {
    if rows == [] then None
    else if rows[0].id == id then Some(rows[0])
    else Buscar(rows[1..], id)
  }

  /** `get_object_or_404(Agendamento.objects.ativos(), id=id)`. */
  function BuscarAtivo(rows: seq<Agendamento>, id: int): (r: Option<Agendamento>)
    ensures r.Some? ==> r.value in rows && r.value.id == id && !r.value.deletado
    ensures r.None? ==> forall a :: a in rows && a.id == id ==> a.deletado
  {
    Buscar(Ativos(rows), id)
  }

  /** `a.save()` on an existing row: the row with `a`'s id now holds `a`. */
  function Salvo(rows: seq<Agendamento>, a: Agendamento): (r: seq<Agendamento>)
    ensures |r| == |rows|
    ensures forall i :: 0 <= i < |rows| ==> r[i].id == rows[i].id
    ensures forall i :: 0 <= i < |rows| && rows[i].id != a.id ==> r[i] == rows[i]
  {
    seq(|rows|, i requires 0 <= i < |rows| => if rows[i].id == a.id then a else rows[i])
  }

  /** After `save()` the table holds `a` (when a row had its id) and otherwise only rows it held before. */
  lemma SalvoConteudo(rows: seq<Agendamento>, a: Agendamento)
    ensures forall x :: x in Salvo(rows, a) ==> x == a || x in rows
    ensures (exists i :: 0 <= i < |rows| && rows[i].id == a.id) ==> a in Salvo(rows, a)
  {
    var r := Salvo(rows, a);
    forall x | x in r
      ensures x == a || x in rows
    {
      var i :| 0 <= i < |r| && r[i] == x;
      assert x == a || x == rows[i];
    }
    if i :| 0 <= i < |rows| && rows[i].id == a.id {
      assert r[i] == a;
    }
  }

  /** `a.delete()`. */
  function Removido(rows: seq<Agendamento>, id: int): (r: seq<Agendamento>)
    ensures forall a :: a in r <==> a in rows && a.id != id
  {
    Filtro(rows, (a: Agendamento) => a.id != id)
  }

  /**
   * `queryset.update(deletado=True)` for the queryset of the rows satisfying `alvo`:
   * every field but the deletion flag is kept, and a row ends up deleted exactly
   * when it already was or was selected.
   */
  function MarcadosDeletados(rows: seq<Agendamento>, alvo: Agendamento -> bool): (r: seq<Agendamento>)
    ensures |r| == |rows|
    ensures forall i :: 0 <= i < |rows| ==> r[i].(deletado := false) == rows[i].(deletado := false)
    ensures forall i :: 0 <= i < |rows| ==> (r[i].deletado <==> rows[i].deletado || alvo(rows[i]))
  {
    seq(|rows|, i requires 0 <= i < |rows| => if alvo(rows[i]) then rows[i].(deletado := true) else rows[i])
  }

  lemma {:induction false} FiltroPreservaIds(rows: seq<Agendamento>, proximo: int, f: Agendamento -> bool)
    requires IdsValidos(rows, proximo)
    ensures IdsValidos(Filtro(rows, f), proximo)
  {
    if rows != [] {
      FiltroPreservaIds(rows[1..], proximo, f);
      var t := Filtro(rows[1..], f);
      forall a | a in t
        ensures a.id != rows[0].id
      {
        var k :| 0 <= k < |rows[1..]| && rows[1..][k] == a;
        assert rows[k + 1] == a;
      }
      if f(rows[0]) {
        var r := [rows[0]] + t;
        forall i, j | 0 <= i < j < |r|
          ensures r[i].id != r[j].id
        {
          if i == 0 {
            assert r[j] in t;
          } else {
            assert r[i] == t[i - 1] && r[j] == t[j - 1];
          }
        }
        forall i | 0 <= i < |r|
          ensures 1 <= r[i].id < proximo
        {
          if i > 0 {
            assert r[i] == t[i - 1];
          }
        }
      }
    }
  }

  /** With distinct ids, a row found by id is the one at its index. */
  lemma BuscarNoIndice(rows: seq<Agendamento>, proximo: int, i: int)
    requires IdsValidos(rows, proximo) && 0 <= i < |rows|
    ensures Buscar(rows, rows[i].id) == Some(rows[i])
  {
    var r := Buscar(rows, rows[i].id);
    var k :| 0 <= k < |rows| && rows[k] == r.value;
    assert k == i;
  }

  /** Deleting a row keeps the state valid once its note is gone too (`on_delete=CASCADE`). */
  lemma RemocaoValida(d: Db, id: int)
    requires DbValido(d)
    ensures DbValido(Db(Removido(d.rows, id), d.proximoId, d.consultas - {id}))
  {
    FiltroPreservaIds(d.rows, d.proximoId, (a: Agendamento) => a.id != id);
    var r := Removido(d.rows, id);
    forall k | k in d.consultas - {id}
      ensures Buscar(r, k).Some?
    {
      var a := Buscar(d.rows, k).value;
      assert a in r;
    }
  }

  lemma SalvoValido(d: Db, a: Agendamento)
    requires DbValido(d) && Buscar(d.rows, a.id).Some?
    ensures DbValido(d.(rows := Salvo(d.rows, a)))
  {
    var r := Salvo(d.rows, a);
    forall k | k in d.consultas
      ensures Buscar(r, k).Some?
    {
      var b := Buscar(d.rows, k).value;
      var i :| 0 <= i < |d.rows| && d.rows[i] == b;
      assert r[i].id == k;
      assert r[i] in r;
    }
  }

  lemma MarcadosValido(d: Db, alvo: Agendamento -> bool)
    requires DbValido(d)
    ensures DbValido(d.(rows := MarcadosDeletados(d.rows, alvo)))
  {
    var r := MarcadosDeletados(d.rows, alvo);
    forall k | k in d.consultas
      ensures Buscar(r, k).Some?
    {
      var b := Buscar(d.rows, k).value;
      var i :| 0 <= i < |d.rows| && d.rows[i] == b;
      assert r[i].id == k;
      assert r[i] in r;
    }
  }

  lemma AnexoValido(d: Db, a: Agendamento)
    requires DbValido(d) && a.id == d.proximoId
    ensures DbValido(Db(d.rows + [a], d.proximoId + 1, d.consultas))
  {
    var r := d.rows + [a];
    forall k | k in d.consultas
      ensures Buscar(r, k).Some?
    {
      var b := Buscar(d.rows, k).value;
      assert b in r;
    }
  }

  /** With distinct ids, `save()` of an existing row is an update at that row's index. */
  lemma SalvoNoIndice(rows: seq<Agendamento>, proximo: int, a: Agendamento) returns (k: int)
    requires IdsValidos(rows, proximo) && Buscar(rows, a.id).Some?
    ensures 0 <= k < |rows| && rows[k] == Buscar(rows, a.id).value && Salvo(rows, a) == rows[k := a]
  {
    k :| 0 <= k < |rows| && rows[k] == Buscar(rows, a.id).value;
    assert Salvo(rows, a) == rows[k := a];
  }

  /** Soft-deleting rows only frees slots, so a table free of overlaps stays so. */
  lemma MarcadosSemSobreposicao(rows: seq<Agendamento>, bloqueia: set<Status>, alvo: Agendamento -> bool)
    requires SemSobreposicao(rows, bloqueia)
    ensures SemSobreposicao(MarcadosDeletados(rows, alvo), bloqueia)
  {
    var r := MarcadosDeletados(rows, alvo);
    forall i, j | 0 <= i < j < |r|
      ensures !Colidem(r[i], r[j], bloqueia)
    {
      SemSobreposicaoPares(rows, bloqueia, i, j);
    }
  }

  class Banco {
    /** The statuses that block re-booking a slot (the conflict rule's parameter). */
    const bloqueia: set<Status>
    var rows: seq<Agendamento>
    var proximoId: int
    var consultas: map<int, string>

    function Atual(): Db
      reads this
    {
      Db(rows, proximoId, consultas)
    }

    ghost predicate Valid()
      reads this
    {
      DbValido(Atual())
    }

    constructor (bloqueia: set<Status>)
      ensures Valid() && this.bloqueia == bloqueia
      ensures rows == [] && proximoId == 1 && consultas == map[]
    {
      this.bloqueia := bloqueia;
      rows := [];
      proximoId := 1;
      consultas := map[];
    }

    /** `Agendamento.objects.create(...)`: a new row with the next id and the model defaults. */
    method Criar(paciente: int, terapeuta: int, data: int, inicio: Minute, fim: Option<Minute>,
                 status: Status, tipo: Tipo, deletado: bool) returns (a: Agendamento)
      requires Valid()
      modifies this
      ensures Valid()
      ensures a == NovoAgendamento(old(proximoId), paciente, terapeuta, data, inicio, fim, status, tipo, deletado)
      ensures rows == old(rows) + [a] && proximoId == old(proximoId) + 1 && consultas == old(consultas)
    {
      a := NovoAgendamento(proximoId, paciente, terapeuta, data, inicio, fim, status, tipo, deletado);
      AnexoValido(Atual(), a);
      rows := rows + [a];
      proximoId := proximoId + 1;
    }

    /** `a.save()` for a row already in the table. */
    method Salvar(a: Agendamento)
      requires Valid() && Buscar(rows, a.id).Some?
      modifies this
      ensures Valid()
      ensures rows == Salvo(old(rows), a) && proximoId == old(proximoId) && consultas == old(consultas)
    {
      SalvoValido(Atual(), a);
      rows := Salvo(rows, a);
    }

    /** `a.delete()`, cascading to its Consulta. */
    method Excluir(id: int)
      requires Valid()
      modifies this
      ensures Valid()
      ensures rows == Removido(old(rows), id) && proximoId == old(proximoId)
      ensures consultas == old(consultas) - {id}
    {
      RemocaoValida(Atual(), id);
      rows := Removido(rows, id);
      consultas := consultas - {id};
    }

    /** `queryset.update(deletado=True)`. */
    method MarcarDeletados(alvo: Agendamento -> bool)
      requires Valid()
      modifies this
      ensures Valid()
      ensures rows == MarcadosDeletados(old(rows), alvo) && proximoId == old(proximoId) && consultas == old(consultas)
    {
      MarcadosValido(Atual(), alvo);
      rows := MarcadosDeletados(rows, alvo);
    }

    /** `Consulta.objects.get_or_create(agendamento=a)`: an empty note unless one exists. */
    method ObterOuCriarConsulta(id: int)
      requires Valid() && Buscar(rows, id).Some?
      modifies this
      ensures Valid()
      ensures rows == old(rows) && proximoId == old(proximoId)
      ensures consultas == if id in old(consultas) then old(consultas) else old(consultas)[id := ""]
    {
      if id !in consultas {
        consultas := consultas[id := ""];
      }
    }

    /** `form.save()` of the note of appointment `id`. */
    method SalvarConsulta(id: int, evolucao: string)
      requires Valid() && Buscar(rows, id).Some?
      modifies this
      ensures Valid()
      ensures rows == old(rows) && proximoId == old(proximoId) && consultas == old(consultas)[id := evolucao]
    {
      consultas := consultas[id := evolucao];
    }
  }
}
