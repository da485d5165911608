/**
 * The `importar_pacientes` management command: each data row of a CSV file
 * is cleaned (CPF and phone reduced to their digits and length-gated, the
 * type mapped through `DE_PARA_TIPO`) and upserted into the patient table,
 * by CPF when the row has a valid one and by name among patients without a
 * CPF otherwise, counting the rows that succeeded and those that failed.
 * Reading the file and `str.title` / `strptime` are parameters.
 */
module Importer {
  import opened Wrappers
  import opened Calendar
  import opened Models

  // ---------------------------------------------------------------------------
  // Field cleaning
  // ---------------------------------------------------------------------------

  /** The whitespace `str.strip()` removes, restricted to ASCII. */
  predicate Espaco(c: char) {
    c == ' ' || c == '\t' || c == '\n' || c == '\r' || c == '\U{000B}' || c == '\U{000C}'
  }

  /** `lstrip()`: the suffix left after the leading whitespace. */
  function SemEspacoInicial(s: string): (r: string)
    ensures |r| <= |s| && r == s[|s| - |r|..]
    ensures forall k :: 0 <= k < |s| - |r| ==> Espaco(s[k])
    ensures r == [] || !Espaco(r[0])
  {
    if s != [] && Espaco(s[0]) then SemEspacoInicial(s[1..]) else s
  }

  /** `rstrip()`: the prefix left before the trailing whitespace. */
  function SemEspacoFinal(s: string): (r: string)
    ensures |r| <= |s| && r == s[..|r|]
    ensures forall k :: |r| <= k < |s| ==> Espaco(s[k])
    ensures r == [] || !Espaco(r[|r| - 1])
  {
    if s != [] && Espaco(s[|s| - 1]) then SemEspacoFinal(s[..|s| - 1]) else s
  }

  function Strip(s: string): string {
    SemEspacoFinal(SemEspacoInicial(s))
  }

  /** A string without whitespace at either end is its own `strip()`. */
  lemma StripFixo(s: string)
    requires s == [] || (!Espaco(s[0]) && !Espaco(s[|s| - 1]))
    ensures Strip(s) == s
  {
  }

  /** `re.sub(r'[^0-9]', '', s)`: the ASCII digits of `s`, in order. */
  function Digitos(s: string): (r: string)
    ensures AllDigits(r) && |r| <= |s|
    ensures forall c :: c in r <==> c in s && IsDigit(c)
  {
    Filtro(s, IsDigit)
  }

  /** CPF cleaning: the field's digits when there are exactly 11 of them, else None. */
  function LimpaCpf(campo: string): (r: Option<string>)
    ensures r.Some? <==> |Digitos(Strip(campo))| == 11
    ensures r.Some? ==> r.value == Digitos(Strip(campo)) && CpfValido(r.value)
  {
    var limpo := Digitos(Strip(campo));
    if |limpo| == 11 then Some(limpo) else None
  }

  /** Phone cleaning: the field's digits when there are 10 or 11 of them, else None; the result always passes the phone validator. */
  function LimpaTelefone(campo: string): (r: Option<string>)
    ensures r.Some? <==> |Digitos(Strip(campo))| == 10 || |Digitos(Strip(campo))| == 11
    ensures r.Some? ==> r.value == Digitos(Strip(campo))
    ensures TelefoneValido(r)
  {
    var limpo := Digitos(Strip(campo));
    if |limpo| == 10 || |limpo| == 11 then Some(limpo) else None
  }

  /** A string of digits has no whitespace at either end to strip. */
  lemma StripDigitos(s: string)
    requires AllDigits(s)
    ensures Strip(s) == s
  {
    if s != [] {
      assert IsDigit(s[0]) && IsDigit(s[|s| - 1]);
    }
    StripFixo(s);
  }

  /** Keeping the digits of a string of digits keeps all of it. */
  lemma FiltroDigitos(s: string)
    requires AllDigits(s)
    ensures Filtro(s, IsDigit) == s
  {
    forall x | x in s
      ensures IsDigit(x)
    {
      var i :| 0 <= i < |s| && s[i] == x;
    }
    FiltroTudo(s, IsDigit);
  }

  /** A string of digits has no whitespace to strip and nothing to remove. */
  lemma DigitosFixos(s: string)
    requires AllDigits(s)
    ensures Digitos(Strip(s)) == s
  {
    StripDigitos(s);
    FiltroDigitos(s);
  }

  /** A CPF that already passes the validator comes out of the cleaning unchanged. */
  lemma CpfLimpoFixo(cpf: string)
    requires CpfValido(cpf)
    ensures LimpaCpf(cpf) == Some(cpf)
  {
    DigitosFixos(cpf);
  }

  /** So does a phone that already passes the validator. */
  lemma TelefoneLimpoFixo(telefone: string)
    requires TelefoneValido(Some(telefone))
    ensures LimpaTelefone(telefone) == Some(telefone)
  {
    DigitosFixos(telefone);
  }

  /** `str.lower()` of one character, for ASCII and the Latin-1 capitals. */
  function MinusculaChar(c: char): (r: char)
    ensures 'A' <= c <= 'Z' ==> r as int == c as int + 32
    ensures '\U{00C0}' <= c <= '\U{00DE}' && c != '\U{00D7}' ==> r as int == c as int + 32
    ensures c == '\U{00D7}' ==> r == c
    ensures !('A' <= c <= 'Z') && !('\U{00C0}' <= c <= '\U{00DE}') ==> r == c
    ensures !('A' <= r <= 'Z')
  {
    if 'A' <= c <= 'Z' || ('\U{00C0}' <= c <= '\U{00DE}' && c != '\U{00D7}') then (c as int + 32) as char else c
  }

  /** `s.lower()`: no ASCII capital is left, ASCII and Latin-1 capitals become their small letters, and non-letters stay. */
  function Minusculas(s: string): (r: string)
    ensures |r| == |s|
    ensures forall i :: 0 <= i < |r| ==> !('A' <= r[i] <= 'Z')
    ensures forall i :: 0 <= i < |s| && 'A' <= s[i] <= 'Z' ==> r[i] as int == s[i] as int + 32
    ensures forall i :: 0 <= i < |s| && '\U{00C0}' <= s[i] <= '\U{00DE}' && s[i] != '\U{00D7}' ==> r[i] as int == s[i] as int + 32
    ensures forall i :: 0 <= i < |s| && s[i] == '\U{00D7}' ==> r[i] == s[i]
    ensures forall i :: 0 <= i < |s| && !('A' <= s[i] <= 'Z') && !('\U{00C0}' <= s[i] <= '\U{00DE}') ==> r[i] == s[i]
  {
    seq(|s|, i requires 0 <= i < |s| => MinusculaChar(s[i]))
  }

  /** Lowering twice is lowering once. */
  lemma MinusculasIdempotente(s: string)
    ensures Minusculas(Minusculas(s)) == Minusculas(s)
  {
    var m := Minusculas(s);
    forall i | 0 <= i < |m|
      ensures MinusculaChar(m[i]) == m[i]
    {
      assert m[i] == MinusculaChar(s[i]);
    }
  }

  const DE_PARA_TIPO: map<string, Tipo> :=
    map["particular" := Particular, "convênio" := Convenio, "convenio" := Convenio,
        "social" := Social, "desconto" := Desconto]

  /** `DE_PARA_TIPO.get(chave, 'PARTICULAR')`. */
  function TipoDe(chave: string): (t: Tipo)
    ensures chave !in DE_PARA_TIPO ==> t == Particular
  {
    if chave in DE_PARA_TIPO then DE_PARA_TIPO[chave] else Particular
  }

  /** The type column (index 16), lowered; a row too short for it counts as 'particular'. */
  function TipoDaLinha(linha: seq<string>): Tipo {
    TipoDe(if |linha| > 16 then Minusculas(Strip(linha[16])) else "particular")
  }

  /** Every stored type code, in any case, maps back to its type; an accented 'CONVÊNIO' is a Convenio. */
  lemma TipoDeCodigo(t: Tipo)
    ensures TipoDe(Minusculas(TipoCode(t))) == t
    ensures TipoDe(Minusculas("CONVÊNIO")) == Convenio
  {
    MinusculasDe("CONVÊNIO", "convênio");
    match t
    case Particular => MinusculasDe("PARTICULAR", "particular");
    case Convenio => MinusculasDe("CONVENIO", "convenio");
    case Social => MinusculasDe("SOCIAL", "social");
    case Desconto => MinusculasDe("DESCONTO", "desconto");
  }

  /** Helper: `l` is the lowering of `s` when it lowers `s` character by character. */
  lemma MinusculasDe(s: string, l: string)
    requires |s| == |l| && forall i :: 0 <= i < |s| ==> MinusculaChar(s[i]) == l[i]
    ensures Minusculas(s) == l
  {
  }

  /** A row shorter than the type column reads as Particular. */
  lemma TipoAusente(linha: seq<string>)
    requires |linha| <= 16
    ensures TipoDaLinha(linha) == Particular
  {
  }

  // ---------------------------------------------------------------------------
  // One row
  // ---------------------------------------------------------------------------

  /** `defaults_data`: the values a row writes. */
  datatype Dados = Dados(nome: string, nascimento: Option<Date>, telefone: Option<string>, tipo: Tipo)

  /** The cleaned CPF and values of a row, or None when the row is skipped (under 7 fields, or a blank name). */
  function LinhaDados(linha: seq<string>, titulo: string -> string, data: string -> Option<Date>): (r: Option<(Option<string>, Dados)>)
    ensures r.None? <==> |linha| < 7 || titulo(Strip(linha[1])) == ""
    ensures r.Some? ==> r.value.0 == LimpaCpf(linha[3]) && r.value.1.nome != ""
    ensures r.Some? ==> r.value.1.nome == titulo(Strip(linha[1])) && r.value.1.nascimento == data(Strip(linha[5]))
    ensures r.Some? ==> r.value.1.telefone == LimpaTelefone(linha[6]) && r.value.1.tipo == TipoDaLinha(linha)
  {
    if |linha| < 7 then None
    else
      var nome := titulo(Strip(linha[1]));
      if nome == "" then None
      else Some((LimpaCpf(linha[3]), Dados(nome, data(Strip(linha[5])), LimpaTelefone(linha[6]), TipoDaLinha(linha))))
  }

  /** The patient table: its rows and the next id to hand out. */
  datatype Tabela = Tabela(pacientes: seq<Paciente>, proximoId: int)

  function ComCpf(cpf: string): Paciente -> bool {
    (p: Paciente) => p.cpf == Some(cpf)
  }

  function SemCpfComNome(nome: string): Paciente -> bool {
    (p: Paciente) => p.nome == nome && p.cpf.None?
  }

  predicate Presente(ps: seq<Paciente>, f: Paciente -> bool) {
    exists p :: p in ps && f(p)
  }

  lemma PresenteSeContado(ps: seq<Paciente>, f: Paciente -> bool)
    ensures Presente(ps, f) <==> |Filtro(ps, f)| > 0
  {
    var m := Filtro(ps, f);
    if |m| > 0 {
      assert m[0] in m;
    }
  }

  function Novo(t: Tabela, cpf: Option<string>, d: Dados): Paciente {
    Paciente(t.proximoId, d.nome, cpf, d.nascimento, d.telefone, d.tipo, true)
  }

  /** The update of `update_or_create`: the patient holding the CPF takes the row's values. */
  function Atualizado(ps: seq<Paciente>, cpf: string, d: Dados): (r: seq<Paciente>)
    ensures |r| == |ps|
    ensures forall i :: 0 <= i < |ps| ==> r[i].id == ps[i].id && r[i].cpf == ps[i].cpf && r[i].ativo == ps[i].ativo
    ensures forall i :: 0 <= i < |ps| && ps[i].cpf != Some(cpf) ==> r[i] == ps[i]
    ensures forall i :: 0 <= i < |ps| && ps[i].cpf == Some(cpf) ==>
      r[i].nome == d.nome && r[i].nascimento == d.nascimento && r[i].telefone == d.telefone && r[i].tipoPadrao == d.tipo
  {
    seq(|ps|, i requires 0 <= i < |ps| =>
      if ps[i].cpf == Some(cpf)
      then ps[i].(nome := d.nome, nascimento := d.nascimento, telefone := d.telefone, tipoPadrao := d.tipo)
      else ps[i])
  }

  /** `update_or_create(cpf=cpf, defaults=...)`; None when several patients hold the CPF (MultipleObjectsReturned). */
  function PorCpf(t: Tabela, cpf: string, d: Dados): Option<Tabela> {
    var m := Filtro(t.pacientes, ComCpf(cpf));
    if |m| == 0 then Some(Tabela(t.pacientes + [Novo(t, Some(cpf), d)], t.proximoId + 1))
    else if |m| == 1 then Some(t.(pacientes := Atualizado(t.pacientes, cpf, d)))
    else None
  }

  /** `get_or_create(nome=nome, cpf=None, defaults=...)`; None when several such patients exist. */
  function PorNome(t: Tabela, nome: string, d: Dados): Option<Tabela> {
    var m := Filtro(t.pacientes, SemCpfComNome(nome));
    if |m| == 0 then Some(Tabela(t.pacientes + [Novo(t, None, d.(nome := nome))], t.proximoId + 1))
    else if |m| == 1 then Some(t)
    else None
  }

  /** The upsert a row with values `d` performs: by CPF when it has one, by name otherwise. */
  function Gravar(t: Tabela, cpf: Option<string>, d: Dados): Option<Tabela> {
    if cpf.Some? then PorCpf(t, cpf.value, d) else PorNome(t, d.nome, d)
  }

  datatype Efeito = Pulada | Sucesso | Erro

  /** One row of the loop: skipped, saved (`contador_sucesso`), or failed (`contador_erros`, table unchanged). */
  function ProcessaLinha(t: Tabela, linha: seq<string>, titulo: string -> string, data: string -> Option<Date>): (Tabela, Efeito) {
    match LinhaDados(linha, titulo, data)
    case None => (t, Pulada)
    case Some((cpf, d)) =>
      var r := Gravar(t, cpf, d);
      if r.Some? then (r.value, Sucesso) else (t, Erro)
  }

  /** The loop over the data rows: the final table and the two counters. */
  function ImportarLinhas(t: Tabela, linhas: seq<seq<string>>, titulo: string -> string, data: string -> Option<Date>): (r: (Tabela, nat, nat))
    ensures r.1 + r.2 <= |linhas|
    decreases |linhas|
  {
    if linhas == [] then (t, 0, 0)
    else
      var passo := ProcessaLinha(t, linhas[0], titulo, data);
      var resto := ImportarLinhas(passo.0, linhas[1..], titulo, data);
      (resto.0, resto.1 + (if passo.1 == Sucesso then 1 else 0), resto.2 + (if passo.1 == Erro then 1 else 0))
  }

  /** The rows the loop does not skip. */
  function NaoPuladas(linhas: seq<seq<string>>, titulo: string -> string, data: string -> Option<Date>): seq<seq<string>> {
    Filtro(linhas, (l: seq<string>) => LinhaDados(l, titulo, data).Some?)
  }

  /** Every row that is not skipped is counted exactly once, as a success or as an error. */
  lemma {:induction false} ImportarContagem(t: Tabela, linhas: seq<seq<string>>, titulo: string -> string,
                                            data: string -> Option<Date>)
    ensures var r := ImportarLinhas(t, linhas, titulo, data);
            r.1 + r.2 == |NaoPuladas(linhas, titulo, data)|
    decreases |linhas|
  {
    if linhas != [] {
      ImportarContagem(ProcessaLinha(t, linhas[0], titulo, data).0, linhas[1..], titulo, data);
    }
  }

  // ---------------------------------------------------------------------------
  // Properties of one row
  // ---------------------------------------------------------------------------

  /** A skipped row touches neither the table nor the counters. */
  lemma LinhaPulada(t: Tabela, linha: seq<string>, titulo: string -> string, data: string -> Option<Date>)
    requires |linha| < 7 || titulo(Strip(linha[1])) == ""
    ensures ProcessaLinha(t, linha, titulo, data) == (t, Pulada)
  {
  }

  /** With unique CPFs a CPF is held by at most one patient. */
  lemma {:induction false} CpfNoMaximoUm(ps: seq<Paciente>, cpf: string)
    requires CpfsUnicos(ps)
    ensures |Filtro(ps, ComCpf(cpf))| <= 1
  {
    if ps != [] {
      var resto := ps[1..];
      assert CpfsUnicos(resto) by {
        forall i, j | 0 <= i < j < |resto| && resto[i].cpf.Some?
          ensures resto[i].cpf != resto[j].cpf
        {
          assert resto[i] == ps[i + 1] && resto[j] == ps[j + 1];
        }
      }
      CpfNoMaximoUm(resto, cpf);
      if ps[0].cpf == Some(cpf) {
        forall p | p in resto
          ensures !ComCpf(cpf)(p)
        {
          var k :| 0 <= k < |resto| && resto[k] == p;
          assert ps[k + 1] == p;
        }
        FiltroVazio(resto, ComCpf(cpf));
      }
    }
  }

  /** The create branch of the upsert by CPF: the new patient is appended and is the only holder of the CPF. */
  lemma UpsertCria(t: Tabela, cpf: string, d: Dados)
    requires |Filtro(t.pacientes, ComCpf(cpf))| == 0
    ensures var ps := PorCpf(t, cpf, d).value.pacientes;
            && ps == t.pacientes + [Novo(t, Some(cpf), d)]
            && forall p :: p in ps && p.cpf == Some(cpf) ==> p == Novo(t, Some(cpf), d)
  {
    forall p | p in t.pacientes
      ensures p.cpf != Some(cpf)
    {
      assert p !in Filtro(t.pacientes, ComCpf(cpf));
    }
  }

  /** The update branch of the upsert by CPF: the same number of patients, and the holder takes the row's values. */
  lemma UpsertAtualiza(t: Tabela, cpf: string, d: Dados)
    requires |Filtro(t.pacientes, ComCpf(cpf))| == 1
    ensures var ps := PorCpf(t, cpf, d).value.pacientes;
            && |ps| == |t.pacientes|
            && (exists p :: p in ps && p.cpf == Some(cpf))
            && forall p :: p in ps && p.cpf == Some(cpf) ==>
                 p.nome == d.nome && p.nascimento == d.nascimento && p.telefone == d.telefone && p.tipoPadrao == d.tipo
  {
    var ps := PorCpf(t, cpf, d).value.pacientes;
    var m := Filtro(t.pacientes, ComCpf(cpf));
    assert m[0] in m;
    var k :| 0 <= k < |t.pacientes| && t.pacientes[k] == m[0];
    assert ps[k] in ps && ps[k].cpf == Some(cpf);
    forall p | p in ps && p.cpf == Some(cpf)
      ensures p.nome == d.nome && p.nascimento == d.nascimento && p.telefone == d.telefone && p.tipoPadrao == d.tipo
    {
      var i :| 0 <= i < |ps| && ps[i] == p;
      assert t.pacientes[i].cpf == Some(cpf);
    }
  }

  /**
   * A row with a valid CPF always succeeds on a table with unique CPFs: afterwards exactly one patient holds the
   * CPF, with the row's name, birth date, phone and type, the CPFs stay unique, and a new patient was added
   * exactly when none held it before.
   */
  lemma UpsertPorCpf(t: Tabela, cpf: string, d: Dados)
    requires CpfsUnicos(t.pacientes)
    ensures PorCpf(t, cpf, d).Some?
    ensures var ps := PorCpf(t, cpf, d).value.pacientes;
            && CpfsUnicos(ps) && |Filtro(ps, ComCpf(cpf))| == 1
            && (forall p :: p in ps && p.cpf == Some(cpf) ==>
                  p.nome == d.nome && p.nascimento == d.nascimento && p.telefone == d.telefone && p.tipoPadrao == d.tipo)
            && |ps| == |t.pacientes| + (if Presente(t.pacientes, ComCpf(cpf)) then 0 else 1)
  {
    CpfNoMaximoUm(t.pacientes, cpf);
    PresenteSeContado(t.pacientes, ComCpf(cpf));
    CpfsUnicosPreservados(t, Some(cpf), d);
    var ps := PorCpf(t, cpf, d).value.pacientes;
    CpfNoMaximoUm(ps, cpf);
    if |Filtro(t.pacientes, ComCpf(cpf))| == 0 {
      UpsertCria(t, cpf, d);
      var novo := Novo(t, Some(cpf), d);
      assert novo in ps;
      assert novo in Filtro(ps, ComCpf(cpf));
    } else {
      UpsertAtualiza(t, cpf, d);
      var p :| p in ps && p.cpf == Some(cpf);
      assert p in Filtro(ps, ComCpf(cpf));
    }
  }

  /** Every successful step keeps the CPFs unique. */
  lemma CpfsUnicosPreservados(t: Tabela, cpf: Option<string>, d: Dados)
    requires CpfsUnicos(t.pacientes)
    ensures cpf.Some? && PorCpf(t, cpf.value, d).Some? ==> CpfsUnicos(PorCpf(t, cpf.value, d).value.pacientes)
    ensures PorNome(t, d.nome, d).Some? ==> CpfsUnicos(PorNome(t, d.nome, d).value.pacientes)
  {
    if cpf.Some? && PorCpf(t, cpf.value, d).Some? {
      var c := cpf.value;
      var ps := PorCpf(t, c, d).value.pacientes;
      if |Filtro(t.pacientes, ComCpf(c))| == 0 {
        forall i | 0 <= i < |t.pacientes|
          ensures t.pacientes[i].cpf != Some(c)
        {
          assert t.pacientes[i] in t.pacientes;
        }
        assert ps == t.pacientes + [Novo(t, Some(c), d)];
      }
    }
  }

  /** An upsert of cleaned values keeps every patient passing the validators. */
  lemma GravarValido(t: Tabela, cpf: Option<string>, d: Dados)
    requires forall p :: p in t.pacientes ==> PacienteValido(p)
    requires (cpf.Some? ==> CpfValido(cpf.value)) && TelefoneValido(d.telefone)
    ensures Gravar(t, cpf, d).Some? ==> forall p :: p in Gravar(t, cpf, d).value.pacientes ==> PacienteValido(p)
  {
    if cpf.Some? {
      var ps := Atualizado(t.pacientes, cpf.value, d);
      forall p | p in ps
        ensures PacienteValido(p)
      {
        var i :| 0 <= i < |ps| && ps[i] == p;
        assert PacienteValido(t.pacientes[i]);
      }
    }
  }

  /** A step keeps a valid table valid: cleaned CPFs and phones always pass the validators. */
  lemma ValidadePreservada(t: Tabela, linha: seq<string>, titulo: string -> string, data: string -> Option<Date>)
    requires forall p :: p in t.pacientes ==> PacienteValido(p)
    ensures forall p :: p in ProcessaLinha(t, linha, titulo, data).0.pacientes ==> PacienteValido(p)
  {
    var r := LinhaDados(linha, titulo, data);
    if r.Some? {
      GravarValido(t, r.value.0, r.value.1);
    }
  }

  /**
   * Without a valid CPF: an existing patient with the same name and no CPF is left untouched; if there is none,
   * exactly one is created; if there are several, the row fails and nothing changes.
   */
  lemma ObterPorNome(t: Tabela, d: Dados)
    ensures var m := Filtro(t.pacientes, SemCpfComNome(d.nome));
            && (|m| == 1 ==> PorNome(t, d.nome, d) == Some(t))
            && (|m| == 0 ==> PorNome(t, d.nome, d) == Some(Tabela(t.pacientes + [Novo(t, None, d)], t.proximoId + 1)))
            && (|m| >= 2 ==> PorNome(t, d.nome, d).None?)
  {
    assert d.(nome := d.nome) == d;
  }

  // ---------------------------------------------------------------------------
  // Imports without errors
  // ---------------------------------------------------------------------------

  /** No two patients without a CPF share a name, so `get_or_create(nome=..., cpf=None)` finds at most one. */
  predicate NomesSemCpfUnicos(ps: seq<Paciente>) {
    forall i, j :: 0 <= i < j < |ps| && ps[i].cpf.None? && ps[j].cpf.None? ==> ps[i].nome != ps[j].nome
  }

  /** With unique names among patients without a CPF, a name matches at most one of them. */
  lemma {:induction false} NomeNoMaximoUm(ps: seq<Paciente>, nome: string)
    requires NomesSemCpfUnicos(ps)
    ensures |Filtro(ps, SemCpfComNome(nome))| <= 1
  {
    if ps != [] {
      var resto := ps[1..];
      assert NomesSemCpfUnicos(resto) by {
        forall i, j | 0 <= i < j < |resto| && resto[i].cpf.None? && resto[j].cpf.None?
          ensures resto[i].nome != resto[j].nome
        {
          assert resto[i] == ps[i + 1] && resto[j] == ps[j + 1];
        }
      }
      NomeNoMaximoUm(resto, nome);
      if SemCpfComNome(nome)(ps[0]) {
        forall p | p in resto
          ensures !SemCpfComNome(nome)(p)
        {
          var k :| 0 <= k < |resto| && resto[k] == p;
          assert ps[k + 1] == p;
        }
        FiltroVazio(resto, SemCpfComNome(nome));
      }
    }
  }

  /** Every successful upsert keeps the names of patients without a CPF unique. */
  lemma NomesUnicosPreservados(t: Tabela, cpf: Option<string>, d: Dados)
    requires NomesSemCpfUnicos(t.pacientes)
    ensures Gravar(t, cpf, d).Some? ==> NomesSemCpfUnicos(Gravar(t, cpf, d).value.pacientes)
  {
    if Gravar(t, cpf, d).Some? {
      var ps := Gravar(t, cpf, d).value.pacientes;
      var n := |t.pacientes|;
      if cpf.Some? {
        if |Filtro(t.pacientes, ComCpf(cpf.value))| == 0 {
          assert ps == t.pacientes + [Novo(t, cpf, d)];
          forall i, j | 0 <= i < j < |ps| && ps[i].cpf.None? && ps[j].cpf.None?
            ensures ps[i].nome != ps[j].nome
          {
            assert j < n;
          }
        } else {
          assert ps == Atualizado(t.pacientes, cpf.value, d);
          forall i, j | 0 <= i < j < |ps| && ps[i].cpf.None? && ps[j].cpf.None?
            ensures ps[i].nome != ps[j].nome
          {
            assert ps[i] == t.pacientes[i] && ps[j] == t.pacientes[j];
          }
        }
      } else if |Filtro(t.pacientes, SemCpfComNome(d.nome))| == 0 {
        assert d.(nome := d.nome) == d;
        assert ps == t.pacientes + [Novo(t, None, d)];
        forall i, j | 0 <= i < j < |ps| && ps[i].cpf.None? && ps[j].cpf.None?
          ensures ps[i].nome != ps[j].nome
        {
          if j == n {
            assert t.pacientes[i] !in Filtro(t.pacientes, SemCpfComNome(d.nome));
          }
        }
      }
    }
  }

  /** On a table with unique CPFs and unique CPF-less names no row fails, and both properties are kept. */
  lemma PassoSemErro(t: Tabela, linha: seq<string>, titulo: string -> string, data: string -> Option<Date>)
    requires CpfsUnicos(t.pacientes) && NomesSemCpfUnicos(t.pacientes)
    ensures var passo := ProcessaLinha(t, linha, titulo, data);
            && passo.1 != Erro
            && CpfsUnicos(passo.0.pacientes) && NomesSemCpfUnicos(passo.0.pacientes)
  {
    var r := LinhaDados(linha, titulo, data);
    if r.Some? {
      GravarSemErro(t, r.value.0, r.value.1);
    }
  }

  /** The upsert of one row on such a table succeeds and keeps both properties. */
  lemma GravarSemErro(t: Tabela, cpf: Option<string>, d: Dados)
    requires CpfsUnicos(t.pacientes) && NomesSemCpfUnicos(t.pacientes)
    ensures Gravar(t, cpf, d).Some?
    ensures CpfsUnicos(Gravar(t, cpf, d).value.pacientes) && NomesSemCpfUnicos(Gravar(t, cpf, d).value.pacientes)
  {
    if cpf.Some? {
      CpfNoMaximoUm(t.pacientes, cpf.value);
    } else {
      NomeNoMaximoUm(t.pacientes, d.nome);
    }
    CpfsUnicosPreservados(t, cpf, d);
    NomesUnicosPreservados(t, cpf, d);
  }

  /**
   * An import into a table with unique CPFs and unique CPF-less names counts no error, so
   * `contador_sucesso` is the number of rows not skipped, and the table keeps both properties.
   */
  lemma {:induction false} ImportarSemErros(t: Tabela, linhas: seq<seq<string>>, titulo: string -> string,
                                            data: string -> Option<Date>)
    requires CpfsUnicos(t.pacientes) && NomesSemCpfUnicos(t.pacientes)
    ensures var r := ImportarLinhas(t, linhas, titulo, data);
            && r.2 == 0 && r.1 == |NaoPuladas(linhas, titulo, data)|
            && CpfsUnicos(r.0.pacientes) && NomesSemCpfUnicos(r.0.pacientes)
    decreases |linhas|
  {
    if linhas != [] {
      PassoSemErro(t, linhas[0], titulo, data);
      ImportarSemErros(ProcessaLinha(t, linhas[0], titulo, data).0, linhas[1..], titulo, data);
    }
    ImportarContagem(t, linhas, titulo, data);
  }

  // ---------------------------------------------------------------------------
  // Re-import
  // ---------------------------------------------------------------------------

  /** The key a row upserts by. */
  function Chave(cpf: Option<string>, nome: string): Paciente -> bool {
    if cpf.Some? then ComCpf(cpf.value) else SemCpfComNome(nome)
  }

  predicate ChavePresente(ps: seq<Paciente>, linha: seq<string>, titulo: string -> string, data: string -> Option<Date>) {
    var r := LinhaDados(linha, titulo, data);
    r.Some? ==> Presente(ps, Chave(r.value.0, r.value.1.nome))
  }

  /** An upsert never loses a key: CPFs are only ever added, and an update touches no patient without a CPF. */
  lemma GravarPreservaChave(t: Tabela, cpf: Option<string>, d: Dados, k: Paciente -> bool)
    requires Presente(t.pacientes, k)
    requires forall p: Paciente, q: Paciente :: p.cpf == q.cpf && p.nome == q.nome ==> k(p) == k(q)
    requires forall p: Paciente :: p.cpf.Some? && k(p) ==> k(p.(nome := d.nome))
    ensures Gravar(t, cpf, d).Some? ==> Presente(Gravar(t, cpf, d).value.pacientes, k)
  {
    var p :| p in t.pacientes && k(p);
    if cpf.Some? && |Filtro(t.pacientes, ComCpf(cpf.value))| == 1 {
      var ps := Atualizado(t.pacientes, cpf.value, d);
      var i :| 0 <= i < |t.pacientes| && t.pacientes[i] == p;
      assert ps[i] in ps && k(ps[i]);
    } else if Gravar(t, cpf, d).Some? {
      assert p in Gravar(t, cpf, d).value.pacientes;
    }
  }

  /** The keys rows upsert by depend only on CPF and name, and a key with a CPF ignores the name. */
  lemma ChaveBemFormada(cpf: Option<string>, nome: string, outro: string)
    ensures forall p: Paciente, q: Paciente :: p.cpf == q.cpf && p.nome == q.nome ==> Chave(cpf, nome)(p) == Chave(cpf, nome)(q)
    ensures forall p: Paciente :: p.cpf.Some? && Chave(cpf, nome)(p) ==> Chave(cpf, nome)(p.(nome := outro))
  {
  }

  lemma PassoPreservaChave(t: Tabela, linha: seq<string>, titulo: string -> string, data: string -> Option<Date>,
                           cpf: Option<string>, nome: string)
    requires Presente(t.pacientes, Chave(cpf, nome))
    ensures Presente(ProcessaLinha(t, linha, titulo, data).0.pacientes, Chave(cpf, nome))
  {
    var r := LinhaDados(linha, titulo, data);
    if r.Some? {
      ChaveBemFormada(cpf, nome, r.value.1.nome);
      GravarPreservaChave(t, r.value.0, r.value.1, Chave(cpf, nome));
    }
  }

  /** After an upsert its own key is present, whether the patient was created, found, or found several times. */
  lemma GravarDeixaChave(t: Tabela, cpf: Option<string>, d: Dados)
    ensures Presente((if Gravar(t, cpf, d).Some? then Gravar(t, cpf, d).value else t).pacientes, Chave(cpf, d.nome))
  {
    var k := Chave(cpf, d.nome);
    PresenteSeContado(t.pacientes, k);
    var m := Filtro(t.pacientes, k);
    if |m| == 0 {
      var ps := Gravar(t, cpf, d).value.pacientes;
      assert d.(nome := d.nome) == d;
      assert ps[|ps| - 1] in ps && k(ps[|ps| - 1]);
    } else {
      ChaveBemFormada(cpf, d.nome, d.nome);
      GravarPreservaChave(t, cpf, d, k);
    }
  }

  lemma PassoDeixaChave(t: Tabela, linha: seq<string>, titulo: string -> string, data: string -> Option<Date>)
    ensures ChavePresente(ProcessaLinha(t, linha, titulo, data).0.pacientes, linha, titulo, data)
  {
    var r := LinhaDados(linha, titulo, data);
    if r.Some? {
      GravarDeixaChave(t, r.value.0, r.value.1);
    }
  }

  /** An upsert whose key is already present creates no patient and hands out no id. */
  lemma GravarSemCriacao(t: Tabela, cpf: Option<string>, d: Dados)
    requires Presente(t.pacientes, Chave(cpf, d.nome))
    ensures Gravar(t, cpf, d).Some? ==>
              |Gravar(t, cpf, d).value.pacientes| == |t.pacientes| && Gravar(t, cpf, d).value.proximoId == t.proximoId
  {
    PresenteSeContado(t.pacientes, Chave(cpf, d.nome));
  }

  lemma PassoSemCriacao(t: Tabela, linha: seq<string>, titulo: string -> string, data: string -> Option<Date>)
    requires ChavePresente(t.pacientes, linha, titulo, data)
    ensures var t2 := ProcessaLinha(t, linha, titulo, data).0;
            |t2.pacientes| == |t.pacientes| && t2.proximoId == t.proximoId
  {
    var r := LinhaDados(linha, titulo, data);
    if r.Some? {
      GravarSemCriacao(t, r.value.0, r.value.1);
    }
  }

  lemma {:induction false} ImportarPreservaChave(t: Tabela, linhas: seq<seq<string>>, titulo: string -> string,
                                                 data: string -> Option<Date>, cpf: Option<string>, nome: string)
    requires Presente(t.pacientes, Chave(cpf, nome))
    ensures Presente(ImportarLinhas(t, linhas, titulo, data).0.pacientes, Chave(cpf, nome))
    decreases |linhas|
  {
    if linhas != [] {
      PassoPreservaChave(t, linhas[0], titulo, data, cpf, nome);
      ImportarPreservaChave(ProcessaLinha(t, linhas[0], titulo, data).0, linhas[1..], titulo, data, cpf, nome);
    }
  }

  /** After an import the first row's key is present: the row left it, and the later rows kept it. */
  lemma ImportarDeixaPrimeira(t: Tabela, linhas: seq<seq<string>>, titulo: string -> string,
                              data: string -> Option<Date>)
    requires linhas != []
    ensures ChavePresente(ImportarLinhas(t, linhas, titulo, data).0.pacientes, linhas[0], titulo, data)
  {
    var t1 := ProcessaLinha(t, linhas[0], titulo, data).0;
    assert ImportarLinhas(t, linhas, titulo, data).0 == ImportarLinhas(t1, linhas[1..], titulo, data).0;
    PassoDeixaChave(t, linhas[0], titulo, data);
    var r := LinhaDados(linhas[0], titulo, data);
    if r.Some? {
      ImportarPreservaChave(t1, linhas[1..], titulo, data, r.value.0, r.value.1.nome);
    }
  }

  /** After an import the key of row `i` is present. */
  lemma {:induction false} ImportarDeixaChave(t: Tabela, linhas: seq<seq<string>>, titulo: string -> string,
                                              data: string -> Option<Date>, i: nat)
    requires i < |linhas|
    ensures ChavePresente(ImportarLinhas(t, linhas, titulo, data).0.pacientes, linhas[i], titulo, data)
    decreases i, 1
  {
    if i == 0 {
      ImportarDeixaPrimeira(t, linhas, titulo, data);
    } else {
      ImportarDeixaChaveCauda(t, linhas, titulo, data, i);
    }
  }

  /** The key of a later row: present after the tail's import, which is what the whole import ends with. */
  lemma {:induction false} ImportarDeixaChaveCauda(t: Tabela, linhas: seq<seq<string>>, titulo: string -> string,
                                                   data: string -> Option<Date>, i: nat)
    requires 0 < i < |linhas|
    ensures ChavePresente(ImportarLinhas(t, linhas, titulo, data).0.pacientes, linhas[i], titulo, data)
    decreases i, 0
  {
    var t1 := ProcessaLinha(t, linhas[0], titulo, data).0;
    ImportarDeixaChave(t1, linhas[1..], titulo, data, i - 1);
    ImportarUmPasso(t, linhas, titulo, data);
    ChaveDaCauda(ImportarLinhas(t1, linhas[1..], titulo, data).0.pacientes, linhas, titulo, data, i);
  }

  /** The import of a non-empty list is the import of its tail from the table the first row left. */
  lemma ImportarUmPasso(t: Tabela, linhas: seq<seq<string>>, titulo: string -> string, data: string -> Option<Date>)
    requires linhas != []
    ensures ImportarLinhas(t, linhas, titulo, data).0
            == ImportarLinhas(ProcessaLinha(t, linhas[0], titulo, data).0, linhas[1..], titulo, data).0
  {
  }

  lemma ChaveDaCauda(ps: seq<Paciente>, linhas: seq<seq<string>>, titulo: string -> string, data: string -> Option<Date>, i: int)
    requires 0 < i < |linhas|
    requires ChavePresente(ps, linhas[1..][i - 1], titulo, data)
    ensures ChavePresente(ps, linhas[i], titulo, data)
  {
    assert linhas[1..][i - 1] == linhas[i];
  }

  /** After an import every imported row's key is present. */
  lemma ImportarDeixaChaves(t: Tabela, linhas: seq<seq<string>>, titulo: string -> string,
                            data: string -> Option<Date>)
    ensures forall i :: 0 <= i < |linhas| ==> ChavePresente(ImportarLinhas(t, linhas, titulo, data).0.pacientes, linhas[i], titulo, data)
  {
    forall i | 0 <= i < |linhas|
      ensures ChavePresente(ImportarLinhas(t, linhas, titulo, data).0.pacientes, linhas[i], titulo, data)
    {
      ImportarDeixaChave(t, linhas, titulo, data, i);
    }
  }

  /** Importing rows whose keys are all present creates no patient. */
  lemma {:induction false} ImportarSemCriacao(t: Tabela, linhas: seq<seq<string>>, titulo: string -> string,
                                              data: string -> Option<Date>)
    requires forall i :: 0 <= i < |linhas| ==> ChavePresente(t.pacientes, linhas[i], titulo, data)
    ensures var t2 := ImportarLinhas(t, linhas, titulo, data).0;
            |t2.pacientes| == |t.pacientes| && t2.proximoId == t.proximoId
    decreases |linhas|
  {
    if linhas != [] {
      PassoSemCriacao(t, linhas[0], titulo, data);
      var t1 := ProcessaLinha(t, linhas[0], titulo, data).0;
      forall i | 0 <= i < |linhas[1..]|
        ensures ChavePresente(t1.pacientes, linhas[1..][i], titulo, data)
      {
        var r := LinhaDados(linhas[i + 1], titulo, data);
        if r.Some? {
          PassoPreservaChave(t, linhas[0], titulo, data, r.value.0, r.value.1.nome);
        }
      }
      ImportarSemCriacao(t1, linhas[1..], titulo, data);
    }
  }

  /** Importing the same rows a second time creates no new patient. */
  lemma Reimportacao(t: Tabela, linhas: seq<seq<string>>, titulo: string -> string, data: string -> Option<Date>)
    ensures var t1 := ImportarLinhas(t, linhas, titulo, data).0;
            var t2 := ImportarLinhas(t1, linhas, titulo, data).0;
            |t2.pacientes| == |t1.pacientes| && t2.proximoId == t1.proximoId
  {
    ImportarDeixaChaves(t, linhas, titulo, data);
    ImportarSemCriacao(ImportarLinhas(t, linhas, titulo, data).0, linhas, titulo, data);
  }

  // ---------------------------------------------------------------------------
  // The command
  // ---------------------------------------------------------------------------

  class Cadastro {
    var pacientes: seq<Paciente>
    var proximoId: int

    function Atual(): Tabela
      reads this
    {
      Tabela(pacientes, proximoId)
    }

    constructor (pacientes: seq<Paciente>, proximoId: int)
      ensures Atual() == Tabela(pacientes, proximoId)
    {
      this.pacientes := pacientes;
      this.proximoId := proximoId;
    }

    /** `Paciente.objects.update_or_create(cpf=cpf, defaults=...)`; `ok` false for MultipleObjectsReturned. */
    method AtualizarOuCriar(cpf: string, d: Dados) returns (ok: bool)
      modifies this
      ensures ok == PorCpf(old(Atual()), cpf, d).Some?
      ensures Atual() == if ok then PorCpf(old(Atual()), cpf, d).value else old(Atual())
    {
      var m := Filtro(pacientes, ComCpf(cpf));
      if |m| == 0 {
        pacientes := pacientes + [Paciente(proximoId, d.nome, Some(cpf), d.nascimento, d.telefone, d.tipo, true)];
        proximoId := proximoId + 1;
        ok := true;
      } else if |m| == 1 {
        pacientes := Atualizado(pacientes, cpf, d);
        ok := true;
      } else {
        ok := false;
      }
    }

    /** `Paciente.objects.get_or_create(nome=nome, cpf=None, defaults=...)`; `ok` false for MultipleObjectsReturned. */
    method ObterOuCriar(nome: string, d: Dados) returns (ok: bool)
      modifies this
      ensures ok == PorNome(old(Atual()), nome, d).Some?
      ensures Atual() == if ok then PorNome(old(Atual()), nome, d).value else old(Atual())
    {
      var m := Filtro(pacientes, SemCpfComNome(nome));
      if |m| == 0 {
        pacientes := pacientes + [Paciente(proximoId, nome, None, d.nascimento, d.telefone, d.tipo, true)];
        proximoId := proximoId + 1;
        ok := true;
      } else {
        ok := |m| == 1;
      }
    }

    /** `Command.handle` on the file's rows: the header row is skipped, every other row processed in order. */
    method Importar(linhas: seq<seq<string>>, titulo: string -> string, data: string -> Option<Date>)
      returns (sucesso: nat, erros: nat)
      requires |linhas| >= 1
      modifies this
      ensures (Atual(), sucesso, erros) == ImportarLinhas(old(Atual()), linhas[1..], titulo, data)
      ensures sucesso + erros <= |linhas| - 1
    {
      var dados := linhas[1..];
      sucesso, erros := 0, 0;
      ghost var esperado := ImportarLinhas(Atual(), dados, titulo, data);
      for i := 0 to |dados|
        invariant var resto := ImportarLinhas(Atual(), dados[i..], titulo, data);
                  resto.0 == esperado.0 && sucesso + resto.1 == esperado.1 && erros + resto.2 == esperado.2
      {
        ghost var antes := Atual();
        var linha := dados[i];
        assert dados[i..][1..] == dados[i + 1..];
        if |linha| < 7 {
          continue;
        }
        var nome := titulo(Strip(linha[1]));
        if nome == "" {
          continue;
        }
        var cpf := LimpaCpf(linha[3]);
        var d := Dados(nome, data(Strip(linha[5])), LimpaTelefone(linha[6]), TipoDaLinha(linha));
        var ok;
        if cpf.Some? {
          ok := AtualizarOuCriar(cpf.value, d);
        } else {
          ok := ObterOuCriar(nome, d);
        }
        assert (Atual(), if ok then Sucesso else Erro) == ProcessaLinha(antes, linha, titulo, data);
        if ok {
          sucesso := sucesso + 1;
        } else {
          erros := erros + 1;
        }
      }
      assert dados[|dados|..] == [];
      assert ImportarLinhas(Atual(), dados[|dados|..], titulo, data) == (Atual(), 0, 0);
      assert (Atual(), sucesso, erros) == esperado;
    }
  }
}
