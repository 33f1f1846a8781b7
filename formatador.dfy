/** The text of a call report (utils/formatador.js): a header, the period
    and the date, the three call counts, the rates when calls were received,
    the queue history when there is one, and a footer. */
module Formatador {
  import opened Comum

  /** One entry of `filas`: a moment and how many people were waiting. */
  datatype Fila = Fila(momento: Option<string>, quantidadePessoas: Option<int>)

  /** The report payload; an absent field is `undefined` in the request. */
  datatype DadosRelatorio = DadosRelatorio(
    ligacoesRecebidas: Option<int>,
    ligacoesAtendidas: Option<int>,
    ligacoesAbandonadas: Option<int>,
    filas: Option<seq<Fila>>,
    periodo: Option<string>,
    data: Option<string>)

  /** The kind of function `((parte / total) * 100).toFixed(1)` is: the
      rendering of a percentage, taken as given. */
  type Taxa = (int, int) -> string

  /** A missing count defaults to 0. */
  function Contagem(n: Option<int>): int {
    if n.Some? then n.value else 0
  }

  function Recebidas(d: DadosRelatorio): int { Contagem(d.ligacoesRecebidas) }
  function Atendidas(d: DadosRelatorio): int { Contagem(d.ligacoesAtendidas) }
  function Abandonadas(d: DadosRelatorio): int { Contagem(d.ligacoesAbandonadas) }

  function Filas(d: DadosRelatorio): seq<Fila> {
    if d.filas.Some? then d.filas.value else []
  }

  function Periodo(d: DadosRelatorio): string {
    if d.periodo.Some? then d.periodo.value else ""
  }

  /** `hoje` stands for `new Date().toLocaleDateString('pt-BR')`. */
  function Data(d: DadosRelatorio, hoje: string): string {
    if d.data.Some? then d.data.value else hoje
  }

  /** `fila.momento || 'N/A'` */
  function Momento(f: Fila): string {
    if Truthy(f.momento) then f.momento.value else "N/A"
  }

  /** `fila.quantidadePessoas || 0` */
  function Quantidade(f: Fila): int {
    if f.quantidadePessoas.Some? then f.quantidadePessoas.value else 0
  }

  const Cabecalho: string := "📊 *RELATÓRIO DE LIGAÇÕES*\n\n"
  const TituloEstatisticas: string := "📞 *ESTATÍSTICAS DE LIGAÇÕES*\n"
  const Separador: string := "━━━━━━━━━━━━━━━━━━━━\n"
  const TituloIndicadores: string := "📈 *INDICADORES*\n"
  const TituloFilas: string := "👥 *HISTÓRICO DE FILAS*\n"
  const Assinatura: string := "_Relatório gerado automaticamente_"

  function LinhaPeriodo(periodo: string): string {
    "📅 *Período:* " + periodo + "\n"
  }

  function LinhaData(data: string): string {
    "📆 *Data:* " + data + "\n\n"
  }

  function LinhaRecebidas(n: int): string {
    "✅ Recebidas: *" + IntToString(n) + "*\n"
  }

  function LinhaAtendidas(n: int): string {
    "📞 Atendidas: *" + IntToString(n) + "*\n"
  }

  function LinhaAbandonadas(n: int): string {
    "❌ Abandonadas: *" + IntToString(n) + "*\n\n"
  }

  function LinhaTaxaAtendimento(taxa: string): string {
    "📊 Taxa de Atendimento: *" + taxa + "%*\n"
  }

  function LinhaTaxaAbandono(taxa: string): string {
    "⚠️ Taxa de Abandono: *" + taxa + "%*\n\n"
  }

  /** "pessoa", with "s" unless the quantity is exactly 1. */
  function Pessoas(quantidade: int): (r: string)
    ensures r == "pessoa" || r == "pessoas"
    ensures r == "pessoas" <==> quantidade != 1
  {
    "pessoa" + (if quantidade != 1 then "s" else "")
  }

  /** The line of the queue entry numbered `n`. It ends with a newline,
      and the character before it is the plural `s` exactly when the
      quantity is not 1. */
  function LinhaFila(n: int, f: Fila): (r: string)
    ensures |r| >= 2 && r[|r| - 1] == '\n' && (r[|r| - 2] == 's' <==> Quantidade(f) != 1)
  {
    var q := Quantidade(f);
    var head := IntToString(n) + ". 🕐 " + Momento(f) + " - *" + IntToString(q) + "* ";
    var r := head + (Pessoas(q) + "\n");
    assert r[|r| - 2] == Pessoas(q)[|Pessoas(q)| - 1];
    r
  }
  /** The lines `linha` draws for `filas`, the first one numbered
      `primeiro`, in input order. */
  function Numeradas(filas: seq<Fila>, primeiro: int, linha: (int, Fila) -> string): string
    decreases |filas|
  {
    if filas == [] then "" else linha(primeiro, filas[0]) + Numeradas(filas[1..], primeiro + 1, linha)
  }

  /** The queue lines of `filas`, the first one numbered `primeiro`. */
  function LinhasFilas(filas: seq<Fila>, primeiro: int): string {
    Numeradas(filas, primeiro, LinhaFila)
  }

  /** The period line when `periodo` is truthy, then the date line. */
  function SecaoData(d: DadosRelatorio, hoje: string): string {
    (if Periodo(d) != "" then LinhaPeriodo(Periodo(d)) else "") + LinhaData(Data(d, hoje))
  }

  function SecaoEstatisticas(d: DadosRelatorio): string {
    TituloEstatisticas + Separador + LinhaRecebidas(Recebidas(d)) + LinhaAtendidas(Atendidas(d)) + LinhaAbandonadas(Abandonadas(d))
  }

  /** The rates, only when some call was received. */
  function SecaoIndicadores(d: DadosRelatorio, taxa: Taxa): (r: string)
    ensures r == "" <==> Recebidas(d) <= 0
    ensures Recebidas(d) > 0 ==> |TituloIndicadores| <= |r| && r[..|TituloIndicadores|] == TituloIndicadores
  {
    if Recebidas(d) > 0 then
      TituloIndicadores + Separador
      + LinhaTaxaAtendimento(taxa(Atendidas(d), Recebidas(d)))
      + LinhaTaxaAbandono(taxa(Abandonadas(d), Recebidas(d)))
    else ""
  }

  /** The queue history, only when there is some queue entry; it then
      opens with its title and ends with a blank line. */
  function SecaoFilas(d: DadosRelatorio): (r: string)
    ensures r == "" <==> Filas(d) == []
    ensures Filas(d) != [] ==>
      |TituloFilas| < |r| && r[..|TituloFilas|] == TituloFilas && r[|r| - 1] == '\n'
  {
    if |Filas(d)| > 0 then TituloFilas + Separador + LinhasFilas(Filas(d), 1) + "\n" else ""
  }

  const Rodape: string := Separador + Assinatura

  /** The whole report, section after section. Every report starts with
      the header and ends with the separator and the signature. */
  function Relatorio(d: DadosRelatorio, hoje: string, taxa: Taxa): (r: string)
    ensures |r| >= |Cabecalho| + |Rodape|
    ensures r[..|Cabecalho|] == Cabecalho && r[|r| - |Rodape|..] == Rodape
  {
    Framed(SecaoData(d, hoje), SecaoEstatisticas(d), SecaoIndicadores(d, taxa), SecaoFilas(d));
    Cabecalho + SecaoData(d, hoje) + SecaoEstatisticas(d) + SecaoIndicadores(d, taxa) + SecaoFilas(d) + Rodape
  }

  lemma Assoc(a: string, b: string, c: string)
    ensures a + b + c == a + (b + c)
  {
  }

  lemma Assoc4(x: string, a: string, b: string, c: string, e: string)
    ensures x + a + b + c + e == x + (a + b + c + e)
  {
    Assoc(x, a, b);
    Assoc(x, a + b, c);
    Assoc(x, a + b + c, e);
  }

  lemma Assoc5(x: string, a: string, b: string, c: string, e: string, f: string)
    ensures x + a + b + c + e + f == x + (a + b + c + e + f)
  {
    Assoc4(x, a, b, c, e);
    Assoc(x, a + b + c + e, f);
  }

  lemma PrefixOfAppend(a: string, b: string, k: nat)
    requires k <= |a|
    ensures (a + b)[..k] == a[..k]
  {
  }

  /** The header and the footer frame whatever sections lie between them. */
  lemma Framed(a: string, b: string, c: string, e: string)
    ensures var r := Cabecalho + a + b + c + e + Rodape;
      |r| >= |Cabecalho| + |Rodape| &&
      r[..|Cabecalho|] == Cabecalho && r[|r| - |Rodape|..] == Rodape
  {
    var k := |Cabecalho|;
    var a1 := Cabecalho + a;
    var a2 := a1 + b;
    var a3 := a2 + c;
    var a4 := a3 + e;
    PrefixOfAppend(Cabecalho, a, k);
    PrefixOfAppend(a1, b, k);
    PrefixOfAppend(a2, c, k);
    PrefixOfAppend(a3, e, k);
    PrefixOfAppend(a4, Rodape, k);
  }

  lemma {:induction false} NumeradasSnoc(filas: seq<Fila>, f: Fila, primeiro: int, linha: (int, Fila) -> string)
    ensures Numeradas(filas + [f], primeiro, linha) == Numeradas(filas, primeiro, linha) + linha(primeiro + |filas|, f)
    decreases |filas|
  {
    if filas == [] {
      assert [f][1..] == [];
    } else {
      assert (filas + [f])[1..] == filas[1..] + [f];
      NumeradasSnoc(filas[1..], f, primeiro + 1, linha);
    }
  }

  /** Appending one more entry appends its line, numbered after the others. */
  lemma LinhasFilasSnoc(filas: seq<Fila>, f: Fila, primeiro: int)
    ensures LinhasFilas(filas + [f], primeiro) == LinhasFilas(filas, primeiro) + LinhaFila(primeiro + |filas|, f)
  {
    NumeradasSnoc(filas, f, primeiro, LinhaFila);
  }

  /** One turn of the `forEach`: the entry at `index` gets number
      `index + 1`. */
  lemma NumeradasPasso(inicio: string, filas: seq<Fila>, index: nat, linha: (int, Fila) -> string)
    requires index < |filas|
    ensures inicio + Numeradas(filas[..index + 1], 1, linha)
         == inicio + Numeradas(filas[..index], 1, linha) + linha(index + 1, filas[index])
  {
    NumeradasSnoc(filas[..index], filas[index], 1, linha);
    assert filas[..index + 1] == filas[..index] + [filas[index]];
    Assoc(inicio, Numeradas(filas[..index], 1, linha), linha(index + 1, filas[index]));
  }

  /** `filas.forEach(...)`: the line of each entry appended in turn,
      numbered from 1. */
  method AcrescentarFilas(inicio: string, filas: seq<Fila>) returns (mensagem: string)
    ensures mensagem == inicio + LinhasFilas(filas, 1)
  {
    mensagem := inicio;
    var index := 0;
    while index < |filas|
      invariant 0 <= index <= |filas|
      invariant mensagem == inicio + LinhasFilas(filas[..index], 1)
    {
      NumeradasPasso(inicio, filas, index, LinhaFila);
      mensagem := mensagem + LinhaFila(index + 1, filas[index]);
      index := index + 1;
    }
    assert filas[..index] == filas;
  }

  /** `formatarRelatorio`: the message is built by appending to it, one
      line (or one queue entry) at a time. */
  method FormatarRelatorio(d: DadosRelatorio, hoje: string, taxa: Taxa) returns (mensagem: string)
    ensures mensagem == Relatorio(d, hoje, taxa)
  {
    var recebidas, atendidas, abandonadas := Recebidas(d), Atendidas(d), Abandonadas(d);
    var filas, periodo, data := Filas(d), Periodo(d), Data(d, hoje);

    mensagem := Cabecalho;
    ghost var antes := mensagem;
    if periodo != "" {
      mensagem := mensagem + LinhaPeriodo(periodo);
    }
    mensagem := mensagem + LinhaData(data);
    Assoc(antes, if periodo != "" then LinhaPeriodo(periodo) else "", LinhaData(data));
    assert mensagem == antes + SecaoData(d, hoje);

    antes := mensagem;
    mensagem := mensagem + TituloEstatisticas;
    mensagem := mensagem + Separador;
    mensagem := mensagem + LinhaRecebidas(recebidas);
    mensagem := mensagem + LinhaAtendidas(atendidas);
    mensagem := mensagem + LinhaAbandonadas(abandonadas);
    Assoc5(antes, TituloEstatisticas, Separador, LinhaRecebidas(recebidas), LinhaAtendidas(atendidas), LinhaAbandonadas(abandonadas));
    assert mensagem == antes + SecaoEstatisticas(d);

    antes := mensagem;
    if recebidas > 0 {
      var taxaAtendimento := taxa(atendidas, recebidas);
      var taxaAbandono := taxa(abandonadas, recebidas);
      mensagem := mensagem + TituloIndicadores;
      mensagem := mensagem + Separador;
      mensagem := mensagem + LinhaTaxaAtendimento(taxaAtendimento);
      mensagem := mensagem + LinhaTaxaAbandono(taxaAbandono);
      Assoc4(antes, TituloIndicadores, Separador, LinhaTaxaAtendimento(taxaAtendimento), LinhaTaxaAbandono(taxaAbandono));
    }
    assert mensagem == antes + SecaoIndicadores(d, taxa);

    antes := mensagem;
    if |filas| > 0 {
      mensagem := mensagem + TituloFilas;
      mensagem := mensagem + Separador;
      mensagem := AcrescentarFilas(mensagem, filas);
      mensagem := mensagem + "\n";
      Assoc4(antes, TituloFilas, Separador, LinhasFilas(filas, 1), "\n");
    }
    assert mensagem == antes + SecaoFilas(d);

    antes := mensagem;
    mensagem := mensagem + Separador;
    mensagem := mensagem + Assinatura;
    Assoc(antes, Separador, Assinatura);
  }

  // What the report shows, read off its characters. Each optional section
  // and each queue line starts with an emoji that the fixed text uses
  // nowhere else, so counting those emoji counts the sections, provided the
  // strings that come from the request do not contain them.

  predicate IsMarker(c: char) {
    c == '📅' || c == '📆' || c == '✅' || c == '❌' || c == '📈' || c == '👥' || c == '🕐'
  }

  predicate NoMarker(s: string) {
    forall i | 0 <= i < |s| :: !IsMarker(s[i])
  }

  /** 1 when `c` is the character `m`, else 0. */
  function Is(c: char, m: char): nat {
    if c == m then 1 else 0
  }

  /** The number of occurrences of `c` in `s`. */
  function Count(s: string, c: char): nat {
    if s == [] then 0 else Is(s[0], c) + Count(s[1..], c)
  }

  lemma {:induction false} CountAppend(a: string, b: string, c: char)
    ensures Count(a + b, c) == Count(a, c) + Count(b, c)
  {
    if a == [] {
      assert a + b == b;
    } else {
      assert (a + b)[1..] == a[1..] + b;
      CountAppend(a[1..], b, c);
    }
  }

  lemma {:induction false} CountPositive(s: string, c: char)
    ensures Count(s, c) > 0 <==> c in s
  {
    if s != [] {
      CountPositive(s[1..], c);
      assert c in s <==> s[0] == c || c in s[1..];
    }
  }

  lemma {:induction false} NoMarkerCount(s: string, c: char)
    requires NoMarker(s) && IsMarker(c)
    ensures Count(s, c) == 0
  {
    if s != [] {
      NoMarkerCount(s[1..], c);
    }
  }

  /** A string that opens with the marker `m` and has no other marker. */
  lemma LeadMarkerCount(s: string, m: char, c: char)
    requires |s| > 0 && s[0] == m && NoMarker(s[1..]) && IsMarker(c)
    ensures Count(s, c) == Is(c, m)
  {
    NoMarkerCount(s[1..], c);
  }

  lemma NoMarkerAppend(a: string, b: string)
    requires NoMarker(a) && NoMarker(b)
    ensures NoMarker(a + b)
  {
  }

  lemma IntToStringNoMarker(n: int)
    ensures NoMarker(IntToString(n))
  {
    IntToStringShape(n);
  }

  lemma CabecalhoNoMarker() ensures NoMarker(Cabecalho) {}
  lemma TituloEstatisticasNoMarker() ensures NoMarker(TituloEstatisticas) {}
  lemma SeparadorNoMarker() ensures NoMarker(Separador) {}
  lemma AssinaturaNoMarker() ensures NoMarker(Assinatura) {}
  lemma NewlinesNoMarker() ensures NoMarker("\n") && NoMarker("\n\n") && NoMarker("*\n") && NoMarker("*\n\n") {}
  lemma TituloIndicadoresLead() ensures TituloIndicadores[0] == '📈' && NoMarker(TituloIndicadores[1..]) {}
  lemma TituloFilasLead() ensures TituloFilas[0] == '👥' && NoMarker(TituloFilas[1..]) {}

  lemma RodapeNoMarker()
    ensures NoMarker(Rodape)
  {
    SeparadorNoMarker();
    AssinaturaNoMarker();
    NoMarkerAppend(Separador, Assinatura);
  }

  lemma CountLinhaPeriodo(periodo: string, c: char)
    requires NoMarker(periodo) && IsMarker(c)
    ensures Count(LinhaPeriodo(periodo), c) == Is(c, '📅')
  {
    var lead := "📅 *Período:* ";
    assert lead[0] == '📅' && NoMarker(lead[1..]);
    LeadMarkerCount(lead, '📅', c);
    NoMarkerCount(periodo, c);
    NewlinesNoMarker();
    NoMarkerCount("\n", c);
    CountAppend(lead, periodo, c);
    CountAppend(lead + periodo, "\n", c);
  }

  lemma CountLinhaData(data: string, c: char)
    requires NoMarker(data) && IsMarker(c)
    ensures Count(LinhaData(data), c) == Is(c, '📆')
  {
    var lead := "📆 *Data:* ";
    assert lead[0] == '📆' && NoMarker(lead[1..]);
    LeadMarkerCount(lead, '📆', c);
    NoMarkerCount(data, c);
    NewlinesNoMarker();
    NoMarkerCount("\n\n", c);
    CountAppend(lead, data, c);
    CountAppend(lead + data, "\n\n", c);
  }

  /** A rotulo, a number and a closing: the rotulo's count. */
  lemma CountNumberLine(rotulo: string, n: int, closing: string, c: char)
    requires NoMarker(closing) && IsMarker(c)
    ensures Count(rotulo + IntToString(n) + closing, c) == Count(rotulo, c)
  {
    IntToStringNoMarker(n);
    NoMarkerCount(IntToString(n), c);
    NoMarkerCount(closing, c);
    CountAppend(rotulo, IntToString(n), c);
    CountAppend(rotulo + IntToString(n), closing, c);
  }

  lemma CountLinhaRecebidas(n: int, c: char)
    requires IsMarker(c)
    ensures Count(LinhaRecebidas(n), c) == Is(c, '✅')
  {
    var lead := "✅ Recebidas: *";
    assert lead[0] == '✅' && NoMarker(lead[1..]);
    LeadMarkerCount(lead, '✅', c);
    NewlinesNoMarker();
    CountNumberLine(lead, n, "*\n", c);
  }

  lemma CountLinhaAtendidas(n: int, c: char)
    requires IsMarker(c)
    ensures Count(LinhaAtendidas(n), c) == 0
  {
    var lead := "📞 Atendidas: *";
    assert NoMarker(lead);
    NoMarkerCount(lead, c);
    NewlinesNoMarker();
    CountNumberLine(lead, n, "*\n", c);
  }

  lemma CountLinhaAbandonadas(n: int, c: char)
    requires IsMarker(c)
    ensures Count(LinhaAbandonadas(n), c) == Is(c, '❌')
  {
    var lead := "❌ Abandonadas: *";
    assert lead[0] == '❌' && NoMarker(lead[1..]);
    LeadMarkerCount(lead, '❌', c);
    NewlinesNoMarker();
    CountNumberLine(lead, n, "*\n\n", c);
  }

  /** A rotulo, a given string and a closing, none with a marker. */
  lemma CountTextLine(rotulo: string, text: string, closing: string, c: char)
    requires NoMarker(rotulo) && NoMarker(text) && NoMarker(closing) && IsMarker(c)
    ensures Count(rotulo + text + closing, c) == 0
  {
    NoMarkerAppend(rotulo, text);
    NoMarkerAppend(rotulo + text, closing);
    NoMarkerCount(rotulo + text + closing, c);
  }

  lemma CountLinhaTaxaAtendimento(taxa: string, c: char)
    requires NoMarker(taxa) && IsMarker(c)
    ensures Count(LinhaTaxaAtendimento(taxa), c) == 0
  {
    var lead, closing := "📊 Taxa de Atendimento: *", "%*\n";
    assert NoMarker(lead) && NoMarker(closing);
    CountTextLine(lead, taxa, closing, c);
  }

  lemma CountLinhaTaxaAbandono(taxa: string, c: char)
    requires NoMarker(taxa) && IsMarker(c)
    ensures Count(LinhaTaxaAbandono(taxa), c) == 0
  {
    var lead, closing := "⚠️ Taxa de Abandono: *", "%*\n\n";
    assert NoMarker(lead) && NoMarker(closing);
    CountTextLine(lead, taxa, closing, c);
  }

  lemma RotuloFilaCount(c: char)
    requires IsMarker(c)
    ensures Count(". 🕐 ", c) == Is(c, '🕐')
  {
    var lead := ". 🕐 ";
    assert lead == ". " + "🕐 ";
    assert NoMarker(". ") && "🕐 "[0] == '🕐' && NoMarker("🕐 "[1..]);
    NoMarkerCount(". ", c);
    LeadMarkerCount("🕐 ", '🕐', c);
    CountAppend(". ", "🕐 ", c);
  }

  lemma FimLinhaFilaNoMarker(q: int)
    ensures NoMarker(" - *") && NoMarker("* " + Pessoas(q) + "\n")
  {
    assert NoMarker("* ") && NoMarker("pessoa") && NoMarker("pessoas") && NoMarker("\n");
  }

  lemma CountLinhaFila(n: int, f: Fila, c: char)
    requires NoMarker(Momento(f)) && IsMarker(c)
    ensures Count(LinhaFila(n, f), c) == Is(c, '🕐')
  {
    var q := Quantidade(f);
    var number, lead, momento, mid, quantity, tail := IntToString(n), ". 🕐 ", Momento(f), " - *", IntToString(q), "* " + Pessoas(q) + "\n";
    assert LinhaFila(n, f) == number + lead + momento + mid + quantity + tail;
    RotuloFilaCount(c);
    FimLinhaFilaNoMarker(q);
    IntToStringNoMarker(n);
    IntToStringNoMarker(q);
    NoMarkerCount(number, c);
    NoMarkerCount(momento, c);
    NoMarkerCount(mid, c);
    NoMarkerCount(quantity, c);
    NoMarkerCount(tail, c);
    CountAppend(number, lead, c);
    CountAppend(number + lead, momento, c);
    CountAppend(number + lead + momento, mid, c);
    CountAppend(number + lead + momento + mid, quantity, c);
    CountAppend(number + lead + momento + mid + quantity, tail, c);
  }

  /** Every queue entry contributes exactly one clock marker. */
  lemma {:induction false} CountLinhasFilas(filas: seq<Fila>, primeiro: int, c: char)
    requires forall k | 0 <= k < |filas| :: NoMarker(Momento(filas[k]))
    requires IsMarker(c)
    ensures Count(LinhasFilas(filas, primeiro), c) == (if c == '🕐' then |filas| else 0)
    decreases |filas|
  {
    if filas != [] {
      assert LinhasFilas(filas, primeiro) == LinhaFila(primeiro, filas[0]) + LinhasFilas(filas[1..], primeiro + 1);
      CountLinhaFila(primeiro, filas[0], c);
      CountLinhasFilas(filas[1..], primeiro + 1, c);
      CountAppend(LinhaFila(primeiro, filas[0]), LinhasFilas(filas[1..], primeiro + 1), c);
    }
  }

  /** The request strings that end up in the text carry no marker. */
  ghost predicate InputsWithoutMarkers(d: DadosRelatorio, hoje: string, taxa: Taxa) {
    && NoMarker(Periodo(d))
    && NoMarker(Data(d, hoje))
    && (Recebidas(d) > 0 ==>
          NoMarker(taxa(Atendidas(d), Recebidas(d))) && NoMarker(taxa(Abandonadas(d), Recebidas(d))))
    && forall k | 0 <= k < |Filas(d)| :: NoMarker(Momento(Filas(d)[k]))
  }

  lemma CountSecaoData(d: DadosRelatorio, hoje: string, c: char)
    requires NoMarker(Periodo(d)) && NoMarker(Data(d, hoje)) && IsMarker(c)
    ensures Count(SecaoData(d, hoje), c) == (if Periodo(d) != "" then Is(c, '📅') else 0) + Is(c, '📆')
  {
    var periodo := if Periodo(d) != "" then LinhaPeriodo(Periodo(d)) else "";
    if Periodo(d) != "" {
      CountLinhaPeriodo(Periodo(d), c);
    }
    CountLinhaData(Data(d, hoje), c);
    CountAppend(periodo, LinhaData(Data(d, hoje)), c);
  }

  lemma CountSecaoEstatisticas(d: DadosRelatorio, c: char)
    requires IsMarker(c)
    ensures Count(SecaoEstatisticas(d), c) == Is(c, '✅') + Is(c, '❌')
  {
    var t, s, l1, l2, l3 := TituloEstatisticas, Separador, LinhaRecebidas(Recebidas(d)), LinhaAtendidas(Atendidas(d)), LinhaAbandonadas(Abandonadas(d));
    TituloEstatisticasNoMarker();
    SeparadorNoMarker();
    NoMarkerCount(t, c);
    NoMarkerCount(s, c);
    CountLinhaRecebidas(Recebidas(d), c);
    CountLinhaAtendidas(Atendidas(d), c);
    CountLinhaAbandonadas(Abandonadas(d), c);
    CountAppend(t, s, c);
    CountAppend(t + s, l1, c);
    CountAppend(t + s + l1, l2, c);
    CountAppend(t + s + l1 + l2, l3, c);
  }

  lemma CountSecaoIndicadores(d: DadosRelatorio, taxa: Taxa, c: char)
    requires Recebidas(d) > 0 ==>
      NoMarker(taxa(Atendidas(d), Recebidas(d))) && NoMarker(taxa(Abandonadas(d), Recebidas(d)))
    requires IsMarker(c)
    ensures Count(SecaoIndicadores(d, taxa), c) == if Recebidas(d) > 0 then Is(c, '📈') else 0
  {
    if Recebidas(d) > 0 {
      var t, s := TituloIndicadores, Separador;
      var l1, l2 := LinhaTaxaAtendimento(taxa(Atendidas(d), Recebidas(d))), LinhaTaxaAbandono(taxa(Abandonadas(d), Recebidas(d)));
      TituloIndicadoresLead();
      LeadMarkerCount(t, '📈', c);
      SeparadorNoMarker();
      NoMarkerCount(s, c);
      CountLinhaTaxaAtendimento(taxa(Atendidas(d), Recebidas(d)), c);
      CountLinhaTaxaAbandono(taxa(Abandonadas(d), Recebidas(d)), c);
      CountAppend(t, s, c);
      CountAppend(t + s, l1, c);
      CountAppend(t + s + l1, l2, c);
    }
  }

  lemma CountSecaoFilas(d: DadosRelatorio, c: char)
    requires forall k | 0 <= k < |Filas(d)| :: NoMarker(Momento(Filas(d)[k]))
    requires IsMarker(c)
    ensures Count(SecaoFilas(d), c) == if |Filas(d)| > 0 then Is(c, '👥') + (if c == '🕐' then |Filas(d)| else 0) else 0
  {
    if |Filas(d)| > 0 {
      var ts, ls := TituloFilas + Separador, LinhasFilas(Filas(d), 1);
      CountTituloFilas(c);
      CountLinhasFilas(Filas(d), 1, c);
      NewlinesNoMarker();
      NoMarkerCount("\n", c);
      CountAppend(ts, ls, c);
      CountAppend(ts + ls, "\n", c);
    }
  }

  lemma CountTituloFilas(c: char)
    requires IsMarker(c)
    ensures Count(TituloFilas + Separador, c) == Is(c, '👥')
  {
    TituloFilasLead();
    LeadMarkerCount(TituloFilas, '👥', c);
    SeparadorNoMarker();
    NoMarkerCount(Separador, c);
    CountAppend(TituloFilas, Separador, c);
  }

  /** How many times each marker occurs in a report. */
  lemma MarkerCounts(d: DadosRelatorio, hoje: string, taxa: Taxa, c: char)
    requires InputsWithoutMarkers(d, hoje, taxa) && IsMarker(c)
    ensures Count(Relatorio(d, hoje, taxa), c)
         == (if Periodo(d) != "" then Is(c, '📅') else 0)
          + Is(c, '📆') + Is(c, '✅') + Is(c, '❌')
          + (if Recebidas(d) > 0 then Is(c, '📈') else 0)
          + (if |Filas(d)| > 0 then Is(c, '👥') + (if c == '🕐' then |Filas(d)| else 0) else 0)
  {
    var h, sd, se, si, sf, r := Cabecalho, SecaoData(d, hoje), SecaoEstatisticas(d), SecaoIndicadores(d, taxa), SecaoFilas(d), Rodape;
    CountAbertura(d, hoje, c);
    CountSecaoIndicadores(d, taxa, c);
    CountSecaoFilas(d, c);
    RodapeNoMarker();
    NoMarkerCount(r, c);
    CountAppend(h + sd + se, si, c);
    CountAppend(h + sd + se + si, sf, c);
    CountAppend(h + sd + se + si + sf, r, c);
  }

  /** The sections every report has: header, date and statistics. */
  lemma CountAbertura(d: DadosRelatorio, hoje: string, c: char)
    requires NoMarker(Periodo(d)) && NoMarker(Data(d, hoje)) && IsMarker(c)
    ensures Count(Cabecalho + SecaoData(d, hoje) + SecaoEstatisticas(d), c)
         == (if Periodo(d) != "" then Is(c, '📅') else 0) + Is(c, '📆') + Is(c, '✅') + Is(c, '❌')
  {
    var h, sd, se := Cabecalho, SecaoData(d, hoje), SecaoEstatisticas(d);
    CabecalhoNoMarker();
    NoMarkerCount(h, c);
    CountSecaoData(d, hoje, c);
    CountSecaoEstatisticas(d, c);
    CountAppend(h, sd, c);
    CountAppend(h + sd, se, c);
  }

  /** The period line appears exactly when `periodo` is truthy, and at most once. */
  lemma PeriodLineIffPeriodo(d: DadosRelatorio, hoje: string, taxa: Taxa)
    requires InputsWithoutMarkers(d, hoje, taxa)
    ensures var r := Relatorio(d, hoje, taxa);
      ('📅' in r <==> Truthy(d.periodo)) && Count(r, '📅') <= 1
  {
    MarkerCounts(d, hoje, taxa, '📅');
    CountPositive(Relatorio(d, hoje, taxa), '📅');
  }

  /** The date line and the received and abandoned lines appear exactly
      once (the order of the count lines is EstatisticasEmOrdem). */
  lemma DateAndCountLinesOnce(d: DadosRelatorio, hoje: string, taxa: Taxa)
    requires InputsWithoutMarkers(d, hoje, taxa)
    ensures var r := Relatorio(d, hoje, taxa);
      Count(r, '📆') == 1 && Count(r, '✅') == 1 && Count(r, '❌') == 1
  {
    MarkerCounts(d, hoje, taxa, '📆');
    MarkerCounts(d, hoje, taxa, '✅');
    MarkerCounts(d, hoje, taxa, '❌');
  }

  /** A section that lies between `x` and the rest can be cut back out at
      the offset `|x|`. */
  lemma Middle(x: string, c: string, p: string, q: string, t: string)
    ensures |x| + |c| <= |x + c + p + q + t|
    ensures (x + c + p + q + t)[|x|..][..|c|] == c
  {
    var r := x + c + p + q + t;
    assert r == (x + c) + (p + q + t);
    assert (x + c)[|x|..] == c;
  }

  /** The statistics section always follows the header and the date
      section, and holds the title, the separator and the received,
      answered and abandoned lines, in that order. */
  lemma EstatisticasEmOrdem(d: DadosRelatorio, hoje: string, taxa: Taxa)
    ensures |Cabecalho| + |SecaoData(d, hoje)| + |SecaoEstatisticas(d)| <= |Relatorio(d, hoje, taxa)|
    ensures Relatorio(d, hoje, taxa)[|Cabecalho| + |SecaoData(d, hoje)|..][..|SecaoEstatisticas(d)|]
         == TituloEstatisticas + Separador + LinhaRecebidas(Recebidas(d))
            + LinhaAtendidas(Atendidas(d)) + LinhaAbandonadas(Abandonadas(d))
  {
    Middle(Cabecalho + SecaoData(d, hoje), SecaoEstatisticas(d), SecaoIndicadores(d, taxa), SecaoFilas(d), Rodape);
  }

  /** The INDICADORES section appears exactly when some call was received. */
  lemma IndicadoresIffRecebidas(d: DadosRelatorio, hoje: string, taxa: Taxa)
    requires InputsWithoutMarkers(d, hoje, taxa)
    ensures var r := Relatorio(d, hoje, taxa);
      ('📈' in r <==> Recebidas(d) > 0) && Count(r, '📈') <= 1
  {
    MarkerCounts(d, hoje, taxa, '📈');
    CountPositive(Relatorio(d, hoje, taxa), '📈');
  }

  /** The queue history appears exactly when `filas` has an entry. */
  lemma HistoricoIffFilas(d: DadosRelatorio, hoje: string, taxa: Taxa)
    requires InputsWithoutMarkers(d, hoje, taxa)
    ensures var r := Relatorio(d, hoje, taxa);
      ('👥' in r <==> |Filas(d)| > 0) && Count(r, '👥') <= 1
  {
    var r := Relatorio(d, hoje, taxa);
    MarkerCounts(d, hoje, taxa, '👥');
    assert Count(r, '👥') == if |Filas(d)| > 0 then 1 else 0;
    CountPositive(r, '👥');
  }

  /** The report holds one queue line per entry of `filas`. */
  lemma OneLinePerFila(d: DadosRelatorio, hoje: string, taxa: Taxa)
    requires InputsWithoutMarkers(d, hoje, taxa)
    ensures Count(Relatorio(d, hoje, taxa), '🕐') == |Filas(d)|
  {
    MarkerCounts(d, hoje, taxa, '🕐');
  }

  lemma {:induction false} NumeradasAppend(a: seq<Fila>, b: seq<Fila>, primeiro: int, linha: (int, Fila) -> string)
    ensures Numeradas(a + b, primeiro, linha) == Numeradas(a, primeiro, linha) + Numeradas(b, primeiro + |a|, linha)
    decreases |a|
  {
    if a == [] {
      assert a + b == b;
    } else {
      assert (a + b)[0] == a[0] && (a + b)[1..] == a[1..] + b;
      NumeradasAppend(a[1..], b, primeiro + 1, linha);
    }
  }

  /** The lines of two lists of entries: those of the first, then those of
      the second numbered on from there. */
  lemma LinhasFilasAppend(a: seq<Fila>, b: seq<Fila>, primeiro: int)
    ensures LinhasFilas(a + b, primeiro) == LinhasFilas(a, primeiro) + LinhasFilas(b, primeiro + |a|)
  {
    NumeradasAppend(a, b, primeiro, LinhaFila);
  }

  lemma NumeradasAt(filas: seq<Fila>, primeiro: int, linha: (int, Fila) -> string, k: nat)
    requires k < |filas|
    ensures Numeradas(filas, primeiro, linha)
         == Numeradas(filas[..k], primeiro, linha) + linha(primeiro + k, filas[k]) + Numeradas(filas[k + 1..], primeiro + k + 1, linha)
  {
    var before, rest, after := filas[..k], filas[k..], filas[k + 1..];
    assert filas == before + rest;
    assert rest[0] == filas[k] && rest[1..] == after;
    NumeradasAppend(before, rest, primeiro, linha);
  }

  /** Entry `k` of `filas` gets the line numbered `primeiro + k`, after the
      lines of the entries before it and before those of the entries after it. */
  lemma LinhasFilasNumbered(filas: seq<Fila>, primeiro: int, k: nat)
    requires k < |filas|
    ensures LinhasFilas(filas, primeiro)
         == LinhasFilas(filas[..k], primeiro) + LinhaFila(primeiro + k, filas[k]) + LinhasFilas(filas[k + 1..], primeiro + k + 1)
  {
    NumeradasAt(filas, primeiro, LinhaFila, k);
  }

  /** A falsy moment shows as "N/A" and a missing quantity as 0. */
  lemma LinhaFilaDefaults(n: int, f: Fila)
    ensures !Truthy(f.momento) ==> LinhaFila(n, f) == LinhaFila(n, Fila(Some("N/A"), f.quantidadePessoas))
    ensures f.quantidadePessoas.None? ==> LinhaFila(n, f) == LinhaFila(n, Fila(f.momento, Some(0)))
  {
  }

  /** A missing count renders exactly like an explicit 0. */
  lemma MissingCountsAreZero(d: DadosRelatorio, hoje: string, taxa: Taxa)
    ensures var z := d.(ligacoesRecebidas := Some(Recebidas(d)),
                        ligacoesAtendidas := Some(Atendidas(d)),
                        ligacoesAbandonadas := Some(Abandonadas(d)));
      Relatorio(d, hoje, taxa) == Relatorio(z, hoje, taxa)
  {
    var z := d.(ligacoesRecebidas := Some(Recebidas(d)),
                ligacoesAtendidas := Some(Atendidas(d)),
                ligacoesAbandonadas := Some(Abandonadas(d)));
    assert Recebidas(z) == Recebidas(d) && Atendidas(z) == Atendidas(d) && Abandonadas(z) == Abandonadas(d);
    assert Filas(z) == Filas(d) && Periodo(z) == Periodo(d) && Data(z, hoje) == Data(d, hoje);
    assert SecaoData(z, hoje) == SecaoData(d, hoje);
    assert SecaoEstatisticas(z) == SecaoEstatisticas(d);
    assert SecaoIndicadores(z, taxa) == SecaoIndicadores(d, taxa);
    assert SecaoFilas(z) == SecaoFilas(d);
  }
}
