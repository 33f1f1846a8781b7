/** The request handlers of index.js that send messages: `/enviar`,
    `/enviar-relatorio` and `/enviar-relatorio-todos`. `ready` is the value
    of `isConnected && sock` when the request arrives (`Session.Ready()`),
    and every `sock.sendMessage` call gets its outcome from a caller-supplied
    `SendResult`. */
module Rotas {
  import opened Comum
  import Formatador
  import Destinatarios

  /** The outcome of one `sock.sendMessage`: resolved, or rejected with an
      error whose `message` is given. */
  datatype SendResult = Sent | Failed(message: string)

  /** One call `sock.sendMessage(to, { text })`; `to` is None when the JID
      formatter returned null. */
  datatype Send = Send(to: Option<string>, text: string)

  /** An entry of `resultados` (`status: 'enviado'`) and of `erros`. */
  datatype Enviado = Enviado(numero: string, status: string)
  datatype Falha = Falha(numero: string, erro: string)

  /** The JSON bodies the handlers answer with: `{ erro }`,
      `{ sucesso: true, mensagem }`, and the broadcast summary
      `{ sucesso: true, mensagem, resultados, erros }` whose `erros` is
      undefined (None) when omitted. */
  datatype Body =
    | Erro(erro: string)
    | Sucesso(mensagem: string)
    | Resumo(mensagem: string, resultados: seq<Enviado>, erros: Option<seq<Falha>>)

  datatype Response = Response(status: int, body: Body)

  /** A handler's answer together with the messages it sent, in order. */
  datatype Handled = Handled(response: Response, sends: seq<Send>)

  const Desconectado: string := "WhatsApp desconectado"
  const DadosObrigatorios: string := "Dados do relatório são obrigatórios"
  const MensagemObrigatoria: string := "Mensagem é obrigatória"
  const RelatorioEnviado: string := "Relatório enviado com sucesso!"
  const MensagemEnviada: string := "Mensagem enviada com sucesso!"
  const ErroRelatorio: string := "Erro ao enviar relatório: "
  const ErroMensagem: string := "Erro ao enviar mensagem: "
  const StatusEnviado: string := "enviado"
  const GroupSuffix: string := "@g.us"

  /** The message of the TypeError `destinatario.includes('@')` throws when
      neither `jid` nor `numero` was given. */
  const SemDestino: string := "Cannot read properties of undefined (reading 'includes')"

  /** `jid || numero`. */
  function Destino(jid: Option<string>, numero: Option<string>): (r: Option<string>)
    ensures Truthy(jid) ==> r == jid
    ensures !Truthy(jid) ==> r == numero
  {
    if Truthy(jid) then jid else numero
  }

  /** The inline normaliser of both send handlers: an address with `@` is
      kept, one with `-` is a group, anything else a direct chat. */
  function NormalizeDestination(d: string): (r: string)
    ensures '@' in d ==> r == d
    ensures '@' !in d && '-' in d ==> r == d + GroupSuffix
    ensures '@' !in d && '-' !in d ==> r == d + Destinatarios.DirectSuffix
    ensures |d| <= |r| && r[..|d|] == d
    ensures '@' in r
  {
    if '@' in d then d
    else
      var r := if '-' in d then d + GroupSuffix else d + Destinatarios.DirectSuffix;
      assert r[|d|] == '@';
      r
  }

  /** Normalising twice gives what normalising once gives. */
  lemma NormalizeDestinationIdempotent(d: string)
    ensures NormalizeDestination(NormalizeDestination(d)) == NormalizeDestination(d)
  {
  }

  /** For a plain phone number the inline normaliser and `formatarJID`
      produce the same JID. */
  lemma NormalizeAgreesWithFormatarJID(n: string)
    requires n != [] && AllDigits(n)
    ensures Destinatarios.FormatarJID(Some(n)) == Some(NormalizeDestination(n))
  {
    Destinatarios.FormatarJIDOfNumber(n);
  }

  /** The `try` block of both send handlers: normalise the destination,
      send once, answer 200, or 500 with the error's message. A missing
      destination throws before anything is sent. */
  function Entregar(destino: Option<string>, texto: string, outcome: SendResult,
                    sucesso: string, prefixo: string): (h: Handled)
    ensures destino.None? ==> h == Handled(Response(500, Erro(prefixo + SemDestino)), [])
    ensures destino.Some? ==> h.sends == [Send(Some(NormalizeDestination(destino.value)), texto)]
    ensures destino.Some? && outcome == Sent ==> h.response == Response(200, Sucesso(sucesso))
    ensures destino.Some? && outcome.Failed? ==> h.response == Response(500, Erro(prefixo + outcome.message))
  {
    if destino.None? then Handled(Response(500, Erro(prefixo + SemDestino)), [])
    else
      var send := Send(Some(NormalizeDestination(destino.value)), texto);
      match outcome
      case Sent => Handled(Response(200, Sucesso(sucesso)), [send])
      case Failed(m) => Handled(Response(500, Erro(prefixo + m)), [send])
  }

  /** `POST /enviar`: 503 while disconnected whatever the body, then 400
      without a message, then 500 when the send throws, else 200. */
  function Enviar(ready: bool, jid: Option<string>, numero: Option<string>,
                  mensagem: Option<string>, outcome: SendResult): (h: Handled)
    ensures h.response.status == 503 <==> !ready
    ensures h.response.status == 400 <==> ready && !Truthy(mensagem)
    ensures h.response.status == 500 <==>
      ready && Truthy(mensagem) && (Destino(jid, numero).None? || outcome.Failed?)
    ensures h.response.status == 200 <==>
      ready && Truthy(mensagem) && Destino(jid, numero).Some? && outcome == Sent
    ensures !ready ==> h.response.body == Erro(Desconectado)
    ensures ready && !Truthy(mensagem) ==> h.response.body == Erro(MensagemObrigatoria)
    ensures h.response.status == 200 ==> h.response.body == Sucesso(MensagemEnviada)
    ensures h.response.status == 500 && outcome.Failed? && Destino(jid, numero).Some? ==>
      h.response.body == Erro(ErroMensagem + outcome.message)
    ensures h.sends != [] <==> ready && Truthy(mensagem) && Destino(jid, numero).Some?
    ensures h.sends != [] ==>
      h.sends == [Send(Some(NormalizeDestination(Destino(jid, numero).value)), mensagem.value)]
  {
    if !ready then Handled(Response(503, Erro(Desconectado)), [])
    else if !Truthy(mensagem) then Handled(Response(400, Erro(MensagemObrigatoria)), [])
    else Entregar(Destino(jid, numero), mensagem.value, outcome, MensagemEnviada, ErroMensagem)
  }

  /** `POST /enviar-relatorio`: the same guard order; the text sent is the
      formatted report. */
  function EnviarRelatorio(ready: bool, jid: Option<string>, numero: Option<string>,
                           dados: Option<Formatador.DadosRelatorio>, hoje: string,
                           taxa: Formatador.Taxa, outcome: SendResult): (h: Handled)
    ensures h.response.status == 503 <==> !ready
    ensures h.response.status == 400 <==> ready && dados.None?
    ensures h.response.status == 500 <==>
      ready && dados.Some? && (Destino(jid, numero).None? || outcome.Failed?)
    ensures h.response.status == 200 <==>
      ready && dados.Some? && Destino(jid, numero).Some? && outcome == Sent
    ensures !ready ==> h.response.body == Erro(Desconectado)
    ensures ready && dados.None? ==> h.response.body == Erro(DadosObrigatorios)
    ensures h.response.status == 200 ==> h.response.body == Sucesso(RelatorioEnviado)
    ensures h.response.status == 500 && outcome.Failed? && Destino(jid, numero).Some? ==>
      h.response.body == Erro(ErroRelatorio + outcome.message)
    ensures h.sends != [] <==> ready && dados.Some? && Destino(jid, numero).Some?
    ensures h.sends != [] ==>
      h.sends == [Send(Some(NormalizeDestination(Destino(jid, numero).value)),
                       Formatador.Relatorio(dados.value, hoje, taxa))]
  {
    if !ready then Handled(Response(503, Erro(Desconectado)), [])
    else if dados.None? then Handled(Response(400, Erro(DadosObrigatorios)), [])
    else Entregar(Destino(jid, numero), Formatador.Relatorio(dados.value, hoje, taxa),
                  outcome, RelatorioEnviado, ErroRelatorio)
  }

  /** While disconnected the answer does not depend on the request at all. */
  lemma DisconnectedIgnoresRequest(jid1: Option<string>, numero1: Option<string>, mensagem1: Option<string>, outcome1: SendResult,
                                   jid2: Option<string>, numero2: Option<string>, mensagem2: Option<string>, outcome2: SendResult)
    ensures Enviar(false, jid1, numero1, mensagem1, outcome1) == Enviar(false, jid2, numero2, mensagem2, outcome2)
    ensures Enviar(false, jid1, numero1, mensagem1, outcome1) == Handled(Response(503, Erro(Desconectado)), [])
  {
  }

  /** The message sent through `/enviar-relatorio` to a plain number goes to
      the JID `formatarJID` gives that number. */
  lemma ReportToNumberUsesItsJID(n: string, dados: Formatador.DadosRelatorio, hoje: string, taxa: Formatador.Taxa)
    requires n != [] && AllDigits(n)
    ensures EnviarRelatorio(true, None, Some(n), Some(dados), hoje, taxa, Sent).sends
         == [Send(Destinatarios.FormatarJID(Some(n)), Formatador.Relatorio(dados, hoje, taxa))]
  {
    NormalizeAgreesWithFormatarJID(n);
  }

  /** `resultados` after the loop has visited `ds` with outcomes `outs`. */
  function Sucessos(ds: seq<string>, outs: seq<SendResult>): (r: seq<Enviado>)
    requires |ds| == |outs|
    ensures |r| <= |ds|
    ensures forall k | 0 <= k < |r| :: r[k].status == StatusEnviado
    decreases |ds|
  {
    if ds == [] then []
    else
      var n := |ds| - 1;
      Sucessos(ds[..n], outs[..n]) + (if outs[n] == Sent then [Enviado(ds[n], StatusEnviado)] else [])
  }

  /** `erros` after the loop has visited `ds` with outcomes `outs`. */
  function Falhas(ds: seq<string>, outs: seq<SendResult>): (r: seq<Falha>)
    requires |ds| == |outs|
    ensures |r| <= |ds|
    decreases |ds|
  {
    if ds == [] then []
    else
      var n := |ds| - 1;
      Falhas(ds[..n], outs[..n]) + (if outs[n].Failed? then [Falha(ds[n], outs[n].message)] else [])
  }

  /** The sends the loop makes: one per recipient, in list order. */
  function Tentativas(ds: seq<string>, texto: string): (r: seq<Send>)
    ensures |r| == |ds|
    ensures forall k | 0 <= k < |ds| :: r[k] == Send(Destinatarios.FormatarJID(Some(ds[k])), texto)
    decreases |ds|
  {
    if ds == [] then []
    else Tentativas(ds[..|ds| - 1], texto) + [Send(Destinatarios.FormatarJID(Some(ds[|ds| - 1])), texto)]
  }

  function Numeros(r: seq<Enviado>): seq<string>
    decreases |r|
  {
    if r == [] then [] else Numeros(r[..|r| - 1]) + [r[|r| - 1].numero]
  }

  lemma NumerosSnoc(r: seq<Enviado>, x: Enviado)
    ensures Numeros(r + [x]) == Numeros(r) + [x.numero]
  {
    assert (r + [x])[..|r|] == r;
  }

  /** Together `resultados` and `erros` have one entry per recipient. */
  lemma {:induction false} BroadcastSizes(ds: seq<string>, outs: seq<SendResult>)
    requires |ds| == |outs|
    ensures |Sucessos(ds, outs)| + |Falhas(ds, outs)| == |ds|
    decreases |ds|
  {
    if ds != [] {
      BroadcastSizes(ds[..|ds| - 1], outs[..|ds| - 1]);
    }
  }

  function CountSent(outs: seq<SendResult>): nat {
    if outs == [] then 0 else (if outs[0] == Sent then 1 else 0) + CountSent(outs[1..])
  }

  lemma {:induction false} CountSentSnoc(outs: seq<SendResult>, o: SendResult)
    ensures CountSent(outs + [o]) == CountSent(outs) + (if o == Sent then 1 else 0)
  {
    if outs == [] {
      assert outs + [o] == [o];
    } else {
      assert (outs + [o])[1..] == outs[1..] + [o];
      CountSentSnoc(outs[1..], o);
    }
  }

  /** `resultados` has one entry per send that resolved. */
  lemma {:induction false} SucessosCount(ds: seq<string>, outs: seq<SendResult>)
    requires |ds| == |outs|
    ensures |Sucessos(ds, outs)| == CountSent(outs)
    decreases |ds|
  {
    if ds != [] {
      var n := |ds| - 1;
      SucessosCount(ds[..n], outs[..n]);
      assert outs == outs[..n] + [outs[n]];
      CountSentSnoc(outs[..n], outs[n]);
    }
  }

  /** Each recipient lands in exactly one of `resultados` and `erros`, at
      the place its position in the list determines: recipient `k` is entry
      `i` of `resultados` when its send resolved and entry `k - i` of `erros`
      when it was rejected, `i` being the number of earlier sends that
      resolved. */
  lemma BroadcastPlacement(ds: seq<string>, outs: seq<SendResult>, k: nat)
    requires |ds| == |outs| && k < |ds|
    ensures var i := CountSent(outs[..k]);
      && i <= k
      && (outs[k].Sent? ==> i < |Sucessos(ds, outs)| && Sucessos(ds, outs)[i] == Enviado(ds[k], StatusEnviado))
      && (outs[k].Failed? ==> k - i < |Falhas(ds, outs)| && Falhas(ds, outs)[k - i] == Falha(ds[k], outs[k].message))
  {
    var a, oa, b, ob := ds[..k + 1], outs[..k + 1], ds[k + 1..], outs[k + 1..];
    assert ds == a + b && outs == oa + ob;
    BroadcastConcat(a, oa, b, ob);
    assert a[..k] == ds[..k] && oa[..k] == outs[..k];
    SucessosCount(ds[..k], outs[..k]);
    BroadcastSizes(ds[..k], outs[..k]);
  }

  /** One failure does not affect any other recipient: the outcomes after
      the loop has visited `a` and then `b` are those of `a` followed by
      those of `b`. */
  lemma {:induction false} BroadcastConcat(a: seq<string>, oa: seq<SendResult>, b: seq<string>, ob: seq<SendResult>)
    requires |a| == |oa| && |b| == |ob|
    ensures Sucessos(a + b, oa + ob) == Sucessos(a, oa) + Sucessos(b, ob)
    ensures Falhas(a + b, oa + ob) == Falhas(a, oa) + Falhas(b, ob)
    decreases |b|
  {
    if b == [] {
      assert a + b == a && oa + ob == oa;
    } else {
      var n := |b| - 1;
      assert (a + b)[..|a| + n] == a + b[..n];
      assert (oa + ob)[..|a| + n] == oa + ob[..n];
      BroadcastConcat(a, oa, b[..n], ob[..n]);
    }
  }

  /** When every send resolves, every recipient is in `resultados`, in list
      order, and `erros` is empty. */
  lemma {:induction false} BroadcastAllSent(ds: seq<string>, outs: seq<SendResult>)
    requires |ds| == |outs| && forall k | 0 <= k < |outs| :: outs[k] == Sent
    ensures Numeros(Sucessos(ds, outs)) == ds
    ensures Falhas(ds, outs) == []
    decreases |ds|
  {
    if ds != [] {
      var n := |ds| - 1;
      BroadcastAllSent(ds[..n], outs[..n]);
      NumerosSnoc(Sucessos(ds[..n], outs[..n]), Enviado(ds[n], StatusEnviado));
      assert ds == ds[..n] + [ds[n]];
    }
  }

  /** The loop of `/enviar-relatorio-todos`: one send per recipient, in
      list order; a rejected send is recorded in `erros` and the loop goes
      on with the next recipient. */
  method Broadcast(destinatarios: seq<string>, texto: string, envios: seq<SendResult>)
    returns (resultados: seq<Enviado>, erros: seq<Falha>, sends: seq<Send>)
    requires |envios| == |destinatarios|
    ensures resultados == Sucessos(destinatarios, envios)
    ensures erros == Falhas(destinatarios, envios)
    ensures sends == Tentativas(destinatarios, texto)
  {
    resultados, erros, sends := [], [], [];
    var i := 0;
    while i < |destinatarios|
      invariant 0 <= i <= |destinatarios|
      invariant resultados == Sucessos(destinatarios[..i], envios[..i])
      invariant erros == Falhas(destinatarios[..i], envios[..i])
      invariant sends == Tentativas(destinatarios[..i], texto)
    {
      var numero := destinatarios[i];
      var destinatario := Destinatarios.FormatarJID(Some(numero));
      sends := sends + [Send(destinatario, texto)];
      match envios[i] {
        case Sent =>
          resultados := resultados + [Enviado(numero, StatusEnviado)];
        case Failed(m) =>
          erros := erros + [Falha(numero, m)];
      }
      assert destinatarios[..i + 1][..i] == destinatarios[..i];
      assert envios[..i + 1][..i] == envios[..i];
      i := i + 1;
    }
    assert destinatarios[..i] == destinatarios;
    assert envios[..i] == envios;
  }

  /** `Relatório enviado para ${resultados.length} destinatário(s)`. */
  const ResumoAntes: string := "Relatório enviado para "
  const ResumoDepois: string := " destinatário(s)"

  /** The summary message; the count of successful sends can be read back
      from between its two fixed parts. */
  function ResumoTexto(enviados: nat): (r: string)
    ensures |r| == |ResumoAntes| + |NatToString(enviados)| + |ResumoDepois|
    ensures r[..|ResumoAntes|] == ResumoAntes && r[|r| - |ResumoDepois|..] == ResumoDepois
    ensures AllDigits(r[|ResumoAntes|..|r| - |ResumoDepois|])
    ensures ParseNat(r[|ResumoAntes|..|r| - |ResumoDepois|]) == enviados
  {
    var n := NatToString(enviados);
    var r := ResumoAntes + n + ResumoDepois;
    assert r[|ResumoAntes|..|r| - |ResumoDepois|] == n;
    ParseNatToString(enviados);
    r
  }

  /** Different counts give different summary messages. */
  lemma ResumoTextoInjective(m: nat, n: nat)
    requires ResumoTexto(m) == ResumoTexto(n)
    ensures m == n
  {
    var r := ResumoTexto(m);
    assert |NatToString(m)| == |NatToString(n)|;
    assert AllDigits(r[|ResumoAntes|..|r| - |ResumoDepois|]);
    assert ParseNat(r[|ResumoAntes|..|r| - |ResumoDepois|]) == n;
  }

  /** `POST /enviar-relatorio-todos` over the configured recipients: the
      same two guards, then the report formatted once and sent to every
      recipient through `formatarJID`; the answer is 200 with `sucesso`
      however many sends failed. */
  method EnviarRelatorioTodos(ready: bool, dados: Option<Formatador.DadosRelatorio>, hoje: string,
                              taxa: Formatador.Taxa, envios: seq<SendResult>)
    returns (h: Handled)
    requires |envios| == |Destinatarios.DestinatariosRelatorios|
    ensures h.response.status == 503 <==> !ready
    ensures h.response.status == 400 <==> ready && dados.None?
    ensures h.response.status == 200 <==> ready && dados.Some?
    ensures !ready ==> h.response.body == Erro(Desconectado)
    ensures ready && dados.None? ==> h.response.body == Erro(DadosObrigatorios)
    ensures h.response.status != 200 ==> h.sends == []
    ensures h.response.status == 200 ==>
      var resultados := Sucessos(Destinatarios.DestinatariosRelatorios, envios);
      var erros := Falhas(Destinatarios.DestinatariosRelatorios, envios);
      && h.response.body == Resumo(ResumoTexto(|resultados|), resultados, if |erros| > 0 then Some(erros) else None)
      && h.sends == Tentativas(Destinatarios.DestinatariosRelatorios, Formatador.Relatorio(dados.value, hoje, taxa))
  {
    if !ready {
      return Handled(Response(503, Erro(Desconectado)), []);
    }
    if dados.None? {
      return Handled(Response(400, Erro(DadosObrigatorios)), []);
    }
    var mensagemFormatada := Formatador.FormatarRelatorio(dados.value, hoje, taxa);
    var resultados, erros, sends := Broadcast(Destinatarios.DestinatariosRelatorios, mensagemFormatada, envios);
    var errosCampo := if |erros| > 0 then Some(erros) else None;
    h := Handled(Response(200, Resumo(ResumoTexto(|resultados|), resultados, errosCampo)), sends);
  }

  /** With the configured list, a successful broadcast sends the report to
      `5511952722428@s.whatsapp.net` and reports one recipient; a failed
      one reports none and lists the error. */
  lemma ConfiguredBroadcast(texto: string, o: SendResult)
    ensures var ds := Destinatarios.DestinatariosRelatorios;
      && Tentativas(ds, texto) == [Send(Some("5511952722428@s.whatsapp.net"), texto)]
      && (o == Sent ==> Sucessos(ds, [o]) == [Enviado("5511952722428", StatusEnviado)] && Falhas(ds, [o]) == [])
      && (o.Failed? ==> Sucessos(ds, [o]) == [] && Falhas(ds, [o]) == [Falha("5511952722428", o.message)])
  {
    Destinatarios.ConfiguredRecipient();
    var ds := Destinatarios.DestinatariosRelatorios;
    assert ds[..0] == [];
  }
}
