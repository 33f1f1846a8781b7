# Call-report WhatsApp service: a verified model

The service is a small Express application. It keeps one WhatsApp session
open through the Baileys library and answers HTTP requests that send text
messages. The main one sends a formatted call-centre report, either to a
given destination or to a configured list of recipients.

The model covers three parts of the service:

- **Session state machine (`conexao.dfy`, module `Conexao`).**
  - It models `connect()` and the handlers it installs.
  - `Flags` holds the three module-level variables (`sock`, `isConnected`, `reconnecting`), whether stored credentials exist, and how many retry timers are still pending.
  - One step function is given per handler, traces of events are run through them, and lemmas hold over whole traces.
  - The class `Session` has one method per handler; each is proved equal to its step function.
- **Request handlers (`rotas.dfy`, module `Rotas`).**
  - It models the destination normaliser and the guard order of `/enviar` and `/enviar-relatorio`.
  - It models the broadcast loop of `/enviar-relatorio-todos` as a method with a loop, proved against the functions `Sucessos`, `Falhas` and `Tentativas`.
  - Each `sock.sendMessage` outcome is supplied by the caller.
- **Report formatter (`formatador.dfy`, module `Formatador`).**
  - `formatarRelatorio` is the imperative method `FormatarRelatorio`. It appends line by line, and loops over the queue entries.
  - It is proved equal to the section-by-section function `Relatorio`.
  - Lemmas over `Relatorio` count the marker emoji at the head of each line. This shows which lines and sections appear, and how often.
- **Recipients (`destinatarios.dfy`, module `Destinatarios`).**
  - It models `formatarJID` twice: once exactly as written, and once as its own comment describes it (see Findings).
  - It also models the configured recipient list.

`comum.dfy` (module `Comum`) holds the shared values:
- optional JSON fields;
- JavaScript truthiness of strings;
- the decimal rendering that a template string gives an integer.

These things are parameters of the model:
- the outcome of every `sendMessage` call (`SendResult`);
- the date default `new Date().toLocaleDateString('pt-BR')` (`hoje`);
- the rendering of a rate by `toFixed(1)` (`taxa`);
- whether the credentials directory already exists when the process starts.

## Model

| member | source | states |
|---|---|---|
| Comum.NatToString | utils/formatador.js:33-35 | `${n}` of a count is a non-empty string (its digits are fixed by the lemmas below) |
| Comum.IntToString | utils/formatador.js:33-35 | `${n}` of an integer is a non-empty string (its shape is fixed by the lemma below) |
| Comum.NatToStringDigits | utils/formatador.js:33-35 | a count renders as a non-empty string of decimal digits without a leading zero, longer than one digit exactly from 10 on |
| Comum.IntToStringShape | utils/formatador.js:33-35 | a count renders as digits and a sign, the sign present exactly when it is negative |
| Comum.ParseNatToString | utils/formatador.js:33-35 | reading back the rendering of a count gives the count |
| Comum.IntToStringInjective | utils/formatador.js:33-35 | different counts render differently |
| Destinatarios.SoDigitos | config/destinatarios.js:18 | `replace(/\D/g, '')` leaves only digits and never lengthens the string |
| Destinatarios.SoDigitosConcat | config/destinatarios.js:18 | removing non-digits distributes over concatenation |
| Destinatarios.SoDigitosNoDigits | config/destinatarios.js:18 | a string without digits is removed entirely |
| Destinatarios.SoDigitosFixpoint | config/destinatarios.js:18 | a string is left unchanged exactly when it consists of digits |
| Destinatarios.SoDigitosOccurrences | config/destinatarios.js:18 | every digit keeps its number of occurrences; every other character, `@` included, disappears |
| Destinatarios.SoDigitosDigitsThenRest | config/destinatarios.js:18 | digits followed by a digit-free tail reduce to those digits |
| Destinatarios.DirectSuffixNoDigits | config/destinatarios.js:26 | the direct-chat suffix holds no digit |
| Destinatarios.DirectSuffixOneAt | config/destinatarios.js:26 | the direct-chat suffix opens with its only `@` |
| Destinatarios.FormatarJIDAsWritten | config/destinatarios.js:14-27 | null exactly for a falsy input; otherwise the input's digits followed by `@s.whatsapp.net` |
| Destinatarios.FormatarJIDAsWrittenShape | config/destinatarios.js:18-26 | everything before the suffix is a digit and the result holds exactly one `@`, where the suffix begins |
| Destinatarios.FormatarJIDAsWrittenDropsGroup | config/destinatarios.js:18-23 | a group id `<digits>-<digits><domain>` loses its dash and domain and becomes a direct-chat JID |
| Destinatarios.FormatarJIDAsWrittenGroupExample | config/destinatarios.js:18-23 | `123-456@g.us` becomes `123456@s.whatsapp.net` |
| Destinatarios.FormatarJIDAsWrittenIdempotent | config/destinatarios.js:14-27 | applying the function to its own non-null result changes nothing |
| Destinatarios.FormatarJID | config/destinatarios.js:14-27 | null exactly for a falsy input; an input holding `@` is returned unchanged; every result holds `@` |
| Destinatarios.FormatarJIDAgreesWithoutAt | config/destinatarios.js:18-26 | on inputs without `@` the corrected function and the code as written agree |
| Destinatarios.FormatarJIDIdempotent | config/destinatarios.js:14-27 | the corrected function is idempotent on every input |
| Destinatarios.FormatarJIDOfNumber | config/destinatarios.js:18-26 | a plain number becomes that number followed by `@s.whatsapp.net`, in both versions |
| Destinatarios.ConfiguredRecipientsAreNumbers | config/destinatarios.js:5-7 | the configured list has one entry, a non-empty string of digits |
| Destinatarios.ConfiguredJidText | config/destinatarios.js:5-7 | the configured entry's JID is `5511952722428@s.whatsapp.net` |
| Destinatarios.ConfiguredRecipient | config/destinatarios.js:5-7 | the configured entry maps to `5511952722428@s.whatsapp.net` |
| Destinatarios.ConfiguredRecipientsAgree | config/destinatarios.js:5-23 | for every configured entry the corrected function gives what the code as written gives |
| Formatador.Pessoas | utils/formatador.js:56 | the word is `pessoas` exactly when the quantity is not 1, else `pessoa` |
| Formatador.Relatorio | utils/formatador.js:24-63 | the reference report, section by section, that every formatter lemma is about; every report starts with the header and ends with the separator and the signature |
| Formatador.LinhasFilasSnoc | utils/formatador.js:53-57 | one more queue entry appends its line, numbered after the others |
| Formatador.AcrescentarFilas | utils/formatador.js:53-57 | appending each entry's line in turn appends the numbered queue lines |
| Formatador.FormatarRelatorio | utils/formatador.js:14-66 | the message built by appending is the section-by-section report |
| Formatador.MarkerCounts | utils/formatador.js:24-63 | how often each line marker occurs, as a function of the payload |
| Formatador.PeriodLineIffPeriodo | utils/formatador.js:26-28 | the period line appears exactly when `periodo` is truthy, at most once |
| Formatador.DateAndCountLinesOnce | utils/formatador.js:29-35 | the date line and the received and abandoned lines appear exactly once |
| Formatador.EstatisticasEmOrdem | utils/formatador.js:31-35 | right after the header and the date section, the report holds the statistics title, the separator and the received, answered and abandoned lines, always and in that order |
| Formatador.IndicadoresIffRecebidas | utils/formatador.js:38-46 | the INDICADORES section appears exactly when the received count is positive, at most once |
| Formatador.HistoricoIffFilas | utils/formatador.js:49-60 | the queue history appears exactly when `filas` has an entry, at most once |
| Formatador.OneLinePerFila | utils/formatador.js:53-57 | the report holds one queue line per entry |
| Formatador.LinhasFilasAppend | utils/formatador.js:53-57 | the lines of two lists of entries are the lines of the first, then those of the second numbered on |
| Formatador.LinhasFilasNumbered | utils/formatador.js:53-57 | entry `k` gets number `k + 1`, after the entries before it and before those after it |
| Formatador.LinhaFila | utils/formatador.js:54-56 | a queue line ends with a newline, and the character before it is the plural `s` exactly when the quantity is not 1 |
| Formatador.SecaoIndicadores | utils/formatador.js:38-46 | the rates section is empty exactly when no call was received, and otherwise opens with its title |
| Formatador.SecaoFilas | utils/formatador.js:49-60 | the queue history is empty exactly when there is no entry, and otherwise opens with its title and ends with a newline |
| Formatador.LinhaFilaDefaults | utils/formatador.js:54-55 | a falsy moment renders as `N/A`; a missing quantity renders as 0 |
| Formatador.MissingCountsAreZero | utils/formatador.js:16-18 | a missing count renders exactly like an explicit 0 |
| Conexao.ConnectStep | index.js:16-28 | the two cases of `connect()`: while an attempt is in flight nothing changes; otherwise one socket more, in flight, not connected (the session-level consequences are InvRun, SingleAttemptInFlight and SocketAccounting) |
| Conexao.UpdateStep | index.js:30-58 | the cases of the handler: `open` connects and ends the attempt; `close` disconnects, removes credentials only on `loggedOut`, and schedules exactly one retry; a QR-only update changes nothing (the trace-level consequences are InvRun, RetryAccounting, ConnectedOnlyAfterOpen and LoggedOutStaysLoggedOut) |
| Conexao.RetryStep | index.js:54-57 | a firing retry consumes its timer and always starts a new attempt on a new socket |
| Conexao.CredsStep | index.js:61 | `saveCreds` makes credentials present and leaves every other flag as it was |
| Conexao.Step | index.js:30-61 | one event through its handler; only `connect()` and a firing timer make a socket, never more than one |
| Conexao.Run | index.js:16-61 | a trace of events through the handlers; sockets never decrease and grow by at most one per event |
| Conexao.InvInitial | index.js:12-19 | the initial state and the state after the first `connect()` keep the flag invariant |
| Conexao.InvStep | index.js:16-61 | every handler keeps the invariant: never connected while reconnecting, neither flag without a socket |
| Conexao.InvRun | index.js:16-61 | every sequence of events keeps the invariant |
| Conexao.ConnectIdempotent | index.js:17-19 | a second `connect()` right after the first changes nothing; at most one socket is made |
| Conexao.SingleAttemptInFlight | index.js:17-57 | while an attempt is in flight, without an `open` update or a fired timer, no further socket is made however often `connect()` is called |
| Conexao.RetryAccounting | index.js:46-57 | pending retries plus fired retries equal the starting retries plus the closes |
| Conexao.SocketAccounting | index.js:16-57 | each fired retry makes exactly one socket, each `connect()` call at most one |
| Conexao.ConnectedOnlyAfterOpen | index.js:38-47 | without an `open` update a disconnected session stays disconnected |
| Conexao.LoggedOutStaysLoggedOut | index.js:48-61 | once the credentials are removed only a `creds.update` restores them |
| Conexao.LogoutThenRetry | index.js:46-57 | a `loggedOut` close removes the credentials and its retry still starts a new socket |
| Conexao.Session.constructor | index.js:12-14 | the variables start as no socket, not connected, not reconnecting |
| Conexao.Session.Connect | index.js:16-28 | the method's new state is the `connect()` step of the old one |
| Conexao.Session.OnConnectionUpdate | index.js:30-59 | the method's new state is the update step of the old one |
| Conexao.Session.OnRetryTimer | index.js:54-57 | the method's new state is the retry step of the old one |
| Conexao.Session.OnCredsUpdate | index.js:61 | saving credentials makes them present and changes nothing else |
| Conexao.Session.Handle | index.js:30-61 | dispatching an event performs that event's step |
| Conexao.Start | index.js:64 | loading the module makes one socket; the session is reconnecting and not yet ready |
| Rotas.Destino | index.js:75 | `jid` when it is truthy, else `numero` |
| Rotas.NormalizeDestination | index.js:88-92 | an address with `@` is kept; else `@g.us` is appended when it has `-`, else `@s.whatsapp.net`; the input is a prefix of the result, which always holds `@` |
| Rotas.NormalizeDestinationIdempotent | index.js:122-126 | normalising twice is normalising once |
| Rotas.NormalizeAgreesWithFormatarJID | index.js:88-92 | for a plain number the inline normaliser and `formatarJID` give the same JID |
| Rotas.Entregar | index.js:119-134 | a missing destination answers 500 before any send; otherwise exactly one send to the normalised address, then 200 or 500 with the error's message |
| Rotas.Enviar | index.js:107-135 | 503 exactly when disconnected; else 400 exactly when the message is falsy; else 500 exactly when there is no destination or the send fails; else 200; a message is sent only past both guards |
| Rotas.EnviarRelatorio | index.js:73-104 | the same guard order for the report payload; the text sent is the formatted report |
| Rotas.DisconnectedIgnoresRequest | index.js:111-113 | while disconnected the answer is 503 whatever the request, and nothing is sent |
| Rotas.ReportToNumberUsesItsJID | index.js:86-97 | a report sent to a plain number goes to the JID `formatarJID` gives it |
| Rotas.Sucessos | index.js:184-194 | `resultados` has at most one entry per recipient, each with status `enviado` |
| Rotas.Falhas | index.js:184-194 | `erros` has at most one entry per recipient |
| Rotas.Tentativas | index.js:184-187 | one send per recipient, in list order, to the recipient's formatted JID |
| Rotas.BroadcastPlacement | index.js:184-194 | recipient `k` lands in exactly one of `resultados` and `erros`: at the index given by the sends resolved before it, in the list its own outcome selects |
| Rotas.BroadcastSizes | index.js:184-194 | the sizes of `resultados` and `erros` add up to the number of recipients |
| Rotas.SucessosCount | index.js:184-198 | `resultados` has one entry per send that resolved |
| Rotas.BroadcastConcat | index.js:184-194 | a failure does not affect any other recipient: the outcomes of a concatenated list are concatenated |
| Rotas.BroadcastAllSent | index.js:184-194 | when every send resolves, `resultados` lists every recipient in order and `erros` is empty |
| Rotas.Broadcast | index.js:180-194 | the loop's `resultados`, `erros` and sends are those of the recipient list and the outcomes |
| Rotas.ResumoTexto | index.js:198 | the summary message is its two fixed parts around the decimal count of successful sends, which reads back as that count |
| Rotas.ResumoTextoInjective | index.js:198 | the summary message reveals the number of successful sends |
| Rotas.EnviarRelatorioTodos | index.js:165-206 | 503 when disconnected, else 400 without a payload, else always 200 with `sucesso`, the count of `resultados`, and `erros` omitted exactly when it is empty |
| Rotas.ConfiguredBroadcast | index.js:184-194 | with the configured list the report goes to `5511952722428@s.whatsapp.net`, and the one outcome lands in `resultados` or `erros` |

## Left out

- The Express server, `app.listen`, logging, `pino` and `qrcode-terminal` are I/O. A QR code in an update is only printed, so the model ignores it.
- The `/`, `/grupos` and `/status` routes are left out. The first and last only read `isConnected`, and `/grupos` calls the foreign `groupFetchAllParticipating`.
- `exemplo-uso.js` is left out. It is a client script that only sends requests.
- The Baileys socket is replaced by events.
  - `connection.update` is `Update`, `creds.update` is `CredsUpdate`, and a fired `setTimeout` callback is `RetryTimer`.
  - The outcome of each `sendMessage` is supplied by the caller.
  - `useMultiFileAuthState` and `fs.rmSync('auth')` reduce to the boolean `authPresent`.
- Concurrency is left out.
  - Events are processed one at a time, and an `await` inside `connect()` or a handler is not interleaved with other events.
  - The 2000 ms delay is not modelled: the model only records that a retry is pending until it fires.
- Listeners of an earlier socket still react to that socket's events, but the model does not track which socket an event comes from.
- Each close schedules its own timer, so pending retries are a counter (`pendingRetries`), not a single flag.
- The rate digits from `toFixed(1)` are a parameter `taxa`. The model checks where the rate lines appear, not the digits they show.
- The default date is a parameter `hoje`, because it depends on the clock and the locale.
- JSON values of unexpected types are not modelled:
  - a count that is `null` or a string;
  - `filas` that is not an array;
  - a non-string `jid`, `numero` or `mensagem`.

  Fields are either absent or of the documented type. So the outer `catch` of `/enviar-relatorio-todos` ("Erro ao enviar relatórios: ") cannot be reached in the model.
- Formatador.Relatorio: an absent field is `undefined`. The destructuring defaults of utils/formatador.js:16-21 apply only to `undefined`, so a `null` count or a `null` `data` renders as `null` in the source, while the model shows 0 or `hoje`. A `null` `periodo`, `filas`, `momento` or `quantidadePessoas` is only tested for truthiness, so it behaves like an absent one, as modelled.
- Comum.NatToString: writes out every digit. JavaScript's `${n}` agrees only for integers below 2^53; from 1e21 on it uses exponent notation (`1e+21`), and in between the digits are those of the nearest double.
- Comum.IntToString: the same bound as NatToString, for the magnitude.
- Comum.NatToStringDigits: holds of the model's rendering; `${n}` has this shape only below 1e21.
- Comum.IntToStringShape: holds of the model's rendering; `${n}` has this shape only for magnitudes below 1e21.
- Conexao.ConnectStep: the awaited `useMultiFileAuthState('auth')` (index.js:21) and `makeWASocket` (index.js:23) are taken to succeed. If either throws, the source's `connect()` rejects with no handler after setting `reconnecting`. On current Node that ends the process; if rejections were tolerated, `reconnecting` would stay true with no new socket, and every later `connect()` would return at line 17. The model does not capture that failed attempt, so `Inv`'s `reconnecting ==> sockets > 0` holds only for attempts that succeed.
- Conexao.RetryStep: the same assumption; a retry always makes a socket because its `connect()` is taken to succeed.
- Conexao.Session.Connect: the same assumption as ConnectStep.
- Rotas.Tentativas: each send goes to the corrected `Destinatarios.FormatarJID`, not to the `formatarJID` as written that index.js:186 calls. The two agree on every recipient without `@` (`Destinatarios.FormatarJIDAgreesWithoutAt`), so they agree on the configured list (`Destinatarios.ConfiguredRecipientsAgree`). For an entry such as `123-456@g.us` the source would send to `123456@s.whatsapp.net` (`Destinatarios.FormatarJIDAsWrittenGroupExample`), while the model sends to `123-456@g.us`.
- Rotas.Broadcast: the same substitution as Tentativas, for the loop's sends.
- Rotas.EnviarRelatorioTodos: the same substitution, through Broadcast; over the configured list it makes no difference.
- Rotas.SemDestino: a missing destination gives V8's TypeError message for `undefined`. A `null` destination would name `null` instead.
- Formatador.MarkerCounts assumes the caller's strings (period, date, moments, rate texts) hold none of the marker emoji. Those emoji would make the counts ambiguous.
- Formatador.PeriodLineIffPeriodo: holds under the same marker-free assumption as MarkerCounts.
- Formatador.DateAndCountLinesOnce: holds under the same marker-free assumption as MarkerCounts.
- Formatador.IndicadoresIffRecebidas: holds under the same marker-free assumption as MarkerCounts.
- Formatador.HistoricoIffFilas: holds under the same marker-free assumption as MarkerCounts.
- Formatador.OneLinePerFila: holds under the same marker-free assumption as MarkerCounts.
- Formatador.DateAndCountLinesOnce: the `Atendidas` line has the same marker as the statistics title, so that lemma does not count it on its own. Its presence and its place between the other two count lines are proved by `Formatador.EstatisticasEmOrdem` instead.

## Findings

| source | as written | input that shows it | evidently intended | confidence | as-written member | corrected member |
|---|---|---|---|---|---|---|
| config/destinatarios.js:18-23 | the `@` test runs after every non-digit, `@` included, has been removed, so the branch that returns an existing JID can never run | `formatarJID('123-456@g.us')` returns `123456@s.whatsapp.net`, a direct-chat JID, instead of the group id | an identifier that already is a JID is returned unchanged, as the comment on line 20 says | medium, not executed | Destinatarios.FormatarJIDAsWrittenGroupExample | Destinatarios.FormatarJID |

The broadcast loop uses the corrected `Destinatarios.FormatarJID`. For the configured recipient list both versions agree (`Destinatarios.ConfiguredRecipientsAgree`); the lines for Rotas.Tentativas and Rotas.Broadcast under "Left out" say what differs for other lists.
