/** The WhatsApp session of index.js: `connect()`, its `connection.update`
    and `creds.update` handlers and the retry timer a close schedules. The
    three module-level variables `sock`, `isConnected` and `reconnecting`
    are fields of a `Session`; `sock` is represented by the number of
    sockets made so far (`sock` is non-null once one was made). The stored
    credentials in the `auth` directory are the boolean `authPresent`, and
    every `setTimeout` still to fire is counted in `pendingRetries`. */
module Conexao {
  import opened Comum

  /** `DisconnectReason.loggedOut` of the Baileys library. */
  const LoggedOut: int := 401

  /** The `connection` field of a `connection.update` event. */
  datatype WAConnectionState = Open | Connecting | Close

  /** One `connection.update` event; an absent field is None. `statusCode`
      is `lastDisconnect?.error?.output?.statusCode`. */
  datatype ConnectionUpdate = ConnectionUpdate(
    connection: Option<WAConnectionState>,
    qr: Option<string>,
    statusCode: Option<int>)

  /** The state that the handlers read and write. */
  datatype Flags = Flags(
    sockets: nat,
    isConnected: bool,
    reconnecting: bool,
    authPresent: bool,
    pendingRetries: nat)

  /** The variables as the module declares them, before `connect()` runs. */
  function Initial(authPresent: bool): Flags {
    Flags(0, false, false, authPresent, 0)
  }

  /** `connect()`: nothing while an attempt is in flight; otherwise it
      marks one in flight, drops the connected flag and makes a socket. The
      `ensures` only spell out the two cases; what they mean for the session
      is proved over whole traces in InvRun, SingleAttemptInFlight and
      SocketAccounting. The awaited `useMultiFileAuthState` and
      `makeWASocket` are taken to succeed. */
  function ConnectStep(s: Flags): (t: Flags)
    ensures s.reconnecting ==> t == s
    ensures !s.reconnecting ==> t == s.(sockets := s.sockets + 1, reconnecting := true, isConnected := false)
  {
    if s.reconnecting then s
    else s.(sockets := s.sockets + 1, reconnecting := true, isConnected := false)
  }

  /** The `connection.update` handler. A QR code is only printed; `open`
      marks the session connected and ends the attempt; `close` drops the
      connected flag, removes the stored credentials on a logout and
      schedules one retry. The `ensures` spell out these cases; the
      properties they give the session are InvRun, RetryAccounting,
      ConnectedOnlyAfterOpen and LoggedOutStaysLoggedOut. */
  function UpdateStep(s: Flags, u: ConnectionUpdate): (t: Flags)
    ensures t.sockets == s.sockets
    ensures u.connection == Some(Open) ==>
      t == s.(isConnected := true, reconnecting := false)
    ensures u.connection == Some(Close) ==>
      && !t.isConnected && t.reconnecting == s.reconnecting
      && t.pendingRetries == s.pendingRetries + 1
      && t.authPresent == (s.authPresent && u.statusCode != Some(LoggedOut))
    ensures u.connection.None? || u.connection == Some(Connecting) ==> t == s
  {
    var afterOpen := if u.connection == Some(Open) then s.(isConnected := true, reconnecting := false) else s;
    if u.connection == Some(Close) then
      afterOpen.(isConnected := false,
              authPresent := afterOpen.authPresent && u.statusCode != Some(LoggedOut),
              pendingRetries := afterOpen.pendingRetries + 1)
    else afterOpen
  }

  /** The callback of the timer a close scheduled: clear `reconnecting`,
      then `connect()`. */
  function RetryStep(s: Flags): (t: Flags)
    requires s.pendingRetries > 0
    ensures t.sockets == s.sockets + 1 && t.reconnecting && !t.isConnected
    ensures t.pendingRetries == s.pendingRetries - 1 && t.authPresent == s.authPresent
  {
    ConnectStep(s.(pendingRetries := s.pendingRetries - 1, reconnecting := false))
  }

  /** `saveCreds`: credentials are written to the `auth` directory, and
      nothing else about the session changes. */
  function CredsStep(s: Flags): (t: Flags)
    ensures t.authPresent
    ensures t.sockets == s.sockets && t.isConnected == s.isConnected
    ensures t.reconnecting == s.reconnecting && t.pendingRetries == s.pendingRetries
  {
    s.(authPresent := true)
  }

  /** What can happen to the session, one thing at a time. */
  datatype Event =
    | ConnectCall
    | Update(update: ConnectionUpdate)
    | RetryTimer
    | CredsUpdate

  /** Socket events need a socket; a timer fires only if one is pending. */
  predicate Enabled(s: Flags, e: Event) {
    match e
    case ConnectCall => true
    case Update(_) => s.sockets > 0
    case RetryTimer => s.pendingRetries > 0
    case CredsUpdate => s.sockets > 0
  }

  /** One event through its handler. Only `connect()` and a firing timer
      make a socket, and never more than one. */
  function Step(s: Flags, e: Event): (t: Flags)
    requires Enabled(s, e)
    ensures s.sockets <= t.sockets <= s.sockets + 1
    ensures t.sockets > s.sockets ==> e == ConnectCall || e == RetryTimer
  {
    match e
    case ConnectCall => ConnectStep(s)
    case Update(u) => UpdateStep(s, u)
    case RetryTimer => RetryStep(s)
    case CredsUpdate => CredsStep(s)
  }

  /** Every event of the sequence can happen where it happens. */
  predicate Legal(s: Flags, evs: seq<Event>)
    decreases |evs|
  {
    evs == [] || (Enabled(s, evs[0]) && Legal(Step(s, evs[0]), evs[1..]))
  }

  /** The events one after the other; the sockets never decrease and grow
      by at most one per event. */
  function Run(s: Flags, evs: seq<Event>): (t: Flags)
    requires Legal(s, evs)
    ensures s.sockets <= t.sockets <= s.sockets + |evs|
    decreases |evs|
  {
    if evs == [] then s else Run(Step(s, evs[0]), evs[1..])
  }

  /** The flags the source keeps consistent: never connected while an
      attempt is in flight, and neither without a socket. */
  predicate Inv(s: Flags) {
    && !(s.isConnected && s.reconnecting)
    && (s.isConnected ==> s.sockets > 0)
    && (s.reconnecting ==> s.sockets > 0)
  }

  lemma InvInitial(authPresent: bool)
    ensures Inv(Initial(authPresent)) && Inv(ConnectStep(Initial(authPresent)))
  {
  }

  lemma InvStep(s: Flags, e: Event)
    requires Inv(s) && Enabled(s, e)
    ensures Inv(Step(s, e))
  {
  }

  /** Every sequence of events keeps the invariant. */
  lemma {:induction false} InvRun(s: Flags, evs: seq<Event>)
    requires Inv(s) && Legal(s, evs)
    ensures Inv(Run(s, evs))
    decreases |evs|
  {
    if evs != [] {
      InvStep(s, evs[0]);
      InvRun(Step(s, evs[0]), evs[1..]);
    }
  }

  /** Calling `connect()` again right after it changes nothing. */
  lemma ConnectIdempotent(s: Flags)
    ensures ConnectStep(ConnectStep(s)) == ConnectStep(s)
    ensures ConnectStep(s).reconnecting && ConnectStep(s).sockets <= s.sockets + 1
  {
  }

  function CountOf(evs: seq<Event>, e: Event): nat {
    if evs == [] then 0 else (if evs[0] == e then 1 else 0) + CountOf(evs[1..], e)
  }

  function Closes(evs: seq<Event>): nat {
    if evs == [] then 0
    else (if evs[0].Update? && evs[0].update.connection == Some(Close) then 1 else 0) + Closes(evs[1..])
  }

  function Opens(evs: seq<Event>): nat {
    if evs == [] then 0
    else (if evs[0].Update? && evs[0].update.connection == Some(Open) then 1 else 0) + Opens(evs[1..])
  }

  /** While an attempt is in flight, no sequence of events without an
      `open` update and without a timer firing makes another socket, however
      often `connect()` is called in between. */
  lemma {:induction false} SingleAttemptInFlight(s: Flags, evs: seq<Event>)
    requires s.reconnecting && Legal(s, evs)
    requires Opens(evs) == 0 && CountOf(evs, RetryTimer) == 0
    ensures Run(s, evs).sockets == s.sockets && Run(s, evs).reconnecting
    decreases |evs|
  {
    if evs != [] {
      SingleAttemptInFlight(Step(s, evs[0]), evs[1..]);
    }
  }

  /** Every close schedules exactly one retry and every retry consumes one. */
  lemma {:induction false} RetryAccounting(s: Flags, evs: seq<Event>)
    requires Legal(s, evs)
    ensures Run(s, evs).pendingRetries + CountOf(evs, RetryTimer) == s.pendingRetries + Closes(evs)
    decreases |evs|
  {
    if evs != [] {
      RetryAccounting(Step(s, evs[0]), evs[1..]);
    }
  }

  /** Sockets are made only by `connect()`: each timer that fires makes
      exactly one, each explicit call at most one. */
  lemma {:induction false} SocketAccounting(s: Flags, evs: seq<Event>)
    requires Legal(s, evs)
    ensures s.sockets + CountOf(evs, RetryTimer) <= Run(s, evs).sockets
    ensures Run(s, evs).sockets <= s.sockets + CountOf(evs, RetryTimer) + CountOf(evs, ConnectCall)
    decreases |evs|
  {
    if evs != [] {
      SocketAccounting(Step(s, evs[0]), evs[1..]);
    }
  }

  /** Only an `open` update sets the connected flag: from a disconnected
      state, no sequence of events without one makes the session connected,
      so the send handlers keep answering 503. */
  lemma {:induction false} ConnectedOnlyAfterOpen(s: Flags, evs: seq<Event>)
    requires !s.isConnected && Legal(s, evs) && Opens(evs) == 0
    ensures !Run(s, evs).isConnected
    decreases |evs|
  {
    if evs != [] {
      ConnectedOnlyAfterOpen(Step(s, evs[0]), evs[1..]);
    }
  }

  /** Once the credentials are gone, only a `creds.update` brings them back:
      after a logout the next session has to be paired again. */
  lemma {:induction false} LoggedOutStaysLoggedOut(s: Flags, evs: seq<Event>)
    requires !s.authPresent && Legal(s, evs) && CountOf(evs, CredsUpdate) == 0
    ensures !Run(s, evs).authPresent
    decreases |evs|
  {
    if evs != [] {
      LoggedOutStaysLoggedOut(Step(s, evs[0]), evs[1..]);
    }
  }

  /** A close whose status is `loggedOut` removes the credentials, and the
      retry it schedules still makes a new socket. */
  lemma LogoutThenRetry(s: Flags, u: ConnectionUpdate)
    requires s.sockets > 0 && u.connection == Some(Close) && u.statusCode == Some(LoggedOut)
    ensures var t := Run(s, [Update(u), RetryTimer]);
      !t.authPresent && t.sockets == s.sockets + 1 && t.reconnecting && !t.isConnected
      && t.pendingRetries == s.pendingRetries
  {
    var t1 := UpdateStep(s, u);
    assert Legal(s, [Update(u), RetryTimer]) by {
      assert [Update(u), RetryTimer][1..] == [RetryTimer];
      assert Legal(t1, [RetryTimer]) by {
        assert [RetryTimer][1..] == [];
      }
    }
    assert [Update(u), RetryTimer][1..] == [RetryTimer];
    assert [RetryTimer][1..] == [];
  }

  /** The module-level variables of index.js. */
  class Session {
    var sockets: nat
    var isConnected: bool
    var reconnecting: bool
    var authPresent: bool
    var pendingRetries: nat

    function State(): Flags
      reads this
    {
      Flags(sockets, isConnected, reconnecting, authPresent, pendingRetries)
    }

    /** `isConnected && sock`: what the request handlers test. */
    function Ready(): bool
      reads this
    {
      isConnected && sockets > 0
    }

    /** `let sock = null; let isConnected = false; let reconnecting = false;`
        with whatever credentials are already stored. */
    constructor (authStored: bool)
      ensures State() == Initial(authStored)
    {
      sockets, isConnected, reconnecting := 0, false, false;
      authPresent, pendingRetries := authStored, 0;
    }

    method Connect()
      modifies this
      ensures State() == ConnectStep(old(State()))
    {
      if reconnecting {
        return;
      }
      reconnecting := true;
      isConnected := false;
      sockets := sockets + 1;
    }

    method OnConnectionUpdate(u: ConnectionUpdate)
      requires sockets > 0
      modifies this
      ensures State() == UpdateStep(old(State()), u)
    {
      // A truthy `qr` is only rendered on the terminal.
      if u.connection == Some(Open) {
        isConnected := true;
        reconnecting := false;
      }
      if u.connection == Some(Close) {
        isConnected := false;
        if u.statusCode == Some(LoggedOut) {
          authPresent := false;
        }
        pendingRetries := pendingRetries + 1;
      }
    }

    method OnRetryTimer()
      requires pendingRetries > 0
      modifies this
      ensures State() == RetryStep(old(State()))
    {
      pendingRetries := pendingRetries - 1;
      reconnecting := false;
      Connect();
    }

    method OnCredsUpdate()
      requires sockets > 0
      modifies this
      ensures State() == CredsStep(old(State()))
    {
      authPresent := true;
    }

    /** Dispatches one event to its handler. */
    method Handle(e: Event)
      requires Enabled(State(), e)
      modifies this
      ensures State() == Step(old(State()), e)
    {
      match e
      case ConnectCall => Connect();
      case Update(u) => OnConnectionUpdate(u);
      case RetryTimer => OnRetryTimer();
      case CredsUpdate => OnCredsUpdate();
    }
  }

  /** Loading index.js: the variables are declared and `connect()` runs once. */
  method Start(authStored: bool) returns (session: Session)
    ensures fresh(session)
    ensures session.State() == ConnectStep(Initial(authStored)) && Inv(session.State())
    ensures session.reconnecting && session.sockets == 1 && !session.Ready()
  {
    session := new Session(authStored);
    session.Connect();
    InvInitial(authStored);
  }
}
