/**
 * The client object itself (src/Irc.php with the Command and MessageHandler
 * layers it extends): its fields, updated in place by its methods, each
 * method proved against the value-level functions of the other modules.
 *
 * The environment is part of the object's state: `port` stands for the
 * socket resource (open or not, and whether `fwrite` succeeds), `connectOutcomes` for the results of the next
 * `stream_socket_client` calls, `clockMs` for the clock (`time()` is its
 * whole seconds) and `whoami` for the answer of `exec('whoami')`. Callbacks
 * are recorded, not invoked: `firedActions` and `firedTimers` list the ids
 * of the handlers whose callback would be called, in call order.
 */
module Client {
  import opened Wrappers
  import opened Text
  import HT = HandlerType
  import P = Parser
  import R = Roster
  import O = Outbound
  import Reg = Registry
  import C = Commands
  import S = Session
  import E = Events

  /** The callback target that stands for the client object itself. */
  const SELF: nat := 0

  class Irc {
    // ------------------------------------------------------------ environment
    var port: O.Port
    var connectOutcomes: seq<bool>
    var clockMs: int
    var whoami: string

    // ------------------------------------------------------------ identity
    var address: string
    var nick: string
    var username: Option<string>
    var realname: string
    var usermode: string
    var password: Option<string>
    var performs: seq<string>
    var ctcpVersion: string

    // ------------------------------------------------------------ connection and queues
    /**
     * The send path: the message buffer (one queue per priority), the lines
     * written to the socket (each followed by CR LF), the last transmit
     * time, the connection-error flag, the state and the login flag.
     */
    var link: O.Link
    var bufferSize: int
    var lastSentMs: int
    var lastRx: int

    // ------------------------------------------------------------ settings
    var sendDelay: int
    var receiveDelay: int
    var maxTimer: int
    var disconnectTime: int
    var reconnectDelay: int
    var rxTimeout: int
    var txTimeout: int
    var autoRetry: bool
    var autoRetryMax: int
    var autoRetryCount: int

    // ------------------------------------------------------------ channels and handlers
    var channelSyncing: bool
    var channels: R.Store
    var motd: seq<string>
    var actionHandlers: seq<Reg.ActionHandler>
    var actionHandlerId: nat
    var timeHandlers: seq<Reg.TimeHandler>
    var timeHandlerId: nat
    var minTimer: Option<int>
    var firedActions: seq<nat>
    var firedTimers: seq<nat>

    /** Channels are stored under their lower-cased names. */
    predicate Keyed()
      reads this`channels
    {
      R.WellKeyed(channels)
    }

    /** Action handler ids increase along the list and stay below the counter. */
    predicate Ordered()
      reads this`actionHandlers, this`actionHandlerId
    {
      Reg.IdsIncreasing(actionHandlers) && Reg.IdsBelow(actionHandlers, actionHandlerId)
    }

    /** time(): whole seconds of the clock. */
    function Now(): int
      reads this`clockMs
    {
      clockMs / 1000
    }

    /** What login stores and reconnect logs in with again: nick, user name, real name and password. */
    function Identity(): (string, Option<string>, string, Option<string>)
      reads this`nick, this`username, this`realname, this`password
    {
      (nick, username, realname, password)
    }

    /** The login reconnect replays: the stored identity, usermode, password and performs. */
    function ReloginPlan(): S.LoginPlan
      reads this`nick, this`realname, this`usermode, this`username, this`whoami, this`password, this`performs
    {
      S.Login(nick, realname, usermode, username, whoami, password, performs)
    }

    /** A fresh client: not connected, empty buffers and registries, every setting at its default. */
    constructor ()
      ensures Keyed() && Ordered() && autoRetryMax != 0
      ensures port == O.Port(false, false) && link == O.Link([], [], [], [], 0, false, false, false)
      ensures sendDelay == S.DEF_SEND_DELAY && receiveDelay == S.DEF_RECEIVE_DELAY && maxTimer == S.DEF_MAX_TIMER
      ensures disconnectTime == S.DEF_DISCONNECT_TIME && reconnectDelay == S.DEF_RECONNECT_DELAY
      ensures rxTimeout == S.DEF_TX_RX_TIMEOUT && txTimeout == S.DEF_TX_RX_TIMEOUT
      ensures !autoRetry && autoRetryMax == S.DEF_AUTORETRY_MAX && autoRetryCount == 0
      ensures !channelSyncing && channels == map[] && motd == []
      ensures actionHandlers == [] && actionHandlerId == 0 && timeHandlers == [] && timeHandlerId == 0 && minTimer.None?
      ensures ctcpVersion == C.VERSIONSTRING && lastSentMs == 0
    {
      port, connectOutcomes, clockMs, whoami := O.Port(false, false), [], 0, "";
      address, nick, username, realname, usermode, password := "", "", None, "", "", None;
      performs, ctcpVersion := [], C.VERSIONSTRING;
      link := O.Link([], [], [], [], 0, false, false, false);
      bufferSize, lastSentMs, lastRx := 0, 0, 0;
      sendDelay, receiveDelay, maxTimer := S.DEF_SEND_DELAY, S.DEF_RECEIVE_DELAY, S.DEF_MAX_TIMER;
      disconnectTime, reconnectDelay := S.DEF_DISCONNECT_TIME, S.DEF_RECONNECT_DELAY;
      rxTimeout, txTimeout := S.DEF_TX_RX_TIMEOUT, S.DEF_TX_RX_TIMEOUT;
      autoRetry, autoRetryMax, autoRetryCount := false, S.DEF_AUTORETRY_MAX, 0;
      channelSyncing, channels, motd := false, map[], [];
      actionHandlers, actionHandlerId, timeHandlers, timeHandlerId, minTimer := [], 0, [], 0, None;
      firedActions, firedTimers := [], [];
    }

    // ------------------------------------------------------------ setters

    method SetAutoRetry(on: bool) returns (r: bool)
      modifies this`autoRetry
      ensures autoRetry == on && r == on
    {
      autoRetry := on;
      r := on;
    }

    /** setAutoRetryMax: None stands for an argument that is not an integer. */
    method SetAutoRetryMax(value: Option<int>) returns (r: int)
      requires autoRetryMax != 0
      modifies this`autoRetry, this`autoRetryMax
      ensures autoRetryMax != 0
      ensures (autoRetry, autoRetryMax) == S.AutoRetryMaxFor(old(autoRetry), old(autoRetryMax), value)
      ensures r == autoRetryMax
    {
      match value {
        case Some(n) =>
          if n == 0 {
            var _ := SetAutoRetry(false);
          } else {
            autoRetryMax := n;
          }
        case None =>
          autoRetryMax := S.DEF_AUTORETRY_MAX;
      }
      r := autoRetryMax;
    }

    method SetChannelSyncing(on: bool) returns (r: bool)
      modifies this`channelSyncing
      ensures channelSyncing == on && r == on
    {
      channelSyncing := on;
      r := on;
    }

    method SetCtcpVersion(version: string) returns (r: string)
      modifies this`ctcpVersion
      ensures ctcpVersion == version && r == version
    {
      ctcpVersion := version;
      r := version;
    }

    method SetDisconnectTime(ms: Option<int>) returns (r: int)
      modifies this`disconnectTime
      ensures disconnectTime == S.DisconnectTimeFor(ms) && r == disconnectTime
    {
      if ms.Some? && ms.value >= S.DEF_DISCONNECT_TIME {
        disconnectTime := ms.value;
      } else {
        disconnectTime := S.DEF_DISCONNECT_TIME;
      }
      r := disconnectTime;
    }

    method SetReceiveDelay(ms: Option<int>) returns (r: int)
      modifies this`receiveDelay
      ensures receiveDelay == S.ReceiveDelayFor(ms) && r == receiveDelay
    {
      if ms.Some? && ms.value >= S.DEF_RECEIVE_DELAY {
        receiveDelay := ms.value;
      } else {
        receiveDelay := S.DEF_RECEIVE_DELAY;
      }
      r := receiveDelay;
    }

    /** setReconnectDelay, setSendDelay, setReceiveTimeout, setTransmitTimeout: any integer, else the default. */
    method SetReconnectDelay(ms: Option<int>) returns (r: int)
      modifies this`reconnectDelay
      ensures reconnectDelay == ms.GetOr(S.DEF_RECONNECT_DELAY) && r == reconnectDelay
    {
      reconnectDelay := if ms.Some? then ms.value else S.DEF_RECONNECT_DELAY;
      r := reconnectDelay;
    }

    method SetSendDelay(ms: Option<int>) returns (r: int)
      modifies this`sendDelay
      ensures sendDelay == ms.GetOr(S.DEF_SEND_DELAY) && r == sendDelay
    {
      sendDelay := if ms.Some? then ms.value else S.DEF_SEND_DELAY;
      r := sendDelay;
    }

    method SetReceiveTimeout(seconds: Option<int>) returns (r: int)
      modifies this`rxTimeout
      ensures rxTimeout == seconds.GetOr(S.DEF_TX_RX_TIMEOUT) && r == rxTimeout
    {
      rxTimeout := if seconds.Some? then seconds.value else S.DEF_TX_RX_TIMEOUT;
      r := rxTimeout;
    }

    method SetTransmitTimeout(seconds: Option<int>) returns (r: int)
      modifies this`txTimeout
      ensures txTimeout == seconds.GetOr(S.DEF_TX_RX_TIMEOUT) && r == txTimeout
    {
      txTimeout := if seconds.Some? then seconds.value else S.DEF_TX_RX_TIMEOUT;
      r := txTimeout;
    }

    // ------------------------------------------------------------ the send path

    /** _updatestate. */
    method UpdateState() returns (isConnected: bool)
      modifies this`link
      ensures link == O.UpdateState(old(link), port)
      ensures isConnected == port.open
    {
      if port.open {
        link := link.(connected := true);
      } else {
        link := link.(connected := false, loggedIn := false);
      }
      isConnected := link.connected;
    }

    /** _rawsend. */
    method RawSend(line: string) returns (ok: bool)
      modifies this`link
      ensures (link, ok) == O.RawSend(old(link), port, Now(), line)
    {
      var state := UpdateState();
      if !state {
        return false;
      }
      if port.writable {
        link := link.(wire := link.wire + [line], lastTx := Now());
        ok := true;
      } else {
        link := link.(error := true);
        ok := false;
      }
    }

    /** send. */
    method Send(line: string, p: O.Priority) returns (ok: bool)
      modifies this`link
      ensures (link, ok) == O.Send(old(link), port, Now(), line, p)
    {
      match p
      case Critical =>
        var _ := RawSend(line);
        ok := true;
      case High =>
        link := link.(high := link.high + [line]);
        ok := true;
      case Medium =>
        link := link.(medium := link.medium + [line]);
        ok := true;
      case Low =>
        link := link.(low := link.low + [line]);
        ok := true;
      case Unlisted(_) =>
        ok := false;
    }

    /** A foreach over lines, each sent with the same priority. */
    method SendEach(lines: seq<string>, p: O.Priority)
      modifies this`link
      ensures link == O.SendAll(old(link), port, Now(), lines, p)
    {
      var i := 0;
      while i < |lines|
        invariant 0 <= i <= |lines|
        invariant link == O.SendAll(old(link), port, Now(), lines[..i], p)
      {
        var _ := Send(lines[i], p);
        assert lines[..i + 1][..i] == lines[..i];
        i := i + 1;
      }
      assert lines[..|lines|] == lines;
    }

    /**
     * The send step at the top of listenOnce, taken while logged in: the
     * buffer size is counted, and the first buffered line leaves once the
     * send delay has passed.
     */
    method DrainOnce() returns (sent: Option<string>)
      modifies this`link
      modifies this`lastSentMs, this`bufferSize
      ensures var d := O.Drain(old(link), port, clockMs, Now(), old(lastSentMs), sendDelay);
        link == d.link && lastSentMs == d.lastSentMs && sent == d.sent
      ensures bufferSize == |O.Backlog(old(link))|
    {
      if lastSentMs == 0 {
        lastSentMs := clockMs;
      }
      bufferSize := |link.high| + |link.medium| + |link.low|;
      if bufferSize != 0 && clockMs >= lastSentMs + sendDelay {
        var line := Shift();
        var _ := RawSend(line);
        lastSentMs := clockMs;
        sent := Some(line);
      } else {
        sent := None;
      }
    }

    /** array_shift on the first non-empty buffer, HIGH before MEDIUM before LOW. */
    method Shift() returns (line: string)
      requires |O.Backlog(link)| > 0
      modifies this`link
      ensures line == O.Backlog(old(link))[0]
      ensures link == O.TakeFirst(old(link))
    {
      if link.high != [] {
        line := link.high[0];
        link := link.(high := link.high[1..]);
      } else if link.medium != [] {
        line := link.medium[0];
        link := link.(medium := link.medium[1..]);
      } else {
        line := link.low[0];
        link := link.(low := link.low[1..]);
      }
    }

    // ------------------------------------------------------------ time handlers

    /** _callTimeHandlers: every due handler is restamped with the current time and its callback recorded, in list order. */
    method CallTimeHandlers()
      modifies this`timeHandlers, this`firedTimers
      ensures timeHandlers == Reg.Tick(old(timeHandlers), clockMs)
      ensures firedTimers == old(firedTimers) + Reg.DueIds(old(timeHandlers), clockMs)
    {
      var hs := timeHandlers;
      var i := 0;
      while i < |hs|
        invariant 0 <= i <= |hs| && |timeHandlers| == |hs|
        invariant forall j :: 0 <= j < |hs| ==>
          timeHandlers[j] == if j < i && Reg.Due(hs[j], clockMs) then hs[j].(last := clockMs) else hs[j]
        invariant firedTimers == old(firedTimers) + Reg.DueIds(hs[..i], clockMs)
      {
        var h := timeHandlers[i];
        if Reg.Due(h, clockMs) {
          timeHandlers := timeHandlers[i := h.(last := clockMs)];
          firedTimers := firedTimers + [h.id];
        }
        assert hs[..i + 1][..i] == hs[..i];
        i := i + 1;
      }
      assert hs[..|hs|] == hs;
    }

    /** registerTimeHandler: the callback is the object and method name given. */
    method RegisterTimeHandler(interval: int, target: nat, methodName: string) returns (id: nat)
      modifies this`timeHandlers, this`timeHandlerId, this`minTimer
      ensures (timeHandlers, timeHandlerId, minTimer)
        == Reg.RegisterTime(old(timeHandlers), old(timeHandlerId), old(minTimer), interval, Reg.MakeCallback(target, methodName), clockMs)
      ensures id == old(timeHandlerId)
    {
      id := timeHandlerId;
      timeHandlers := timeHandlers + [Reg.TimeHandler(id, interval, Reg.MakeCallback(target, methodName), clockMs)];
      timeHandlerId := timeHandlerId + 1;
      if Reg.Unset(minTimer) || interval < minTimer.value {
        minTimer := Some(interval);
      }
    }

    /** unregisterTimeId. */
    method UnregisterTimeId(id: nat) returns (found: bool)
      modifies this`timeHandlers, this`minTimer
      ensures (timeHandlers, minTimer, found) == Reg.UnregisterTime(old(timeHandlers), old(minTimer), id)
    {
      var i := 0;
      while i < |timeHandlers|
        invariant 0 <= i <= |timeHandlers|
        invariant timeHandlers == old(timeHandlers) && minTimer == old(minTimer)
        invariant forall j :: 0 <= j < i ==> timeHandlers[j].id != id
      {
        if timeHandlers[i].id == id {
          timeHandlers := timeHandlers[..i] + timeHandlers[i + 1..];
          minTimer := None;
          return true;
        }
        i := i + 1;
      }
      return false;
    }

    // ------------------------------------------------------------ action handlers

    /** registerActionHandler. */
    method RegisterActionHandler(mask: HT.Mask, pattern: string, target: nat, methodName: string) returns (id: Option<nat>)
      requires Ordered()
      modifies this`actionHandlers, this`actionHandlerId
      ensures Ordered()
      ensures (actionHandlers, actionHandlerId, id)
        == Reg.RegisterAction(old(actionHandlers), old(actionHandlerId), mask, pattern, Reg.MakeCallback(target, methodName))
    {
      if mask & HT.ALL == 0 {
        return None;
      }
      id := Some(actionHandlerId);
      actionHandlers := actionHandlers + [Reg.ActionHandler(actionHandlerId, mask, pattern, Reg.MakeCallback(target, methodName))];
      actionHandlerId := actionHandlerId + 1;
    }

    /** unregisterActionHandler: the first entry with the same type, pattern and callback goes. */
    method UnregisterActionHandler(mask: HT.Mask, pattern: string, target: nat, methodName: string) returns (found: bool)
      requires Ordered()
      modifies this`actionHandlers
      ensures Ordered()
      ensures (actionHandlers, found) == Reg.UnregisterHandler(old(actionHandlers), mask, pattern, Reg.MakeCallback(target, methodName))
    {
      if mask & HT.ALL == 0 {
        return false;
      }
      var cb := Reg.MakeCallback(target, methodName);
      var i := 0;
      while i < |actionHandlers|
        invariant 0 <= i <= |actionHandlers|
        invariant actionHandlers == old(actionHandlers)
        invariant forall j :: 0 <= j < i ==>
          !(actionHandlers[j].mask == mask && actionHandlers[j].pattern == pattern && actionHandlers[j].callback == cb)
      {
        var h := actionHandlers[i];
        if h.mask == mask && h.pattern == pattern && h.callback == cb {
          RemoveKeepsOrder(actionHandlers, i, actionHandlerId);
          actionHandlers := actionHandlers[..i] + actionHandlers[i + 1..];
          return true;
        }
        i := i + 1;
      }
      return false;
    }

    /** unregisterActionId. */
    method UnregisterActionId(id: nat) returns (found: bool)
      requires Ordered()
      modifies this`actionHandlers
      ensures Ordered()
      ensures (actionHandlers, found) == Reg.UnregisterId(old(actionHandlers), id)
    {
      var i := 0;
      while i < |actionHandlers|
        invariant 0 <= i <= |actionHandlers|
        invariant actionHandlers == old(actionHandlers)
        invariant forall j :: 0 <= j < i ==> actionHandlers[j].id != id
      {
        if actionHandlers[i].id == id {
          RemoveKeepsOrder(actionHandlers, i, actionHandlerId);
          actionHandlers := actionHandlers[..i] + actionHandlers[i + 1..];
          return true;
        }
        i := i + 1;
      }
      return false;
    }

    // ------------------------------------------------------------ connection

    /**
     * login: the identity is stored (spaces removed, the system user standing
     * in for a missing user name), the registration lines go out at
     * CRITICAL and the performs at HIGH, as the plan of Session.Login says.
     */
    method Login(newNick: string, newRealname: string, mode: string, user: Option<string>, pass: Option<string>)
      modifies this`nick, this`realname, this`username, this`password
      modifies this`link
      ensures var plan := S.Login(newNick, newRealname, mode, user, old(whoami), pass, old(performs));
        nick == plan.nick && username == Some(plan.username) && realname == newRealname
        && password == (if pass.Some? then pass else old(password))
        && link == O.SendAll(O.SendAll(old(link), port, Now(), plan.critical, O.Critical), port, Now(), plan.high, O.High)
    {
      Register(S.Login(newNick, newRealname, mode, user, whoami, pass, performs), newRealname, pass);
    }

    /** The body of login once its plan is made: the identity is stored, then the lines go out. */
    method Register(plan: S.LoginPlan, newRealname: string, pass: Option<string>)
      modifies this`nick, this`realname, this`username, this`password
      modifies this`link
      ensures nick == plan.nick && username == Some(plan.username) && realname == newRealname
      ensures password == (if pass.Some? then pass else old(password))
      ensures link == O.SendAll(O.SendAll(old(link), port, Now(), plan.critical, O.Critical), port, Now(), plan.high, O.High)
    {
      nick := plan.nick;
      realname := newRealname;
      username := Some(plan.username);
      if pass.Some? {
        password := pass;
      }
      SendEach(plan.critical, O.Critical);
      SendEach(plan.high, O.High);
    }

    /**
     * connect: an attempt consumes the next outcome. On success the retry
     * counter and the error flag are reset, the ping check is registered as
     * a time handler every rxTimeout * 125 ms, both activity stamps are set
     * and the state becomes connected. On failure the socket is gone and,
     * unless this attempt is itself part of a reconnect, a reconnect follows.
     */
    method Connect(addr: string, reconnecting: bool) returns (ok: bool)
      requires autoRetryMax != 0
      modifies this`link,
        this`port, this`clockMs, this`channels, this`connectOutcomes, this`address,
        this`autoRetryCount, this`timeHandlers, this`timeHandlerId, this`minTimer, this`firedTimers, this`lastRx,
        this`nick, this`username, this`realname, this`password
      ensures Up(old(connectOutcomes)) ==>
        ok && port == O.Port(true, true) && address == addr && autoRetryCount == 0 && clockMs == old(clockMs)
        && link == old(link).(lastTx := Now(), error := false, connected := true)
        && lastRx == Now()
        && timeHandlers == old(timeHandlers) + [Reg.TimeHandler(old(timeHandlerId), rxTimeout * 125, Reg.MakeCallback(SELF, "_pingcheck"), clockMs)]
        && channels == old(channels) && nick == old(nick)
      ensures reconnecting ==> (ok <==> Up(old(connectOutcomes)))
      ensures reconnecting && !Up(old(connectOutcomes)) ==>
        !port.open && autoRetryCount == old(autoRetryCount) && clockMs == old(clockMs)
        && link == old(link) && timeHandlers == old(timeHandlers)
      ensures reconnecting ==> link.wire == old(link.wire) && link.high == old(link.high) && link.medium == old(link.medium)
      ensures reconnecting ==> Identity() == old(Identity())
      ensures !reconnecting && !Up(old(connectOutcomes)) ==>
        ok == port.open && (!autoRetry ==> !ok) && (!ok ==> !autoRetry || autoRetryCount >= autoRetryMax)
      ensures channels == old(channels)
      decreases if reconnecting then 0 else 5
    {
      address := addr;
      var up := Up(connectOutcomes);
      if connectOutcomes != [] {
        connectOutcomes := connectOutcomes[1..];
      }
      if up {
        Establish();
        return true;
      }
      port := port.(open := false);
      if reconnecting {
        return false;
      }
      var rejoined;
      ok, rejoined := Reconnect();
    }

    /**
     * The successful end of connect: the retry counter and the error flag
     * are reset, the ping check is registered as a time handler every
     * rxTimeout * 125 ms, both activity stamps are set and the state
     * becomes connected.
     */
    method Establish()
      modifies this`port, this`autoRetryCount, this`link, this`lastRx, this`timeHandlers, this`timeHandlerId, this`minTimer
      ensures port == O.Port(true, true) && autoRetryCount == 0
      ensures link == old(link).(lastTx := Now(), error := false, connected := true)
      ensures lastRx == Now()
      ensures timeHandlers == old(timeHandlers) + [Reg.TimeHandler(old(timeHandlerId), rxTimeout * 125, Reg.MakeCallback(SELF, "_pingcheck"), clockMs)]
    {
      var ping := Reg.RegisterTime(timeHandlers, timeHandlerId, minTimer, rxTimeout * 125, Reg.MakeCallback(SELF, "_pingcheck"), clockMs);
      port, autoRetryCount := O.Port(true, true), 0;
      timeHandlers, timeHandlerId, minTimer := ping.0, ping.1, ping.2;
      link := link.(lastTx := Now(), error := false, connected := true);
      lastRx := Now();
    }

    /**
     * disconnect: refused (false) when not connected; otherwise a QUIT at
     * CRITICAL and the disconnect pause unless quick, then the socket is
     * closed, and with channel syncing the channel list is emptied.
     */
    method Disconnect(quick: bool) returns (ok: bool)
      modifies this`link, this`port, this`clockMs, this`channels
      ensures ok == old(port.open) && !port.open && !link.connected && !link.loggedIn
      ensures link.high == old(link.high) && link.medium == old(link.medium) && link.low == old(link.low)
      ensures ok && channelSyncing ==> channels == map[]
      ensures !(ok && channelSyncing) ==> channels == old(channels)
      ensures ok && !quick ==>
        link.wire == old(link.wire) + (if port.writable then [C.QuitLine(None)] else []) && clockMs == old(clockMs) + disconnectTime
      ensures !(ok && !quick) ==> link.wire == old(link.wire) && clockMs == old(clockMs)
    {
      var state := UpdateState();
      if !state {
        return false;
      }
      if !quick {
        var _ := Send(C.QuitLine(None), O.Critical);
        clockMs := clockMs + disconnectTime;
      }
      port := port.(open := false);
      var _ := UpdateState();
      if channelSyncing {
        channels := map[];
      }
      return true;
    }

    /**
     * reconnect: the joined channels are remembered, the connection is
     * dropped and retried (Retry); once connected the client logs in again
     * with its stored identity and rejoins every remembered channel once,
     * at MEDIUM (RejoinAll); `rejoined` is the order it chose.
     */
    method Reconnect() returns (ok: bool, rejoined: seq<(string, Option<string>)>)
      requires autoRetryMax != 0
      modifies this`link,
        this`port, this`clockMs, this`channels, this`connectOutcomes, this`address,
        this`autoRetryCount, this`timeHandlers, this`timeHandlerId, this`minTimer, this`firedTimers, this`lastRx,
        this`nick, this`username, this`realname, this`password
      ensures ok == port.open && (ok ==> link.connected)
      ensures !autoRetry ==> !ok
      ensures !ok ==> !autoRetry || autoRetryCount >= autoRetryMax
      ensures ok ==> |rejoined| == |S.Snapshot(old(channels))| && (forall e :: e in rejoined <==> e in S.Snapshot(old(channels)))
      ensures ok ==> link.medium == old(link.medium) + RejoinLines(rejoined)
      ensures ok ==> link.wire == old(link.wire) + old(ReloginPlan()).critical && link.high == old(link.high) + old(ReloginPlan()).high
      ensures ok ==> nick == old(ReloginPlan()).nick && username == Some(old(ReloginPlan()).username)
      ensures !ok ==> nick == old(nick) && username == old(username)
      ensures realname == old(realname) && password == old(password)
      ensures channels == (if old(port.open) && channelSyncing then map[] else old(channels))
      decreases 4
    {
      var snapshot := S.Snapshot(channels);
      var _ := Disconnect(true);
      assert ReloginPlan() == old(ReloginPlan());
      ok, rejoined := Resume(snapshot);
    }

    /** Reconnect once the connection is dropped: the retry loop, then, when connected, the login and the rejoins. */
    method Resume(snapshot: set<(string, Option<string>)>) returns (ok: bool, rejoined: seq<(string, Option<string>)>)
      requires autoRetryMax != 0 && !port.open
      modifies this`link,
        this`port, this`clockMs, this`channels, this`connectOutcomes, this`address,
        this`autoRetryCount, this`timeHandlers, this`timeHandlerId, this`minTimer, this`firedTimers, this`lastRx,
        this`nick, this`username, this`realname, this`password
      ensures ok == port.open && (ok ==> link.connected)
      ensures !autoRetry ==> !ok
      ensures !ok ==> !autoRetry || autoRetryCount >= autoRetryMax
      ensures ok ==> |rejoined| == |snapshot| && (forall e :: e in rejoined <==> e in snapshot)
      ensures ok ==> link.medium == old(link.medium) + RejoinLines(rejoined)
      ensures ok ==> link.wire == old(link.wire) + old(ReloginPlan()).critical && link.high == old(link.high) + old(ReloginPlan()).high
      ensures ok ==> nick == old(ReloginPlan()).nick && username == Some(old(ReloginPlan()).username)
      ensures !ok ==> nick == old(nick) && username == old(username)
      ensures realname == old(realname) && password == old(password) && channels == old(channels)
      decreases 3
    {
      Retry();
      assert ReloginPlan() == old(ReloginPlan());
      ok, rejoined := Rejoin(snapshot);
    }

    /** The end of reconnect: when the socket is up, the login and the rejoins; otherwise failure. */
    method Rejoin(snapshot: set<(string, Option<string>)>) returns (ok: bool, rejoined: seq<(string, Option<string>)>)
      requires port.open ==> port.writable
      modifies this`nick, this`realname, this`username, this`password
      modifies this`link
      ensures ok == port.open && (ok ==> link.connected)
      ensures ok ==> |rejoined| == |snapshot| && (forall e :: e in rejoined <==> e in snapshot)
      ensures ok ==> link.medium == old(link.medium) + RejoinLines(rejoined)
      ensures ok ==> link.wire == old(link.wire) + old(ReloginPlan()).critical && link.high == old(link.high) + old(ReloginPlan()).high
      ensures ok ==> nick == old(ReloginPlan()).nick && username == Some(old(ReloginPlan()).username)
      ensures !ok ==> nick == old(nick) && username == old(username)
      ensures realname == old(realname) && password == old(password)
    {
      var state := UpdateState();
      if !state {
        return false, [];
      }
      ghost var l, plan := link, ReloginPlan();
      rejoined := Relogin(snapshot);
      O.SendAllCritical(l, port, Now(), plan.critical);
      O.SendAllQueued(O.SendAll(l, port, Now(), plan.critical, O.Critical), port, Now(), plan.high);
      return true, rejoined;
    }

    /** The end of a reconnect that connected: login with the stored identity, then the rejoins. */
    method Relogin(snapshot: set<(string, Option<string>)>) returns (rejoined: seq<(string, Option<string>)>)
      requires link.connected == port.open
      modifies this`nick, this`realname, this`username, this`password
      modifies this`link
      ensures link.connected == port.open
      ensures nick == old(ReloginPlan()).nick && username == Some(old(ReloginPlan()).username)
      ensures realname == old(realname) && password == old(password)
      ensures |rejoined| == |snapshot| && (forall e :: e in rejoined <==> e in snapshot)
      ensures link == O.SendAll(O.SendAll(old(link), port, Now(), old(ReloginPlan()).critical, O.Critical),
        port, Now(), old(ReloginPlan()).high, O.High).(medium := old(link.medium) + RejoinLines(rejoined))
      ensures link.high == old(link.high) + old(ReloginPlan()).high
    {
      ghost var l0 := link;
      ghost var plan := ReloginPlan();
      Login(nick, realname, usermode, username, password);
      ghost var l1 := O.SendAll(l0, port, Now(), plan.critical, O.Critical);
      O.SendAllCriticalKeeps(l0, port, Now(), plan.critical);
      O.SendAllQueued(l1, port, Now(), plan.high);
      rejoined := RejoinAll(snapshot);
    }

    /**
     * The retry loop of reconnect: while retrying is on, the maximum not
     * reached and no connection up, the counter goes up and another attempt
     * follows the reconnect delay. It stops at the first attempt that connects.
     */
    method Retry()
      requires autoRetryMax != 0
      modifies this`link,
        this`port, this`clockMs, this`channels, this`connectOutcomes, this`address,
        this`autoRetryCount, this`timeHandlers, this`timeHandlerId, this`minTimer, this`firedTimers, this`lastRx,
        this`nick, this`username, this`realname, this`password
      ensures link.medium == old(link.medium) && channels == old(channels)
      ensures link.wire == old(link.wire) && link.high == old(link.high)
      ensures Identity() == old(Identity())
      ensures port.open ==> port.writable || port == old(port)
      ensures !autoRetry ==> port.open == old(port.open) && autoRetryCount == old(autoRetryCount)
      ensures !port.open ==> !autoRetry || autoRetryCount >= autoRetryMax
      decreases 2
    {
      var state := UpdateState();
      while autoRetry && (autoRetryMax == 0 || autoRetryCount < autoRetryMax) && !state
        invariant link.medium == old(link.medium) && channels == old(channels) && state == port.open
        invariant link.wire == old(link.wire) && link.high == old(link.high)
        invariant Identity() == old(Identity())
        invariant port.open ==> port.writable || port == old(port)
        invariant !autoRetry ==> port.open == old(port.open) && autoRetryCount == old(autoRetryCount)
        decreases autoRetryMax - autoRetryCount
      {
        var up := Attempt();
        if up {
          break;
        }
        state := UpdateState();
      }
    }

    /** One pass of the retry loop: the counter goes up, the delay passes, the timers run and connect is tried. */
    method Attempt() returns (up: bool)
      requires autoRetryMax != 0
      modifies this`link, this`port, this`clockMs, this`channels, this`connectOutcomes, this`address,
        this`autoRetryCount, this`timeHandlers, this`timeHandlerId, this`minTimer, this`firedTimers, this`lastRx,
        this`nick, this`username, this`realname, this`password
      ensures up == port.open && up == Up(old(connectOutcomes)) && (up ==> port.writable)
      ensures autoRetryCount == if up then 0 else old(autoRetryCount) + 1
      ensures link.medium == old(link.medium) && channels == old(channels)
      ensures link.wire == old(link.wire) && link.high == old(link.high)
      ensures Identity() == old(Identity())
      decreases 1
    {
      autoRetryCount := autoRetryCount + 1;
      Delay();
      up := Connect(address, true);
    }

    /** The wait before a retry: the reconnect delay, then one more pass of the time handlers. */
    method Delay()
      modifies this`timeHandlers, this`firedTimers, this`clockMs
      ensures clockMs == old(clockMs) + Passes(reconnectDelay)
    {
      Pause();
      CallTimeHandlers();
    }

    /** The reconnect delay, one pass of the time handlers per millisecond. */
    method Pause()
      modifies this`timeHandlers, this`firedTimers, this`clockMs
      ensures clockMs == old(clockMs) + Passes(reconnectDelay)
      ensures timeHandlers == Reg.TickUntil(old(timeHandlers), old(clockMs), clockMs)
      ensures firedTimers == old(firedTimers) + Reg.DueIdsUntil(old(timeHandlers), old(clockMs), clockMs)
    {
      ghost var hs, startMs, fired := timeHandlers, clockMs, firedTimers;
      if reconnectDelay > 0 {
        var i := 0;
        while i < reconnectDelay
          invariant 0 <= i <= reconnectDelay && clockMs == startMs + i
          invariant timeHandlers == Reg.TickUntil(hs, startMs, clockMs)
          invariant firedTimers == fired + Reg.DueIdsUntil(hs, startMs, clockMs)
        {
          Reg.TickUntilStep(hs, startMs, clockMs, fired, firedTimers);
          WaitOneMs();
          i := i + 1;
        }
      }
    }

    /** One pass of the delay loop: the time handlers run, then a millisecond passes. */
    method WaitOneMs()
      modifies this`timeHandlers, this`firedTimers, this`clockMs
      ensures clockMs == old(clockMs) + 1
      ensures timeHandlers == Reg.Tick(old(timeHandlers), old(clockMs))
      ensures firedTimers == old(firedTimers) + Reg.DueIds(old(timeHandlers), old(clockMs))
    {
      CallTimeHandlers();
      clockMs := clockMs + 1;
    }

    /** The rejoin loop of reconnect: each remembered channel is joined once, at MEDIUM, in the order chosen. */
    method RejoinAll(snapshot: set<(string, Option<string>)>) returns (rejoined: seq<(string, Option<string>)>)
      modifies this`link
      ensures |rejoined| == |snapshot| && (forall e :: e in rejoined <==> e in snapshot)
      ensures link == old(link).(medium := old(link.medium) + RejoinLines(rejoined))
    {
      rejoined := [];
      var rest := snapshot;
      while rest != {}
        invariant forall e :: e in rejoined || e in rest <==> e in snapshot
        invariant forall e :: e in rejoined ==> e !in rest
        invariant |rejoined| + |rest| == |snapshot|
        invariant link == old(link).(medium := old(link.medium) + RejoinLines(rejoined))
        decreases |rest|
      {
        var e :| e in rest;
        RejoinOne(e);
        assert (rejoined + [e])[..|rejoined|] == rejoined;
        rejoined := rejoined + [e];
        rest := rest - {e};
      }
    }

    /** One rejoin: the JOIN line, with the key when there is one, at MEDIUM. */
    method RejoinOne(e: (string, Option<string>))
      modifies this`link
      ensures link == old(link).(medium := old(link.medium) + [S.RejoinLine(e)])
    {
      Join([e.0], e.1, O.Medium);
      O.SendAllQueued(old(link), port, Now(), C.JoinLines([e.0], e.1));
    }

    /**
     * _pingcheck: past the receive timeout a reconnect, after which the
     * receive stamp is set to the time of the check; past half of it a PING
     * to the server at CRITICAL; otherwise nothing.
     */
    method PingCheck()
      requires autoRetryMax != 0
      modifies this`link,
        this`port, this`clockMs, this`channels, this`connectOutcomes, this`address,
        this`autoRetryCount, this`timeHandlers, this`timeHandlerId, this`minTimer, this`firedTimers, this`lastRx,
        this`nick, this`username, this`realname, this`password
      ensures S.PingDecision(old(Now()) - old(lastRx), rxTimeout) == S.Quiet ==>
        link == old(link) && channels == old(channels) && lastRx == old(lastRx)
      ensures S.PingDecision(old(Now()) - old(lastRx), rxTimeout) == S.SendPing ==>
        link == O.Send(old(link), port, Now(), C.Single("PING", address), O.Critical).0
        && channels == old(channels) && lastRx == old(lastRx)
      ensures S.PingDecision(old(Now()) - old(lastRx), rxTimeout) == S.Reconnect ==>
        lastRx == old(Now()) && channels == (if old(port.open) && channelSyncing then map[] else old(channels))
        && (!autoRetry ==> !port.open) && (port.open ==> link.connected)
        && (port.open ==> link.high == old(link.high) + old(ReloginPlan()).high)
    {
      var t := Now();
      if t - lastRx > rxTimeout {
        Revive(t);
      } else if 2 * (t - lastRx) > rxTimeout {
        var _ := Send(C.Single("PING", address), O.Critical);
      }
    }

    /** The reconnect branch of _pingcheck: a reconnect, then the receive stamp set to the time of the check. */
    method Revive(t: int)
      requires autoRetryMax != 0
      modifies this`link,
        this`port, this`clockMs, this`channels, this`connectOutcomes, this`address,
        this`autoRetryCount, this`timeHandlers, this`timeHandlerId, this`minTimer, this`firedTimers, this`lastRx,
        this`nick, this`username, this`realname, this`password
      ensures lastRx == t && channels == (if old(port.open) && channelSyncing then map[] else old(channels))
      ensures (!autoRetry ==> !port.open) && (port.open ==> link.connected)
      ensures port.open ==> link.high == old(link.high) + old(ReloginPlan()).high
    {
      var _, _ := Reconnect();
      lastRx := t;
    }

    /** quit: the QUIT line at the given priority, then a quick disconnect, whose result is returned. */
    method Quit(message: Option<string>, p: O.Priority) returns (ok: bool)
      modifies this`link, this`port, this`clockMs, this`channels
      ensures var sent := O.Send(old(link), old(port), old(Now()), C.QuitLine(message), p).0;
        ok == old(port.open) && !port.open && !link.connected && !link.loggedIn
        && link.high == sent.high && link.medium == sent.medium && link.low == sent.low && link.wire == sent.wire
      ensures channels == (if old(port.open) && channelSyncing then map[] else old(channels))
    {
      var _ := Send(C.QuitLine(message), p);
      ok := Disconnect(true);
    }

    // ------------------------------------------------------------ commands (src/Command.php)

    /** message: one line per text for an accepted type, nothing and false for any other. */
    method Message(kind: HT.Mask, dest: string, texts: seq<string>, p: O.Priority) returns (ok: bool)
      modifies this`link
      ensures ok <==> C.Accepted(kind)
      ensures ok ==> link == O.SendAll(old(link), port, Now(), C.MessageLines(kind, dest, texts).value, p)
      ensures !ok ==> link == old(link)
    {
      if !C.Accepted(kind) {
        return false;
      }
      ghost var lines := C.MessageLines(kind, dest, texts).value;
      var i := 0;
      while i < |texts|
        invariant 0 <= i <= |texts|
        invariant link == O.SendAll(old(link), port, Now(), lines[..i], p)
      {
        var line := C.MessageLine(kind, dest, texts[i]).value;
        assert line == lines[i];
        var _ := Send(line, p);
        assert lines[..i + 1] == lines[..i] + [line];
        O.SendAllSnoc(old(link), port, Now(), lines[..i], line, p);
        i := i + 1;
      }
      assert lines[..|texts|] == lines;
      return true;
    }

    /** join: one JOIN per channel. */
    method Join(chans: seq<string>, key: Option<string>, p: O.Priority)
      modifies this`link
      ensures link == O.SendAll(old(link), port, Now(), C.JoinLines(chans, key), p)
    {
      SendEach(C.JoinLines(chans, key), p);
    }

    method Part(chans: seq<string>, reason: Option<string>, p: O.Priority)
      modifies this`link
      ensures link == O.Send(old(link), port, Now(), C.PartLine(chans, reason), p).0
    {
      var _ := Send(C.PartLine(chans, reason), p);
    }

    method Kick(channel: string, nicks: seq<string>, reason: Option<string>, p: O.Priority)
      modifies this`link
      ensures link == O.Send(old(link), port, Now(), C.KickLine(channel, nicks, reason), p).0
    {
      var _ := Send(C.KickLine(channel, nicks, reason), p);
    }

    /** getList (None lists every channel). */
    method GetList(chans: Option<seq<string>>, p: O.Priority)
      modifies this`link
      ensures link == O.Send(old(link), port, Now(), C.ListingLine("LIST", chans), p).0
    {
      var _ := Send(C.ListingLine("LIST", chans), p);
    }

    method Names(chans: Option<seq<string>>, p: O.Priority)
      modifies this`link
      ensures link == O.Send(old(link), port, Now(), C.ListingLine("NAMES", chans), p).0
    {
      var _ := Send(C.ListingLine("NAMES", chans), p);
    }

    method SetTopic(channel: string, topic: string, p: O.Priority)
      modifies this`link
      ensures link == O.Send(old(link), port, Now(), C.TopicLine(channel, Some(topic)), p).0
    {
      var _ := Send(C.TopicLine(channel, Some(topic)), p);
    }

    method GetTopic(channel: string, p: O.Priority)
      modifies this`link
      ensures link == O.Send(old(link), port, Now(), C.TopicLine(channel, None), p).0
    {
      var _ := Send(C.TopicLine(channel, None), p);
    }

    method Mode(target: string, newMode: Option<string>, p: O.Priority)
      modifies this`link
      ensures link == O.Send(old(link), port, Now(), C.ModeLine(target, newMode), p).0
    {
      var _ := Send(C.ModeLine(target, newMode), p);
    }

    /** founder, defounder, admin, deadmin, op, deop, hop, dehop, voice, devoice. */
    method ChangeRole(channel: string, r: R.Role, grant: bool, target: string, p: O.Priority)
      modifies this`link
      ensures link == O.Send(old(link), port, Now(), C.RoleModeLine(channel, r, grant, target), p).0
    {
      Mode(channel, Some([if grant then '+' else '-', C.RoleLetter(r)] + " " + target), p);
    }

    method Ban(channel: string, mask: Option<string>, p: O.Priority)
      modifies this`link
      ensures link == O.Send(old(link), port, Now(), C.BanLine(channel, mask), p).0
    {
      if mask.Some? {
        Mode(channel, Some("+b " + mask.value), p);
      } else {
        Mode(channel, Some("b"), p);
      }
    }

    method Unban(channel: string, mask: string, p: O.Priority)
      modifies this`link
      ensures link == O.Send(old(link), port, Now(), C.UnbanLine(channel, mask), p).0
    {
      Mode(channel, Some("-b " + mask), p);
    }

    method Invite(target: string, channel: string, p: O.Priority) returns (ok: bool)
      modifies this`link
      ensures (link, ok) == O.Send(old(link), port, Now(), C.InviteLine(target, channel), p)
    {
      ok := Send(C.InviteLine(target, channel), p);
    }

    /** changeNick: the nick is taken over at once, before the server confirms it. */
    method ChangeNick(newNick: string, p: O.Priority) returns (ok: bool)
      modifies this`nick
      modifies this`link
      ensures nick == newNick
      ensures (link, ok) == O.Send(old(link), port, Now(), C.Single("NICK", newNick), p)
    {
      nick := newNick;
      ok := Send(C.Single("NICK", newNick), p);
    }

    /** who, whois and whowas: the command and its target. */
    method Query(command: string, target: string, p: O.Priority) returns (ok: bool)
      requires command == "WHO" || command == "WHOIS" || command == "WHOWAS"
      modifies this`link
      ensures (link, ok) == O.Send(old(link), port, Now(), C.Single(command, target), p)
    {
      ok := Send(C.Single(command, target), p);
    }

    // ------------------------------------------------------------ built-in handlers (src/MessageHandler.php)

    /** _event_ping: the PONG, carrying the server's text, goes out at once. */
    method OnPing(m: P.Message)
      modifies this`link
      ensures link == O.RawSend(old(link), port, Now(), C.PongLine(m.trailing)).0
    {
      var _ := Send(C.PongLine(m.trailing), O.Critical);
    }

    /** _event_error: a reconnect when retrying is on, else a quick disconnect. */
    method OnError()
      requires autoRetryMax != 0
      modifies this`link,
        this`port, this`clockMs, this`channels, this`connectOutcomes, this`address,
        this`autoRetryCount, this`timeHandlers, this`timeHandlerId, this`minTimer, this`firedTimers, this`lastRx,
        this`nick, this`username, this`realname, this`password
      ensures channels == (if old(port.open) && channelSyncing then map[] else old(channels))
      ensures !autoRetry ==> !port.open && !link.connected
    {
      if autoRetry {
        var _, _ := Reconnect();
      } else {
        var _ := Disconnect(true);
      }
    }

    /**
     * _event_join: with channel syncing on, the store changes as Events.Join
     * says and the follow-up queries of Events.JoinQueries are queued at MEDIUM.
     */
    method OnJoin(m: P.Message)
      modifies this`channels, this`link
      ensures channels == (if channelSyncing then E.Join(old(channels), nick, m, clockMs) else old(channels))
      ensures link == (if channelSyncing then old(link).(medium := old(link.medium) + E.JoinQueries(nick, m)) else old(link))
    {
      if !channelSyncing {
        return;
      }
      if nick == m.nick {
        channels := channels[Lower(m.channel) := E.Created(m.channel, clockMs)];
      }
      JoinQueries(m);
      var k := Lower(m.channel);
      if k in channels {
        channels := channels[k := R.AddUser(channels[k], E.Joiner(m))];
      }
    }

    /** The queries a join sends at MEDIUM: MODE, WHO and ban list of a channel the client joins, else a WHO of the joiner. */
    method JoinQueries(m: P.Message)
      modifies this`link
      ensures link == old(link).(medium := old(link.medium) + E.JoinQueries(nick, m))
    {
      if nick == m.nick {
        Mode(m.channel, None, O.Medium);
        var _ := Query("WHO", m.channel, O.Medium);
        Ban(m.channel, None, O.Medium);
      } else {
        var _ := Query("WHO", m.nick, O.Medium);
      }
    }

    /** _event_part, _event_kick and _event_quit, all through _removeuser. */
    method OnLeave(m: P.Message)
      modifies this`channels
      ensures channels == (if channelSyncing then E.RemoveUser(old(channels), nick, m) else old(channels))
    {
      if !channelSyncing {
        return;
      }
      var n := E.Leaver(m);
      var k := Lower(m.channel);
      if nick == n {
        channels := channels - {k};
      } else if m.kind & HT.QUIT != 0 {
        UpdateChannels((c: R.Channel) => R.HoldsNick(c, n), (c: R.Channel) => R.RemoveNick(c, n));
      } else if k in channels {
        channels := channels[k := R.RemoveNick(channels[k], n)];
      }
    }

    /** _event_nick: every channel that lists the old nick lists the user under the new one (the first parameter). */
    method OnNick(m: P.Message)
      modifies this`channels
      ensures channels == (if channelSyncing then R.RenameEverywhere(old(channels), m.nick, P.ParamOr(m.params, 0)) else old(channels))
    {
      if channelSyncing {
        var newNick := P.ParamOr(m.params, 0);
        UpdateChannels((c: R.Channel) => R.HoldsNick(c, m.nick), (c: R.Channel) => R.Rename(c, m.nick, newNick));
      }
    }

    /** A foreach over the channel keys, replacing each channel that `hit` selects by `f` of it. */
    method UpdateChannels(hit: R.Channel -> bool, f: R.Channel -> R.Channel)
      modifies this`channels
      ensures channels == map k | k in old(channels) :: if hit(old(channels)[k]) then f(old(channels)[k]) else old(channels)[k]
    {
      var cs, keys := channels, channels.Keys;
      while keys != {}
        invariant keys <= cs.Keys && cs.Keys == channels.Keys
        invariant forall k :: k in keys ==> cs[k] == channels[k]
        invariant forall k :: k in cs && k !in keys ==>
          cs[k] == if hit(channels[k]) then f(channels[k]) else channels[k]
        decreases |keys|
      {
        var k :| k in keys;
        if hit(cs[k]) {
          cs := cs[k := f(cs[k])];
        }
        keys := keys - {k};
      }
      channels := cs;
    }

    /**
     * _event_mode: a mode for the client's own nick (first parameter) is its
     * user mode; otherwise, with syncing on, the mode string is scanned letter
     * by letter over the joined channel it names.
     */
    method OnMode(m: P.Message)
      modifies this`usermode, this`channels
      ensures P.ParamOr(m.params, 0) == nick ==> usermode == m.trailing && channels == old(channels)
      ensures P.ParamOr(m.params, 0) != nick ==> usermode == old(usermode)
      ensures P.ParamOr(m.params, 0) != nick ==> channels == (if channelSyncing then E.ModeChange(old(channels), m) else old(channels))
    {
      if P.ParamOr(m.params, 0) == nick {
        usermode := m.trailing;
        return;
      }
      var k := Lower(m.channel);
      if !channelSyncing || k !in channels {
        return;
      }
      var letters := P.ParamOr(m.params, 1);
      var st := R.StartScan(channels[k], m.params);
      var i := 0;
      while i < |letters|
        invariant 0 <= i <= |letters|
        invariant st == R.ScanMode(R.StartScan(channels[k], m.params), letters[..i])
      {
        assert letters[..i + 1][..i] == letters[..i];
        st := R.ModeStep(st, letters[i]);
        i := i + 1;
      }
      assert letters[..|letters|] == letters;
      channels := channels[k := st.channel];
    }

    /**
     * _event_rpl_channelmodeis: for a joined channel the first parameter is
     * blanked and the message handed to _event_mode.
     */
    method OnChannelModeIs(m: P.Message)
      modifies this`usermode, this`channels
      ensures var joined := R.IsJoined(channelSyncing, old(channels), m.channel, None);
        (joined && nick == "" ==> usermode == m.trailing && channels == old(channels))
        && (joined && nick != "" ==> usermode == old(usermode) && channels == E.ModeChange(old(channels), m.(params := E.BlankFirst(m.params))))
        && (!joined ==> usermode == old(usermode) && channels == old(channels))
    {
      if channelSyncing && R.IsJoined(channelSyncing, channels, m.channel, None) {
        OnMode(m.(params := E.BlankFirst(m.params)));
      }
    }

    /** _event_topic and _event_rpl_topic. */
    method OnTopic(m: P.Message)
      modifies this`channels
      ensures channels == (if channelSyncing then E.Topic(old(channels), m) else old(channels))
    {
      var k := Lower(m.channel);
      if channelSyncing && k in channels {
        channels := channels[k := channels[k].(topic := Some(m.trailing))];
      }
    }

    /** _event_privmsg: a CTCP request that CtcpAnswer answers gets its reply as a CTCP_REPLY message to the sender, at MEDIUM. */
    method OnPrivmsg(m: P.Message)
      modifies this`link
      ensures var a := C.CtcpAnswer(m.trailing, ctcpVersion);
        link == if m.kind & HT.CTCP_REQUEST != 0 && a.Some? then
          old(link).(medium := old(link.medium) + [C.MessageLine(HT.CTCP_REPLY, m.nick, a.value).value])
        else old(link)
    {
      if m.kind & HT.CTCP_REQUEST != 0 {
        var a := C.CtcpAnswer(m.trailing, ctcpVersion);
        if a.Some? {
          var _ := Message(HT.CTCP_REPLY, m.nick, [a.value], O.Medium);
          O.SendAllQueued(old(link), port, Now(), C.MessageLines(HT.CTCP_REPLY, m.nick, [a.value]).value);
        }
      }
    }

    /** _event_rpl_welcome: logged in, under the nick the server confirms (its first parameter). */
    method OnWelcome(m: P.Message)
      modifies this`link, this`nick
      ensures link == old(link).(loggedIn := true) && nick == P.ParamOr(m.params, 0)
    {
      link := link.(loggedIn := true);
      nick := P.ParamOr(m.params, 0);
    }

    /** _event_rpl_motdstart, _event_rpl_motd and _event_rpl_endofmotd: the text joins the message of the day. */
    method OnMotd(m: P.Message)
      modifies this`motd
      ensures motd == old(motd) + [m.trailing]
    {
      motd := motd + [m.trailing];
    }

    /** _event_rpl_umodeis. */
    method OnUmodeIs(m: P.Message)
      modifies this`usermode
      ensures usermode == m.trailing
    {
      usermode := m.trailing;
    }

    /**
     * _event_rpl_whoreply: with syncing on, the described user is added to
     * the named channel, or for channel "*" to every channel that has the
     * nick (one pass over the channels).
     */
    method OnWhoReply(m: P.Message)
      requires Keyed()
      modifies this`channels
      ensures channels == (if channelSyncing then E.WhoReply(old(channels), nick, m) else old(channels))
    {
      if !channelSyncing {
        return;
      }
      var who := R.WhoNick(m.params, nick);
      var u := R.WhoUser(m.params, nick, m.Words());
      if m.channel == "*" {
        var s := channels;
        UpdateChannels((c: R.Channel) => R.IsJoined(true, s, c.name, who), (c: R.Channel) => R.AddUser(c, u));
      } else if R.IsJoined(true, channels, m.channel, who) {
        var k := Lower(m.channel);
        channels := channels[k := R.AddUser(channels[k], u)];
      }
    }

    /** _event_rpl_namreply: with syncing on, the names of the reply are added to the joined channel one by one. */
    method OnNamReply(m: P.Message)
      modifies this`channels
      ensures channels == (if channelSyncing then E.NamesReply(old(channels), m) else old(channels))
    {
      var k := Lower(m.channel);
      if !channelSyncing || k !in channels {
        return;
      }
      var names := R.NamesTokens(m.trailing);
      var c := channels[k];
      var i := 0;
      while i < |names|
        invariant 0 <= i <= |names|
        invariant c == R.AddNames(channels[k], names[..i])
      {
        assert names[..i + 1][..i] == names[..i];
        c := R.AddUser(c, R.NamesUser(names[i]));
        i := i + 1;
      }
      assert names[..|names|] == names;
      channels := channels[k := c];
    }

    /** _event_rpl_banlist: the mask joins the ban list of the joined channel. */
    method OnBanList(m: P.Message)
      modifies this`channels
      ensures channels == (if channelSyncing then E.BanListed(old(channels), m) else old(channels))
    {
      var k := Lower(m.channel);
      if channelSyncing && R.IsJoined(channelSyncing, channels, m.channel, None) {
        channels := channels[k := channels[k].(bans := channels[k].bans + {P.ParamOr(m.params, 1)})];
      }
    }

    /** _event_rpl_endofbanlist: the sync of the joined channel is stamped as finished, once. */
    method OnEndOfBanList(m: P.Message)
      modifies this`channels
      ensures channels == (if channelSyncing then E.BanListEnd(old(channels), m, clockMs) else old(channels))
    {
      var k := Lower(m.channel);
      if channelSyncing && R.IsJoined(channelSyncing, channels, m.channel, None) {
        if channels[k].synctimeStop == 0 {
          channels := channels[k := R.EndOfBanList(channels[k], clockMs)];
        }
      }
    }

    /** _event_err_nicknameinuse: the fallback nick goes out at once; `roll` stands for rand(0, 999). */
    method OnNicknameInUse(roll: nat)
      requires roll < 1000
      modifies this`nick, this`link
      ensures nick == C.FallbackNick(old(nick), roll)
      ensures link == O.RawSend(old(link), port, Now(), C.Single("NICK", nick)).0
    {
      var _ := ChangeNick(C.FallbackNick(nick, roll), O.Critical);
    }

    /** The handlers that work on the channel store, as Events.Handle describes them: first joins and departures. */
    method RunRosterHandler(b: P.Builtin, m: P.Message)
      requires Keyed()
      modifies this`channels, this`link, this`usermode
      ensures channels == (if channelSyncing then E.Handle(b, old(channels), nick, m, clockMs) else old(channels))
    {
      match b {
        case OnJoin => OnJoin(m);
        case OnPart => OnLeave(m);
        case OnKick => OnLeave(m);
        case OnQuit => OnLeave(m);
        case _ => ListingHandler(b, m);
      }
    }

    /** The handlers that rename or list the users of channels. */
    method ListingHandler(b: P.Builtin, m: P.Message)
      requires Keyed() && b !in {P.OnJoin, P.OnPart, P.OnKick, P.OnQuit}
      modifies this`channels, this`usermode
      ensures channels == (if channelSyncing then E.Handle(b, old(channels), nick, m, clockMs) else old(channels))
    {
      if b == P.OnNick {
        OnNick(m);
      } else if b == P.OnWhoReply {
        OnWhoReply(m);
      } else if b == P.OnNamReply {
        OnNamReply(m);
      } else {
        ChannelHandler(b, m);
      }
    }

    /** The handlers that change the state of one channel: modes, topic, ban list, end of sync. */
    method ChannelHandler(b: P.Builtin, m: P.Message)
      requires b !in {P.OnJoin, P.OnPart, P.OnKick, P.OnQuit, P.OnNick, P.OnWhoReply, P.OnNamReply}
      modifies this`channels, this`usermode
      ensures channels == (if channelSyncing then E.Handle(b, old(channels), nick, m, clockMs) else old(channels))
    {
      if b == P.OnMode {
        OnMode(m);
      } else if b == P.OnChannelModeIs {
        OnChannelModeIs(m);
      } else {
        ReplyHandler(b, m);
      }
    }

    /** The replies that set a channel's topic, ban list or end of sync. */
    method ReplyHandler(b: P.Builtin, m: P.Message)
      requires b !in {P.OnJoin, P.OnPart, P.OnKick, P.OnQuit, P.OnNick, P.OnWhoReply, P.OnNamReply, P.OnMode, P.OnChannelModeIs}
      modifies this`channels
      ensures channels == (if channelSyncing then E.Handle(b, old(channels), nick, m, clockMs) else old(channels))
    {
      match b {
        case OnTopic => OnTopic(m);
        case OnRplTopic => OnTopic(m);
        case OnBanList => OnBanList(m);
        case OnEndOfBanList => OnEndOfBanList(m);
        case _ =>
      }
    }

    /** The handlers that leave the channel store alone. */
    method SessionHandler(b: P.Builtin, m: P.Message, roll: nat)
      requires roll < 1000
      modifies this`link, this`nick, this`usermode, this`motd
    {
      match b {
        case OnPing => OnPing(m);
        case OnPrivmsg => OnPrivmsg(m);
        case OnWelcome => OnWelcome(m);
        case OnMotdStart => OnMotd(m);
        case OnMotd => OnMotd(m);
        case OnEndOfMotd => OnMotd(m);
        case OnUmodeIs => OnUmodeIs(m);
        case OnNicknameInUse => OnNicknameInUse(roll);
        case _ =>
      }
    }

    /** The built-in handler `_<event>` of MessageHandler for a message. */
    method RunBuiltin(b: P.Builtin, m: P.Message, roll: nat)
      requires roll < 1000 && Keyed() && autoRetryMax != 0
      modifies this`link,
        this`port, this`clockMs, this`channels, this`connectOutcomes, this`address,
        this`autoRetryCount, this`timeHandlers, this`timeHandlerId, this`minTimer, this`firedTimers, this`lastRx,
        this`nick, this`username, this`realname, this`password, this`usermode, this`motd
      ensures Keyed() && autoRetryMax != 0
      ensures b != P.OnError ==> channels == (if channelSyncing then E.Handle(b, old(channels), old(nick), m, old(clockMs)) else old(channels))
      ensures b != P.OnError ==> clockMs == old(clockMs)
    {
      if b == P.OnError {
        OnError();
      } else if E.StoreHandler(b) {
        RunRosterHandler(b, m);
        if channelSyncing {
          E.HandleKeyed(b, old(channels), nick, m, clockMs);
        }
      } else {
        SessionHandler(b, m, roll);
      }
    }

    // ------------------------------------------------------------ listenOnce

    /**
     * One received line: it is parsed (with the nick of the moment), its
     * built-in handler for the event name runs, if there is one, then every
     * action handler whose type and pattern match, in list order.
     */
    method Dispatch(line: string, roll: nat, matches: (string, string) -> bool) returns (m: P.Message, b: Option<P.Builtin>)
      requires roll < 1000 && Keyed() && autoRetryMax != 0
      modifies this`link,
        this`port, this`clockMs, this`channels, this`connectOutcomes, this`address,
        this`autoRetryCount, this`timeHandlers, this`timeHandlerId, this`minTimer, this`firedTimers, this`lastRx,
        this`nick, this`username, this`realname, this`password, this`usermode, this`motd, this`firedActions
      ensures Keyed() && autoRetryMax != 0
      ensures m == P.ParseLine(line, old(nick)) && b == P.BuiltinFor(P.EventName(m.command))
      ensures b.Some? && b.value != P.OnError ==>
        channels == (if channelSyncing then E.Handle(b.value, old(channels), old(nick), m, old(clockMs)) else old(channels))
      ensures b.None? ==> channels == old(channels)
      ensures b != Some(P.OnError) ==> clockMs == old(clockMs)
      ensures firedActions == old(firedActions) + Reg.FiredIds(actionHandlers, m.kind, m.trailing, matches)
    {
      m := P.ParseLine(line, nick);
      b := P.BuiltinFor(P.EventName(m.command));
      Handle(m, b, roll, matches);
    }

    /** The handling of one parsed line: its built-in handler, if any, then the action handlers. */
    method Handle(m: P.Message, b: Option<P.Builtin>, roll: nat, matches: (string, string) -> bool)
      requires roll < 1000 && Keyed() && autoRetryMax != 0
      modifies this`link,
        this`port, this`clockMs, this`channels, this`connectOutcomes, this`address,
        this`autoRetryCount, this`timeHandlers, this`timeHandlerId, this`minTimer, this`firedTimers, this`lastRx,
        this`nick, this`username, this`realname, this`password, this`usermode, this`motd, this`firedActions
      ensures Keyed() && autoRetryMax != 0
      ensures b.Some? && b.value != P.OnError ==>
        channels == (if channelSyncing then E.Handle(b.value, old(channels), old(nick), m, old(clockMs)) else old(channels))
      ensures b.None? ==> channels == old(channels)
      ensures b != Some(P.OnError) ==> clockMs == old(clockMs)
      ensures firedActions == old(firedActions) + Reg.FiredIds(actionHandlers, m.kind, m.trailing, matches)
    {
      if b.Some? {
        RunBuiltin(b.value, m, roll);
      }
      FireActions(m, matches);
    }

    /** One pass of the foreach over the received lines: what the loop needs to know of Dispatch. */
    method DispatchLine(line: string, roll: nat, matches: (string, string) -> bool) returns (m: P.Message)
      requires roll < 1000 && Keyed() && autoRetryMax != 0
      modifies this`link,
        this`port, this`clockMs, this`channels, this`connectOutcomes, this`address,
        this`autoRetryCount, this`timeHandlers, this`timeHandlerId, this`minTimer, this`firedTimers, this`lastRx,
        this`nick, this`username, this`realname, this`password, this`usermode, this`motd, this`firedActions
      ensures Keyed() && autoRetryMax != 0
      ensures m == P.ParseLine(line, old(nick))
      ensures !IsErrorLine(m) ==>
        clockMs == old(clockMs) && channels == (if channelSyncing then StoreAfter(old(channels), m, old(nick), old(clockMs)) else old(channels))
      ensures firedActions == old(firedActions) + Reg.FiredIds(actionHandlers, m.kind, m.trailing, matches)
    {
      var b;
      m, b := Dispatch(line, roll, matches);
    }

    /** The foreach over the action handlers: the id of each one that fires is recorded. */
    method FireActions(m: P.Message, matches: (string, string) -> bool)
      modifies this`firedActions
      ensures firedActions == old(firedActions) + Reg.FiredIds(actionHandlers, m.kind, m.trailing, matches)
    {
      var i := 0;
      while i < |actionHandlers|
        invariant 0 <= i <= |actionHandlers|
        invariant firedActions == old(firedActions) + Reg.FiredIds(actionHandlers[..i], m.kind, m.trailing, matches)
      {
        assert actionHandlers[..i + 1][..i] == actionHandlers[..i];
        if Reg.Fires(actionHandlers[i], m.kind, m.trailing, matches) {
          firedActions := firedActions + [actionHandlers[i].id];
        }
        i := i + 1;
      }
      assert actionHandlers[..|actionHandlers|] == actionHandlers;
    }

    /** The send step of listenOnce, taken while logged in: the time handlers run, then one buffered line may leave. */
    method SendStep() returns (sent: Option<string>)
      modifies this`timeHandlers, this`firedTimers, this`link, this`lastSentMs, this`bufferSize
      ensures old(link.loggedIn) ==>
        timeHandlers == Reg.Tick(old(timeHandlers), clockMs) && firedTimers == old(firedTimers) + Reg.DueIds(old(timeHandlers), clockMs)
      ensures old(link.loggedIn) ==> var d := O.Drain(old(link), port, clockMs, Now(), old(lastSentMs), sendDelay);
        link == d.link && lastSentMs == d.lastSentMs && sent == d.sent && bufferSize == |O.Backlog(old(link))|
      ensures !old(link.loggedIn) ==> sent.None? && link == old(link) && bufferSize == old(bufferSize)
      ensures !old(link.loggedIn) ==> timeHandlers == old(timeHandlers) && firedTimers == old(firedTimers) && lastSentMs == old(lastSentMs)
    {
      sent := None;
      if link.loggedIn {
        CallTimeHandlers();
        sent := DrainOnce();
      }
    }

    /**
     * The receiving half of listenOnce. Silence (nothing read, or "0") is
     * handled by Silence; data stamps the receive time and each of its lines
     * is dispatched in order.
     */
    method Receive(data: string, roll: nat, matches: (string, string) -> bool)
      returns (handled: seq<P.Message>, ghost nicks: seq<string>)
      requires roll < 1000 && Keyed() && autoRetryMax != 0
      modifies this`link,
        this`port, this`clockMs, this`channels, this`connectOutcomes, this`address,
        this`autoRetryCount, this`timeHandlers, this`timeHandlerId, this`minTimer, this`firedTimers, this`lastRx,
        this`nick, this`username, this`realname, this`password, this`usermode, this`motd, this`firedActions
      ensures Keyed() && autoRetryMax != 0
      ensures S.Silent(data) ==> handled == [] && channels == old(channels) && lastRx == old(lastRx)
      ensures S.Silent(data) ==>
        link == old(link).(error := old(link.error) || S.Idle(Now(), old(lastRx), old(link.lastTx), rxTimeout, txTimeout))
      ensures ParsedBy(handled, LinesOf(data), nicks, P.ParseLine) && (handled != [] ==> nicks[0] == old(nick))
      ensures NoErrorLine(handled) ==>
        clockMs == old(clockMs) && channels == Replayed(old(channels), handled, nicks, old(clockMs), channelSyncing)
      ensures firedActions == old(firedActions) + FiredForAll(actionHandlers, handled, matches)
    {
      if S.Silent(data) {
        Silence();
        return [], [];
      }
      lastRx := Now();
      handled, nicks := DispatchAll(P.SplitData(data), roll, matches);
    }

    /** The foreach over the received lines: each is dispatched in turn. */
    method DispatchAll(lines: seq<string>, roll: nat, matches: (string, string) -> bool)
      returns (handled: seq<P.Message>, ghost nicks: seq<string>)
      requires roll < 1000 && Keyed() && autoRetryMax != 0
      modifies this`link,
        this`port, this`clockMs, this`channels, this`connectOutcomes, this`address,
        this`autoRetryCount, this`timeHandlers, this`timeHandlerId, this`minTimer, this`firedTimers, this`lastRx,
        this`nick, this`username, this`realname, this`password, this`usermode, this`motd, this`firedActions
      ensures Keyed() && autoRetryMax != 0
      ensures ParsedBy(handled, lines, nicks, P.ParseLine) && (lines != [] ==> nicks[0] == old(nick))
      ensures NoErrorLine(handled) ==>
        clockMs == old(clockMs) && channels == Replayed(old(channels), handled, nicks, old(clockMs), channelSyncing)
      ensures firedActions == old(firedActions) + FiredForAll(actionHandlers, handled, matches)
    {
      handled, nicks := [], [];
      var i := 0;
      while i < |lines|
        invariant 0 <= i <= |lines| && ParsedBy(handled, lines[..i], nicks, P.ParseLine)
        invariant if i == 0 then nick == old(nick) else nicks[0] == old(nick)
        invariant Keyed() && autoRetryMax != 0
        invariant NoErrorLine(handled) ==>
          clockMs == old(clockMs) && channels == Replayed(old(channels), handled, nicks, old(clockMs), channelSyncing)
        invariant firedActions == old(firedActions) + FiredForAll(actionHandlers, handled, matches)
      {
        var m;
        ghost var me;
        m, me := DispatchNext(lines[i], roll, matches, handled, nicks, old(channels), old(clockMs), old(firedActions));
        ParsedStep(handled, lines, nicks, i, m, me, P.ParseLine);
        handled, nicks := handled + [m], nicks + [me];
        i := i + 1;
      }
      assert lines[..|lines|] == lines;
    }

    /**
     * One turn of that foreach, given the messages `ms` handled so far with
     * their nicks, from store `s`, clock `nowMs` and fired log `start`.
     */
    method DispatchNext(line: string, roll: nat, matches: (string, string) -> bool,
                        ghost ms: seq<P.Message>, ghost nicks: seq<string>, ghost s: R.Store, ghost nowMs: int, ghost start: seq<nat>)
      returns (m: P.Message, ghost me: string)
      requires roll < 1000 && Keyed() && autoRetryMax != 0 && |nicks| == |ms|
      requires NoErrorLine(ms) ==> clockMs == nowMs && channels == Replayed(s, ms, nicks, nowMs, channelSyncing)
      requires firedActions == start + FiredForAll(actionHandlers, ms, matches)
      modifies this`link,
        this`port, this`clockMs, this`channels, this`connectOutcomes, this`address,
        this`autoRetryCount, this`timeHandlers, this`timeHandlerId, this`minTimer, this`firedTimers, this`lastRx,
        this`nick, this`username, this`realname, this`password, this`usermode, this`motd, this`firedActions
      ensures Keyed() && autoRetryMax != 0
      ensures m == P.ParseLine(line, me) && me == old(nick)
      ensures NoErrorLine(ms + [m]) ==> clockMs == nowMs && channels == Replayed(s, ms + [m], nicks + [me], nowMs, channelSyncing)
      ensures firedActions == start + FiredForAll(actionHandlers, ms + [m], matches)
    {
      ghost var c, t, f := channels, clockMs, firedActions;
      me := nick;
      m := DispatchLine(line, roll, matches);
      ReplayedStep(s, ms, nicks, m, me, nowMs, channelSyncing, c, t, channels, clockMs);
      FiredForAllStep(actionHandlers, ms, m, matches, start, f);
    }

    /** A silent listen: the connection is marked broken when nothing was received, or nothing sent, for too long. */
    method Silence()
      modifies this`link
      ensures link == old(link).(error := old(link.error) || S.Idle(Now(), lastRx, old(link.lastTx), rxTimeout, txTimeout))
    {
      var t := Now();
      if lastRx < t - rxTimeout {
        link := link.(error := true);
      } else if link.lastTx < t - txTimeout {
        link := link.(error := true);
      }
    }

    /** The end of listenOnce: a connection marked broken is reconnected. */
    method Recover()
      requires Keyed() && autoRetryMax != 0
      modifies this`link,
        this`port, this`clockMs, this`channels, this`connectOutcomes, this`address,
        this`autoRetryCount, this`timeHandlers, this`timeHandlerId, this`minTimer, this`firedTimers, this`lastRx,
        this`nick, this`username, this`realname, this`password
      ensures Keyed() && autoRetryMax != 0
      ensures !old(link.error) ==> link == old(link) && port == old(port) && channels == old(channels)
      ensures old(link.error) ==> channels == (if old(port.open) && channelSyncing then map[] else old(channels))
    {
      if link.error {
        var _, _ := Reconnect();
      }
    }

    /**
     * listenOnce: false when not connected, otherwise one pass of Listen.
     * `data` is what the socket yielded ("" for nothing), `roll` stands for
     * rand(0, 999), `matches` for preg_match.
     */
    method ListenOnce(data: string, roll: nat, matches: (string, string) -> bool)
      returns (ok: bool, waitUs: int, handled: seq<P.Message>, ghost nicks: seq<string>)
      requires roll < 1000 && Keyed() && autoRetryMax != 0
      modifies this`link,
        this`port, this`clockMs, this`channels, this`connectOutcomes, this`address,
        this`autoRetryCount, this`timeHandlers, this`timeHandlerId, this`minTimer, this`firedTimers, this`lastRx,
        this`nick, this`username, this`realname, this`password, this`usermode, this`motd, this`firedActions,
        this`lastSentMs, this`bufferSize
      ensures Keyed() && autoRetryMax != 0
      ensures ok == old(port.open)
      ensures !ok ==> handled == [] && channels == old(channels) && link == O.UpdateState(old(link), port)
      ensures ok ==> waitUs == O.SelectTimeout(if old(link.loggedIn) then |O.Backlog(old(link))| else old(bufferSize),
        sendDelay, maxTimer, receiveDelay, old(minTimer))
      ensures ParsedBy(handled, if ok then LinesOf(data) else [], nicks, P.ParseLine) && (handled != [] ==> nicks[0] == old(nick))
      ensures firedActions == old(firedActions) + FiredForAll(actionHandlers, handled, matches)
    {
      var state := UpdateState();
      if !state {
        return false, 0, [], [];
      }
      waitUs, handled, nicks := Listen(data, roll, matches);
      ok := true;
    }

    /**
     * The connected part of listenOnce: the send step, the select timeout
     * (`waitUs`), the receive step, and a reconnect if the connection was
     * marked broken.
     */
    method Listen(data: string, roll: nat, matches: (string, string) -> bool)
      returns (waitUs: int, handled: seq<P.Message>, ghost nicks: seq<string>)
      requires roll < 1000 && Keyed() && autoRetryMax != 0
      modifies this`link,
        this`port, this`clockMs, this`channels, this`connectOutcomes, this`address,
        this`autoRetryCount, this`timeHandlers, this`timeHandlerId, this`minTimer, this`firedTimers, this`lastRx,
        this`nick, this`username, this`realname, this`password, this`usermode, this`motd, this`firedActions,
        this`lastSentMs, this`bufferSize
      ensures Keyed() && autoRetryMax != 0
      ensures waitUs == old(O.SelectTimeout(if link.loggedIn then |O.Backlog(link)| else bufferSize, sendDelay, maxTimer, receiveDelay, minTimer))
      ensures ParsedBy(handled, LinesOf(data), nicks, P.ParseLine) && (handled != [] ==> nicks[0] == old(nick))
      ensures firedActions == old(firedActions) + FiredForAll(actionHandlers, handled, matches)
    {
      var _ := SendStep();
      waitUs := O.SelectTimeout(bufferSize, sendDelay, maxTimer, receiveDelay, minTimer);
      handled, nicks := Take(data, roll, matches);
      Recover();
    }

    /** Receive as the listen pass sees it: which lines came in and which action handlers fired. */
    method Take(data: string, roll: nat, matches: (string, string) -> bool)
      returns (handled: seq<P.Message>, ghost nicks: seq<string>)
      requires roll < 1000 && Keyed() && autoRetryMax != 0
      modifies this`link,
        this`port, this`clockMs, this`channels, this`connectOutcomes, this`address,
        this`autoRetryCount, this`timeHandlers, this`timeHandlerId, this`minTimer, this`firedTimers, this`lastRx,
        this`nick, this`username, this`realname, this`password, this`usermode, this`motd, this`firedActions
      ensures Keyed() && autoRetryMax != 0
      ensures ParsedBy(handled, LinesOf(data), nicks, P.ParseLine) && (handled != [] ==> nicks[0] == old(nick))
      ensures firedActions == old(firedActions) + FiredForAll(actionHandlers, handled, matches)
    {
      handled, nicks := Receive(data, roll, matches);
    }
  }

  /** The passes of the reconnect delay loop: one per millisecond of a positive delay. */
  function Passes(delayMs: int): nat
  {
    if delayMs > 0 then delayMs else 0
  }

  /** Whether the next connection attempt succeeds. */
  predicate Up(outcomes: seq<bool>)
  {
    outcomes != [] && outcomes[0]
  }

  /** The JOIN lines of a rejoin, in the order given. */
  function RejoinLines(es: seq<(string, Option<string>)>): (r: seq<string>)
    ensures |r| == |es|
    decreases |es|
  {
    if es == [] then [] else RejoinLines(es[..|es| - 1]) + [S.RejoinLine(es[|es| - 1])]
  }

  /** Each message is `parse` of its line with the nick of its moment. */
  predicate ParsedBy<M(==)>(ms: seq<M>, lines: seq<string>, nicks: seq<string>, parse: (string, string) -> M)
  {
    |ms| == |lines| && |nicks| == |lines| && forall i :: 0 <= i < |lines| ==> ms[i] == parse(lines[i], nicks[i])
  }

  /** The lines of what the socket yielded; silence has none. */
  function LinesOf(data: string): seq<string>
  {
    if S.Silent(data) then [] else P.SplitData(data)
  }

  /** The channel store after a run of messages, or the store unchanged when channel syncing is off. */
  function Replayed(s: R.Store, ms: seq<P.Message>, nicks: seq<string>, nowMs: int, syncing: bool): R.Store
    requires |nicks| == |ms|
  {
    if syncing then StoreAfterAll(s, ms, nicks, nowMs) else s
  }

  /** A message whose built-in handler is the ERROR one, which reconnects. */
  predicate IsErrorLine(m: P.Message)
  {
    P.BuiltinFor(P.EventName(m.command)) == Some(P.OnError)
  }

  predicate NoErrorLine(ms: seq<P.Message>)
  {
    forall i :: 0 <= i < |ms| ==> !IsErrorLine(ms[i])
  }

  /** The channel store after the built-in handler of one message other than an ERROR; `me` is the nick of the moment. */
  function StoreAfter(s: R.Store, m: P.Message, me: string, nowMs: int): R.Store
  {
    match P.BuiltinFor(P.EventName(m.command))
    case Some(b) => if b == P.OnError then s else E.Handle(b, s, me, m, nowMs)
    case None => s
  }

  /** The channel store after a run of messages, each handled with its own nick. */
  function StoreAfterAll(s: R.Store, ms: seq<P.Message>, nicks: seq<string>, nowMs: int): R.Store
    requires |nicks| == |ms|
    decreases |ms|
  {
    if ms == [] then s
    else StoreAfter(StoreAfterAll(s, ms[..|ms| - 1], nicks[..|ms| - 1], nowMs), ms[|ms| - 1], nicks[|ms| - 1], nowMs)
  }

  /** However many lines are handled, the store stays keyed by lower-cased channel names. */
  lemma {:induction false} StoreAfterAllKeyed(s: R.Store, ms: seq<P.Message>, nicks: seq<string>, nowMs: int)
    requires |nicks| == |ms| && R.WellKeyed(s)
    ensures R.WellKeyed(StoreAfterAll(s, ms, nicks, nowMs))
    decreases |ms|
  {
    if ms != [] {
      var n := |ms| - 1;
      StoreAfterAllKeyed(s, ms[..n], nicks[..n], nowMs);
      var b := P.BuiltinFor(P.EventName(ms[n].command));
      if b.Some? && b.value != P.OnError {
        E.HandleKeyed(b.value, StoreAfterAll(s, ms[..n], nicks[..n], nowMs), nicks[n], ms[n], nowMs);
      }
    }
  }

  /** One more dispatched line extends the parse. */
  lemma ParsedStep<M>(ms: seq<M>, lines: seq<string>, nicks: seq<string>, i: nat, m: M, me: string, parse: (string, string) -> M)
    requires i < |lines| && ParsedBy(ms, lines[..i], nicks, parse) && m == parse(lines[i], me)
    ensures ParsedBy(ms + [m], lines[..i + 1], nicks + [me], parse)
  {
  }

  /**
   * One more dispatched line extends the replay: `c`/`t` are the store and
   * clock before it, `c'`/`t'` after it.
   */
  lemma ReplayedStep(s: R.Store, ms: seq<P.Message>, nicks: seq<string>, m: P.Message, me: string, nowMs: int, syncing: bool,
                     c: R.Store, t: int, c': R.Store, t': int)
    requires |nicks| == |ms|
    requires NoErrorLine(ms) ==> t == nowMs && c == Replayed(s, ms, nicks, nowMs, syncing)
    requires !IsErrorLine(m) ==> t' == t && c' == (if syncing then StoreAfter(c, m, me, t) else c)
    ensures NoErrorLine(ms + [m]) ==> t' == nowMs && c' == Replayed(s, ms + [m], nicks + [me], nowMs, syncing)
  {
    if NoErrorLine(ms + [m]) {
      assert !IsErrorLine((ms + [m])[|ms|]);
      assert NoErrorLine(ms) by {
        forall i | 0 <= i < |ms| ensures !IsErrorLine(ms[i]) {
          assert ms[i] == (ms + [m])[i];
        }
      }
      assert (ms + [m])[..|ms|] == ms && (nicks + [me])[..|ms|] == nicks;
    }
  }

  /** The ids of the action handlers fired by a run of messages, message by message. */
  function FiredForAll(hs: seq<Reg.ActionHandler>, ms: seq<P.Message>, matches: (string, string) -> bool): (ids: seq<nat>)
    decreases |ms|
  {
    if ms == [] then []
    else FiredForAll(hs, ms[..|ms| - 1], matches) + Reg.FiredIds(hs, ms[|ms| - 1].kind, ms[|ms| - 1].trailing, matches)
  }

  /** One more dispatched line extends the fired log by its own handlers' ids. */
  lemma FiredForAllStep(hs: seq<Reg.ActionHandler>, ms: seq<P.Message>, m: P.Message, matches: (string, string) -> bool,
                        start: seq<nat>, log: seq<nat>)
    requires log == start + FiredForAll(hs, ms, matches)
    ensures log + Reg.FiredIds(hs, m.kind, m.trailing, matches) == start + FiredForAll(hs, ms + [m], matches)
  {
    assert (ms + [m])[..|ms|] == ms;
  }

  /** Removing one handler keeps the ids increasing and below the counter. */
  lemma RemoveKeepsOrder(hs: seq<Reg.ActionHandler>, i: nat, next: nat)
    requires i < |hs| && Reg.IdsIncreasing(hs) && Reg.IdsBelow(hs, next)
    ensures Reg.IdsIncreasing(hs[..i] + hs[i + 1..]) && Reg.IdsBelow(hs[..i] + hs[i + 1..], next)
  {
    var rest := hs[..i] + hs[i + 1..];
    forall a, b | 0 <= a < b < |rest|
      ensures rest[a].id < rest[b].id
    {
      var a' := if a < i then a else a + 1;
      var b' := if b < i then b else b + 1;
      assert rest[a] == hs[a'] && rest[b] == hs[b'];
    }
  }
}
