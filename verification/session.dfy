/**
 * Connection bookkeeping of the Irc class (src/Irc.php) that does not
 * depend on the object: the setter clamps, the ping-check decision, the
 * lines login sends, the channel snapshot reconnect rejoins from, and the
 * waiting and idle rules of listenOnce.
 */
module Session {
  import opened Wrappers
  import opened Text
  import R = Roster
  import C = Commands
  import Parser

  const DEF_AUTORETRY_MAX: int := 5
  const DEF_DISCONNECT_TIME: int := 1000
  const DEF_MAX_TIMER: int := 300000
  const DEF_RECEIVE_DELAY: int := 100
  const DEF_RECONNECT_DELAY: int := 10000
  const DEF_SEND_DELAY: int := 250
  const DEF_TX_RX_TIMEOUT: int := 300

  // ---------------------------------------------------------------- setter clamps

  /**
   * A delay with a floor: an integer at or above the floor is taken, anything
   * else (a smaller integer, or a value that is not an integer at all, None
   * here) gives the floor, which is also the default.
   */
  function AtLeast(value: Option<int>, floor: int): (r: int)
    ensures r >= floor
    ensures value.Some? && value.value >= floor ==> r == value.value
    ensures !(value.Some? && value.value >= floor) ==> r == floor
  {
    if value.Some? && value.value >= floor then value.value else floor
  }

  /** setReceiveDelay. */
  function ReceiveDelayFor(ms: Option<int>): (r: int)
    ensures r >= DEF_RECEIVE_DELAY
    ensures ms.Some? && ms.value >= DEF_RECEIVE_DELAY ==> r == ms.value
  {
    AtLeast(ms, DEF_RECEIVE_DELAY)
  }

  /** setDisconnectTime. */
  function DisconnectTimeFor(ms: Option<int>): (r: int)
    ensures r >= DEF_DISCONNECT_TIME
    ensures ms.Some? && ms.value >= DEF_DISCONNECT_TIME ==> r == ms.value
  {
    AtLeast(ms, DEF_DISCONNECT_TIME)
  }

  /**
   * setAutoRetryMax on (autoretry, max): 0 switches retrying off and keeps
   * the old maximum, another integer becomes the maximum, a non-integer
   * restores the default.
   */
  function AutoRetryMaxFor(autoRetry: bool, max: int, value: Option<int>): (r: (bool, int))
    ensures max != 0 ==> r.1 != 0
    ensures value == Some(0) ==> r == (false, max)
    ensures value != Some(0) ==> r.0 == autoRetry
  {
    match value
    case Some(n) => if n == 0 then (false, max) else (autoRetry, n)
    case None => (autoRetry, DEF_AUTORETRY_MAX)
  }

  // ---------------------------------------------------------------- ping check

  datatype PingAction = Reconnect | SendPing | Quiet

  /**
   * _pingcheck: with `silence` seconds since the last received data, reconnect
   * past the receive timeout, send a PING past half of it, else do nothing.
   * PHP divides the timeout as a float; `2 * silence > rxTimeout` is that
   * comparison on integers (lemma HalfTimeoutExact).
   */
  function PingDecision(silence: int, rxTimeout: int): PingAction
  {
    if silence > rxTimeout then Reconnect
    else if 2 * silence > rxTimeout then SendPing
    else Quiet
  }

  /** Comparing with half the timeout on integers agrees with PHP's float division. */
  lemma HalfTimeoutExact(silence: int, rxTimeout: int)
    ensures 2 * silence > rxTimeout <==> (silence as real) > (rxTimeout as real) / 2.0
  {
  }

  function Urgency(a: PingAction): nat
  {
    match a
    case Quiet => 0
    case SendPing => 1
    case Reconnect => 2
  }

  /** The longer the silence, the stronger the reaction: quiet, then PING, then reconnect. */
  lemma PingEscalates(shorter: int, longer: int, rxTimeout: int)
    requires shorter <= longer
    ensures Urgency(PingDecision(shorter, rxTimeout)) <= Urgency(PingDecision(longer, rxTimeout))
  {
  }

  /** With a non-negative timeout, a PING always comes before a reconnect: some silence triggers a PING. */
  lemma PingWindow(rxTimeout: int)
    requires rxTimeout >= 0
    ensures PingDecision(rxTimeout, rxTimeout) == SendPing || rxTimeout == 0
    ensures PingDecision(rxTimeout + 1, rxTimeout) == Reconnect
    ensures PingDecision(rxTimeout / 2, rxTimeout) == Quiet
  {
  }

  // ---------------------------------------------------------------- listenOnce

  /**
   * empty($rawdata): nothing was read. PHP also counts "0" as empty, so a
   * read of the single character 0 is treated as silence.
   */
  predicate Silent(data: string)
  {
    data == "" || data == "0"
  }

  /**
   * A silent listen marks the connection broken when nothing has been
   * received for longer than the receive timeout, or nothing sent for longer
   * than the transmit timeout (whole seconds).
   */
  predicate Idle(nowSec: int, lastRx: int, lastTx: int, rxTimeout: int, txTimeout: int)
  {
    lastRx < nowSec - rxTimeout || lastTx < nowSec - txTimeout
  }

  // ---------------------------------------------------------------- login

  /** strpos($usermode, c) used as a condition: found at a position other than 0. */
  predicate Counts(usermode: string, c: char)
  {
    var p := IndexOf(usermode, [c]);
    p.Some? && p.value > 0
  }

  /** A mode letter counts exactly when it occurs and is not the first character. */
  lemma CountsIffAfterFirst(usermode: string, c: char)
    ensures Counts(usermode, c) <==> c in usermode && usermode[0] != c
  {
    if c in usermode {
      var k :| 0 <= k < |usermode| && usermode[k] == c;
      assert OccursAt(usermode, [c], k);
      if usermode[0] == c {
        assert OccursAt(usermode, [c], 0);
        IndexOfFirst(usermode, [c], 0);
      }
    }
  }

  /** The mode login puts on the USER line: a numeric mode as given, else 8 for 'i' plus 4 for 'w'. */
  function UsermodeValue(usermode: string): (r: string)
    ensures IsNumericString(r)
  {
    if IsNumericString(usermode) then usermode
    else
      var bits := NatToString((if Counts(usermode, 'i') then 8 else 0) + (if Counts(usermode, 'w') then 4 else 0));
      DigitsAreNumeric(bits);
      bits
  }

  /**
   * A symbolic mode gives the bit mask of the letters it holds, except that
   * a letter in the very first position is not seen: "+iw" gives 12, "iw" only 4.
   */
  lemma UsermodeBits(usermode: string)
    requires !IsNumericString(usermode)
    ensures UsermodeValue(usermode) == NatToString(
      (if 'i' in usermode && usermode[0] != 'i' then 8 else 0) + (if 'w' in usermode && usermode[0] != 'w' then 4 else 0))
  {
    CountsIffAfterFirst(usermode, 'i');
    CountsIffAfterFirst(usermode, 'w');
  }

  /** The USER registration line: user name, numeric mode, an unused "*", and the real name as trailing text. */
  function UserLine(username: string, mode: string, realname: string): (r: string)
    ensures r == Parser.Compose(None, "USER", [username, mode, "*"], Some(realname))
  {
    var four := ["USER", username, mode, "*"];
    assert four[1..] == [username, mode, "*"];
    C.Words(username, mode, "*");
    "USER " + username + " " + mode + " *" + " :" + realname
  }

  /** What login sends: the registration lines at CRITICAL, the perform list at HIGH. */
  datatype LoginPlan = LoginPlan(nick: string, username: string, critical: seq<string>, high: seq<string>)

  /**
   * login: spaces are removed from the nick and the user name (taken from the
   * system user when none is given); PASS goes first when there is a
   * password; NICK and USER follow; the performs go out after, followed by
   * NICK once more.
   */
  function Login(nick: string, realname: string, usermode: string, username: Option<string>, whoami: string,
                 password: Option<string>, performs: seq<string>): (p: LoginPlan)
    ensures ' ' !in p.nick && ' ' !in p.username
    ensures |p.critical| == (if password.Some? then 3 else 2)
    ensures password.Some? ==> p.critical[0] == C.Single("PASS", password.value)
    ensures p.critical[|p.critical| - 2] == C.Single("NICK", p.nick)
    ensures p.critical[|p.critical| - 1] == UserLine(p.username, UsermodeValue(usermode), realname)
    ensures performs == [] ==> p.high == []
    ensures performs != [] ==> p.high == performs + [C.Single("NICK", p.nick)]
  {
    var n := RemoveChar(nick, ' ');
    var u := RemoveChar(username.GetOr(whoami), ' ');
    var pass := if password.Some? then [C.Single("PASS", password.value)] else [];
    LoginPlan(n, u,
      pass + [C.Single("NICK", n), UserLine(u, UsermodeValue(usermode), realname)],
      if |performs| > 0 then performs + [C.Single("NICK", n)] else [])
  }

  // ---------------------------------------------------------------- rejoin

  /** What reconnect remembers of a channel: its name, and its key unless that is empty. */
  function Rejoin(c: R.Channel): (string, Option<string>)
  {
    (c.name, if IsEmpty(c.key) then None else c.key)
  }

  /** The channels reconnect rejoins. */
  function Snapshot(s: R.Store): (r: set<(string, Option<string>)>)
    ensures forall k :: k in s ==> Rejoin(s[k]) in r
    ensures forall e :: e in r ==> exists k :: k in s && Rejoin(s[k]) == e
  {
    set k | k in s :: Rejoin(s[k])
  }

  /** A rejoin passes a key exactly when the channel had a non-empty one. */
  lemma RejoinKey(c: R.Channel)
    ensures Rejoin(c).1.Some? <==> c.key.Some? && c.key.value != "" && c.key.value != "0"
    ensures Rejoin(c).1.Some? ==> Rejoin(c).1 == c.key
  {
  }

  /** The line that rejoins one remembered channel. */
  function RejoinLine(e: (string, Option<string>)): (r: string)
    ensures [r] == C.JoinLines([e.0], e.1)
  {
    C.JoinLine(e.0, e.1)
  }
}
