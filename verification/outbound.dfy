/**
 * The outbound side of the connection (src/Irc.php `send`, `_rawsend`,
 * `_updatestate` and the queue drain and select timeout at the top of
 * `listenOnce`), stated on a value view of the client's fields. The class
 * in module Client is proved against these functions.
 */
module Outbound {
  import opened Wrappers

  /** A send priority; anything but the four known levels is `Unlisted`. */
  datatype Priority = Critical | High | Medium | Low | Unlisted(code: int)

  predicate Queued(p: Priority)
  {
    p == High || p == Medium || p == Low
  }

  /** The socket as the environment sees it: open or closed, and whether a write goes through. */
  datatype Port = Port(open: bool, writable: bool)

  /**
   * The fields the send path reads and writes: the three buffers, the lines
   * written to the socket, the last transmit time in seconds, the
   * connection-error flag, the connection state and the login flag.
   */
  datatype Link = Link(
    high: seq<string>,
    medium: seq<string>,
    low: seq<string>,
    wire: seq<string>,
    lastTx: int,
    error: bool,
    connected: bool,
    loggedIn: bool)

  /** All buffered lines in the order the drain sends them. */
  function Backlog(l: Link): seq<string>
  {
    l.high + l.medium + l.low
  }

  /** _updatestate: an open socket is connected; a closed one is disconnected and logged out. */
  function UpdateState(l: Link, port: Port): (m: Link)
    ensures m.connected == port.open
    ensures !port.open ==> !m.loggedIn
    ensures port.open ==> m.loggedIn == l.loggedIn
    ensures Backlog(m) == Backlog(l) && m.wire == l.wire && m.lastTx == l.lastTx && m.error == l.error
  {
    if port.open then l.(connected := true) else l.(connected := false, loggedIn := false)
  }

  /**
   * _rawsend: nothing is written unless connected; a successful write puts
   * the line on the wire and stamps the transmit time, a failed one raises
   * the connection error.
   */
  function RawSend(l: Link, port: Port, nowSec: int, line: string): (r: (Link, bool))
    ensures r.1 <==> port.open && port.writable
    ensures r.1 ==> r.0.wire == l.wire + [line] && r.0.lastTx == nowSec && r.0.error == l.error
    ensures !r.1 ==> r.0.wire == l.wire && r.0.lastTx == l.lastTx
    ensures r.0.error <==> l.error || (port.open && !port.writable)
    ensures r.0.high == l.high && r.0.medium == l.medium && r.0.low == l.low
    ensures r.0 == UpdateState(r.0, port)
  {
    var m := UpdateState(l, port);
    if !m.connected then (m, false)
    else if port.writable then (m.(wire := m.wire + [line], lastTx := nowSec), true)
    else (m.(error := true), false)
  }

  /** The buffers after appending a line to the one of its priority. */
  function Enqueue(l: Link, p: Priority, line: string): (m: Link)
    requires Queued(p)
  {
    match p
    case High => l.(high := l.high + [line])
    case Medium => l.(medium := l.medium + [line])
    case Low => l.(low := l.low + [line])
  }

  /**
   * send: CRITICAL goes straight to the socket and leaves the buffers alone;
   * HIGH, MEDIUM and LOW append to their own buffer only; any other
   * priority changes nothing and answers false.
   */
  function Send(l: Link, port: Port, nowSec: int, line: string, p: Priority): (r: (Link, bool))
    ensures p == Critical ==> r.0 == RawSend(l, port, nowSec, line).0 && r.1
    ensures Queued(p) ==> r.1 && r.0.wire == l.wire
    ensures p == High ==> r.0.high == l.high + [line] && r.0.medium == l.medium && r.0.low == l.low
    ensures p == Medium ==> r.0.high == l.high && r.0.medium == l.medium + [line] && r.0.low == l.low
    ensures p == Low ==> r.0.high == l.high && r.0.medium == l.medium && r.0.low == l.low + [line]
    ensures p.Unlisted? ==> r == (l, false)
  {
    if p == Critical then (RawSend(l, port, nowSec, line).0, true)
    else if Queued(p) then (Enqueue(l, p, line), true)
    else (l, false)
  }

  /** Lines sent one after another with the same priority. */
  function SendAll(l: Link, port: Port, nowSec: int, lines: seq<string>, p: Priority): Link
    decreases |lines|
  {
    if lines == [] then l
    else Send(SendAll(l, port, nowSec, lines[..|lines| - 1], p), port, nowSec, lines[|lines| - 1], p).0
  }

  /** One more line after a batch is one more send. */
  lemma SendAllSnoc(l: Link, port: Port, nowSec: int, lines: seq<string>, line: string, p: Priority)
    ensures SendAll(l, port, nowSec, lines + [line], p) == Send(SendAll(l, port, nowSec, lines, p), port, nowSec, line, p).0
  {
    assert (lines + [line])[..|lines|] == lines;
  }

  /** The queued lines of one priority arrive at the end of its buffer, in order, and nothing reaches the wire. */
  lemma {:induction false} SendAllQueued(l: Link, port: Port, nowSec: int, lines: seq<string>)
    ensures SendAll(l, port, nowSec, lines, Medium) == l.(medium := l.medium + lines)
    ensures SendAll(l, port, nowSec, lines, High) == l.(high := l.high + lines)
    ensures SendAll(l, port, nowSec, lines, Low) == l.(low := l.low + lines)
    decreases |lines|
  {
    if lines != [] {
      var init := lines[..|lines| - 1];
      SendAllQueued(l, port, nowSec, init);
      assert init + [lines[|lines| - 1]] == lines;
    }
  }

  /** Critical lines on a writable socket reach the wire in order and leave the buffers alone. */
  lemma {:induction false} SendAllCritical(l: Link, port: Port, nowSec: int, lines: seq<string>)
    requires port.open && port.writable
    ensures var m := SendAll(l, port, nowSec, lines, Critical);
      m.wire == l.wire + lines && m.high == l.high && m.medium == l.medium && m.low == l.low
      && (lines != [] ==> m.connected) && m.error == l.error
    decreases |lines|
  {
    if lines != [] {
      var init := lines[..|lines| - 1];
      SendAllCritical(l, port, nowSec, init);
      assert l.wire + init + [lines[|lines| - 1]] == l.wire + lines;
    }
  }

  /** Critical lines, written or not, leave the buffers alone, and the connected flag keeps following the socket. */
  lemma {:induction false} SendAllCriticalKeeps(l: Link, port: Port, nowSec: int, lines: seq<string>)
    ensures var m := SendAll(l, port, nowSec, lines, Critical);
      m.high == l.high && m.medium == l.medium && m.low == l.low
    ensures l.connected == port.open ==> SendAll(l, port, nowSec, lines, Critical).connected == port.open
    decreases |lines|
  {
    if lines != [] {
      SendAllCriticalKeeps(l, port, nowSec, lines[..|lines| - 1]);
    }
  }

  /** An unknown priority sends nothing, however many lines. */
  lemma {:induction false} SendAllUnlisted(l: Link, port: Port, nowSec: int, lines: seq<string>, code: int)
    ensures SendAll(l, port, nowSec, lines, Unlisted(code)) == l
    decreases |lines|
  {
    if lines != [] {
      SendAllUnlisted(l, port, nowSec, lines[..|lines| - 1], code);
    }
  }

  // ---------------------------------------------------------------- the drain

  /** The first drain after login starts the send clock at the current time. */
  function StartClock(lastSentMs: int, nowMs: int): int
  {
    if lastSentMs == 0 then nowMs else lastSentMs
  }

  /** A line may leave when something is buffered and the send delay has passed since the last one. */
  predicate MayDrain(l: Link, nowMs: int, lastSentMs: int, sendDelayMs: int)
  {
    |Backlog(l)| > 0 && nowMs >= lastSentMs + sendDelayMs
  }

  /** The buffers without their first line: HIGH before MEDIUM before LOW. */
  function TakeFirst(l: Link): (m: Link)
    requires |Backlog(l)| > 0
    ensures Backlog(m) == Backlog(l)[1..]
    ensures l.high != [] ==> m.high == l.high[1..] && m.medium == l.medium && m.low == l.low
    ensures l.high == [] && l.medium != [] ==> m.high == [] && m.medium == l.medium[1..] && m.low == l.low
    ensures l.high == [] && l.medium == [] ==> m.high == [] && m.medium == [] && m.low == l.low[1..]
    ensures m.wire == l.wire && m.lastTx == l.lastTx && m.error == l.error && m.connected == l.connected && m.loggedIn == l.loggedIn
  {
    if l.high != [] then
      assert Backlog(l)[1..] == l.high[1..] + l.medium + l.low;
      l.(high := l.high[1..])
    else if l.medium != [] then
      assert Backlog(l) == l.medium + l.low;
      l.(medium := l.medium[1..])
    else
      l.(low := l.low[1..])
  }

  /** The outcome of one drain: the new link, the new last-send stamp and the line sent, if any. */
  datatype Drained = Drained(link: Link, lastSentMs: int, sent: Option<string>)

  /**
   * One drain while logged in: at most one line leaves, the first of the
   * backlog, and only once the send delay has passed; it goes through the
   * raw send, and the last-send stamp moves to now.
   */
  function Drain(l: Link, port: Port, nowMs: int, nowSec: int, lastSentMs: int, sendDelayMs: int): (d: Drained)
    ensures var start := StartClock(lastSentMs, nowMs);
      if MayDrain(l, nowMs, start, sendDelayMs) then
        d.sent == Some(Backlog(l)[0]) && d.lastSentMs == nowMs && Backlog(d.link) == Backlog(l)[1..]
        && d.link == RawSend(TakeFirst(l), port, nowSec, Backlog(l)[0]).0
      else
        d == Drained(l, start, None)
  {
    var start := StartClock(lastSentMs, nowMs);
    if MayDrain(l, nowMs, start, sendDelayMs) then
      var line := Backlog(l)[0];
      Drained(RawSend(TakeFirst(l), port, nowSec, line).0, nowMs, Some(line))
    else Drained(l, start, None)
  }

  /** Two lines never leave closer together than the send delay: after a send the next drain at a time within the delay sends nothing. */
  lemma DrainRateLimit(l: Link, port: Port, nowMs: int, nowSec: int, lastSentMs: int, sendDelayMs: int, laterMs: int, laterSec: int)
    requires nowMs != 0
    requires Drain(l, port, nowMs, nowSec, lastSentMs, sendDelayMs).sent.Some?
    requires laterMs < nowMs + sendDelayMs
    ensures var d := Drain(l, port, nowMs, nowSec, lastSentMs, sendDelayMs);
      Drain(d.link, port, laterMs, laterSec, d.lastSentMs, sendDelayMs).sent.None?
  {
  }

  /**
   * Without new sends, n drains, each one send delay after the previous
   * (the first one delay after `lastMs`): the link left and the lines emitted.
   */
  function DrainSteps(l: Link, port: Port, lastMs: int, nowSec: int, sendDelayMs: int, n: nat): (r: (Link, seq<string>))
    requires lastMs > 0 && sendDelayMs >= 0
    decreases n
  {
    if n == 0 then (l, [])
    else
      var d := Drain(l, port, lastMs + sendDelayMs, nowSec, lastMs, sendDelayMs);
      var (m, out) := DrainSteps(d.link, port, lastMs + sendDelayMs, nowSec, sendDelayMs, n - 1);
      (m, (if d.sent.Some? then [d.sent.value] else []) + out)
  }

  /** The drain is first-in first-out across the whole backlog, HIGH first. */
  lemma {:induction false} DrainStepsInOrder(l: Link, port: Port, lastMs: int, nowSec: int, sendDelayMs: int, n: nat)
    requires lastMs > 0 && sendDelayMs >= 0
    requires n <= |Backlog(l)|
    ensures var (m, out) := DrainSteps(l, port, lastMs, nowSec, sendDelayMs, n);
      out == Backlog(l)[..n] && Backlog(m) == Backlog(l)[n..]
    decreases n
  {
    if n > 0 {
      var b := Backlog(l);
      var d := Drain(l, port, lastMs + sendDelayMs, nowSec, lastMs, sendDelayMs);
      assert d.sent == Some(b[0]) && Backlog(d.link) == b[1..];
      DrainStepsInOrder(d.link, port, lastMs + sendDelayMs, nowSec, sendDelayMs, n - 1);
      assert b[1..][..n - 1] == b[1..n] && b[1..][n - 1..] == b[n..];
      assert [b[0]] + b[1..n] == b[..n];
    }
  }

  // ---------------------------------------------------------------- the select timeout

  /** `_mintimer` counts only when set and non-zero (PHP truthiness). */
  predicate TimerSet(minTimer: Option<int>)
  {
    minTimer.Some? && minTimer.value != 0
  }

  function Min(a: int, b: int): int
  {
    if a <= b then a else b
  }

  /**
   * The wait before the socket is polled: the send delay while lines are
   * buffered, else the smallest of the maximum timer, the receive delay in
   * microseconds and the shortest timer interval when one is set.
   */
  function SelectTimeout(bufferSize: int, sendDelayMs: int, maxTimer: int, receiveDelayMs: int, minTimer: Option<int>): (t: int)
    ensures bufferSize != 0 ==> t == sendDelayMs
    ensures bufferSize == 0 ==> t <= maxTimer && t <= receiveDelayMs * 1000
    ensures bufferSize == 0 && TimerSet(minTimer) ==> t <= minTimer.value
    ensures bufferSize == 0 ==> t == maxTimer || t == receiveDelayMs * 1000 || (TimerSet(minTimer) && t == minTimer.value)
  {
    if bufferSize != 0 then sendDelayMs
    else
      var base := Min(maxTimer, receiveDelayMs * 1000);
      if TimerSet(minTimer) then Min(base, minTimer.value) else base
  }
}
