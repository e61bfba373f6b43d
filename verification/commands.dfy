/**
 * The lines the command layer (src/Command.php) and the built-in replies
 * (src/MessageHandler.php) put on the outbound queue, as strings in the
 * message format of section 2.3.1 of RFC 2812, with lemmas that a line
 * relayed back by a server with the sender's prefix parses to the same
 * command, parameters and text, and is classified as intended.
 */
module Commands {
  import opened Wrappers
  import opened Text
  import HT = HandlerType
  import opened Parser
  import R = Roster

  /** The one-character string that frames CTCP text. */
  const SOH: string := [CTCP_MARK]

  const VERSION: string := "1.0.01"
  const VERSIONSTRING: string := "jeroeny/phpirc " + VERSION

  // ---------------------------------------------------------------- message

  /** A command with one, two or three words, written out. */
  lemma Words(a: string, b: string, c: string)
    ensures Implode(" ", [a]) == a
    ensures Implode(" ", [a, b]) == a + " " + b
    ensures Implode(" ", [a, b, c]) == a + " " + b + " " + c
  {
    assert [a, b][1..] == [b];
    assert [a, b, c][1..] == [b, c];
    assert [b, c][1..] == [c];
    assert Implode(" ", [b, c]) == b + " " + c;
  }


  /** The message types `message` accepts; any other type, a combination of types included, is refused. */
  predicate Accepted(kind: HT.Mask)
  {
    kind == HT.CHANNEL || kind == HT.QUERY || kind == HT.ACTION || kind == HT.NOTICE
    || kind == HT.CTCP || kind == HT.CTCP_REPLY || kind == HT.CTCP_REQUEST
  }

  /** The command a message type is sent with. */
  function MessageCommand(kind: HT.Mask): string
  {
    if kind == HT.NOTICE || kind == HT.CTCP || kind == HT.CTCP_REPLY then "NOTICE" else "PRIVMSG"
  }

  /** The trailing text a message type is sent with: plain, ACTION-framed or CTCP-framed. */
  function MessageText(kind: HT.Mask, text: string): string
  {
    if kind == HT.ACTION then SOH + "ACTION " + text + SOH
    else if kind == HT.CTCP || kind == HT.CTCP_REPLY || kind == HT.CTCP_REQUEST then SOH + text + SOH
    else text
  }

  /** The line `message` queues for one text, or None when the type is refused. */
  function MessageLine(kind: HT.Mask, dest: string, text: string): (r: Option<string>)
    ensures r.Some? <==> Accepted(kind)
    ensures r.Some? ==> r.value == Compose(None, MessageCommand(kind), [dest], Some(MessageText(kind, text)))
  {
    Words(MessageCommand(kind), dest, "");
    if Accepted(kind) then Some(MessageCommand(kind) + " " + dest + " :" + MessageText(kind, text)) else None
  }

  /** All lines of one `message` call, one per text and in order; None when the type is refused. */
  function MessageLines(kind: HT.Mask, dest: string, texts: seq<string>): (r: Option<seq<string>>)
    ensures r.Some? <==> Accepted(kind)
    ensures r.Some? ==> |r.value| == |texts| && forall i :: 0 <= i < |texts| ==> Some(r.value[i]) == MessageLine(kind, dest, texts[i])
  {
    if Accepted(kind) then Some(seq(|texts|, i requires 0 <= i < |texts| => MessageLine(kind, dest, texts[i]).value)) else None
  }

  /** Only single types are accepted: a combined mask such as CTCP_REQUEST|CTCP sends nothing. */
  lemma CombinedTypeRefused(kind: HT.Mask)
    requires !HT.IsSingleBit(kind)
    ensures MessageLine(kind, "", "") == None
  {
    HT.ClassesAreBits();
  }

  /** A server relays a line with the sender's prefix in front. */
  function Relay(prefix: string, line: string): string
  {
    ":" + prefix + " " + line
  }

  /** The conditions for a sender prefix nick!ident@host to survive the parser. */
  predicate GoodOrigin(nick: string, ident: string, host: string)
  {
    nick != "" && ident != "" && host != "" && NoSpace(nick) && NoSpace(ident) && NoSpace(host)
    && '!' !in ident && '@' !in host
  }

  /** Relaying a composed line is composing it with the prefix. */
  lemma RelayCompose(prefix: string, command: string, params: seq<string>, trailing: Option<string>)
    ensures Relay(prefix, Compose(None, command, params, trailing)) == Compose(Some(prefix), command, params, trailing)
  {
  }

  /** A relayed message parses back to its sender, command, destination and framed text, and is classified from those. */
  lemma MessageRelay(nick: string, ident: string, host: string, kind: HT.Mask, dest: string, text: string, me: string)
    requires GoodOrigin(nick, ident, host) && Accepted(kind) && IsWord(dest)
    ensures var m := ParseLine(Relay(nick + "!" + ident + "@" + host, MessageLine(kind, dest, text).value), me);
      m.nick == nick && m.ident == ident && m.host == host
      && m.command == MessageCommand(kind) && m.params == [dest] && m.trailing == MessageText(kind, text)
      && m.kind == Classify(MessageCommand(kind), [dest], MessageText(kind, text), me).kind
      && m.channel == Classify(MessageCommand(kind), [dest], MessageText(kind, text), me).channel
  {
    assert IsWord(MessageCommand(kind));
    RelayCompose(nick + "!" + ident + "@" + host, MessageCommand(kind), [dest], Some(MessageText(kind, text)));
    ParseCompose(nick, ident, host, MessageCommand(kind), [dest], MessageText(kind, text), me);
  }

  /** A CTCP-framed text is recognised as CTCP when it holds no line feed. */
  lemma FramedIsCtcp(text: string)
    requires '\n' !in text
    ensures IsCtcp(SOH + text + SOH)
  {
    var m := SOH + text + SOH;
    assert m[1..|m| - 1] == text;
  }

  /** A CTCP reply (or the old CTCP type) comes back as CTCP_REPLY|CTCP, with the text inside the framing. */
  lemma CtcpReplyRelay(nick: string, ident: string, host: string, dest: string, text: string, me: string)
    requires GoodOrigin(nick, ident, host) && IsWord(dest) && '\n' !in text
    ensures var m := ParseLine(Relay(nick + "!" + ident + "@" + host, MessageLine(HT.CTCP_REPLY, dest, text).value), me);
      m.kind == HT.CTCP_REPLY | HT.CTCP && m.trailing == SOH + text + SOH && m.params == [dest]
  {
    MessageRelay(nick, ident, host, HT.CTCP_REPLY, dest, text, me);
    FramedIsCtcp(text);
  }

  /** A CTCP-framed text is not an ACTION unless it starts with "ACTION ". */
  lemma FramedNotAction(text: string)
    requires !(|text| >= 7 && text[..7] == "ACTION ")
    ensures !IsAction(SOH + text + SOH)
  {
    var t := SOH + text + SOH;
    if |t| >= 9 {
      assert t[1..8] == text[..7];
      assert t[..8] != SOH + "ACTION ";
    }
  }

  /** A CTCP request to a nick comes back as CTCP_REQUEST|CTCP unless its text starts like an ACTION. */
  lemma CtcpRequestRelay(nick: string, ident: string, host: string, dest: string, text: string, me: string)
    requires GoodOrigin(nick, ident, host) && IsWord(dest) && '\n' !in text
    requires !IsChannelName(dest) && !(|text| >= 7 && text[..7] == "ACTION ")
    ensures var m := ParseLine(Relay(nick + "!" + ident + "@" + host, MessageLine(HT.CTCP_REQUEST, dest, text).value), me);
      m.kind == HT.CTCP_REQUEST | HT.CTCP && m.trailing == SOH + text + SOH
  {
    MessageRelay(nick, ident, host, HT.CTCP_REQUEST, dest, text, me);
    FramedIsCtcp(text);
    FramedNotAction(text);
    assert CodeOf("PRIVMSG") == None;
  }

  /** An ACTION to a nick comes back as ACTION; to a channel it comes back as a CHANNEL message, the channel check coming first. */
  lemma ActionRelay(nick: string, ident: string, host: string, dest: string, text: string, me: string)
    requires GoodOrigin(nick, ident, host) && IsWord(dest) && '\n' !in text
    ensures var m := ParseLine(Relay(nick + "!" + ident + "@" + host, MessageLine(HT.ACTION, dest, text).value), me);
      (!IsChannelName(dest) ==> m.kind == HT.ACTION && m.channel == dest)
      && (IsChannelName(dest) ==> m.kind == HT.CHANNEL && m.channel == dest)
  {
    MessageRelay(nick, ident, host, HT.ACTION, dest, text, me);
    FramedIsAction(text);
    assert CodeOf("PRIVMSG") == None;
  }

  /** An ACTION-framed text without a line feed is recognised as an ACTION. */
  lemma FramedIsAction(text: string)
    requires '\n' !in text
    ensures var t := SOH + "ACTION " + text + SOH;
      t[0] == CTCP_MARK && IsAction(t)
  {
    var t := SOH + "ACTION " + text + SOH;
    assert t[..8] == SOH + "ACTION ";
    assert t[8..|t| - 1] == text;
  }

  /** A plain message to a channel comes back as CHANNEL with that channel; to a nick, as a QUERY. */
  lemma PlainRelay(nick: string, ident: string, host: string, dest: string, text: string, me: string)
    requires GoodOrigin(nick, ident, host) && IsWord(dest)
    requires |text| == 0 || text[0] != CTCP_MARK
    ensures var m := ParseLine(Relay(nick + "!" + ident + "@" + host, MessageLine(HT.CHANNEL, dest, text).value), me);
      (IsChannelName(dest) ==> m.kind == HT.CHANNEL && m.channel == dest)
      && (!IsChannelName(dest) ==> m.kind == HT.QUERY)
      && m.trailing == text
  {
    MessageRelay(nick, ident, host, HT.CHANNEL, dest, text, me);
  }

  /** A NOTICE whose text is not CTCP-framed comes back as NOTICE. */
  lemma NoticeRelay(nick: string, ident: string, host: string, dest: string, text: string, me: string)
    requires GoodOrigin(nick, ident, host) && IsWord(dest) && !IsCtcp(text)
    ensures var m := ParseLine(Relay(nick + "!" + ident + "@" + host, MessageLine(HT.NOTICE, dest, text).value), me);
      m.kind == HT.NOTICE && m.trailing == text
  {
    MessageRelay(nick, ident, host, HT.NOTICE, dest, text, me);
  }

  // ---------------------------------------------------------------- channel commands

  /** One JOIN, with the key when one is given. */
  function JoinLine(channel: string, key: Option<string>): (r: string)
    ensures r == Compose(None, "JOIN", [channel] + (if key.Some? then [key.value] else []), None)
  {
    Words("JOIN", channel, key.GetOr(""));
    assert ["JOIN"] + [channel] == ["JOIN", channel];
    assert ["JOIN"] + ([channel] + [key.GetOr("")]) == ["JOIN", channel, key.GetOr("")];
    assert ["JOIN"] + ([channel] + []) == ["JOIN", channel];
    if key.Some? then "JOIN " + channel + " " + key.value else "JOIN " + channel
  }

  /** `join`: one JOIN per channel, in order, each with the key when one is given. */
  function JoinLines(channels: seq<string>, key: Option<string>): (r: seq<string>)
    ensures |r| == |channels|
    ensures forall i :: 0 <= i < |channels| ==>
      r[i] == Compose(None, "JOIN", [channels[i]] + (if key.Some? then [key.value] else []), None)
  {
    seq(|channels|, i requires 0 <= i < |channels| => JoinLine(channels[i], key))
  }

  /** The optional " :reason" tail. */
  function Reason(reason: Option<string>): string
  {
    if reason.Some? then " :" + reason.value else ""
  }

  /** `part`: one PART for the comma-joined channels, with a reason only when one is given. */
  function PartLine(channels: seq<string>, reason: Option<string>): (r: string)
    ensures r == Compose(None, "PART", [Implode(",", channels)], reason)
  {
    Words("PART", Implode(",", channels), "");
    "PART " + Implode(",", channels) + Reason(reason)
  }

  /** `kick`: one KICK for the comma-joined nicks, with a reason only when one is given. */
  function KickLine(channel: string, nicks: seq<string>, reason: Option<string>): (r: string)
    ensures r == Compose(None, "KICK", [channel, Implode(",", nicks)], reason)
  {
    Words("KICK", channel, Implode(",", nicks));
    "KICK " + channel + " " + Implode(",", nicks) + Reason(reason)
  }

  /** `getList` and `names`: the bare command without channels, else the comma-joined channels. */
  function ListingLine(command: string, channels: Option<seq<string>>): (r: string)
    ensures channels.None? ==> r == command
    ensures channels.Some? ==> r == Compose(None, command, [Implode(",", channels.value)], None)
  {
    if channels.Some? then Words(command, Implode(",", channels.value), ""); command + " " + Implode(",", channels.value)
    else command
  }

  /** `setTopic` with a text, `getTopic` without. */
  function TopicLine(channel: string, topic: Option<string>): (r: string)
    ensures r == Compose(None, "TOPIC", [channel], topic)
  {
    Words("TOPIC", channel, "");
    "TOPIC " + channel + Reason(topic)
  }

  /** `mode`: the target, and the new mode when given. */
  function ModeLine(target: string, newMode: Option<string>): string
  {
    if newMode.Some? then "MODE " + target + " " + newMode.value else "MODE " + target
  }

  function RoleLetter(r: R.Role): char
  {
    match r
    case Founder => 'q'
    case Admin => 'a'
    case Op => 'o'
    case Hop => 'h'
    case Voice => 'v'
  }

  /** founder/defounder, admin/deadmin, op/deop, hop/dehop, voice/devoice. */
  function RoleModeLine(channel: string, r: R.Role, grant: bool, nick: string): (line: string)
    ensures line == Compose(None, "MODE", [channel, [if grant then '+' else '-', RoleLetter(r)], nick], None)
  {
    Words("MODE", channel, [if grant then '+' else '-', RoleLetter(r)]);
    var four := ["MODE", channel, [if grant then '+' else '-', RoleLetter(r)], nick];
    assert four[1..] == [channel, [if grant then '+' else '-', RoleLetter(r)], nick];
    Words(channel, [if grant then '+' else '-', RoleLetter(r)], nick);
    ModeLine(channel, Some([if grant then '+' else '-', RoleLetter(r)] + " " + nick))
  }

  /** The mode letters and the role letters agree. */
  lemma RoleLetterRoundTrip(r: R.Role)
    ensures R.RoleOfLetter(RoleLetter(r)) == Some(r)
  {
  }

  /** A relayed line without trailing text parses back to its parameters. */
  lemma RelayedParams(nick: string, ident: string, host: string, command: string, params: seq<string>, me: string)
    requires GoodOrigin(nick, ident, host)
    requires IsWord(command) && forall i :: 0 <= i < |params| ==> IsWord(params[i])
    ensures var m := ParseLine(Relay(nick + "!" + ident + "@" + host, Compose(None, command, params, None)), me);
      m.command == command && m.params == params && m.trailing == ""
  {
    var prefix := nick + "!" + ident + "@" + host;
    RelayCompose(prefix, command, params, None);
    UserHostNoSpace(nick, ident, host);
    CutCompose(Some(prefix), command, params, None);
  }

  /** Scanning a two-letter role change with the nick as its one argument sets exactly that role. */
  lemma ScanRoleChange(c: R.Channel, r: R.Role, grant: bool, channel: string, target: string)
    ensures var params := [channel, [if grant then '+' else '-', RoleLetter(r)], target];
      var e := R.ScanMode(R.StartScan(c, params), params[1]).channel;
      (grant ==> target in R.Holders(e, r)) && (!grant ==> target !in R.Holders(e, r))
      && Lower(target) in e.users && R.Flag(e.users[Lower(target)], r) == Some(grant)
  {
    var params := [channel, [if grant then '+' else '-', RoleLetter(r)], target];
    assert params[2..] == [target] + [];
    RoleLetterRoundTrip(r);
    if grant {
      R.GrantRole(c, RoleLetter(r), target, []);
    } else {
      R.RevokeRole(c, RoleLetter(r), target, []);
    }
  }

  /**
   * A role change sent by the client and relayed back by the server, fed
   * to the MODE scanner, grants or revokes exactly that role for that nick.
   */
  lemma RoleModeRelay(nick: string, ident: string, host: string, channel: string, r: R.Role, grant: bool, target: string,
                      me: string, c: R.Channel)
    requires GoodOrigin(nick, ident, host) && IsWord(channel) && IsWord(target)
    ensures var m := ParseLine(Relay(nick + "!" + ident + "@" + host, RoleModeLine(channel, r, grant, target)), me);
      m.params == [channel, [if grant then '+' else '-', RoleLetter(r)], target]
      && var e := R.ScanMode(R.StartScan(c, m.params), m.params[1]).channel;
      (grant ==> target in R.Holders(e, r)) && (!grant ==> target !in R.Holders(e, r))
      && Lower(target) in e.users && R.Flag(e.users[Lower(target)], r) == Some(grant)
  {
    RoleModeParsed(nick, ident, host, channel, r, grant, target, me);
    ScanRoleChange(c, r, grant, channel, target);
  }

  /** The parameters the parser finds in a relayed role change: the channel, the two letters and the nick. */
  lemma RoleModeParsed(nick: string, ident: string, host: string, channel: string, r: R.Role, grant: bool, target: string, me: string)
    requires GoodOrigin(nick, ident, host) && IsWord(channel) && IsWord(target)
    ensures ParseLine(Relay(nick + "!" + ident + "@" + host, RoleModeLine(channel, r, grant, target)), me).params
      == [channel, [if grant then '+' else '-', RoleLetter(r)], target]
  {
    var letters := [if grant then '+' else '-', RoleLetter(r)];
    var params := [channel, letters, target];
    assert IsWord(letters);
    assert forall i :: 0 <= i < |params| ==> IsWord(params[i]);
    RelayedParams(nick, ident, host, "MODE", params, me);
  }

  /** `ban`: without a mask the ban list is asked for ("MODE c b"), with one it is set. */
  function BanLine(channel: string, mask: Option<string>): (r: string)
    ensures mask.None? ==> r == Compose(None, "MODE", [channel, "b"], None)
    ensures mask.Some? ==> r == "MODE " + channel + " +b " + mask.value
  {
    Words("MODE", channel, "b");
    if mask.Some? then ModeLine(channel, Some("+b " + mask.value)) else ModeLine(channel, Some("b"))
  }

  /** `unban`. */
  function UnbanLine(channel: string, mask: string): (r: string)
    ensures r == "MODE " + channel + " -b " + mask
  {
    ModeLine(channel, Some("-b " + mask))
  }

  /** `invite`. */
  function InviteLine(nick: string, channel: string): (r: string)
    ensures r == Compose(None, "INVITE", [nick, channel], None)
  {
    Words("INVITE", nick, channel);
    "INVITE " + nick + " " + channel
  }

  /** `changeNick`, `who`, `whois`, `whowas`: a command with one parameter. */
  function Single(command: string, arg: string): (r: string)
    ensures r == Compose(None, command, [arg], None)
  {
    Words(command, arg, "");
    command + " " + arg
  }

  /** `quit`: QUIT, with the message as trailing text when one is given. */
  function QuitLine(message: Option<string>): (r: string)
    ensures r == Compose(None, "QUIT", [], message)
  {
    "QUIT" + Reason(message)
  }

  // ---------------------------------------------------------------- built-in replies

  /** The answer to a server PING: its text back, as trailing text of PONG. */
  function PongLine(text: string): (r: string)
    ensures r == Compose(None, "PONG", [], Some(text))
  {
    "PONG :" + text
  }

  /**
   * The reply text _event_privmsg sends back to a CTCP request: PING echoes
   * its payload, VERSION names the configured version string (the library's
   * own when that is empty), CLIENTINFO lists the three; anything else gets
   * no reply.
   */
  function CtcpAnswer(text: string, ctcpVersion: string): Option<string>
  {
    if Substr(text, 1, 4) == "PING" then Some("PING" + Substr(text, 5, -1))
    else if Substr(text, 1, 7) == "VERSION" then
      Some("VERSION " + (if !IsEmpty(Some(ctcpVersion)) then ctcpVersion else VERSIONSTRING))
    else if Substr(text, 1, 10) == "CLIENTINFO" then Some("CLIENTINFO PING VERSION CLIENTINFO")
    else None
  }

  /** A CTCP PING is answered with the same payload. */
  lemma PingEchoesPayload(payload: string, ctcpVersion: string)
    ensures CtcpAnswer(SOH + "PING" + payload + SOH, ctcpVersion) == Some("PING" + payload)
  {
    var t := SOH + "PING" + payload + SOH;
    assert t[1..5] == "PING";
    assert t[5..|t| - 1] == payload;
  }

  /** A CTCP VERSION is answered with the configured version, or the library's own when none is set. */
  lemma VersionAnswer(rest: string, ctcpVersion: string)
    ensures var a := CtcpAnswer(SOH + "VERSION" + rest, ctcpVersion);
      a.Some?
      && (ctcpVersion != "" && ctcpVersion != "0" ==> a.value == "VERSION " + ctcpVersion)
      && (ctcpVersion == "" || ctcpVersion == "0" ==> a.value == "VERSION jeroeny/phpirc 1.0.01")
  {
    var t := SOH + "VERSION" + rest;
    assert t[1..5] == "VERS";
    assert t[1..8] == "VERSION";
  }

  /** The whole round trip: a PING request relayed to the client is answered by a NOTICE that comes back as a CTCP reply with the payload. */
  lemma PingRoundTrip(nick: string, ident: string, host: string, dest: string, payload: string, me: string, ctcpVersion: string)
    requires GoodOrigin(nick, ident, host) && IsWord(dest) && '\n' !in payload
    ensures var answer := CtcpAnswer(SOH + "PING" + payload + SOH, ctcpVersion);
      answer == Some("PING" + payload)
      && var m := ParseLine(Relay(nick + "!" + ident + "@" + host, MessageLine(HT.CTCP_REPLY, dest, answer.value).value), me);
      m.kind == HT.CTCP_REPLY | HT.CTCP && m.trailing == SOH + answer.value + SOH
  {
    var answer := "PING" + payload;
    PingEchoesPayload(payload, ctcpVersion);
    assert answer[4..] == payload;
    CtcpReplyRelay(nick, ident, host, dest, answer, me);
  }

  /** The nick tried after a collision: the first five characters of the nick, then a number below 1000. */
  function FallbackNick(nick: string, roll: nat): (r: string)
    requires roll < 1000
    ensures var n := if |nick| < 5 then |nick| else 5;
      4 <= |r| - n + 3 <= 6 && |r| <= 8 && r[..n] == nick[..n] && IsDigits(r[n..])
  {
    var digits := NatToString(roll);
    assert |digits| <= 3 by {
      if roll >= 10 {
        assert |NatToString(roll / 10)| <= 2 by {
          if roll / 10 >= 10 {
            assert roll / 100 < 10;
          }
        }
      }
    }
    var head := Substr(nick, 0, 5);
    assert (head + digits)[|head|..] == digits;
    head + digits
  }
}
