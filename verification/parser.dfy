/**
 * Turning received bytes into messages (src/Irc.php, listenOnce): splitting
 * the buffer into lines, cutting a line into prefix, command, parameters and
 * trailing text, splitting the prefix into nick, ident and host, classifying
 * the message with a HandlerType flag, and naming the event method that
 * handles it.
 */
module Parser {
  import opened Wrappers
  import opened Text
  import HT = HandlerType

  const CRLF: string := "\r\n"
  /** The CTCP delimiter, chr(1). */
  const CTCP_MARK: char := '\U{1}'

  // ---------------------------------------------------------------- numeric replies

  // The numeric replies the classifier and the built-in handlers name, with
  // the codes section 5 of RFC 2812 assigns to them.
  const RPL_WELCOME: nat := 1
  const RPL_YOURHOST: nat := 2
  const RPL_CREATED: nat := 3
  const RPL_MYINFO: nat := 4
  const RPL_BOUNCE: nat := 5
  const RPL_UMODEIS: nat := 221
  const RPL_LUSERCLIENT: nat := 251
  const RPL_LUSEROP: nat := 252
  const RPL_LUSERUNKNOWN: nat := 253
  const RPL_LUSERCHANNELS: nat := 254
  const RPL_LUSERME: nat := 255
  const RPL_WHOISUSER: nat := 311
  const RPL_WHOISSERVER: nat := 312
  const RPL_WHOISOPERATOR: nat := 313
  const RPL_WHOWASUSER: nat := 314
  const RPL_ENDOFWHO: nat := 315
  const RPL_WHOISIDLE: nat := 317
  const RPL_ENDOFWHOIS: nat := 318
  const RPL_WHOISCHANNELS: nat := 319
  const RPL_LISTSTART: nat := 321
  const RPL_LIST: nat := 322
  const RPL_LISTEND: nat := 323
  const RPL_CHANNELMODEIS: nat := 324
  const RPL_TOPIC: nat := 332
  const RPL_WHOREPLY: nat := 352
  const RPL_NAMREPLY: nat := 353
  const RPL_ENDOFNAMES: nat := 366
  const RPL_BANLIST: nat := 367
  const RPL_ENDOFBANLIST: nat := 368
  const RPL_ENDOFWHOWAS: nat := 369
  const RPL_MOTD: nat := 372
  const RPL_MOTDSTART: nat := 375
  const RPL_ENDOFMOTD: nat := 376
  const ERR_NICKNAMEINUSE: nat := 433
  const ERR_NOTREGISTERED: nat := 451

  /** The symbolic name of a code, lower-cased as it appears in event method names. */
  function ReplyName(n: nat): Option<string>
  {
    if n == RPL_WELCOME then Some("rpl_welcome")
    else if n == RPL_YOURHOST then Some("rpl_yourhost")
    else if n == RPL_CREATED then Some("rpl_created")
    else if n == RPL_MYINFO then Some("rpl_myinfo")
    else if n == RPL_BOUNCE then Some("rpl_bounce")
    else if n == RPL_UMODEIS then Some("rpl_umodeis")
    else if n == RPL_LUSERCLIENT then Some("rpl_luserclient")
    else if n == RPL_LUSEROP then Some("rpl_luserop")
    else if n == RPL_LUSERUNKNOWN then Some("rpl_luserunknown")
    else if n == RPL_LUSERCHANNELS then Some("rpl_luserchannels")
    else if n == RPL_LUSERME then Some("rpl_luserme")
    else if n == RPL_WHOISUSER then Some("rpl_whoisuser")
    else if n == RPL_WHOISSERVER then Some("rpl_whoisserver")
    else if n == RPL_WHOISOPERATOR then Some("rpl_whoisoperator")
    else if n == RPL_WHOWASUSER then Some("rpl_whowasuser")
    else if n == RPL_ENDOFWHO then Some("rpl_endofwho")
    else if n == RPL_WHOISIDLE then Some("rpl_whoisidle")
    else if n == RPL_ENDOFWHOIS then Some("rpl_endofwhois")
    else if n == RPL_WHOISCHANNELS then Some("rpl_whoischannels")
    else if n == RPL_LISTSTART then Some("rpl_liststart")
    else if n == RPL_LIST then Some("rpl_list")
    else if n == RPL_LISTEND then Some("rpl_listend")
    else if n == RPL_CHANNELMODEIS then Some("rpl_channelmodeis")
    else if n == RPL_TOPIC then Some("rpl_topic")
    else if n == RPL_WHOREPLY then Some("rpl_whoreply")
    else if n == RPL_NAMREPLY then Some("rpl_namreply")
    else if n == RPL_ENDOFNAMES then Some("rpl_endofnames")
    else if n == RPL_BANLIST then Some("rpl_banlist")
    else if n == RPL_ENDOFBANLIST then Some("rpl_endofbanlist")
    else if n == RPL_ENDOFWHOWAS then Some("rpl_endofwhowas")
    else if n == RPL_MOTD then Some("rpl_motd")
    else if n == RPL_MOTDSTART then Some("rpl_motdstart")
    else if n == RPL_ENDOFMOTD then Some("rpl_endofmotd")
    else if n == ERR_NICKNAMEINUSE then Some("err_nicknameinuse")
    else if n == ERR_NOTREGISTERED then Some("err_notregistered")
    else None
  }

  function DigitValue(c: char): nat
    requires IsDigit(c)
  {
    c as int - '0' as int
  }

  /** The three-digit command a server sends for code `n`. */
  function Code(n: nat): (c: string)
    requires n < 1000
    ensures |c| == 3 && IsDigits(c)
  {
    [DigitChar(n / 100), DigitChar(n / 10 % 10), DigitChar(n % 10)]
  }

  lemma DigitRoundTrip(c: char, d: nat)
    ensures IsDigit(c) ==> DigitValue(c) < 10 && DigitChar(DigitValue(c)) == c
    ensures d < 10 ==> IsDigit(DigitChar(d)) && DigitValue(DigitChar(d)) == d
  {
  }

  lemma ThreeDigits(a: nat, b: nat, c: nat)
    requires a < 10 && b < 10 && c < 10
    ensures var n := a * 100 + b * 10 + c; n < 1000 && n / 100 == a && n / 10 % 10 == b && n % 10 == c
  {
    var n := a * 100 + b * 10 + c;
    assert n / 10 == a * 10 + b;
  }

  /** The code a command stands for, when it is three digits. */
  function CodeOf(command: string): (r: Option<nat>)
    ensures r.Some? ==> r.value < 1000 && Code(r.value) == command
  {
    if |command| == 3 && IsDigits(command) then
      var a, b, c := DigitValue(command[0]), DigitValue(command[1]), DigitValue(command[2]);
      DigitRoundTrip(command[0], 0);
      DigitRoundTrip(command[1], 0);
      DigitRoundTrip(command[2], 0);
      ThreeDigits(a, b, c);
      Some(a * 100 + b * 10 + c)
    else None
  }

  /** Every code below 1000 is read back from its three digits, so CodeOf and Code are inverse. */
  lemma CodeOfCode(n: nat)
    requires n < 1000
    ensures CodeOf(Code(n)) == Some(n)
  {
    var c := Code(n);
    DigitRoundTrip(c[0], n / 100);
    DigitRoundTrip(c[1], n / 10 % 10);
    DigitRoundTrip(c[2], n % 10);
    assert n == n / 100 * 100 + n / 10 % 10 * 10 + n % 10;
  }

  // ---------------------------------------------------------------- messages

  /**
   * A parsed line. PHP's null `channel` is the empty string here; `kind` is
   * the source's `type` field.
   */
  datatype Message = Message(
    raw: string,
    from: string,
    nick: string,
    ident: string,
    host: string,
    command: string,
    params: seq<string>,
    trailing: string,
    kind: HT.Mask,
    channel: string)
  {
    /** The trailing text split at spaces (`messageex`). */
    function Words(): seq<string>
    {
      Explode(" ", trailing)
    }
  }

  /** `$params[$i]`: the parameter, or None (PHP's null) past the end. */
  function Param(params: seq<string>, i: nat): Option<string>
  {
    if i < |params| then Some(params[i]) else None
  }

  /** `$params[$i]` where only string context sees it: a missing parameter reads as "". */
  function ParamOr(params: seq<string>, i: nat): string
  {
    Param(params, i).GetOr("")
  }

  // ---------------------------------------------------------------- cutting a line

  datatype Frame = Frame(prefix: string, command: string, params: seq<string>, trailing: string)

  /**
   * The prefix of a line that starts with ':' runs up to the first space;
   * with no space, strpos gives false, which counts as 0 in the arithmetic
   * that follows. The second component is that position (-1 without prefix).
   */
  function PrefixPart(line: string): (r: (string, int))
    ensures r.1 >= -1
  {
    if |line| > 0 && line[0] == ':' then
      match IndexOf(line, " ")
      case Some(sp) => (Substr(line, 1, sp - 1), sp as int)
      case None => (Substr(line, 1, -1), 0)
    else ("", -1)
  }

  /**
   * The trailing text follows the first " :"; a match at position 0 is
   * falsy and ignored. The second component is where the middle part ends.
   */
  function TrailingPart(line: string): (r: (string, int))
  {
    match IndexOf(line, " :")
    case Some(t) => if t != 0 then (SubstrFrom(line, t + 2), t as int) else ("", |line|)
    case None => ("", |line|)
  }

  /** The strpos/substr/explode block of listenOnce. */
  function Cut(line: string): (f: Frame)
  {
    var (prefix, prefixEnd) := PrefixPart(line);
    var (trailing, trailingStart) := TrailingPart(line);
    var words := Explode(" ", Substr(line, (prefixEnd + 1) as nat, trailingStart - prefixEnd - 1));
    Frame(prefix, words[0], words[1..], trailing)
  }

  datatype Origin = Origin(nick: string, ident: string, host: string)

  /** The largest index below `n` holding `c`. */
  function LastIndexBelow(s: string, c: char, n: int): (r: Option<nat>)
    requires n <= |s|
    ensures r.Some? ==> r.value < n && s[r.value] == c && forall j :: r.value < j < n ==> s[j] != c
    ensures r.None? ==> forall j :: 0 <= j < n ==> s[j] != c
    decreases n
  {
    if n <= 0 then None
    else if s[n - 1] == c then Some(n - 1)
    else LastIndexBelow(s, c, n - 1)
  }

  predicate NoSpace(s: string)
  {
    forall i :: 0 <= i < |s| ==> !IsSpace(s[i])
  }

  /**
   * Greedy matching of (\S+)!(\S+)@(\S+) against the whole of `p`: the host
   * starts after the last '@' that leaves it non-empty, the ident after the
   * last '!' that leaves both nick and ident non-empty.
   */
  function MatchUserHost(p: string): (r: Option<Origin>)
    ensures r.Some? ==> r.value.nick != "" && r.value.ident != "" && r.value.host != ""
    ensures r.Some? ==> p == r.value.nick + "!" + r.value.ident + "@" + r.value.host
  {
    var at := LastIndexBelow(p, '@', |p| - 1);
    var bang := if at.Some? then LastIndexBelow(p, '!', at.value - 1) else None;
    if NoSpace(p) && at.Some? && bang.Some? && bang.value >= 1 then
      var o := Origin(p[..bang.value], p[bang.value + 1..at.value], p[at.value + 1..]);
      assert p == o.nick + "!" + o.ident + "@" + o.host;
      Some(o)
    else None
  }

  /**
   * The prefix as nick, ident and host; `$` also matches before a final line
   * feed. A prefix that does not match is all host.
   */
  function SplitPrefix(prefix: string): (o: Origin)
    ensures o.nick == "" ==> o.ident == "" && o.host == prefix
    ensures o.nick != "" ==> o.ident != "" && o.host != ""
    ensures o.nick != "" ==>
      var whole := o.nick + "!" + o.ident + "@" + o.host;
      prefix == whole || prefix == whole + "\n"
  {
    match MatchUserHost(prefix)
    case Some(o) => o
    case None =>
      if |prefix| > 0 && prefix[|prefix| - 1] == '\n' && MatchUserHost(prefix[..|prefix| - 1]).Some? then
        var o := MatchUserHost(prefix[..|prefix| - 1]).value;
        assert prefix == prefix[..|prefix| - 1] + "\n";
        o
      else Origin("", "", prefix)
  }

  lemma UserHostLayout(nick: string, ident: string, host: string)
    ensures var p := nick + "!" + ident + "@" + host;
      var a := |nick| + 1 + |ident|;
      |p| == a + 1 + |host| && p[..|nick|] == nick && p[|nick|] == '!'
      && p[|nick| + 1..a] == ident && p[a] == '@' && p[a + 1..] == host
  {
  }

  lemma UserHostNoSpace(nick: string, ident: string, host: string)
    requires NoSpace(nick) && NoSpace(ident) && NoSpace(host)
    ensures NoSpace(nick + "!" + ident + "@" + host)
    ensures ' ' !in nick + "!" + ident + "@" + host
  {
    var p := nick + "!" + ident + "@" + host;
    var a := |nick| + 1 + |ident|;
    UserHostLayout(nick, ident, host);
    forall i | 0 <= i < |p|
      ensures !IsSpace(p[i])
    {
      if i < |nick| {
        assert p[i] == p[..|nick|][i];
      } else if |nick| < i < a {
        assert p[i] == p[|nick| + 1..a][i - |nick| - 1];
      } else if a < i {
        assert p[i] == p[a + 1..][i - a - 1];
      }
    }
    forall i | 0 <= i < |p|
      ensures p[i] != ' '
    {
      assert !IsSpace(p[i]);
    }
  }

  /** nick!ident@host splits back into its three parts when ident has no '!' and host no '@'. */
  lemma SplitPrefixOfUserHost(nick: string, ident: string, host: string)
    requires nick != "" && ident != "" && host != ""
    requires NoSpace(nick) && NoSpace(ident) && NoSpace(host)
    requires '!' !in ident && '@' !in host
    ensures SplitPrefix(nick + "!" + ident + "@" + host) == Origin(nick, ident, host)
  {
    var p := nick + "!" + ident + "@" + host;
    UserHostLayout(nick, ident, host);
    UserHostNoSpace(nick, ident, host);
    LastAtOfUserHost(nick, ident, host);
    LastBangOfUserHost(nick, ident, host);
    assert MatchUserHost(p) == Some(Origin(nick, ident, host));
  }

  /** The host of nick!ident@host starts after the last '@' when the host has none. */
  lemma LastAtOfUserHost(nick: string, ident: string, host: string)
    requires host != "" && '@' !in host
    ensures var p := nick + "!" + ident + "@" + host;
      LastIndexBelow(p, '@', |p| - 1) == Some(|nick| + 1 + |ident|)
  {
    var p := nick + "!" + ident + "@" + host;
    var a := |nick| + 1 + |ident|;
    assert p[a] == '@';
    forall j | a < j < |p| - 1
      ensures p[j] != '@'
    {
      assert p[j] == host[j - a - 1];
    }
    LastIndexIs(p, '@', |p| - 1, a);
  }

  /** The ident of nick!ident@host starts after the last '!' before the '@' when the ident has none. */
  lemma LastBangOfUserHost(nick: string, ident: string, host: string)
    requires ident != "" && '!' !in ident
    ensures LastIndexBelow(nick + "!" + ident + "@" + host, '!', |nick| + |ident|) == Some(|nick|)
  {
    BangOnlyAfterNick(nick, ident);
    LastIndexBeforeTail(nick + "!" + ident, "@", host, '!', |nick| + |ident|, |nick|);
  }

  /** The last `c` below `n` is at `k` when it is so in `s`, whatever follows `s`. */
  lemma LastIndexBeforeTail(s: string, t: string, u: string, c: char, n: int, k: nat)
    requires k < n <= |s| && s[k] == c
    requires forall j :: k < j < n ==> s[j] != c
    ensures LastIndexBelow(s + t + u, c, n) == Some(k)
  {
    LastIndexIs(s, c, n, k);
    LastIndexOfPrefix(s, t, c, n);
    LastIndexOfPrefix(s + t, u, c, n);
  }

  /** The search below `n` only looks at the first `n` characters. */
  lemma {:induction false} LastIndexOfPrefix(s: string, t: string, c: char, n: int)
    requires n <= |s|
    ensures LastIndexBelow(s + t, c, n) == LastIndexBelow(s, c, n)
    decreases n
  {
    if n > 0 {
      assert (s + t)[n - 1] == s[n - 1];
      LastIndexOfPrefix(s, t, c, n - 1);
    }
  }

  /** In nick!ident with no '!' in the ident, the '!' after the nick is the last one. */
  lemma BangOnlyAfterNick(nick: string, ident: string)
    requires '!' !in ident
    ensures var w := nick + "!" + ident;
      w[|nick|] == '!' && forall j :: |nick| < j < |w| ==> w[j] != '!'
  {
    var w := nick + "!" + ident;
    forall j | |nick| < j < |w|
      ensures w[j] != '!'
    {
      assert w[j] == ident[j - |nick| - 1];
    }
  }

  /** The last `c` below `n` is at `k` when `s[k]` is one and nothing between is. */
  lemma LastIndexIs(s: string, c: char, n: int, k: nat)
    requires k < n <= |s| && s[k] == c
    requires forall j :: k < j < n ==> s[j] != c
    ensures LastIndexBelow(s, c, n) == Some(k)
  {
  }

  // ---------------------------------------------------------------- classification

  /**
   * `m` matches /^HEAD.*\x01$/ where `.` is any character but a line feed
   * and `$` also matches before one final line feed.
   */
  predicate FramedBy(m: string, head: string)
  {
    |m| >= |head| + 1 && m[..|head|] == head && m[|m| - 1] == CTCP_MARK && '\n' !in m[|head|..|m| - 1]
  }

  predicate MatchesFramed(m: string, head: string)
  {
    FramedBy(m, head) || (|m| > 0 && m[|m| - 1] == '\n' && FramedBy(m[..|m| - 1], head))
  }

  /** /^\x01.*\x01$/ */
  predicate IsCtcp(m: string)
  {
    MatchesFramed(m, [CTCP_MARK])
  }

  /** /^\x01ACTION .*\x01$/ */
  predicate IsAction(m: string)
  {
    MatchesFramed(m, [CTCP_MARK] + "ACTION ")
  }

  /** strspn($target, '&#+!') is non-zero: the target starts with a channel prefix. */
  predicate IsChannelName(target: string)
  {
    |target| > 0 && target[0] in "&#+!"
  }

  datatype Class = Class(kind: HT.Mask, channel: string)

  /** A classification carries a non-empty set of flags, all of them inside ALL. */
  predicate WellFormedKind(k: HT.Mask)
  {
    k != 0 && k & !HT.ALL == 0
  }

  /** The classes a numeric reply can be given. */
  const NumericKinds: set<HT.Mask> := {HT.LOGIN, HT.INFO, HT.MOTD, HT.NAME, HT.WHO, HT.NONRELEVANT, HT.ULIST,
    HT.BANLIST, HT.TOPIC, HT.WHOIS, HT.WHOWAS, HT.USERMODE, HT.CHANNELMODE, HT.ERROR, HT.UNKNOWN}

  /** Every class the parser can give a message: one flag, or CTCP together with its direction. */
  const Kinds: set<HT.Mask> := NumericKinds + {HT.CHANNEL, HT.ACTION, HT.CTCP_REQUEST | HT.CTCP, HT.QUERY,
    HT.CTCP_REPLY | HT.CTCP, HT.NOTICE, HT.INVITE, HT.JOIN, HT.TOPICCHANGE, HT.NICKCHANGE, HT.KICK, HT.PART,
    HT.MODECHANGE, HT.QUIT}

  /** Every class the parser gives has a bit set and none outside ALL. */
  lemma KindsWellFormed(k: HT.Mask)
    requires k in Kinds
    ensures WellFormedKind(k)
  {
  }

  /**
   * The numeric cases of the switch; `me` is the client's nick, which decides
   * whether the channel is the second or the first parameter.
   */
  function ClassifyNumeric(n: nat, params: seq<string>, me: string): (c: Class)
    ensures c.kind in NumericKinds
  {
    var mine := ParamOr(params, 0) == me;
    if n == RPL_WELCOME || n == RPL_YOURHOST || n == RPL_CREATED || n == RPL_MYINFO || n == RPL_BOUNCE then
      Class(HT.LOGIN, "")
    else if n == RPL_LUSERCLIENT || n == RPL_LUSEROP || n == RPL_LUSERUNKNOWN || n == RPL_LUSERME || n == RPL_LUSERCHANNELS then
      Class(HT.INFO, "")
    else if n == RPL_MOTDSTART || n == RPL_MOTD || n == RPL_ENDOFMOTD then
      Class(HT.MOTD, "")
    else if n == RPL_NAMREPLY then
      Class(HT.NAME, if mine then ParamOr(params, 2) else ParamOr(params, 1))
    else if n == RPL_ENDOFNAMES then
      Class(HT.NAME, if mine then ParamOr(params, 1) else ParamOr(params, 0))
    else if n == RPL_WHOREPLY || n == RPL_ENDOFWHO then
      Class(HT.WHO, if mine then ParamOr(params, 1) else ParamOr(params, 0))
    else if n == RPL_LISTSTART then
      Class(HT.NONRELEVANT, "")
    else if n == RPL_LIST || n == RPL_LISTEND then
      Class(HT.ULIST, "")
    else if n == RPL_BANLIST || n == RPL_ENDOFBANLIST then
      Class(HT.BANLIST, ParamOr(params, 0))
    else if n == RPL_TOPIC then
      Class(HT.TOPIC, ParamOr(params, 0))
    else if n == RPL_WHOISUSER || n == RPL_WHOISSERVER || n == RPL_WHOISOPERATOR || n == RPL_WHOISIDLE
      || n == RPL_ENDOFWHOIS || n == RPL_WHOISCHANNELS then
      Class(HT.WHOIS, "")
    else if n == RPL_WHOWASUSER || n == RPL_ENDOFWHOWAS then
      Class(HT.WHOWAS, "")
    else if n == RPL_UMODEIS then
      Class(HT.USERMODE, "")
    else if n == RPL_CHANNELMODEIS then
      Class(HT.CHANNELMODE, ParamOr(params, 0))
    else if n == ERR_NICKNAMEINUSE || n == ERR_NOTREGISTERED then
      Class(HT.ERROR, "")
    else
      Class(HT.UNKNOWN, "")
  }

  /**
   * A NAMES or WHO reply that starts with the client's own nick is read one
   * parameter further on: the channel is the same as without that nick.
   */
  lemma ReplyChannelSkipsOwnNick(n: nat, params: seq<string>, me: string)
    requires n in {RPL_NAMREPLY, RPL_ENDOFNAMES, RPL_WHOREPLY, RPL_ENDOFWHO}
    requires ParamOr(params, 0) != me
    ensures ClassifyNumeric(n, [me] + params, me) == ClassifyNumeric(n, params, me)
  {
    assert forall i: nat :: ParamOr([me] + params, i + 1) == ParamOr(params, i);
  }

  /**
   * PRIVMSG: a channel target wins; otherwise a \x01-framed text is an
   * ACTION or a CTCP request; anything else is a query.
   */
  function ClassifyPrivmsg(params: seq<string>, text: string): (c: Class)
    ensures c.kind in {HT.CHANNEL, HT.ACTION, HT.CTCP_REQUEST | HT.CTCP, HT.QUERY}
    ensures c.kind == HT.CHANNEL <==> IsChannelName(ParamOr(params, 0))
    ensures c.kind == HT.ACTION ==> IsAction(text) && c.channel == ParamOr(params, 0)
    ensures c.kind == HT.CTCP_REQUEST | HT.CTCP ==> IsCtcp(text) && !IsAction(text)
    ensures c.kind == HT.QUERY ==> !(|text| > 0 && text[0] == CTCP_MARK && IsCtcp(text))
  {
    var target := ParamOr(params, 0);
    if IsChannelName(target) then Class(HT.CHANNEL, target)
    else if |text| > 0 && text[0] == CTCP_MARK && IsAction(text) then Class(HT.ACTION, target)
    else if |text| > 0 && text[0] == CTCP_MARK && IsCtcp(text) then Class(HT.CTCP_REQUEST | HT.CTCP, "")
    else Class(HT.QUERY, "")
  }

  /** The word commands the switch in listenOnce names. */
  const WordCommands: set<string> := {"PRIVMSG", "NOTICE", "INVITE", "JOIN", "TOPIC", "NICK", "KICK", "PART", "MODE", "QUIT"}

  /**
   * The switch on the command in listenOnce; `me` is the client's own nick.
   * A word command gets its own type, and the channel comes from the first
   * parameter where the switch names one (the trailing text standing in for
   * a JOIN without one); any other word is UNKNOWN with no channel.
   */
  function Classify(command: string, params: seq<string>, text: string, me: string): (c: Class)
    ensures c.kind in Kinds
    ensures command == "PRIVMSG" ==> c == ClassifyPrivmsg(params, text)
    ensures command == "NOTICE" ==>
      c.channel == "" && c.kind in {HT.CTCP_REPLY | HT.CTCP, HT.NOTICE} && (c.kind == HT.CTCP_REPLY | HT.CTCP <==> IsCtcp(text))
    ensures command == "INVITE" ==> c == Class(HT.INVITE, "")
    ensures command == "JOIN" ==>
      c.kind == HT.JOIN && c.channel == (if IsEmpty(Param(params, 0)) then text else params[0])
    ensures command == "TOPIC" ==> c == Class(HT.TOPICCHANGE, ParamOr(params, 0))
    ensures command == "NICK" ==> c == Class(HT.NICKCHANGE, "")
    ensures command == "KICK" ==> c == Class(HT.KICK, ParamOr(params, 0))
    ensures command == "PART" ==> c == Class(HT.PART, ParamOr(params, 0))
    ensures command == "MODE" ==> c == Class(HT.MODECHANGE, ParamOr(params, 0))
    ensures command == "QUIT" ==> c == Class(HT.QUIT, "")
    ensures CodeOf(command).None? && command !in WordCommands ==> c == Class(HT.UNKNOWN, "")
  {
    match CodeOf(command)
    case Some(n) => ClassifyNumeric(n, params, me)
    case None =>
      if command == "PRIVMSG" then ClassifyPrivmsg(params, text)
      else if command == "NOTICE" then Class(if IsCtcp(text) then HT.CTCP_REPLY | HT.CTCP else HT.NOTICE, "")
      else if command == "INVITE" then Class(HT.INVITE, "")
      else if command == "JOIN" then Class(HT.JOIN, if IsEmpty(Param(params, 0)) then text else ParamOr(params, 0))
      else if command == "TOPIC" then Class(HT.TOPICCHANGE, ParamOr(params, 0))
      else if command == "NICK" then Class(HT.NICKCHANGE, "")
      else if command == "KICK" then Class(HT.KICK, ParamOr(params, 0))
      else if command == "PART" then Class(HT.PART, ParamOr(params, 0))
      else if command == "MODE" then Class(HT.MODECHANGE, ParamOr(params, 0))
      else if command == "QUIT" then Class(HT.QUIT, "")
      else Class(HT.UNKNOWN, "")
  }

  /** The word command a type belongs to, when only one command can give it. */
  function CommandOfKind(k: HT.Mask): Option<string>
  {
    if k == HT.JOIN then Some("JOIN")
    else if k == HT.TOPICCHANGE then Some("TOPIC")
    else if k == HT.NICKCHANGE then Some("NICK")
    else if k == HT.KICK then Some("KICK")
    else if k == HT.PART then Some("PART")
    else if k == HT.MODECHANGE then Some("MODE")
    else if k == HT.QUIT then Some("QUIT")
    else if k == HT.INVITE then Some("INVITE")
    else if k == HT.NOTICE || k == HT.CTCP_REPLY | HT.CTCP then Some("NOTICE")
    else if k == HT.CHANNEL || k == HT.ACTION || k == HT.CTCP_REQUEST | HT.CTCP || k == HT.QUERY then Some("PRIVMSG")
    else None
  }

  /** No type a numeric reply can get belongs to a word command. */
  lemma NumericKindsNameNoCommand(k: HT.Mask)
    requires k in NumericKinds
    ensures CommandOfKind(k).None?
  {
  }

  /**
   * The type of a message names its command: a word command of the switch
   * is read back from the type alone, and any other command (a numeric or
   * an unlisted word) gets a type that names none.
   */
  lemma ClassifyNamesCommand(command: string, params: seq<string>, text: string, me: string)
    ensures CommandOfKind(Classify(command, params, text, me).kind) == Some(command) <==> command in WordCommands
    ensures command !in WordCommands ==> CommandOfKind(Classify(command, params, text, me).kind).None?
  {
    var numeric := CodeOf(command).Some?;
    assert numeric ==> |command| == 3;
    KindNamesCommand(command, Classify(command, params, text, me).kind, numeric);
  }

  /** The same, for any type that obeys the switch's table for `command`. */
  lemma KindNamesCommand(command: string, k: HT.Mask, numeric: bool)
    requires numeric ==> |command| == 3 && k in NumericKinds
    requires !numeric && command !in WordCommands ==> k == HT.UNKNOWN
    requires command == "PRIVMSG" ==> k in {HT.CHANNEL, HT.ACTION, HT.CTCP_REQUEST | HT.CTCP, HT.QUERY}
    requires command == "NOTICE" ==> k in {HT.CTCP_REPLY | HT.CTCP, HT.NOTICE}
    requires command == "INVITE" ==> k == HT.INVITE
    requires command == "JOIN" ==> k == HT.JOIN
    requires command == "TOPIC" ==> k == HT.TOPICCHANGE
    requires command == "NICK" ==> k == HT.NICKCHANGE
    requires command == "KICK" ==> k == HT.KICK
    requires command == "PART" ==> k == HT.PART
    requires command == "MODE" ==> k == HT.MODECHANGE
    requires command == "QUIT" ==> k == HT.QUIT
    ensures CommandOfKind(k) == Some(command) <==> command in WordCommands
    ensures command !in WordCommands ==> CommandOfKind(k).None?
  {
    if numeric {
      NumericKindsNameNoCommand(k);
    }
  }

  /** One received line as a message; `me` is the client's nick at that moment. */
  function ParseLine(line: string, me: string): (m: Message)
    ensures m.raw == line
    ensures m.kind in Kinds
    ensures m.nick == "" ==> m.ident == "" && m.host == m.from
    ensures m.nick != "" ==>
      m.from == m.nick + "!" + m.ident + "@" + m.host || m.from == m.nick + "!" + m.ident + "@" + m.host + "\n"
  {
    var f := Cut(line);
    var o := SplitPrefix(f.prefix);
    var c := Classify(f.command, f.params, f.trailing, me);
    Message(line, f.prefix, o.nick, o.ident, o.host, f.command, f.params, f.trailing, c.kind, c.channel)
  }

  // ---------------------------------------------------------------- splitting received data

  /** array_filter without a callback: drops "" and "0", PHP's falsy strings. */
  function DropFalsy(xs: seq<string>): (r: seq<string>)
    ensures |r| <= |xs|
    ensures forall i :: 0 <= i < |r| ==> r[i] != "" && r[i] != "0"
    ensures forall x :: x in r ==> x in xs
  {
    if xs == [] then []
    else (if xs[0] == "" || xs[0] == "0" then [] else [xs[0]]) + DropFalsy(xs[1..])
  }

  /** array_map('trim', ...). */
  function TrimAll(xs: seq<string>): (r: seq<string>)
  {
    seq(|xs|, i requires 0 <= i < |xs| => Trim(xs[i]))
  }

  /** The lines a received buffer holds: split at CRLF, falsy pieces dropped, the rest trimmed. */
  function SplitData(data: string): seq<string>
  {
    TrimAll(DropFalsy(Explode(CRLF, data)))
  }

  /** A line as a server sends it: non-empty, not "0", no CRLF inside, no blank at either end. */
  predicate IsWireLine(l: string)
  {
    l != "" && l != "0" && !IsTrimmable(l[0]) && !IsTrimmable(l[|l| - 1]) && NoneBefore(l, CRLF, |l|)
  }

  /** Lines, each terminated by CRLF. */
  function Frames(ls: seq<string>): string
  {
    if ls == [] then "" else ls[0] + CRLF + Frames(ls[1..])
  }

  lemma WireLineThenCrlf(p: string, rest: string)
    requires IsWireLine(p)
    ensures NoneBefore(p + CRLF + rest, CRLF, |p|)
  {
    var s := p + CRLF + rest;
    forall j | 0 <= j < |p|
      ensures !OccursAt(s, CRLF, j)
    {
      if j < |p| - 1 {
        assert !OccursAt(p, CRLF, j);
        assert s[j..j + 2] == p[j..j + 2];
      } else {
        assert s[j] == p[|p| - 1];
      }
    }
  }

  lemma {:induction false} ExplodeFrames(ls: seq<string>)
    requires forall i :: 0 <= i < |ls| ==> IsWireLine(ls[i])
    ensures Explode(CRLF, Frames(ls)) == ls + [""]
  {
    if ls == [] {
    } else {
      var rest := Frames(ls[1..]);
      WireLineThenCrlf(ls[0], rest);
      ExplodeCons(CRLF, ls[0], rest);
      ExplodeFrames(ls[1..]);
      assert ls == [ls[0]] + ls[1..];
    }
  }

  lemma {:induction false} DropFalsyKeepsLines(ls: seq<string>)
    requires forall i :: 0 <= i < |ls| ==> ls[i] != "" && ls[i] != "0"
    ensures DropFalsy(ls + [""]) == ls
  {
    if ls == [] {
    } else {
      assert (ls + [""])[1..] == ls[1..] + [""];
      DropFalsyKeepsLines(ls[1..]);
      assert ls == [ls[0]] + ls[1..];
    }
  }

  /** Framing round trip: lines sent with CRLF terminators come back one by one, unchanged. */
  lemma SplitDataFrames(ls: seq<string>)
    requires forall i :: 0 <= i < |ls| ==> IsWireLine(ls[i])
    ensures SplitData(Frames(ls)) == ls
  {
    ExplodeFrames(ls);
    DropFalsyKeepsLines(ls);
    WireLinesTrimmed(ls);
  }

  lemma WireLinesTrimmed(ls: seq<string>)
    requires forall i :: 0 <= i < |ls| ==> IsWireLine(ls[i])
    ensures TrimAll(ls) == ls
  {
    forall i | 0 <= i < |ls|
      ensures TrimAll(ls)[i] == ls[i]
    {
      WireLineTrimmed(ls[i]);
    }
  }

  lemma WireLineTrimmed(l: string)
    requires IsWireLine(l)
    ensures Trim(l) == l
  {
    TrimOfTrimmed(l);
  }

  /** Every line handed to the parser has no blank at either end (it may be empty). */
  lemma SplitDataLinesTrimmed(data: string)
    ensures forall i :: 0 <= i < |SplitData(data)| ==>
      var l := SplitData(data)[i];
      l == [] || (!IsTrimmable(l[0]) && !IsTrimmable(l[|l| - 1]))
  {
    var pieces := DropFalsy(Explode(CRLF, data));
    var lines := SplitData(data);
    assert lines == TrimAll(pieces);
    forall i | 0 <= i < |lines|
      ensures lines[i] == [] || (!IsTrimmable(lines[i][0]) && !IsTrimmable(lines[i][|lines[i]| - 1]))
    {
      assert lines[i] == Trim(pieces[i]);
      TrimStrips(pieces[i]);
    }
  }

  // ---------------------------------------------------------------- composing and cutting

  /** A command or middle parameter: non-empty, no space, not starting with ':'. */
  predicate IsWord(w: string)
  {
    w != "" && ' ' !in w && w[0] != ':'
  }

  /** A line as section 2.3.1 of RFC 2812 writes it, with optional prefix and trailing parameter. */
  function Compose(prefix: Option<string>, command: string, params: seq<string>, trailing: Option<string>): string
  {
    (if prefix.Some? then ":" + prefix.value + " " else "")
    + Implode(" ", [command] + params)
    + (if trailing.Some? then " :" + trailing.value else "")
  }

  /** No space is followed by ':' in `s`. */
  predicate NoColonAfterSpace(s: string)
  {
    forall j :: 0 <= j < |s| - 1 ==> s[j] == ' ' ==> s[j + 1] != ':'
  }

  lemma {:induction false} WordsShape(words: seq<string>)
    requires |words| >= 1 && forall i :: 0 <= i < |words| ==> IsWord(words[i])
    ensures var m := Implode(" ", words);
      |m| > 0 && m[0] != ':' && m[|m| - 1] != ' ' && NoColonAfterSpace(m)
    decreases |words|
  {
    var m := Implode(" ", words);
    var w := words[0];
    assert IsWord(w);
    if |words| == 1 {
      assert m == w;
      assert m[|m| - 1] != ' ' by {
        assert m[|m| - 1] in w;
      }
      forall j | 0 <= j < |m| - 1
        ensures m[j] != ' '
      {
        assert m[j] in w;
      }
    } else {
      var r := Implode(" ", words[1..]);
      assert IsWord(words[1..][0]);
      WordsShape(words[1..]);
      assert m == w + " " + r;
      assert m[0] == w[0];
      forall j | 0 <= j < |m| - 1
        ensures m[j] == ' ' ==> m[j + 1] != ':'
      {
        if j < |w| {
          assert m[j] == w[j];
          assert m[j] in w;
        } else if j == |w| {
          assert m[j + 1] == r[0];
        } else {
          assert m[j] == r[j - |w| - 1];
          assert m[j + 1] == r[j - |w|];
        }
      }
      assert m[|m| - 1] == r[|r| - 1];
    }
  }

  lemma HeadShape(p: string, m: string)
    requires ' ' !in p && |m| > 0 && m[0] != ':' && NoColonAfterSpace(m)
    ensures NoColonAfterSpace(":" + p + " " + m)
  {
    var b := ":" + p + " " + m;
    var h := |p| + 2;
    forall j | 0 <= j < |b| - 1
      ensures b[j] == ' ' ==> b[j + 1] != ':'
    {
      if j == 0 {
        assert b[j] == ':';
      } else if j < h - 1 {
        assert b[j] == p[j - 1];
        assert b[j] in p;
      } else if j == h - 1 {
        assert b[j + 1] == m[0];
      } else {
        assert b[j] == m[j - h];
        assert b[j + 1] == m[j + 1 - h];
      }
    }
  }

  lemma PrefixPartOf(p: string, rest: string)
    requires ' ' !in p && |rest| > 0 && rest[0] == ' '
    ensures PrefixPart(":" + p + rest) == (p, |p| + 1)
  {
    var line := ":" + p + rest;
    var sp := |p| + 1;
    assert line[sp..sp + 1] == " ";
    forall j | 0 <= j < sp
      ensures !OccursAt(line, " ", j)
    {
      assert line[j..j + 1] == [line[j]];
      if j > 0 {
        assert line[j] == p[j - 1];
        assert line[j] in p;
      }
    }
    IndexOfFirst(line, " ", sp);
    assert line[1..sp] == p;
  }

  lemma OccursPair(s: string, j: int)
    requires OccursAt(s, " :", j)
    ensures s[j] == ' ' && s[j + 1] == ':'
  {
    assert s[j..j + 2] == " :";
    assert s[j] == s[j..j + 2][0] && s[j + 1] == s[j..j + 2][1];
  }

  lemma TrailingPartOf(body: string, t: string)
    requires NoColonAfterSpace(body) && |body| > 0 && body[|body| - 1] != ' '
    ensures TrailingPart(body + " :" + t) == (t, |body|)
  {
    var line := body + " :" + t;
    var k := |body|;
    assert line[k..k + 2] == " :";
    forall j | 0 <= j < k
      ensures !OccursAt(line, " :", j)
    {
      assert line[j] == body[j];
      if j < k - 1 {
        assert line[j + 1] == body[j + 1];
      }
      if OccursAt(line, " :", j) {
        OccursPair(line, j);
      }
    }
    IndexOfFirst(line, " :", k);
    assert line[k + 2..] == t;
  }

  lemma TrailingPartNone(body: string)
    requires NoColonAfterSpace(body)
    ensures TrailingPart(body) == ("", |body|)
  {
    forall j
      ensures !OccursAt(body, " :", j)
    {
      if OccursAt(body, " :", j) {
        OccursPair(body, j);
      }
    }
  }

  /** A composed line without a prefix starts with its command; with one, the prefix ends at the first space. */
  lemma ComposedPrefix(prefix: Option<string>, m: string, tail: string)
    requires prefix.Some? ==> ' ' !in prefix.value
    requires |m| > 0 && m[0] != ':'
    ensures var head := if prefix.Some? then ":" + prefix.value + " " else "";
      PrefixPart(head + m + tail) == (prefix.GetOr(""), |head| - 1)
  {
    if prefix.Some? {
      assert ":" + prefix.value + " " + m + tail == ":" + prefix.value + (" " + m + tail);
      PrefixPartOf(prefix.value, " " + m + tail);
    } else {
      assert ("" + m + tail)[0] == m[0];
    }
  }

  /** The trailing text of a composed line is found right after its middle part. */
  lemma ComposedTrailing(body: string, trailing: Option<string>)
    requires NoColonAfterSpace(body) && |body| > 0 && body[|body| - 1] != ' '
    ensures TrailingPart(body + (if trailing.Some? then " :" + trailing.value else "")) == (trailing.GetOr(""), |body|)
  {
    if trailing.Some? {
      assert body + (" :" + trailing.value) == body + " :" + trailing.value;
      TrailingPartOf(body, trailing.value);
    } else {
      assert body + "" == body;
      TrailingPartNone(body);
    }
  }

  /** Cutting a composed line gives back its prefix, command, parameters and trailing text. */
  lemma CutCompose(prefix: Option<string>, command: string, params: seq<string>, trailing: Option<string>)
    requires prefix.Some? ==> ' ' !in prefix.value
    requires IsWord(command) && forall i :: 0 <= i < |params| ==> IsWord(params[i])
    ensures Cut(Compose(prefix, command, params, trailing)) == Frame(prefix.GetOr(""), command, params, trailing.GetOr(""))
  {
    var words := [command] + params;
    forall i | 0 <= i < |words|
      ensures IsWord(words[i])
    {
      if i > 0 {
        assert words[i] == params[i - 1];
      }
    }
    var m := Implode(" ", words);
    WordsShape(words);
    var head := if prefix.Some? then ":" + prefix.value + " " else "";
    var tail := if trailing.Some? then " :" + trailing.value else "";
    var body := head + m;
    var line := body + tail;
    if prefix.Some? {
      HeadShape(prefix.value, m);
    } else {
      assert body == m;
    }
    assert body[|body| - 1] == m[|m| - 1];
    ComposedPrefix(prefix, m, tail);
    ComposedTrailing(body, trailing);
    assert line[|head|..|head| + |m|] == m;
    assert Substr(line, |head|, |m|) == m;
    ExplodeImplode(' ', words);
  }

  /** The same for whole messages: prefix parts, command, parameters and text survive a parse. */
  lemma ParseCompose(nick: string, ident: string, host: string, command: string, params: seq<string>, text: string, me: string)
    requires nick != "" && ident != "" && host != ""
    requires NoSpace(nick) && NoSpace(ident) && NoSpace(host)
    requires '!' !in ident && '@' !in host
    requires IsWord(command) && forall i :: 0 <= i < |params| ==> IsWord(params[i])
    ensures var m := ParseLine(Compose(Some(nick + "!" + ident + "@" + host), command, params, Some(text)), me);
      m.nick == nick && m.ident == ident && m.host == host
      && m.command == command && m.params == params && m.trailing == text
  {
    UserHostNoSpace(nick, ident, host);
    CutCompose(Some(nick + "!" + ident + "@" + host), command, params, Some(text));
    SplitPrefixOfUserHost(nick, ident, host);
  }

  // ---------------------------------------------------------------- event names

  /**
   * The name of the method that handles a command: numeric commands go
   * through the reply table, other numeric strings are kept as written, and
   * string commands are lower-cased.
   */
  function EventName(command: string): string
  {
    if IsNumericString(command) then
      match CodeOf(command)
      case Some(n) => if ReplyName(n).Some? then "event_" + ReplyName(n).value else "event_" + command
      case None => "event_" + command
    else "event_" + Lower(command)
  }

  /** Case does not matter for string commands: "privmsg" is handled like "PRIVMSG". */
  lemma EventNameIgnoresCase(command: string)
    requires !IsNumericString(command)
    ensures EventName(Lower(command)) == EventName(command)
  {
    LowerKeepsNumeric(command);
    LowerIdempotent(command);
  }

  /** A known reply code is handled under the reply's name. */
  lemma EventNameOfReply(n: nat)
    requires n < 1000 && ReplyName(n).Some?
    ensures EventName(Code(n)) == "event_" + ReplyName(n).value
  {
    CodeOfCode(n);
    DigitsAreNumeric(Code(n));
  }

  /** The client's own handlers (src/MessageHandler.php), one per event name below. */
  datatype Builtin =
    | OnPing | OnError | OnJoin | OnPart | OnKick | OnQuit | OnNick | OnMode | OnTopic | OnPrivmsg
    | OnWelcome | OnMotdStart | OnMotd | OnEndOfMotd | OnUmodeIs | OnChannelModeIs
    | OnWhoReply | OnNamReply | OnBanList | OnEndOfBanList | OnRplTopic | OnNicknameInUse

  /** The built-in handler `_<event>` for an event name, if MessageHandler defines one. */
  function BuiltinFor(event: string): Option<Builtin>
  {
    if event == "event_ping" then Some(OnPing)
    else if event == "event_error" then Some(OnError)
    else if event == "event_join" then Some(OnJoin)
    else if event == "event_part" then Some(OnPart)
    else if event == "event_kick" then Some(OnKick)
    else if event == "event_quit" then Some(OnQuit)
    else if event == "event_nick" then Some(OnNick)
    else if event == "event_mode" then Some(OnMode)
    else if event == "event_topic" then Some(OnTopic)
    else if event == "event_privmsg" then Some(OnPrivmsg)
    else if event == "event_rpl_welcome" then Some(OnWelcome)
    else if event == "event_rpl_motdstart" then Some(OnMotdStart)
    else if event == "event_rpl_motd" then Some(OnMotd)
    else if event == "event_rpl_endofmotd" then Some(OnEndOfMotd)
    else if event == "event_rpl_umodeis" then Some(OnUmodeIs)
    else if event == "event_rpl_channelmodeis" then Some(OnChannelModeIs)
    else if event == "event_rpl_whoreply" then Some(OnWhoReply)
    else if event == "event_rpl_namreply" then Some(OnNamReply)
    else if event == "event_rpl_banlist" then Some(OnBanList)
    else if event == "event_rpl_endofbanlist" then Some(OnEndOfBanList)
    else if event == "event_rpl_topic" then Some(OnRplTopic)
    else if event == "event_err_nicknameinuse" then Some(OnNicknameInUse)
    else None
  }
}
