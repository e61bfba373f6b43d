/**
 * What the built-in handlers of src/MessageHandler.php do to the channel
 * store while channel syncing is on, as functions of the store before the
 * message. The handler methods of class Client.Irc are proved against these
 * functions; the lemmas say what the handlers promise: channels stay under
 * their lower-cased names, a join puts the joiner on the roster, a part or
 * kick takes the leaver off it, a WHO reply sets the roles it reports.
 */
module Events {
  import opened Wrappers
  import opened Text
  import HT = HandlerType
  import P = Parser
  import R = Roster
  import C = Commands

  // ---------------------------------------------------------------- JOIN

  /** The user a JOIN adds: nick, ident and host of the sender, nothing else known. */
  function Joiner(m: P.Message): (u: R.ChannelUser)
    ensures u.nick == Some(m.nick) && u.ident == Some(m.ident) && u.host == Some(m.host)
    ensures forall r :: R.Flag(u, r).None?
  {
    R.Blank.(nick := Some(m.nick), ident := Some(m.ident), host := Some(m.host))
  }

  /** The record a self join creates: the channel as named in the message, its sync clock started at `nowMs`. */
  function Created(name: string, nowMs: int): (c: R.Channel)
    ensures c.name == name && c.users == map[] && !R.Synced(c) && c.synctimeStart == nowMs
    ensures forall r :: R.Holders(c, r) == {}
  {
    R.NewChannel(name).(synctimeStart := nowMs)
  }

  /**
   * _event_join: when the client itself joins, a fresh record is stored
   * under the lower-cased channel name; then the sender is added to the
   * channel, if the client is in it.
   */
  function Join(s: R.Store, me: string, m: P.Message, nowMs: int): (t: R.Store)
  {
    var k := Lower(m.channel);
    var s1 := if me == m.nick then s[k := Created(m.channel, nowMs)] else s;
    if k in s1 then s1[k := R.AddUser(s1[k], Joiner(m))] else s1
  }

  /** The client's own join creates the channel with the client as its only user, holding no role, not yet synced. */
  lemma JoinSelf(s: R.Store, me: string, m: P.Message, nowMs: int)
    requires me == m.nick
    ensures var t := Join(s, me, m, nowMs);
      Lower(m.channel) in t
      && var c := t[Lower(m.channel)];
      c.name == m.channel && c.users == map[Lower(me) := Joiner(m)]
      && !R.Synced(c) && c.synctimeStart == nowMs && (forall r :: R.Holders(c, r) == {})
    ensures forall k :: k in s && k != Lower(m.channel) ==> k in Join(s, me, m, nowMs) && Join(s, me, m, nowMs)[k] == s[k]
  {
    var c := Created(m.channel, nowMs);
    var d := R.AddUser(c, Joiner(m));
    assert d.users.Keys == {Lower(me)};
    forall r
      ensures R.Holders(d, r) == {}
    {
      assert !R.Truthy(R.Flag(R.Stored(c, Joiner(m)), r));
    }
  }

  /** Someone else's join adds them to a channel the client is in, and changes nothing when the client is not in it. */
  lemma JoinOther(s: R.Store, me: string, m: P.Message, nowMs: int)
    requires me != m.nick
    ensures var t := Join(s, me, m, nowMs);
      t.Keys == s.Keys
      && (forall k :: k in s && k != Lower(m.channel) ==> t[k] == s[k])
      && (Lower(m.channel) in s ==> Lower(m.nick) in t[Lower(m.channel)].users && R.SameSettings(s[Lower(m.channel)], t[Lower(m.channel)]))
  {
  }

  /** A join keeps every channel under its lower-cased name. */
  lemma JoinKeyed(s: R.Store, me: string, m: P.Message, nowMs: int)
    requires R.WellKeyed(s)
    ensures R.WellKeyed(Join(s, me, m, nowMs))
  {
    var k := Lower(m.channel);
    var s1 := if me == m.nick then s[k := Created(m.channel, nowMs)] else s;
    assert R.WellKeyed(s1);
  }

  /**
   * The lines a join queues at MEDIUM: after its own join the client asks
   * for the channel's modes, its WHO list and its ban list; after someone
   * else's, for the WHO data of the newcomer.
   */
  function JoinQueries(me: string, m: P.Message): (r: seq<string>)
    ensures me == m.nick ==> r == [P.Compose(None, "MODE", [m.channel], None), P.Compose(None, "WHO", [m.channel], None),
      P.Compose(None, "MODE", [m.channel, "b"], None)]
    ensures me != m.nick ==> r == [P.Compose(None, "WHO", [m.nick], None)]
  {
    if me == m.nick then
      assert C.ModeLine(m.channel, None) == C.Single("MODE", m.channel);
      [C.ModeLine(m.channel, None), C.Single("WHO", m.channel), C.BanLine(m.channel, None)]
    else [C.Single("WHO", m.nick)]
  }

  // ---------------------------------------------------------------- PART, KICK, QUIT

  /** The nick a PART, QUIT or KICK removes: the kicked nick (second parameter) for a KICK, else the sender. */
  function Leaver(m: P.Message): string
  {
    if m.kind & (HT.PART | HT.QUIT) != 0 then m.nick
    else if m.kind & HT.KICK != 0 then P.ParamOr(m.params, 1)
    else m.nick
  }

  /**
   * _removeuser: when the client itself leaves, the channel is dropped; a
   * QUIT takes the nick out of every channel that holds it; a PART or KICK
   * out of the one channel, when the client is in it.
   */
  function RemoveUser(s: R.Store, me: string, m: P.Message): (t: R.Store)
  {
    var n := Leaver(m);
    var k := Lower(m.channel);
    if me == n then s - {k}
    else if m.kind & HT.QUIT != 0 then R.QuitEverywhere(s, n)
    else if k in s then s[k := R.RemoveNick(s[k], n)]
    else s
  }

  /** The client's own departure forgets the channel and nothing else. */
  lemma LeaveSelf(s: R.Store, me: string, m: P.Message)
    requires Leaver(m) == me
    ensures var t := RemoveUser(s, me, m);
      t.Keys == s.Keys - {Lower(m.channel)} && forall k :: k in t ==> t[k] == s[k]
  {
  }

  /** After someone else's PART or KICK the nick is gone from the channel and its role lists; other channels are untouched. */
  lemma LeaveOther(s: R.Store, me: string, m: P.Message)
    requires Leaver(m) != me && m.kind & HT.QUIT == 0
    ensures var t := RemoveUser(s, me, m);
      t.Keys == s.Keys
      && (forall k :: k in s && k != Lower(m.channel) ==> t[k] == s[k])
      && (Lower(m.channel) in t ==>
        Lower(Leaver(m)) !in t[Lower(m.channel)].users && forall r :: Leaver(m) !in R.Holders(t[Lower(m.channel)], r))
  {
  }

  /** After someone else's QUIT, no channel that held the nick still lists it. */
  lemma QuitOther(s: R.Store, me: string, m: P.Message)
    requires Leaver(m) != me && m.kind & HT.QUIT != 0
    ensures var t := RemoveUser(s, me, m);
      t.Keys == s.Keys
      && forall k :: k in s && R.HoldsNick(s[k], m.nick) ==>
        Lower(m.nick) !in t[k].users && forall r :: m.nick !in R.Holders(t[k], r)
  {
    assert m.kind & (HT.PART | HT.QUIT) != 0 by {
      HT.ClassesAreBits();
    }
  }

  /** A departure keeps every channel under its lower-cased name. */
  lemma RemoveUserKeyed(s: R.Store, me: string, m: P.Message)
    requires R.WellKeyed(s)
    ensures R.WellKeyed(RemoveUser(s, me, m))
  {
    if me != Leaver(m) && m.kind & HT.QUIT != 0 {
      R.QuitKeepsKeys(s, Leaver(m));
    }
  }

  // ---------------------------------------------------------------- NICK

  /** A nick change keeps every channel under its lower-cased name. */
  lemma RenameKeyed(s: R.Store, oldNick: string, newNick: string)
    requires R.WellKeyed(s)
    ensures R.WellKeyed(R.RenameEverywhere(s, oldNick, newNick))
  {
  }

  /** After a nick change every channel that knew the old nick knows the new one, with the old record's data. */
  lemma RenameFollows(s: R.Store, oldNick: string, newNick: string, k: string)
    requires k in s && R.HoldsNick(s[k], oldNick) && Lower(oldNick) in s[k].users
    ensures var t := R.RenameEverywhere(s, oldNick, newNick);
      Lower(newNick) in t[k].users && t[k].users[Lower(newNick)] == s[k].users[Lower(oldNick)].(nick := Some(newNick))
  {
  }

  // ---------------------------------------------------------------- MODE

  /**
   * _event_mode on a channel: the mode string (second parameter) is scanned
   * letter by letter over the joined channel, its arguments taken from the
   * third parameter on.
   */
  function ModeChange(s: R.Store, m: P.Message): (t: R.Store)
  {
    var k := Lower(m.channel);
    if k in s then s[k := R.ScanMode(R.StartScan(s[k], m.params), P.ParamOr(m.params, 1)).channel] else s
  }

  /** A channel MODE keeps the keys, the names and every other channel. */
  lemma ModeChangeKeyed(s: R.Store, m: P.Message)
    ensures var t := ModeChange(s, m);
      (R.WellKeyed(s) ==> R.WellKeyed(t)) && t.Keys == s.Keys && forall k :: k in s && k != Lower(m.channel) ==> t[k] == s[k]
  {
    var k := Lower(m.channel);
    if k in s {
      R.ScanKeepsIdentity(R.StartScan(s[k], m.params), P.ParamOr(m.params, 1));
    }
  }

  /** "MODE #c +o nick" on a joined channel makes nick an op of that channel, flag and role list alike (likewise q, a, h, v). */
  lemma ModeGrants(s: R.Store, m: P.Message, letter: char, nick: string)
    requires Lower(m.channel) in s && R.RoleOfLetter(letter).Some?
    requires |m.params| == 3 && m.params[1] == ['+', letter] && m.params[2] == nick
    ensures var c := ModeChange(s, m)[Lower(m.channel)];
      var r := R.RoleOfLetter(letter).value;
      nick in R.Holders(c, r) && Lower(nick) in c.users && R.Flag(c.users[Lower(nick)], r) == Some(true)
  {
    var c := s[Lower(m.channel)];
    assert m.params[2..] == [nick] + [];
    R.GrantRole(c, letter, nick, []);
  }

  /** "MODE #c -o nick" takes the role away again. */
  lemma ModeRevokes(s: R.Store, m: P.Message, letter: char, nick: string)
    requires Lower(m.channel) in s && R.RoleOfLetter(letter).Some?
    requires |m.params| == 3 && m.params[1] == ['-', letter] && m.params[2] == nick
    ensures var c := ModeChange(s, m)[Lower(m.channel)];
      var r := R.RoleOfLetter(letter).value;
      nick !in R.Holders(c, r) && Lower(nick) in c.users && R.Flag(c.users[Lower(nick)], r) == Some(false)
  {
    var c := s[Lower(m.channel)];
    assert m.params[2..] == [nick] + [];
    R.RevokeRole(c, letter, nick, []);
  }

  /** _event_rpl_channelmodeis blanks the first parameter (creating it when missing) before handing the message on. */
  function BlankFirst(params: seq<string>): (r: seq<string>)
    ensures |r| >= 1 && r[0] == "" && r[1..] == (if params == [] then [] else params[1..])
  {
    if params == [] then [""] else [""] + params[1..]
  }

  // ---------------------------------------------------------------- WHO and NAMES replies

  /** The WHO reply for one named channel: the user it describes is added when the client sees that nick there. */
  function WhoAt(s: R.Store, me: string, m: P.Message, channel: string): (t: R.Store)
  {
    var k := Lower(channel);
    if R.IsJoined(true, s, channel, R.WhoNick(m.params, me)) then
      s[k := R.AddUser(s[k], R.WhoUser(m.params, me, m.Words()))]
    else s
  }

  /**
   * The WHO reply for channel "*": every channel on which the client sees
   * the nick (every channel, when the nick is missing) gets the user. In a
   * keyed store the channel a name leads to is the one under its own key.
   */
  function WhoEverywhere(s: R.Store, me: string, m: P.Message): (t: R.Store)
  {
    map k | k in s :: if R.IsJoined(true, s, s[k].name, R.WhoNick(m.params, me)) then R.AddUser(s[k], R.WhoUser(m.params, me, m.Words())) else s[k]
  }

  /** _event_rpl_whoreply. */
  function WhoReply(s: R.Store, me: string, m: P.Message): (t: R.Store)
  {
    if m.channel == "*" then WhoEverywhere(s, me, m) else WhoAt(s, me, m, m.channel)
  }

  /** A WHO reply keeps every channel under its lower-cased name and adds no channel. */
  lemma WhoReplyKeyed(s: R.Store, me: string, m: P.Message)
    requires R.WellKeyed(s)
    ensures R.WellKeyed(WhoReply(s, me, m)) && WhoReply(s, me, m).Keys == s.Keys
  {
  }

  /**
   * After a WHO reply about a nick in a joined channel, the user's role
   * flags are exactly what the status string says, whatever they were.
   */
  lemma WhoReplySetsRoles(s: R.Store, me: string, m: P.Message, r: R.Role)
    requires m.channel != "*"
    requires R.WhoNick(m.params, me).Some? && R.IsJoined(true, s, m.channel, R.WhoNick(m.params, me))
    ensures var t := WhoReply(s, me, m);
      var n := R.WhoNick(m.params, me).value;
      Lower(n) in t[Lower(m.channel)].users
      && R.Flag(t[Lower(m.channel)].users[Lower(n)], r) == Some(R.StatusOf(r) in R.WhoStatus(m.params, me))
  {
    var u := R.WhoUser(m.params, me, m.Words());
    R.WhoUserFlags(m.params, me, m.Words(), r);
    var c := s[Lower(m.channel)];
    R.MergeFlag(if R.UserKey(u.nick) in c.users then c.users[R.UserKey(u.nick)] else R.Blank, u, r);
  }

  /** _event_rpl_namreply: every name of the reply is added to the channel, when the client is in it. */
  function NamesReply(s: R.Store, m: P.Message): (t: R.Store)
  {
    var k := Lower(m.channel);
    if k in s then s[k := R.AddNames(s[k], R.NamesTokens(m.trailing))] else s
  }

  /** A NAMES reply keeps every channel under its lower-cased name, and every listed name is on the roster afterwards. */
  lemma NamesReplyListed(s: R.Store, m: P.Message)
    requires R.WellKeyed(s)
    ensures var t := NamesReply(s, m);
      R.WellKeyed(t) && t.Keys == s.Keys
      && (Lower(m.channel) in s ==> forall tok :: tok in R.NamesTokens(m.trailing) ==>
        R.UserKey(R.NamesUser(tok).nick) in t[Lower(m.channel)].users)
  {
    var k := Lower(m.channel);
    if k in s {
      R.AddNamesListsEveryone(s[k], R.NamesTokens(m.trailing));
    }
  }

  // ---------------------------------------------------------------- ban list, topic

  /** _event_rpl_banlist: the mask (second parameter) joins the ban list of a joined channel. */
  function BanListed(s: R.Store, m: P.Message): (t: R.Store)
  {
    var k := Lower(m.channel);
    if k in s then s[k := s[k].(bans := s[k].bans + {P.ParamOr(m.params, 1)})] else s
  }

  /** _event_rpl_endofbanlist: the sync of a joined channel is stamped as finished, once. */
  function BanListEnd(s: R.Store, m: P.Message, nowMs: int): (t: R.Store)
  {
    var k := Lower(m.channel);
    if k in s then s[k := R.EndOfBanList(s[k], nowMs)] else s
  }

  /** _event_topic and _event_rpl_topic: the text becomes the topic of a joined channel. */
  function Topic(s: R.Store, m: P.Message): (t: R.Store)
  {
    var k := Lower(m.channel);
    if k in s then s[k := s[k].(topic := Some(m.trailing))] else s
  }

  /** Ban list and topic messages keep every channel under its lower-cased name. */
  lemma ChannelRepliesKeyed(s: R.Store, m: P.Message, nowMs: int)
    requires R.WellKeyed(s)
    ensures R.WellKeyed(BanListed(s, m)) && R.WellKeyed(BanListEnd(s, m, nowMs)) && R.WellKeyed(Topic(s, m))
  {
    ChannelReplies(s, m, nowMs);
  }

  /** Ban list and topic messages change only the channel they name, and only its bans, sync stamps or topic. */
  lemma ChannelReplies(s: R.Store, m: P.Message, nowMs: int)
    requires R.WellKeyed(s)
    ensures R.WellKeyed(BanListed(s, m)) && R.WellKeyed(BanListEnd(s, m, nowMs)) && R.WellKeyed(Topic(s, m))
    ensures Lower(m.channel) in s ==>
      var c := s[Lower(m.channel)];
      BanListed(s, m)[Lower(m.channel)] == c.(bans := c.bans + {P.ParamOr(m.params, 1)})
      && Topic(s, m)[Lower(m.channel)].topic == Some(m.trailing)
      && Topic(s, m)[Lower(m.channel)].users == c.users
      && BanListEnd(s, m, nowMs)[Lower(m.channel)].users == c.users
    ensures Lower(m.channel) !in s ==> BanListed(s, m) == s && BanListEnd(s, m, nowMs) == s && Topic(s, m) == s
  {
  }

  /** The sync of a channel ends once: a second end of its ban list changes nothing. */
  lemma BanListEndOnce(s: R.Store, m: P.Message, nowMs: int, laterMs: int)
    requires nowMs != 0
    ensures BanListEnd(BanListEnd(s, m, nowMs), m, laterMs) == BanListEnd(s, m, nowMs)
  {
    var k := Lower(m.channel);
    if k in s {
      R.EndOfBanListOnce(s[k], nowMs, laterMs);
    }
  }

  // ---------------------------------------------------------------- all handlers

  /**
   * What the built-in handler of a message does to the store while channel
   * syncing is on (`me` is the client's nick, `nowMs` the clock). The error
   * handler, which reconnects or disconnects, is not covered here.
   */
  function Handle(b: P.Builtin, s: R.Store, me: string, m: P.Message, nowMs: int): R.Store
  {
    match b
    case OnJoin => Join(s, me, m, nowMs)
    case OnPart => RemoveUser(s, me, m)
    case OnKick => RemoveUser(s, me, m)
    case OnQuit => RemoveUser(s, me, m)
    case OnNick => R.RenameEverywhere(s, m.nick, P.ParamOr(m.params, 0))
    case OnMode => if P.ParamOr(m.params, 0) == me then s else ModeChange(s, m)
    case OnChannelModeIs =>
      if Lower(m.channel) in s && me != "" then ModeChange(s, m.(params := BlankFirst(m.params))) else s
    case OnTopic => Topic(s, m)
    case OnRplTopic => Topic(s, m)
    case OnWhoReply => WhoReply(s, me, m)
    case OnNamReply => NamesReply(s, m)
    case OnBanList => BanListed(s, m)
    case OnEndOfBanList => BanListEnd(s, m, nowMs)
    case _ => s
  }

  /** The handlers Handle covers; the others leave the store alone. */
  predicate StoreHandler(b: P.Builtin)
  {
    b in {P.OnJoin, P.OnPart, P.OnKick, P.OnQuit, P.OnNick, P.OnWhoReply, P.OnNamReply,
          P.OnMode, P.OnChannelModeIs, P.OnTopic, P.OnRplTopic, P.OnBanList, P.OnEndOfBanList}
  }

  /** Whatever message arrives, the channels stay stored under their lower-cased names. */
  lemma HandleKeyed(b: P.Builtin, s: R.Store, me: string, m: P.Message, nowMs: int)
    requires R.WellKeyed(s)
    ensures R.WellKeyed(Handle(b, s, me, m, nowMs))
  {
    if b.OnJoin? || b.OnPart? || b.OnKick? || b.OnQuit? || b.OnNick? {
      MembershipKeyed(b, s, me, m, nowMs);
    } else {
      RepliesKeyed(b, s, me, m, nowMs);
    }
  }

  lemma MembershipKeyed(b: P.Builtin, s: R.Store, me: string, m: P.Message, nowMs: int)
    requires R.WellKeyed(s)
    requires b.OnJoin? || b.OnPart? || b.OnKick? || b.OnQuit? || b.OnNick?
    ensures R.WellKeyed(Handle(b, s, me, m, nowMs))
  {
    if b.OnJoin? {
      JoinKeyed(s, me, m, nowMs);
    } else if b.OnNick? {
      RenameKeyed(s, m.nick, P.ParamOr(m.params, 0));
    } else {
      RemoveUserKeyed(s, me, m);
    }
  }

  lemma RepliesKeyed(b: P.Builtin, s: R.Store, me: string, m: P.Message, nowMs: int)
    requires R.WellKeyed(s)
    requires !(b.OnJoin? || b.OnPart? || b.OnKick? || b.OnQuit? || b.OnNick?)
    ensures R.WellKeyed(Handle(b, s, me, m, nowMs))
  {
    match b
    case OnMode => ModeChangeKeyed(s, m);
    case OnChannelModeIs => ModeChangeKeyed(s, m.(params := BlankFirst(m.params)));
    case OnTopic => ChannelRepliesKeyed(s, m, nowMs);
    case OnRplTopic => ChannelRepliesKeyed(s, m, nowMs);
    case OnWhoReply => WhoReplyKeyed(s, me, m);
    case OnNamReply => NamesReplyListed(s, m);
    case OnBanList => ChannelRepliesKeyed(s, m, nowMs);
    case OnEndOfBanList => ChannelRepliesKeyed(s, m, nowMs);
    case _ =>
  }

  /** Only the messages that name a joined channel, and the client's own join, can add a channel. */
  lemma HandleAddsOnlyOwnJoin(b: P.Builtin, s: R.Store, me: string, m: P.Message, nowMs: int)
    requires !(b == P.OnJoin && me == m.nick)
    ensures Handle(b, s, me, m, nowMs).Keys <= s.Keys
  {
    if b.OnJoin? {
      JoinOther(s, me, m, nowMs);
    } else if b.OnMode? || b.OnChannelModeIs? {
      ModesAddNoChannel(b, s, me, m, nowMs);
    }
  }

  lemma ModesAddNoChannel(b: P.Builtin, s: R.Store, me: string, m: P.Message, nowMs: int)
    requires b.OnMode? || b.OnChannelModeIs?
    ensures Handle(b, s, me, m, nowMs).Keys <= s.Keys
  {
    if b.OnMode? {
      if P.ParamOr(m.params, 0) != me { ModeChangeKeyed(s, m); }
    } else if Lower(m.channel) in s && me != "" {
      ModeChangeKeyed(s, m.(params := BlankFirst(m.params)));
    }
  }
}
