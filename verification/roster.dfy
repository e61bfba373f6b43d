/**
 * The channel store kept while channel syncing is on: the Channel record
 * (src/Channel.php), the per-channel user record, and the roster updates of
 * src/Irc.php (_adduser, _removeuser, the isJoined, getChannel, getUser and role readers) and
 * src/MessageHandler.php (NICK, MODE, WHO and NAMES replies, the ban list).
 * PHP's null is `None`; a role list, a PHP array from nick to `true`, is the
 * set of its keys.
 */
module Roster {
  import opened Wrappers
  import opened Text
  import P = Parser

  // ---------------------------------------------------------------- records

  /** A user as seen in one channel; every field may still be null. */
  datatype ChannelUser = ChannelUser(
    nick: Option<string>,
    ident: Option<string>,
    host: Option<string>,
    realname: Option<string>,
    ircop: Option<bool>,
    founder: Option<bool>,
    admin: Option<bool>,
    op: Option<bool>,
    hop: Option<bool>,
    voice: Option<bool>,
    away: Option<bool>,
    server: Option<string>,
    hopcount: Option<string>,
    modes: Option<string>)

  /** A user record with every field null: `new ChannelUser()`, or the object PHP creates when a property is set on a missing entry. */
  const Blank := ChannelUser(None, None, None, None, None, None, None, None, None, None, None, None, None, None)

  /** The five channel roles, each with a user flag and a role list on the channel. */
  datatype Role = Founder | Admin | Op | Hop | Voice

  function Flag(u: ChannelUser, r: Role): Option<bool>
  {
    match r
    case Founder => u.founder
    case Admin => u.admin
    case Op => u.op
    case Hop => u.hop
    case Voice => u.voice
  }

  function WithFlag(u: ChannelUser, r: Role, v: Option<bool>): (w: ChannelUser)
    ensures Flag(w, r) == v
    ensures forall q :: q != r ==> Flag(w, q) == Flag(u, q)
    ensures w.nick == u.nick && w.ident == u.ident && w.host == u.host && w.ircop == u.ircop && w.away == u.away
  {
    match r
    case Founder => u.(founder := v)
    case Admin => u.(admin := v)
    case Op => u.(op := v)
    case Hop => u.(hop := v)
    case Voice => u.(voice := v)
  }

  /** PHP truthiness of a flag: only `true` counts, null and false do not. */
  predicate Truthy(b: Option<bool>)
  {
    b == Some(true)
  }

  /** `user_limit`: false when there is none, else whatever +l supplied (possibly null). */
  datatype Limit = NoLimit | LimitTo(value: Option<string>)

  datatype Channel = Channel(
    name: string,
    key: Option<string>,
    users: map<string, ChannelUser>,
    founders: set<string>,
    admins: set<string>,
    ops: set<string>,
    hops: set<string>,
    voices: set<string>,
    bans: set<string>,
    topic: Option<string>,
    userLimit: Limit,
    mode: Option<string>,
    synctimeStart: int,
    synctimeStop: int,
    synctime: Option<int>)

  /** The role list of a role: founders, admins, ops, hops or voices. */
  function Holders(c: Channel, r: Role): set<string>
  {
    match r
    case Founder => c.founders
    case Admin => c.admins
    case Op => c.ops
    case Hop => c.hops
    case Voice => c.voices
  }

  /** Everything but the users and the role lists is the same. */
  predicate SameSettings(c: Channel, d: Channel)
  {
    d.name == c.name && d.key == c.key && d.bans == c.bans && d.topic == c.topic && d.userLimit == c.userLimit
    && d.mode == c.mode && d.synctimeStart == c.synctimeStart && d.synctimeStop == c.synctimeStop && d.synctime == c.synctime
  }

  function WithHolders(c: Channel, r: Role, s: set<string>): (d: Channel)
    ensures Holders(d, r) == s
    ensures forall q :: q != r ==> Holders(d, q) == Holders(c, q)
    ensures d.users == c.users && SameSettings(c, d)
  {
    match r
    case Founder => c.(founders := s)
    case Admin => c.(admins := s)
    case Op => c.(ops := s)
    case Hop => c.(hops := s)
    case Voice => c.(voices := s)
  }

  /** A stop time of 0 marks a channel whose ban list has not ended yet. */
  predicate Synced(c: Channel)
  {
    c.synctimeStop != 0
  }

  /** `new Channel()` with its name set. */
  function NewChannel(name: string): (c: Channel)
    ensures c.name == name && c.users == map[] && c.bans == {}
    ensures forall r :: Holders(c, r) == {}
    ensures c.userLimit == NoLimit && !Synced(c) && c.synctimeStart == 0
    ensures c.key.None? && c.topic.None? && c.mode.None? && c.synctime.None?
  {
    Channel(name, None, map[], {}, {}, {}, {}, {}, {}, None, NoLimit, None, 0, 0, None)
  }

  /** The channels joined, keyed by the lower-cased channel name. */
  type Store = map<string, Channel>

  predicate WellKeyed(s: Store)
  {
    forall k :: k in s ==> k == Lower(s[k].name)
  }

  // ---------------------------------------------------------------- _adduser

  function Over<T>(cur: Option<T>, upd: Option<T>): Option<T>
  {
    if upd.Some? then upd else cur
  }

  /** The update loop of _adduser: every property of `upd` that is not null overwrites; nick and modes are kept. */
  function Merge(cur: ChannelUser, upd: ChannelUser): ChannelUser
  {
    ChannelUser(cur.nick, Over(cur.ident, upd.ident), Over(cur.host, upd.host), Over(cur.realname, upd.realname),
      Over(cur.ircop, upd.ircop), Over(cur.founder, upd.founder), Over(cur.admin, upd.admin), Over(cur.op, upd.op),
      Over(cur.hop, upd.hop), Over(cur.voice, upd.voice), Over(cur.away, upd.away), Over(cur.server, upd.server),
      Over(cur.hopcount, upd.hopcount), cur.modes)
  }

  /** An all-null update changes nothing. */
  lemma MergeBlank(cur: ChannelUser)
    ensures Merge(cur, Blank) == cur
  {
  }

  /** Merging the same update twice is merging it once. */
  lemma MergeIdempotent(cur: ChannelUser, upd: ChannelUser)
    ensures Merge(Merge(cur, upd), upd) == Merge(cur, upd)
  {
  }

  /** A role flag after a merge is the update's when it has one, else the old one. */
  lemma MergeFlag(cur: ChannelUser, upd: ChannelUser, r: Role)
    ensures Flag(Merge(cur, upd), r) == if Flag(upd, r).Some? then Flag(upd, r) else Flag(cur, r)
  {
  }

  /** The key a user is stored under: the lower-cased nick, "" for a null nick. */
  function UserKey(nick: Option<string>): string
  {
    Lower(nick.GetOr(""))
  }

  /** The user record _adduser leaves under the user's key. */
  function Stored(c: Channel, u: ChannelUser): ChannelUser
  {
    var k := UserKey(u.nick);
    if u.nick.None? || k in c.users then Merge(if k in c.users then c.users[k] else Blank, u) else u
  }

  /** The role lists grown by the stored user's nick for every true flag. */
  function GrantFlags(c: Channel, u: ChannelUser): (d: Channel)
    ensures d.users == c.users && SameSettings(c, d)
    ensures forall r :: Holders(d, r) == Holders(c, r) + (if Truthy(Flag(u, r)) then {u.nick.GetOr("")} else {})
  {
    var n := u.nick.GetOr("");
    c.(founders := c.founders + (if Truthy(u.founder) then {n} else {}),
       admins := c.admins + (if Truthy(u.admin) then {n} else {}),
       ops := c.ops + (if Truthy(u.op) then {n} else {}),
       hops := c.hops + (if Truthy(u.hop) then {n} else {}),
       voices := c.voices + (if Truthy(u.voice) then {n} else {}))
  }

  /**
   * _adduser on a joined channel: a user already present (matched by the
   * lower-cased nick) takes the non-null properties of `u`, a new one is
   * inserted as is; then the stored nick joins every role list whose flag is
   * true. No other user changes and no role list shrinks.
   */
  function AddUser(c: Channel, u: ChannelUser): (d: Channel)
    ensures var k := UserKey(u.nick);
      k in d.users && d.users[k] == Stored(c, u)
      && d.users.Keys == c.users.Keys + {k}
      && (forall j :: j in c.users && j != k ==> d.users[j] == c.users[j])
    ensures forall r :: Holders(c, r) <= Holders(d, r)
    ensures forall r, n :: n in Holders(d, r) && n !in Holders(c, r) ==>
      n == Stored(c, u).nick.GetOr("") && Truthy(Flag(Stored(c, u), r))
    ensures forall r :: Truthy(Flag(Stored(c, u), r)) ==> Stored(c, u).nick.GetOr("") in Holders(d, r)
    ensures SameSettings(c, d)
  {
    var s := Stored(c, u);
    GrantFlags(c.(users := c.users[UserKey(u.nick) := s]), s)
  }

  /** Adding a user that is already present with the same data changes nothing but the role lists it already implies. */
  lemma AddUserTwice(c: Channel, u: ChannelUser)
    requires u.nick.Some?
    ensures AddUser(AddUser(c, u), u) == AddUser(c, u)
  {
    var d := AddUser(c, u);
    var k := UserKey(u.nick);
    MergeIdempotent(if k in c.users then c.users[k] else Blank, u);
    assert Stored(d, u) == Stored(c, u) by {
      if k !in c.users {
        assert d.users[k] == u;
        assert Merge(u, u) == u;
      }
    }
    assert d.users[k := Stored(d, u)] == d.users;
  }

  // ---------------------------------------------------------------- _removeuser

  /** Whether some user of the channel carries this nick (PHP's loose ==, under which null equals ""). */
  predicate HoldsNick(c: Channel, nick: string)
  {
    exists k :: k in c.users && c.users[k].nick.GetOr("") == nick
  }

  /** The user leaves one channel: its entry and its role-list entries go. */
  function RemoveNick(c: Channel, nick: string): (d: Channel)
    ensures d.users.Keys == c.users.Keys - {Lower(nick)}
    ensures forall k :: k in d.users ==> d.users[k] == c.users[k]
    ensures forall r :: Holders(d, r) == Holders(c, r) - {nick}
    ensures SameSettings(c, d)
  {
    c.(users := c.users - {Lower(nick)},
       founders := c.founders - {nick}, admins := c.admins - {nick}, ops := c.ops - {nick},
       hops := c.hops - {nick}, voices := c.voices - {nick})
  }

  /** A QUIT: the nick leaves every channel that holds it; the others are untouched. */
  function QuitEverywhere(s: Store, nick: string): (t: Store)
    ensures t.Keys == s.Keys
    ensures forall k :: k in s && !HoldsNick(s[k], nick) ==> t[k] == s[k]
    ensures forall k :: k in s && HoldsNick(s[k], nick) ==>
      Lower(nick) !in t[k].users && (forall r :: nick !in Holders(t[k], r)) && SameSettings(s[k], t[k])
  {
    map k | k in s :: if HoldsNick(s[k], nick) then RemoveNick(s[k], nick) else s[k]
  }

  /** Channel names never change, so the store stays keyed by them. */
  lemma QuitKeepsKeys(s: Store, nick: string)
    requires WellKeyed(s)
    ensures WellKeyed(QuitEverywhere(s, nick))
  {
  }

  // ---------------------------------------------------------------- NICK

  /** A role list after a rename: the new nick is set first, then the old one unset. */
  function MoveEntry(list: set<string>, oldNick: string, newNick: string): set<string>
  {
    if oldNick in list then (list + {newNick}) - {oldNick} else list
  }

  /**
   * A rename in one channel: the record under the old key is stored under
   * the new key with its nick field updated (a missing record is created),
   * the old key goes unless both lower-case alike, and role-list entries
   * move to the new nick.
   */
  function Rename(c: Channel, oldNick: string, newNick: string): (d: Channel)
    ensures Lower(newNick) in d.users && d.users[Lower(newNick)].nick == Some(newNick)
    ensures d.users[Lower(newNick)] == (if Lower(oldNick) in c.users then c.users[Lower(oldNick)] else Blank).(nick := Some(newNick))
    ensures Lower(oldNick) != Lower(newNick) ==> d.users.Keys == c.users.Keys - {Lower(oldNick)} + {Lower(newNick)}
    ensures Lower(oldNick) == Lower(newNick) ==> d.users.Keys == c.users.Keys + {Lower(newNick)}
    ensures forall k :: k in c.users && k != Lower(oldNick) && k != Lower(newNick) ==> d.users[k] == c.users[k]
    ensures forall r :: Holders(d, r) == MoveEntry(Holders(c, r), oldNick, newNick)
    ensures SameSettings(c, d)
  {
    var lo, ln := Lower(oldNick), Lower(newNick);
    var moved := (if lo in c.users then c.users[lo] else Blank).(nick := Some(newNick));
    var users := c.users[ln := moved];
    c.(users := if ln != lo then users - {lo} else users,
       founders := MoveEntry(c.founders, oldNick, newNick), admins := MoveEntry(c.admins, oldNick, newNick),
       ops := MoveEntry(c.ops, oldNick, newNick), hops := MoveEntry(c.hops, oldNick, newNick), voices := MoveEntry(c.voices, oldNick, newNick))
  }

  /** A role held under the old nick is held under the new one afterwards, and no longer under the old one. */
  lemma RenameMovesRoles(c: Channel, oldNick: string, newNick: string, r: Role)
    requires oldNick in Holders(c, r) && oldNick != newNick
    ensures newNick in Holders(Rename(c, oldNick, newNick), r) && oldNick !in Holders(Rename(c, oldNick, newNick), r)
  {
  }

  /** Every channel holding the old nick renames it; the others are untouched. */
  function RenameEverywhere(s: Store, oldNick: string, newNick: string): (t: Store)
    ensures t.Keys == s.Keys
    ensures forall k :: k in s && !HoldsNick(s[k], oldNick) ==> t[k] == s[k]
    ensures forall k :: k in s && HoldsNick(s[k], oldNick) ==> t[k] == Rename(s[k], oldNick, newNick)
  {
    map k | k in s :: if HoldsNick(s[k], oldNick) then Rename(s[k], oldNick, newNick) else s[k]
  }

  // ---------------------------------------------------------------- MODE

  /** The state of the scan over a mode string: the channel, the current sign, the parameters left. */
  datatype ModeScan = ModeScan(channel: Channel, add: bool, remove: bool, args: seq<string>)

  /** array_shift: the first parameter (null when there is none) and the rest. */
  function Shift(args: seq<string>): (r: (Option<string>, seq<string>))
    ensures args == [] ==> r == (None, [])
    ensures args != [] ==> r == (Some(args[0]), args[1..])
  {
    if args == [] then (None, []) else (Some(args[0]), args[1..])
  }

  function RoleOfLetter(ch: char): Option<Role>
  {
    if ch == 'q' then Some(Founder)
    else if ch == 'a' then Some(Admin)
    else if ch == 'o' then Some(Op)
    else if ch == 'h' then Some(Hop)
    else if ch == 'v' then Some(Voice)
    else None
  }

  /**
   * Set or clear a role for a nick: the role-list entry and the user's flag.
   * Setting the flag on a nick the channel does not list creates a record
   * holding only that flag, as PHP 7 does for a property set on a missing
   * array entry.
   */
  function SetRole(c: Channel, r: Role, nick: Option<string>, on: bool): (d: Channel)
    ensures var n := nick.GetOr("");
      Holders(d, r) == (if on then Holders(c, r) + {n} else Holders(c, r) - {n})
      && Lower(n) in d.users && Flag(d.users[Lower(n)], r) == Some(on)
    ensures forall q :: q != r ==> Holders(d, q) == Holders(c, q)
    ensures forall k :: k in c.users && k != Lower(nick.GetOr("")) ==> k in d.users && d.users[k] == c.users[k]
    ensures SameSettings(c, d)
  {
    var n := nick.GetOr("");
    var k := Lower(n);
    var base := if k in c.users then c.users[k] else Blank;
    var c1 := WithHolders(c, r, if on then Holders(c, r) + {n} else Holders(c, r) - {n});
    c1.(users := c1.users[k := WithFlag(base, r, Some(on))])
  }

  /** One letter of the mode string (the body of the for loop in _event_mode). */
  function ModeStep(st: ModeScan, ch: char): (nx: ModeScan)
    ensures nx.channel.name == st.channel.name && nx.channel.topic == st.channel.topic
    ensures nx.channel.synctimeStart == st.channel.synctimeStart && nx.channel.synctimeStop == st.channel.synctimeStop
    ensures nx.channel.synctime == st.channel.synctime
    ensures !(nx.add && nx.remove) || (st.add && st.remove)
  {
    var c := st.channel;
    if ch == '-' then st.(add := false, remove := true)
    else if ch == '+' then st.(add := true, remove := false)
    else if RoleOfLetter(ch).Some? then
      var (nick, rest) := Shift(st.args);
      var r := RoleOfLetter(ch).value;
      var c1 := if st.add then SetRole(c, r, nick, true) else c;
      var c2 := if st.remove then SetRole(c1, r, nick, false) else c1;
      st.(channel := c2, args := rest)
    else if ch == 'k' then
      var (key, rest) := Shift(st.args);
      var c1 := if st.add then c.(key := key) else c;
      var c2 := if st.remove then c1.(key := Some("")) else c1;
      st.(channel := c2, args := rest)
    else if ch == 'l' then
      var (limit, rest) := if st.add then Shift(st.args) else (None, st.args);
      var c1 := if st.add then c.(userLimit := LimitTo(limit)) else c;
      var c2 := if st.remove then c1.(userLimit := NoLimit) else c1;
      st.(channel := c2, args := rest)
    else if ch == 'b' then
      var (mask, rest) := Shift(st.args);
      var m := mask.GetOr("");
      var c1 := if st.add then c.(bans := c.bans + {m}) else c;
      var c2 := if st.remove then c1.(bans := c1.bans - {m}) else c1;
      st.(channel := c2, args := rest)
    else
      var c1 := if st.add then c.(mode := Some(c.mode.GetOr("") + [ch])) else c;
      var c2 := if st.remove then c1.(mode := Some(RemoveChar(c1.mode.GetOr(""), ch))) else c1;
      st.(channel := c2)
  }

  /** The scan over a whole mode string, letter by letter from the left. */
  function ScanMode(st: ModeScan, letters: string): ModeScan
    decreases |letters|
  {
    if letters == [] then st
    else ModeStep(ScanMode(st, letters[..|letters| - 1]), letters[|letters| - 1])
  }

  /** The scan at the start of _event_mode: no sign yet, the parameters after the mode string. */
  function StartScan(c: Channel, params: seq<string>): ModeScan
  {
    ModeScan(c, false, false, if |params| > 2 then params[2..] else [])
  }

  /** A mode string may be applied in two pieces: the scan of a + b is the scan of b after the scan of a. */
  lemma {:induction false} ScanModeSplit(st: ModeScan, a: string, b: string)
    ensures ScanMode(st, a + b) == ScanMode(ScanMode(st, a), b)
    decreases |b|
  {
    if b == [] {
      assert a + b == a;
    } else {
      var ab := a + b;
      assert ab[..|ab| - 1] == a + b[..|b| - 1];
      assert ab[|ab| - 1] == b[|b| - 1];
      ScanModeSplit(st, a, b[..|b| - 1]);
    }
  }

  /** The scan changes neither the name, the topic nor the sync stamps of the channel. */
  lemma {:induction false} ScanKeepsIdentity(st: ModeScan, letters: string)
    ensures var e := ScanMode(st, letters).channel;
      e.name == st.channel.name && e.topic == st.channel.topic && e.synctimeStart == st.channel.synctimeStart
      && e.synctimeStop == st.channel.synctimeStop && e.synctime == st.channel.synctime
    decreases |letters|
  {
    if letters != [] {
      ScanKeepsIdentity(st, letters[..|letters| - 1]);
    }
  }

  /** Letters before any '+' or '-' consume their parameters but change nothing in the channel. */
  lemma {:induction false} UnsignedLettersInert(c: Channel, args: seq<string>, letters: string)
    requires forall i :: 0 <= i < |letters| ==> letters[i] != '+' && letters[i] != '-'
    ensures var e := ScanMode(ModeScan(c, false, false, args), letters);
      e.channel == c && !e.add && !e.remove
    decreases |letters|
  {
    if letters != [] {
      var init := letters[..|letters| - 1];
      UnsignedLettersInert(c, args, init);
    }
  }

  /** "+q n" … "+v n": the nick is added to the role list and its user's flag set. */
  lemma GrantRole(c: Channel, ch: char, nick: string, rest: seq<string>)
    requires RoleOfLetter(ch).Some?
    ensures var e := ScanMode(ModeScan(c, false, false, [nick] + rest), ['+', ch]);
      var r := RoleOfLetter(ch).value;
      nick in Holders(e.channel, r) && Lower(nick) in e.channel.users
      && Flag(e.channel.users[Lower(nick)], r) == Some(true) && e.args == rest
  {
    var s0 := ModeScan(c, false, false, [nick] + rest);
    assert ['+', ch][..1] == ['+'];
    assert ['+'][..0] == [];
    assert ScanMode(s0, ['+']) == ModeStep(s0, '+');
  }

  /** "-q n" … "-v n": the nick leaves the role list and its user's flag is cleared. */
  lemma RevokeRole(c: Channel, ch: char, nick: string, rest: seq<string>)
    requires RoleOfLetter(ch).Some?
    ensures var e := ScanMode(ModeScan(c, false, false, [nick] + rest), ['-', ch]);
      var r := RoleOfLetter(ch).value;
      nick !in Holders(e.channel, r) && Lower(nick) in e.channel.users
      && Flag(e.channel.users[Lower(nick)], r) == Some(false) && e.args == rest
  {
    var s0 := ModeScan(c, false, false, [nick] + rest);
    assert ['-', ch][..1] == ['-'];
    assert ['-'][..0] == [];
    assert ScanMode(s0, ['-']) == ModeStep(s0, '-');
  }

  /** k takes a parameter under either sign: +k stores it, -k leaves the empty key. */
  lemma KeyLetter(st: ModeScan)
    requires !(st.add && st.remove)
    ensures var e := ModeStep(st, 'k');
      e.args == Shift(st.args).1
      && (st.add ==> e.channel.key == Shift(st.args).0)
      && (st.remove ==> e.channel.key == Some(""))
      && (!st.add && !st.remove ==> e.channel == st.channel)
  {
  }

  /** l takes a parameter only under '+'; -l removes the limit. */
  lemma LimitLetter(st: ModeScan)
    requires !(st.add && st.remove)
    ensures var e := ModeStep(st, 'l');
      (st.add ==> e.args == Shift(st.args).1 && e.channel.userLimit == LimitTo(Shift(st.args).0))
      && (!st.add ==> e.args == st.args)
      && (st.remove ==> e.channel.userLimit == NoLimit)
  {
  }

  /** b adds or removes a ban mask. */
  lemma BanLetter(st: ModeScan)
    requires !(st.add && st.remove)
    ensures var e := ModeStep(st, 'b');
      var m := Shift(st.args).0.GetOr("");
      e.args == Shift(st.args).1
      && (st.add ==> e.channel.bans == st.channel.bans + {m})
      && (st.remove ==> e.channel.bans == st.channel.bans - {m})
  {
  }

  predicate IsModeFlagLetter(ch: char)
  {
    ch != '+' && ch != '-' && RoleOfLetter(ch).None? && ch != 'k' && ch != 'l' && ch != 'b'
  }

  /** Any other letter is appended to the channel mode under '+' and every occurrence of it is removed under '-'. */
  lemma OtherLetter(st: ModeScan, ch: char)
    requires IsModeFlagLetter(ch) && !(st.add && st.remove)
    ensures var e := ModeStep(st, ch);
      e.args == st.args
      && (st.add ==> e.channel.mode == Some(st.channel.mode.GetOr("") + [ch]))
      && (st.remove ==>
            (e.channel.mode.Some? && ch !in e.channel.mode.value
             && |e.channel.mode.value| <= |st.channel.mode.GetOr("")|))
  {
  }

  // ---------------------------------------------------------------- WHO reply

  /** One status character of a WHO reply. */
  function StatusStep(u: ChannelUser, ch: char): ChannelUser
  {
    if ch == 'H' then u.(away := Some(false))
    else if ch == 'G' then u.(away := Some(true))
    else if ch == '*' then u.(ircop := Some(true))
    else if ch == '~' then u.(founder := Some(true))
    else if ch == '&' then u.(admin := Some(true))
    else if ch == '@' then u.(op := Some(true))
    else if ch == '%' then u.(hop := Some(true))
    else if ch == '+' then u.(voice := Some(true))
    else u
  }

  /** The status characters of a role: ~ & @ % +. */
  function StatusOf(r: Role): char
  {
    match r
    case Founder => '~'
    case Admin => '&'
    case Op => '@'
    case Hop => '%'
    case Voice => '+'
  }

  /** The loop over the status string, left to right. */
  function ApplyStatus(u: ChannelUser, s: string): ChannelUser
    decreases |s|
  {
    if s == [] then u else StatusStep(ApplyStatus(u, s[..|s| - 1]), s[|s| - 1])
  }

  /** After the status string a role flag is true when its character occurs and unchanged otherwise. */
  lemma {:induction false} ApplyStatusRole(u: ChannelUser, s: string, r: Role)
    ensures Flag(ApplyStatus(u, s), r) == if StatusOf(r) in s then Some(true) else Flag(u, r)
    decreases |s|
  {
    if s != [] {
      var init := s[..|s| - 1];
      ApplyStatusRole(u, init, r);
      assert s == init + [s[|s| - 1]];
    }
  }

  /** ircop is set exactly when '*' occurs. */
  lemma {:induction false} ApplyStatusIrcop(u: ChannelUser, s: string)
    ensures ApplyStatus(u, s).ircop == if '*' in s then Some(true) else u.ircop
    decreases |s|
  {
    if s != [] {
      var init := s[..|s| - 1];
      ApplyStatusIrcop(u, init);
      assert s == init + [s[|s| - 1]];
    }
  }

  /** G marks the user away and H present; with neither, away is unchanged. */
  lemma {:induction false} ApplyStatusAway(u: ChannelUser, s: string)
    ensures 'G' in s && 'H' !in s ==> ApplyStatus(u, s).away == Some(true)
    ensures 'H' in s && 'G' !in s ==> ApplyStatus(u, s).away == Some(false)
    ensures 'H' !in s && 'G' !in s ==> ApplyStatus(u, s).away == u.away
    decreases |s|
  {
    if s != [] {
      var init := s[..|s| - 1];
      ApplyStatusAway(u, init);
      assert s == init + [s[|s| - 1]];
    }
  }

  /** The status string touches no identity field. */
  lemma {:induction false} ApplyStatusKeeps(u: ChannelUser, s: string)
    ensures var w := ApplyStatus(u, s);
      w.nick == u.nick && w.ident == u.ident && w.host == u.host && w.server == u.server && w.modes == u.modes
    decreases |s|
  {
    if s != [] {
      ApplyStatusKeeps(u, s[..|s| - 1]);
    }
  }

  /** The WHO reply's offset: 1 when the first parameter is the client's own nick. */
  function WhoOffset(params: seq<string>, me: string): nat
  {
    if P.Param(params, 0).GetOr("") == me then 1 else 0
  }

  /** The nick a WHO reply is about. */
  function WhoNick(params: seq<string>, me: string): Option<string>
  {
    P.Param(params, 4 + WhoOffset(params, me))
  }

  /**
   * The user a WHO reply describes: ident, host, server and nick from the
   * parameters, all flags false before the status string, hop count the
   * first word of the text and real name the rest.
   */
  function WhoUser(params: seq<string>, me: string, words: seq<string>): (u: ChannelUser)
    requires |words| >= 1
  {
    ApplyStatus(WhoStart(params, me), WhoStatus(params, me)).(hopcount := Some(words[0]), realname := Some(Implode(" ", words[1..])))
  }

  /** The status string of a WHO reply ("" when missing, as strlen(null) is 0). */
  function WhoStatus(params: seq<string>, me: string): string
  {
    P.Param(params, 5 + WhoOffset(params, me)).GetOr("")
  }

  /** The WHO user before the status string is read: identity from the parameters, every role flag false. */
  function WhoStart(params: seq<string>, me: string): ChannelUser
  {
    var o := WhoOffset(params, me);
    ChannelUser(WhoNick(params, me), P.Param(params, 1 + o), P.Param(params, 2 + o), None,
      Some(false), Some(false), Some(false), Some(false), Some(false), Some(false), None,
      P.Param(params, 3 + o), None, P.Param(params, 5 + o))
  }

  /** Every role flag of a WHO user is known: true exactly when the status string carries its character. */
  lemma WhoUserFlags(params: seq<string>, me: string, words: seq<string>, r: Role)
    requires |words| >= 1
    ensures var status := P.Param(params, 5 + WhoOffset(params, me)).GetOr("");
      Flag(WhoUser(params, me, words), r) == Some(StatusOf(r) in status)
      && WhoUser(params, me, words).ircop == Some('*' in status)
      && WhoUser(params, me, words).nick == WhoNick(params, me)
  {
    ApplyStatusRole(WhoStart(params, me), WhoStatus(params, me), r);
    ApplyStatusIrcop(WhoStart(params, me), WhoStatus(params, me));
    ApplyStatusKeeps(WhoStart(params, me), WhoStatus(params, me));
  }

  // ---------------------------------------------------------------- NAMES reply

  function RoleOfPrefix(ch: char): Option<Role>
  {
    if ch == '~' then Some(Founder)
    else if ch == '&' then Some(Admin)
    else if ch == '@' then Some(Op)
    else if ch == '%' then Some(Hop)
    else if ch == '+' then Some(Voice)
    else None
  }

  /**
   * One name of a NAMES reply: a leading ~ & @ % + sets exactly the matching
   * flag and is dropped from the nick; any other name is the nick as is.
   */
  function NamesUser(tok: string): (u: ChannelUser)
    ensures |tok| > 0 && RoleOfPrefix(tok[0]).Some? ==>
      u.nick == Some(tok[1..]) && Flag(u, RoleOfPrefix(tok[0]).value) == Some(true)
      && forall r :: r != RoleOfPrefix(tok[0]).value ==> Flag(u, r).None?
    ensures !(|tok| > 0 && RoleOfPrefix(tok[0]).Some?) ==> u.nick == Some(tok) && forall r :: Flag(u, r).None?
    ensures u.ident.None? && u.host.None? && u.ircop.None? && u.away.None?
  {
    if |tok| > 0 && RoleOfPrefix(tok[0]).Some? then
      WithFlag(Blank.(nick := Some(tok[1..])), RoleOfPrefix(tok[0]).value, Some(true))
    else Blank.(nick := Some(tok))
  }

  /** The names of a NAMES reply: the text, right-trimmed, split at spaces. */
  function NamesTokens(text: string): seq<string>
  {
    Explode(" ", RTrim(text))
  }

  /** The channel after adding the users of a NAMES reply one by one. */
  function AddNames(c: Channel, toks: seq<string>): Channel
    decreases |toks|
  {
    if toks == [] then c else AddUser(AddNames(c, toks[..|toks| - 1]), NamesUser(toks[|toks| - 1]))
  }

  /** After a NAMES reply every listed name is on the roster, and everyone who was there still is. */
  lemma {:induction false} AddNamesListsEveryone(c: Channel, toks: seq<string>)
    ensures c.users.Keys <= AddNames(c, toks).users.Keys
    ensures forall i :: 0 <= i < |toks| ==> UserKey(NamesUser(toks[i]).nick) in AddNames(c, toks).users
    ensures SameSettings(c, AddNames(c, toks))
    decreases |toks|
  {
    if toks != [] {
      var init := toks[..|toks| - 1];
      AddNamesListsEveryone(c, init);
      forall i | 0 <= i < |toks|
        ensures UserKey(NamesUser(toks[i]).nick) in AddNames(c, toks).users
      {
        if i < |toks| - 1 {
          assert toks[i] == init[i];
        }
      }
    }
  }

  // ---------------------------------------------------------------- ban list and sync time

  /** The end of the ban list stamps the stop time and the sync duration, once. */
  function EndOfBanList(c: Channel, now: int): (d: Channel)
    ensures Synced(c) ==> d == c
    ensures !Synced(c) ==> d.synctimeStop == now && d.synctime == Some(now - c.synctimeStart)
    ensures d.users == c.users && d.bans == c.bans && d.name == c.name
  {
    if c.synctimeStop == 0 then c.(synctimeStop := now, synctime := Some(now - c.synctimeStart)) else c
  }

  /** A second end of the ban list changes nothing when the first was stamped with a non-zero time. */
  lemma EndOfBanListOnce(c: Channel, now: int, later: int)
    requires now != 0
    ensures EndOfBanList(EndOfBanList(c, now), later) == EndOfBanList(c, now)
  {
  }

  // ---------------------------------------------------------------- readers

  /** isJoined: the client (nick None) or the given nick is in the channel; false without syncing. */
  function IsJoined(syncing: bool, s: Store, channel: string, nick: Option<string>): (b: bool)
    ensures b ==> syncing && Lower(channel) in s
    ensures b && nick.Some? ==> Lower(nick.value) in s[Lower(channel)].users
  {
    syncing && Lower(channel) in s && (nick.None? || Lower(nick.value) in s[Lower(channel)].users)
  }

  /** getChannel: the channel under the lower-cased name. */
  function GetChannel(syncing: bool, s: Store, channel: string): (c: Option<Channel>)
    ensures c.Some? <==> IsJoined(syncing, s, channel, None)
  {
    if syncing && Lower(channel) in s then Some(s[Lower(channel)]) else None
  }

  /** getUser: the user under the lower-cased nick in a joined channel. */
  function GetUser(syncing: bool, s: Store, channel: string, nick: string): (u: Option<ChannelUser>)
    ensures u.Some? <==> IsJoined(syncing, s, channel, Some(nick))
  {
    if IsJoined(syncing, s, channel, Some(nick)) then Some(s[Lower(channel)].users[Lower(nick)]) else None
  }

  /** Channel and nick lookups ignore case. */
  lemma LookupIgnoresCase(syncing: bool, s: Store, channel: string, nick: string)
    ensures GetChannel(syncing, s, Lower(channel)) == GetChannel(syncing, s, channel)
    ensures GetUser(syncing, s, Lower(channel), Lower(nick)) == GetUser(syncing, s, channel, nick)
  {
    LowerIdempotent(channel);
    LowerIdempotent(nick);
  }

  /**
   * isFounder, isAdmin, isOpped, isHopped, isVoiced: the nick (the client's
   * own when none is given) is in the channel and its flag is true.
   */
  function HasRole(syncing: bool, s: Store, me: string, channel: string, nick: Option<string>, r: Role): (b: bool)
    ensures b <==> var n := nick.GetOr(me);
      GetUser(syncing, s, channel, n).Some? && Truthy(Flag(GetUser(syncing, s, channel, n).value, r))
  {
    var n := nick.GetOr(me);
    IsJoined(syncing, s, channel, Some(n)) && Truthy(Flag(s[Lower(channel)].users[Lower(n)], r))
  }

  /** A role implies membership. */
  lemma HasRoleJoined(syncing: bool, s: Store, me: string, channel: string, nick: Option<string>, r: Role)
    requires HasRole(syncing, s, me, channel, nick, r)
    ensures IsJoined(syncing, s, channel, Some(nick.GetOr(me))) && IsJoined(syncing, s, channel, None)
  {
  }

  /** PHP truthiness of a string: not "" and not "0". */
  predicate TruthyString(x: string)
  {
    x != "" && x != "0"
  }

  /**
   * isBanned as written: array_search compares the mask loosely with the
   * values of the ban list, which are all true, so the answer is whether the
   * channel is joined, has any ban at all, and the mask is truthy.
   */
  function IsBanned(syncing: bool, s: Store, channel: string, mask: string): (b: bool)
    ensures b ==> IsJoined(syncing, s, channel, None) && s[Lower(channel)].bans != {}
  {
    IsJoined(syncing, s, channel, None) && s[Lower(channel)].bans != {} && TruthyString(mask)
  }

  /** The answer does not depend on which truthy mask is asked about. */
  lemma IsBannedIgnoresMask(syncing: bool, s: Store, channel: string, m1: string, m2: string)
    requires TruthyString(m1) && TruthyString(m2)
    ensures IsBanned(syncing, s, channel, m1) == IsBanned(syncing, s, channel, m2)
  {
  }
}
