# phpirc client core, modelled in Dafny

This project models the core of the phpirc IRC client: the `Irc` object
(src/Irc.php), the command layer it extends (src/Command.php), its built-in
event handlers (src/MessageHandler.php), the `Channel` record
(src/Channel.php) and the message-type bit masks (src/Enum/HandlerType.php).
The model covers:

- how a block of received data is cut into lines;
- how each line is parsed into prefix, command, parameters and trailing text,
  following the message format of section 2.3.1 of RFC 2812;
- how a line is classified into a `HandlerType` mask and given a channel, and
  which `_event_` handler it reaches;
- how the built-in handlers keep the store of joined channels, their rosters,
  role lists, modes, ban lists and sync times up to date;
- the three priority queues of the outbound buffer with the CRITICAL bypass,
  the one-message-per-round drain gated by the send delay, and the socket wait
  timeout;
- the action-handler and time-handler registries, the ping check's decision
  (the check itself is registered as a time handler but not run, see
  "Left out") and the reconnect loop with its delay, re-login, channel
  snapshot and rejoin;
- the command serialisers, with round-trip lemmas that send a line through the
  parser again.

Modules, one per concern:

| module | file | contents |
|---|---|---|
| `Wrappers` | wrappers.dfy | `Option` |
| `Text` | text.dfy | the PHP string functions the core uses (`strtolower`, `strpos`, `substr`, `trim`, `explode`, `implode`, `str_replace`, `is_numeric`) |
| `HandlerType` | handler_type.dfy | the type bits as `bv64` constants |
| `Parser` | parser.dfy | data splitting, line cutting, prefix splitting, classification, event names |
| `Roster` | roster.dfy | `Channel`/`ChannelUser` records and the pure store transformations and readers (`_adduser`, `_removeuser`, `is*`, `get*`, the MODE scanner, WHO/NAMES decoding) |
| `Outbound` | outbound.dfy | the send path: `send`, `_rawsend`, `_updatestate`, the drain, the select timeout |
| `Registry` | registry.dfy | action and time handler lists |
| `Commands` | commands.dfy | the lines Command.php produces, the CTCP answers, parse round trips |
| `Session` | session.dfy | setter clamps, login plan, ping decision, rejoin snapshot |
| `Events` | events.dfy | each MessageHandler handler as a function on the channel store |
| `Client` | client.dfy | class `Irc`: the object's fields, updated in place by methods with loops where the source loops, each proved against the functions above |

Socket, clock, `rand()` and `exec('whoami')` are inputs:

- the socket is a `Port` value (open, writable), and a sequence of connect outcomes stands for `stream_socket_client`;
- the clock is a field of milliseconds;
- the random roll is a parameter below 1000.

Callbacks are recorded by id, not invoked. The action-handler regex engine is a function parameter `matches`.

Where the code and the prose description of the library disagree, the model follows the code:

- a WHO reply for channel `*` walks every joined channel;
- `getChannel` on a channel that is not joined changes nothing;
- `_event_rpl_channelmodeis` blanks the first parameter before handing the message to `_event_mode`;
- `unregisterTimeId` leaves the cached minimum interval unset, because it reads `->interval` from an array entry;
- `isBanned` is true for any truthy mask once the channel's ban list is non-empty, because `array_search` runs over the values, which are all `true`;
- `login` counts `i` and `w` in a non-numeric user mode only at non-zero positions, because a `strpos` result of 0 is falsy;
- BANLIST and CHANNELMODEIS replies take the channel from the first parameter.

## Model

| member | source | states |
|---|---|---|
| Text.LowerIdempotent | src/Irc.php:952-953 | lower-casing a store key twice gives the same key, so a lookup under a lower-cased name finds the same channel |
| Text.IndexOf | src/Irc.php:1695-1701 | `strpos`: the first position where the pattern occurs, and no earlier one; None exactly when it occurs nowhere |
| Text.Substr | src/Irc.php:1696 | `substr` with a length: a slice of the string that starts at the given offset and stays inside it |
| Text.TrimLeft | src/Irc.php:1676 | the left half of `trim`: only trimmable characters are dropped, and the result is empty or starts with a non-trimmable one |
| Text.RTrim | src/MessageHandler.php:524 | `rtrim`: only trimmable characters are dropped from the end, and the result is empty or ends with a non-trimmable one |
| Text.TrimStrips | src/Irc.php:1676 | a trimmed line is empty or starts and ends with a non-trimmable character |
| Text.TrimOfTrimmed | src/Irc.php:1676 | `trim` leaves a non-empty line alone when its first and last characters are not trimmable |
| Text.RemoveChar | src/Irc.php:1204 | `str_replace` of one character: it no longer occurs, every other character that occurred still occurs, and nothing is added |
| Text.ImplodeExplode | src/Irc.php:1707-1710 | `implode` undoes `explode` for any separator and any string |
| Text.ExplodeImplode | src/Command.php:90 | `explode` undoes `implode` of pieces that do not contain the one-character separator |
| HandlerType.ClassesAreBits | src/Enum/HandlerType.php:14-44 | every type constant is a single bit, and DCC is the same bit as CTCP_REPLY |
| HandlerType.BitsDisjoint | src/Enum/HandlerType.php:14-43 | two different single-bit types share no bit |
| HandlerType.AllIsUnionOfClasses | src/Enum/HandlerType.php:45 | ALL is the OR of every type bit |
| HandlerType.CombinationMeetsAll | src/Enum/HandlerType.php:45 | any non-zero combination of types intersects ALL |
| HandlerType.CtcpSelection | src/Irc.php:1842-1853 | CTCP_REQUEST\|CTCP and CTCP_REPLY\|CTCP each intersect exactly their two components among the single types |
| Text.LowerKeepsNumeric | src/Irc.php:1915-1931 | lower-casing a command does not change whether `is_numeric` accepts it, so a word command reaches the same event name in any case |
| Text.DigitsAreNumeric | src/Irc.php:1915 | a string of digits is numeric for `is_numeric` |
| Text.NumericStringShapes | src/Irc.php:1218 | `is_numeric` accepts a sign, leading whitespace, a decimal point with digits on either side and an exponent: "-8", "+8", " 8", "1.5", ".5", "5.", "1e3", "2E-1" |
| Text.NonNumericShapes | src/Irc.php:1218 | `is_numeric` rejects trailing whitespace, a lone sign or point, a bare exponent, the empty string and a doubled sign: "8 ", "+iw", ".", "e3", "", "1e", "--8" |
| Parser.CodeOfCode | src/Irc.php:1915-1925 | a three-digit numeric command reads back as the number that produced it |
| Parser.EventNameOfReply | src/Irc.php:1915-1926 | a numeric command with a known reply name reaches `event_` plus the lower-cased reply name |
| Parser.EventNameIgnoresCase | src/Irc.php:1930-1931 | for a word command the event name does not depend on the command's case |
| Parser.LastIndexBelow | src/Irc.php:1721 | the last occurrence of a character below a bound: it is that character, and none comes after it below the bound |
| Parser.MatchUserHost | src/Irc.php:1721-1724 | a match of `^(\S+)!(\S+)@(\S+)$` gives three non-empty parts that rebuild the prefix |
| Parser.SplitPrefix | src/Irc.php:1721-1729 | a prefix that is not nick!ident@host leaves nick and ident empty and puts the whole prefix in host; otherwise the three parts rebuild the prefix |
| Parser.SplitPrefixOfUserHost | src/Irc.php:1721-1724 | nick!ident@host with spaceless parts, no `!` in ident and no `@` in host splits back into exactly those three parts |
| Parser.ClassifyNumeric | src/Irc.php:1731-1829 | the type of a numeric reply is one of the type bits the reply switch assigns |
| Parser.ReplyChannelSkipsOwnNick | src/Irc.php:1754-1780 | a NAMES or WHO reply that starts with the client's own nick is read one parameter further on, so it names the same channel as without that nick |
| Parser.ClassifyPrivmsg | src/Irc.php:1830-1848 | a PRIVMSG is CHANNEL exactly when the target starts with one of `&#+!`, whatever the text; otherwise ACTION only for a `\x01ACTION …\x01` text (with the target as channel), CTCP_REQUEST\|CTCP only for another `\x01…\x01` text, else QUERY |
| Parser.Classify | src/Irc.php:1731-1901 | every command gets one of the types the switch assigns; PRIVMSG as `ClassifyPrivmsg` says; NOTICE is CTCP_REPLY\|CTCP exactly for a `\x01…\x01` text, else NOTICE, with no channel; JOIN takes the first parameter as channel, or the text when that is empty; TOPIC, KICK, PART and MODE take the first parameter; NICK, QUIT and INVITE have no channel; any other non-numeric command is UNKNOWN with no channel |
| Parser.ClassifyNamesCommand | src/Irc.php:1830-1901 | the type of a message names its word command back (JOIN → JOIN, NICKCHANGE → NICK, …) exactly when the command is one of the ten word commands the switch lists; a numeric or unlisted command gets a type that names none |
| Parser.KindsWellFormed | src/Irc.php:1731-1901 | each type the classification can assign is a single bit or one of the two CTCP composites |
| Parser.ParseLine | src/Irc.php:1684-1901 | the message keeps the raw line, has a listed type, and its nick, ident and host rebuild the prefix (or host is the whole prefix) |
| Parser.DropFalsy | src/Irc.php:1676 | `array_filter`: only lines that are neither "" nor "0" remain, and all of them come from the input |
| Parser.SplitDataFrames | src/Irc.php:1676 | data made of CR LF terminated wire lines splits back into exactly those lines |
| Parser.WireLinesTrimmed | src/Irc.php:1676 | trimming leaves wire lines unchanged |
| Parser.SplitDataLinesTrimmed | src/Irc.php:1676 | every line the split yields is empty or starts and ends with a non-whitespace character |
| Parser.PrefixPartOf | src/Irc.php:1694-1697 | the prefix is the text between the leading ':' and the first space |
| Parser.TrailingPartOf | src/Irc.php:1700-1702 | the trailing text is everything after the first " :" |
| Parser.TrailingPartNone | src/Irc.php:1700-1704 | with no " :" the trailing text is empty and the command part runs to the end of the line |
| Parser.CutCompose | src/Irc.php:1690-1712 | cutting a composed line gives back its prefix, command, parameters and trailing text |
| Parser.ParseCompose | src/Irc.php:1684-1728 | parsing `:nick!ident@host command params :text` gives back every field |
| Roster.NewChannel | src/Channel.php:18-88 | a fresh channel has no users, no role holders, no bans, no user limit, stop time 0 (not synced) and no key, topic, mode or sync time |
| Roster.WithFlag | src/Irc.php:2258-2271 | setting one role flag of a user changes that flag only |
| Roster.WithHolders | src/Channel.php:33-53 | replacing one role list changes that list only |
| Roster.MergeBlank | src/Irc.php:2252-2268 | merging a user with no known fields changes nothing |
| Roster.MergeIdempotent | src/Irc.php:2252-2268 | merging the same update twice is merging it once |
| Roster.MergeFlag | src/Irc.php:2252-2268 | a merge takes each flag from the update when it is set, else keeps the stored one |
| Roster.GrantFlags | src/Irc.php:2274-2298 | the nick joins every role list whose flag is true, and nothing else changes |
| Roster.AddUser | src/Irc.php:2246-2300 | `_adduser`: the user is stored under the lower-cased nick, merged with any stored record; other users are kept; role lists only grow, and only by the added nick for its true flags |
| Roster.AddUserTwice | src/Irc.php:2246-2300 | adding the same user twice is adding it once |
| Roster.RemoveNick | src/Irc.php:2462-2475 | the nick leaves the users and every role list of the channel; settings are kept |
| Roster.QuitEverywhere | src/Irc.php:2422-2456 | on QUIT the nick leaves every channel holding it; channels without it are unchanged; no channel is removed |
| Roster.QuitKeepsKeys | src/Irc.php:2422-2456 | after a QUIT every channel is still stored under its lower-cased name |
| Roster.Rename | src/MessageHandler.php:97-139 | the user is stored under the lower-cased new nick with its nick updated; the old key goes unless both lower-case alike; role-list entries move to the new nick |
| Roster.RenameMovesRoles | src/MessageHandler.php:118-136 | a role held under the old nick is held under the new one, and not under the old one |
| Roster.RenameEverywhere | src/MessageHandler.php:97-139 | the rename applies to every channel holding the old nick and leaves the others unchanged |
| Roster.Shift | src/MessageHandler.php:172-342 | `array_shift`: the first parameter and the rest, or null and nothing when none is left |
| Roster.SetRole | src/MessageHandler.php:172-286 | a role change sets both the role-list entry and the user's flag, and nothing else |
| Roster.ModeStep | src/MessageHandler.php:161-360 | one mode letter never touches the channel's name, topic or sync times |
| Roster.ScanModeSplit | src/MessageHandler.php:159-360 | scanning a mode string is scanning its two halves one after the other |
| Roster.UnsignedLettersInert | src/MessageHandler.php:159-171 | letters before any sign change nothing |
| Roster.GrantRole | src/MessageHandler.php:172-286 | `+q/a/o/h/v nick` consumes the nick and sets the role and the flag |
| Roster.RevokeRole | src/MessageHandler.php:172-286 | `-q/a/o/h/v nick` consumes the nick and clears the role and the flag |
| Roster.KeyLetter | src/MessageHandler.php:287-304 | `k` consumes a parameter for both signs: + stores the key, - sets it to "" |
| Roster.LimitLetter | src/MessageHandler.php:305-322 | `l` consumes a parameter only on +, and -l removes the limit |
| Roster.BanLetter | src/MessageHandler.php:325-342 | `b` consumes a mask and adds or removes it from the bans |
| Roster.OtherLetter | src/MessageHandler.php:343-360 | any other letter is appended on + and stripped on -, consuming nothing |
| Roster.ApplyStatusRole | src/MessageHandler.php:476-503 | a WHO status character `~ & @ % +` sets the matching role flag |
| Roster.ApplyStatusIrcop | src/MessageHandler.php:476-503 | `*` in the status sets ircop |
| Roster.ApplyStatusAway | src/MessageHandler.php:476-503 | G sets away, H clears it |
| Roster.ApplyStatusKeeps | src/MessageHandler.php:476-503 | status characters leave nick, ident, host, server and modes alone |
| Roster.WhoUserFlags | src/MessageHandler.php:440-516 | the WHO user's nick sits at `params[4+offset]`, with offset 1 when the first parameter is the local nick, and its status at `params[5+offset]`; each role flag is true exactly when its status character is present, and ircop when `*` is |
| Roster.NamesUser | src/MessageHandler.php:527-555 | a NAMES token with a role prefix sets exactly that flag and loses the prefix; any other token is the nick as it is |
| Roster.AddNamesListsEveryone | src/MessageHandler.php:524-560 | after a NAMES reply every listed nick is a user of the channel, and no user is lost |
| Roster.EndOfBanList | src/MessageHandler.php:574-596 | the end of the ban list stamps the stop time and the sync duration only while the channel is not yet synced |
| Roster.EndOfBanListOnce | src/MessageHandler.php:574-596 | a repeated end of ban list changes nothing |
| Roster.IsJoined | src/Irc.php:1331-1356 | joined means syncing on and the lower-cased channel stored, and for a nick also the lower-cased nick among its users |
| Roster.GetChannel | src/Irc.php:942-960 | a channel record is returned exactly when the channel is joined |
| Roster.GetUser | src/Irc.php:970-983 | a user record is returned exactly when the nick is joined to the channel |
| Roster.LookupIgnoresCase | src/Irc.php:942-983 | channel and user lookups do not depend on case |
| Roster.HasRole | src/Irc.php:1368-1501 | `isFounder` … `isVoiced`: the user (the local nick when none is given) is in the channel and its flag is truthy |
| Roster.HasRoleJoined | src/Irc.php:1368-1501 | holding a role implies being joined to the channel |
| Roster.IsBanned | src/Irc.php:1513-1527 | banned only in a joined channel with a non-empty ban list |
| Roster.IsBannedIgnoresMask | src/Irc.php:1513-1527 | the answer is the same for every truthy mask |
| Outbound.UpdateState | src/Irc.php:2485-2500 | connected follows the socket, and a closed socket clears the login flag; the queues are untouched |
| Outbound.RawSend | src/Irc.php:2366-2386 | a line reaches the wire exactly when the socket is open and writable; a failed write on an open socket sets the error flag; the queues are untouched |
| Outbound.Send | src/Irc.php:1285-1307 | CRITICAL goes out raw; HIGH, MEDIUM and LOW append to their own queue only; any other priority returns false and changes nothing |
| Outbound.SendAllQueued | src/Irc.php:1285-1307 | queueing lines one by one appends them, in order, to that one queue |
| Outbound.SendAllCritical | src/Irc.php:1285-1307 | CRITICAL lines reach the wire in order when the socket accepts them, and leave the queues alone |
| Outbound.SendAllUnlisted | src/Irc.php:1298-1304 | an unknown priority changes nothing, however many lines |
| Outbound.TakeFirst | src/Irc.php:1593-1604 | the drain takes the front of HIGH, else of MEDIUM, else of LOW, and the rest of the backlog stays in order |
| Outbound.Drain | src/Irc.php:1588-1609 | a message leaves only with a backlog, once the send delay has passed since the last send; then exactly the first backlog line is written and the last-send time is now; otherwise nothing changes |
| Outbound.DrainRateLimit | src/Irc.php:1588-1591 | after a message has left, none leaves again until the send delay has passed |
| Outbound.DrainStepsInOrder | src/Irc.php:1575-1609 | n rounds send the first n backlog lines in order and leave the rest |
| Outbound.SelectTimeout | src/Irc.php:1611-1619 | the wait is the send delay while a backlog exists, else the smallest of the maximum timer, the receive delay and the minimum timer when set |
| Registry.MakeCallback | src/Irc.php:2042-2050 | a callback is bound to a method only when the method name is truthy |
| Registry.RegisterAction | src/Irc.php:2035-2064 | a type sharing no bit with ALL is refused with nothing changed; otherwise the handler is appended under the old counter value, which is returned, and the counter advances |
| Registry.RegisterKeepsOrder | src/Irc.php:2035-2064 | ids stay strictly increasing and below the counter |
| Registry.FindId | src/Irc.php:2124-2150 | the first entry, action or time handler, with the id, or None when no entry has it |
| Registry.UnregisterId | src/Irc.php:2124-2150 | `unregisterActionId`: true exactly when an entry has the id, in which case one entry is removed; false leaves the list unchanged |
| Registry.UnregisterRemovesOnly | src/Irc.php:2124-2150 | only the entry with that id is removed, and the others keep their order |
| Registry.RegisterThenUnregister | src/Irc.php:2035-2150 | unregistering the id just returned restores the list |
| Registry.FindHandler | src/Irc.php:2076-2115 | the first entry with the same type, pattern and callback, or None |
| Registry.UnregisterHandler | src/Irc.php:2076-2115 | `unregisterActionHandler`: refused for a type outside ALL; otherwise true exactly when an entry has the same type, pattern and callback, and then the first such entry is removed and the others keep their order; otherwise nothing changes |
| Registry.Delimited | src/Irc.php:1969-1971 | a pattern is used as it is when its first and last characters agree, else it is wrapped in `/` |
| Registry.DelimitedIdempotent | src/Irc.php:1969-1971 | wrapping a wrapped pattern changes nothing |
| Registry.FiredIdsExact | src/Irc.php:1966-2004 | a handler fires exactly when its type shares a bit with the message's type and its pattern matches |
| Registry.FiredIdsSorted | src/Irc.php:1966-2004 | handlers fire in list order, so their ids come out increasing |
| Registry.MaskFilters | src/Irc.php:1966-1968 | handlers whose type shares no bit with the message never fire |
| Registry.LowerMin | src/Irc.php:2183-2185 | registering sets the cached minimum to the interval when it is unset or larger |
| Registry.LowerMinIsMin | src/Irc.php:2183-2185 | after several registrations the cached minimum is the smallest interval (or the old minimum) |
| Registry.Tick | src/Irc.php:2308-2338 | every due handler is stamped with the current time, the others are unchanged |
| Registry.TickUntilKeeps | src/Irc.php:1141-1144 | the passes of the time handlers once per millisecond from a start time up to an end time keep the list's length and each handler's id, interval and callback; each last-run stamp is either the old one or one of the pass times, at or after the start and before the end |
| Registry.TickUntilStep | src/Irc.php:1141-1144 | one more pass at the end time extends the passes by one millisecond, and its fired ids follow those of the earlier passes |
| Registry.TickTwice | src/Irc.php:2308-2338 | a second pass at the same time fires no handler with a positive interval |
| Registry.RegisterTime | src/Irc.php:2165-2188 | the handler is appended with the current time as last fired; the counter advances |
| Registry.UnregisterTime | src/Irc.php:2198-2236 | true exactly when a handler has the id; then the first handler with the id is removed, the others keep their order, and the cached minimum is unset; otherwise nothing changes |
| Registry.UnregisterForgetsMinimum | src/Irc.php:2215-2222 | a successful unregister leaves the minimum timer unset |
| Commands.MessageLine | src/Command.php:23-74 | accepted types give one line with PRIVMSG or NOTICE and the framed text; any other type gives none |
| Commands.MessageLines | src/Command.php:23-74 | one line per text, in order, or none for a refused type |
| Commands.CombinedTypeRefused | src/Command.php:69-70 | a combined mask such as CTCP_REQUEST\|CTCP is refused |
| Commands.MessageRelay | src/Command.php:23-74 | a sent message relayed with a sender prefix parses back to its sender, command, destination and text |
| Commands.CtcpReplyRelay | src/Irc.php:1850-1853 | a CTCP_REPLY parses back as CTCP_REPLY\|CTCP with the text framed in `\x01` |
| Commands.CtcpRequestRelay | src/Irc.php:1838-1844 | a CTCP_REQUEST to a nick parses back as CTCP_REQUEST\|CTCP |
| Commands.ActionRelay | src/Irc.php:1831-1842 | an ACTION to a nick parses back as ACTION, and to a channel as CHANNEL |
| Commands.PlainRelay | src/Irc.php:1831-1847 | a plain message parses back as CHANNEL for a channel target, else QUERY |
| Commands.NoticeRelay | src/Irc.php:1850-1856 | a notice without CTCP framing parses back as NOTICE |
| Commands.FramedIsCtcp | src/Irc.php:1842 | a text framed in `\x01` matches `^\x01.*\x01$` |
| Commands.FramedNotAction | src/Irc.php:1837 | a framed text not starting with "ACTION " does not match the ACTION pattern |
| Commands.FramedIsAction | src/Irc.php:1836-1837 | a framed "ACTION " text matches the ACTION pattern |
| Commands.JoinLine | src/Command.php:84-103 | one `JOIN channel`, with the key appended when one is given |
| Commands.JoinLines | src/Command.php:84-103 | one JOIN per channel, in order, the key on every line |
| Commands.PartLine | src/Command.php:114-129 | a single PART with the comma-joined channels and the reason only when given |
| Commands.KickLine | src/Command.php:141-156 | a single KICK with the comma-joined nicks and the reason only when given |
| Commands.ListingLine | src/Command.php:169-207 | bare LIST/NAMES without channels, else with the comma-joined list |
| Commands.TopicLine | src/Command.php:218-236 | TOPIC with the new topic as trailing text, or without it to ask |
| Commands.RoleModeLine | src/Command.php:268-397 | the role helpers send `MODE channel ±letter nick` |
| Commands.RoleLetterRoundTrip | src/Command.php:268-397 | the letter a helper sends is read back as the same role by the mode scanner |
| Commands.RoleModeRelay | src/Command.php:268-397 | a role change sent and relayed back, once scanned, sets or clears that role and flag for the nick |
| Commands.RelayedParams | src/Irc.php:1707-1712 | a relayed command without trailing text parses back to its command and parameters |
| Commands.BanLine | src/Command.php:410-418 | `MODE c b` without a mask, `MODE c +b mask` with one |
| Commands.UnbanLine | src/Command.php:429-432 | `MODE c -b mask` |
| Commands.InviteLine | src/Command.php:443-446 | `INVITE nick channel` |
| Commands.QuitLine | src/Command.php:512-521 | QUIT, with the message as trailing text when given |
| Commands.PongLine | src/MessageHandler.php:18-24 | PONG with the PING's trailing text |
| Commands.PingEchoesPayload | src/MessageHandler.php:375-378 | the answer to a CTCP PING is PING plus the same payload |
| Commands.VersionAnswer | src/MessageHandler.php:379-388 | VERSION is answered with the configured version when it is truthy, else the library's version string |
| Commands.PingRoundTrip | src/MessageHandler.php:375-378 | the PING answer, sent back as a CTCP_REPLY, parses as CTCP_REPLY\|CTCP carrying the same payload |
| Commands.FallbackNick | src/MessageHandler.php:607-611 | the fallback nick is the first five characters of the nick followed by a number of one to three digits |
| Session.AtLeast | src/Irc.php:555-565 | a setter clamp: the value when it is given and not below the floor, else the floor |
| Session.ReceiveDelayFor | src/Irc.php:640-650 | the receive delay is never below its default |
| Session.DisconnectTimeFor | src/Irc.php:555-565 | the disconnect time is never below its default |
| Session.AutoRetryMaxFor | src/Irc.php:431-443 | 0 switches auto-retry off and keeps the maximum; a non-zero maximum stays non-zero |
| Session.HalfTimeoutExact | src/Irc.php:2346-2355 | the integer test `2*silence > timeout` is the source's `silence > timeout/2` |
| Session.PingEscalates | src/Irc.php:2346-2355 | a longer silence never gets a milder reaction |
| Session.PingWindow | src/Irc.php:2346-2355 | past the timeout a reconnect, past half of it a PING, within half of it nothing |
| Session.CountsIffAfterFirst | src/Irc.php:1219-1227 | a mode letter counts exactly when it occurs and is not the first character |
| Session.UsermodeValue | src/Irc.php:1218-1236 | the user mode sent in USER is numeric: a numeric mode as given, else the i/w bit sum |
| Session.UsermodeBits | src/Irc.php:1218-1236 | a non-numeric user mode becomes 8 for i plus 4 for w, each only when found at a non-zero position |
| Session.UserLine | src/Irc.php:1239-1241 | `USER username mode * :realname` |
| Session.Login | src/Irc.php:1193-1253 | spaces are removed from nick and username; PASS (when given), NICK and USER go out at CRITICAL; the performs and a second NICK go at HIGH only when performs exist |
| Session.Snapshot | src/Irc.php:1121-1128 | one rejoin entry for each stored channel, and no others |
| Session.RejoinKey | src/Irc.php:1123-1127 | the key is kept only when it is non-empty |
| Session.RejoinLine | src/Irc.php:1167-1174 | a rejoin is the JOIN line for the name and its key |
| Events.Joiner | src/MessageHandler.php:59-66 | the joiner is added with nick, ident and host and no role flag |
| Events.Created | src/MessageHandler.php:44-51 | a self join creates an empty, unsynced channel whose sync starts now |
| Events.JoinSelf | src/MessageHandler.php:35-74 | a self join stores the new channel under the lower-cased name with the client as its only user; other channels are unchanged |
| Events.JoinOther | src/MessageHandler.php:35-74 | another nick's join adds that nick to the channel, if joined, and touches nothing else |
| Events.JoinKeyed | src/MessageHandler.php:35-74 | a join keeps every channel under its lower-cased name |
| Events.JoinQueries | src/MessageHandler.php:52-58 | a self join queues MODE c, WHO c and MODE c b, in that order; another nick's join queues WHO nick |
| Events.LeaveSelf | src/Irc.php:2411-2419 | when the client itself leaves, the channel is destroyed and the others are unchanged |
| Events.LeaveOther | src/Irc.php:2397-2475 | another nick's PART or KICK (the target, `params[1]`) leaves the named channel only |
| Events.QuitOther | src/Irc.php:2422-2456 | a QUIT removes the nick from every channel's users and role lists |
| Events.RemoveUserKeyed | src/Irc.php:2395-2477 | `_removeuser` keeps every channel under its lower-cased name |
| Events.RenameKeyed | src/MessageHandler.php:97-139 | a NICK keeps every channel under its lower-cased name |
| Events.RenameFollows | src/MessageHandler.php:97-139 | the renamed user keeps its record under the new nick |
| Events.ModeChangeKeyed | src/MessageHandler.php:141-361 | a channel MODE changes only the named channel |
| Events.ModeGrants | src/MessageHandler.php:172-286 | `MODE c +letter nick` gives the nick that role and flag |
| Events.ModeRevokes | src/MessageHandler.php:172-286 | `MODE c -letter nick` takes that role and flag away |
| Events.BlankFirst | src/MessageHandler.php:431-438 | channelmodeis blanks the first parameter and keeps the rest |
| Events.WhoReplyKeyed | src/MessageHandler.php:440-519 | a WHO reply adds no channel and keeps the keys lower-cased |
| Events.WhoReplySetsRoles | src/MessageHandler.php:440-519 | in a joined channel holding the nick, each role flag follows the status characters |
| Events.NamesReplyListed | src/MessageHandler.php:521-563 | a NAMES reply adds every listed nick to the joined channel and adds no channel |
| Events.ChannelReplies | src/MessageHandler.php:565-604 | BANLIST adds `params[1]` to bans, TOPIC sets the topic, end of ban list keeps the users; an unjoined channel changes nothing |
| Events.BanListEndOnce | src/MessageHandler.php:574-596 | a repeated end of ban list changes nothing |
| Events.HandleKeyed | src/Irc.php:1939-1946 | whatever built-in handler runs, every channel stays under its lower-cased name |
| Events.HandleAddsOnlyOwnJoin | src/MessageHandler.php:35-74 | only the client's own JOIN can add a channel |
| Client.Irc.constructor | src/Irc.php:339-355 | a new client: closed socket, empty queues and store, the default delays, timeouts and retry maximum, no handlers |
| Client.Irc.SetAutoRetry | src/Irc.php:418-421 | stores the flag and returns it |
| Client.Irc.SetAutoRetryMax | src/Irc.php:431-443 | 0 switches auto-retry off; the maximum is never 0 |
| Client.Irc.SetChannelSyncing | src/Irc.php:486-502 | stores the flag and returns it |
| Client.Irc.SetCtcpVersion | src/Irc.php:511-514 | stores the version string |
| Client.Irc.SetDisconnectTime | src/Irc.php:555-565 | stores the clamped disconnect time |
| Client.Irc.SetReceiveDelay | src/Irc.php:640-650 | stores the clamped receive delay |
| Client.Irc.SetReconnectDelay | src/Irc.php:660-668 | stores the delay, or the default when none is given |
| Client.Irc.SetSendDelay | src/Irc.php:698-706 | stores the delay, or the default when none is given |
| Client.Irc.SetReceiveTimeout | src/Irc.php:718-726 | stores the timeout, or the default when none is given |
| Client.Irc.SetTransmitTimeout | src/Irc.php:738-746 | stores the timeout, or the default when none is given |
| Client.Irc.UpdateState | src/Irc.php:2485-2500 | the link follows `Outbound.UpdateState`; the result is whether the socket is open |
| Client.Irc.RawSend | src/Irc.php:2366-2386 | the link and the result follow `Outbound.RawSend` |
| Client.Irc.Send | src/Irc.php:1285-1307 | the link and the result follow `Outbound.Send` |
| Client.Irc.SendEach | src/Command.php:92-100 | a loop of sends leaves the link as `Outbound.SendAll` says |
| Client.Irc.DrainOnce | src/Irc.php:1575-1609 | one drain round: link, last-send time and sent line follow `Outbound.Drain` |
| Client.Irc.Shift | src/Irc.php:1593-1604 | `array_shift` on the buffer: the first backlog line is returned and removed |
| Client.Irc.CallTimeHandlers | src/Irc.php:2308-2338 | the loop restamps the due handlers as `Registry.Tick` says and records their ids in list order |
| Client.Irc.RegisterTimeHandler | src/Irc.php:2165-2188 | the list, counter and cached minimum follow `Registry.RegisterTime`; the old counter is returned |
| Client.Irc.UnregisterTimeId | src/Irc.php:2198-2236 | the list, cached minimum and result follow `Registry.UnregisterTime` |
| Client.Irc.RegisterActionHandler | src/Irc.php:2035-2064 | follows `Registry.RegisterAction`, keeping ids increasing |
| Client.Irc.UnregisterActionHandler | src/Irc.php:2076-2115 | follows `Registry.UnregisterHandler`, keeping ids increasing |
| Client.Irc.UnregisterActionId | src/Irc.php:2124-2150 | follows `Registry.UnregisterId`, keeping ids increasing |
| Client.Irc.Login | src/Irc.php:1193-1253 | nick, username and password as `Session.Login` plans them, and its CRITICAL then HIGH lines sent |
| Client.Irc.Connect | src/Irc.php:996-1050 | a successful connect opens the socket, resets the retry count, stamps rx and tx and registers the ping check at a rate of rx timeout × 125 ms; a reconnect attempt keeps the queues and the nick, username, realname and password, and a failed one changes nothing else; a first connect that fails falls back to the retry loop: it reports whether the socket ended open, fails without auto-retry, and a failure means auto-retry is off or the count reached the maximum; the store is never touched |
| Client.Irc.Disconnect | src/Irc.php:1065-1109 | closes the socket, clears connected and logged-in, keeps the queues, empties the store when syncing; a slow disconnect writes QUIT and waits the disconnect time |
| Client.Irc.Reconnect | src/Irc.php:1118-1178 | without auto-retry it fails; a failure means auto-retry is off or the count reached the maximum; on success the login with the stored nick, realname, usermode, username and password goes out (its CRITICAL lines on the wire, its HIGH lines queued, nick and username as the login plans them) and every snapshotted channel is rejoined exactly once at MEDIUM; on failure nick and username are unchanged; the store is emptied when the client was connected and syncing |
| Client.Irc.Resume | src/Irc.php:1131-1178 | after the disconnect: the retry loop, then on success the same re-login and rejoin as `Reconnect`, with the store left alone |
| Client.Irc.Rejoin | src/Irc.php:1160-1178 | when the socket is up, the re-login lines and the rejoins go out and nick and username follow the login plan; otherwise failure with nothing changed |
| Client.Irc.Relogin | src/Irc.php:1164-1175 | the link after the re-login is the stored identity's CRITICAL lines sent, its HIGH lines queued, and one JOIN per snapshotted channel on MEDIUM |
| Client.Irc.Retry | src/Irc.php:1130-1160 | the retry loop ends connected, or with auto-retry off, or with the count at the maximum |
| Client.Irc.Attempt | src/Irc.php:1133-1159 | one attempt adds one to the count, or resets it to 0 when the connect succeeds |
| Client.Irc.Pause | src/Irc.php:1138-1146 | a positive reconnect delay passes on the clock one millisecond at a time, the time handlers running once per millisecond: the list and the fired ids are those of `Registry.TickUntil` and `Registry.DueIdsUntil` from the old clock to the new one |
| Client.Irc.WaitOneMs | src/Irc.php:1143-1144 | one pass: the time handlers run at the current time, then the clock advances by one millisecond |
| Client.Irc.Delay | src/Irc.php:1138-1150 | the reconnect delay, then one more pass of the time handlers: the clock advances by the delay when positive |
| Client.Irc.RejoinAll | src/Irc.php:1167-1174 | every snapshotted channel is rejoined exactly once, its JOIN lines appended to MEDIUM |
| Client.Irc.PingCheck | src/Irc.php:2346-2355 | within half the timeout nothing changes; past half a PING goes out at CRITICAL; past the timeout a reconnect, after which the rx stamp is the time of the check, the store is emptied when it was connected and syncing, the client is disconnected without auto-retry, and a reconnected client has the re-login's HIGH lines queued |
| Client.Irc.Revive | src/Irc.php:2349-2351 | the reconnect branch of the check: the reconnect's effects, then the rx stamp set to the time of the check |
| Client.Irc.Quit | src/Command.php:512-521 | the QUIT line is sent at the given priority, then the client disconnects at once: socket closed, not connected or logged in, queues as the send left them, the store emptied when it was connected and syncing |
| Client.Irc.Message | src/Command.php:23-74 | for an accepted type, one send per text in order as `Commands.MessageLines` says; otherwise false and nothing sent |
| Client.Irc.Join | src/Command.php:84-103 | one JOIN per channel sent in order |
| Client.Irc.Part | src/Command.php:114-129 | sends the PART line |
| Client.Irc.Kick | src/Command.php:141-156 | sends the KICK line |
| Client.Irc.GetList | src/Command.php:169-182 | sends the LIST line |
| Client.Irc.Names | src/Command.php:194-207 | sends the NAMES line |
| Client.Irc.SetTopic | src/Command.php:218-222 | sends TOPIC with the new topic |
| Client.Irc.GetTopic | src/Command.php:232-236 | sends TOPIC without a topic |
| Client.Irc.Mode | src/Command.php:249-257 | sends MODE with the target and the mode when given |
| Client.Irc.ChangeRole | src/Command.php:268-397 | sends the role MODE line |
| Client.Irc.Ban | src/Command.php:410-418 | sends the ban line |
| Client.Irc.Unban | src/Command.php:429-432 | sends the unban line |
| Client.Irc.Invite | src/Command.php:443-446 | sends the INVITE line |
| Client.Irc.ChangeNick | src/Command.php:458-462 | stores the new nick, then sends NICK |
| Client.Irc.Query | src/Command.php:472-502 | sends WHO, WHOIS or WHOWAS for the target |
| Client.Irc.OnPing | src/MessageHandler.php:18-24 | answers PONG with the trailing text, written at once |
| Client.Irc.OnError | src/MessageHandler.php:26-33 | an ERROR reconnects: the store is emptied when the client was connected and syncing, and without auto-retry the client stays disconnected |
| Client.Irc.OnJoin | src/MessageHandler.php:35-74 | with syncing on, the store and the MEDIUM queue change as `Events.Join` and `Events.JoinQueries` say; with syncing off nothing changes |
| Client.Irc.OnLeave | src/MessageHandler.php:76-95 | PART, KICK and QUIT change the store as `Events.RemoveUser` says, only when syncing |
| Client.Irc.OnNick | src/MessageHandler.php:97-139 | with syncing on, the rename applies across the store |
| Client.Irc.UpdateChannels | src/Irc.php:2422-2456 | the loop over the channels applies the update to exactly the channels it hits |
| Client.Irc.OnMode | src/MessageHandler.php:141-361 | a mode for the local nick sets the usermode and leaves the channels; otherwise the mode-string loop changes the named channel as the scanner says |
| Client.Irc.OnChannelModeIs | src/MessageHandler.php:431-438 | a joined channel's mode reply goes through the MODE handling with the first parameter blanked |
| Client.Irc.OnTopic | src/MessageHandler.php:363-369 | sets the joined channel's topic when syncing |
| Client.Irc.OnPrivmsg | src/MessageHandler.php:371-395 | a CTCP request with an answer gets a CTCP_REPLY to the sender at MEDIUM; anything else sends nothing |
| Client.Irc.OnWelcome | src/MessageHandler.php:398-409 | sets logged in, and the nick to the first parameter |
| Client.Irc.OnMotd | src/MessageHandler.php:411-424 | appends the text to the message of the day |
| Client.Irc.OnUmodeIs | src/MessageHandler.php:426-429 | sets the usermode to the trailing text |
| Client.Irc.OnWhoReply | src/MessageHandler.php:440-519 | with syncing on, the store changes as `Events.WhoReply` says, for channel `*` over every channel holding the nick |
| Client.Irc.OnNamReply | src/MessageHandler.php:521-563 | the token loop adds the names one by one, as `Events.NamesReply` says |
| Client.Irc.OnBanList | src/MessageHandler.php:565-572 | adds the mask to the joined channel's bans |
| Client.Irc.OnEndOfBanList | src/MessageHandler.php:574-596 | stamps the end of the sync once |
| Client.Irc.OnNicknameInUse | src/MessageHandler.php:607-611 | switches to the fallback nick and sends NICK at once |
| Client.Irc.RunBuiltin | src/Irc.php:1936-1946 | any built-in handler but ERROR changes the store as `Events.Handle` says and leaves the clock alone, and the store stays keyed by lower-cased names |
| Client.Irc.Dispatch | src/Irc.php:1684-2004 | the line is parsed with the current nick, its built-in handler runs, then the matching action handlers fire in list order |
| Client.Irc.DispatchLine | src/Irc.php:1679-2004 | the message is the parse of the line with the nick of the moment; unless it is an ERROR, the store changes as `StoreAfter` says (its built-in handler, when syncing) and the clock stays; its fired action handlers are recorded |
| Client.Irc.FireActions | src/Irc.php:1966-2004 | records exactly the ids `Registry.FiredIds` gives |
| Client.Irc.SendStep | src/Irc.php:1575-1609 | when logged in, the time handlers run and one drain round happens; otherwise nothing changes |
| Client.Irc.Receive | src/Irc.php:1648-1677 | empty data (or "0") handles nothing and flags an error on rx or tx timeout; otherwise one message per split line, in order, each the parse of its line with the nick of its moment (the first with the nick before the round); with no ERROR among them the store is the replay of their built-in handlers (when syncing) and the clock stays |
| Client.Irc.DispatchAll | src/Irc.php:1679-2004 | the lines are dispatched in order, each the parse of its line with the nick of its moment; with no ERROR among them the store is `StoreAfterAll` of the messages with those nicks (when syncing), and the fired ids are those of each message in turn |
| Client.Irc.DispatchNext | src/Irc.php:1679-2004 | one turn of the foreach extends the parse, the store replay and the fired ids by one message |
| Client.StoreAfterAllKeyed | src/Irc.php:1939-1946 | however many lines are handled, every channel stays under its lower-cased name |
| Client.Irc.Silence | src/Irc.php:1654-1666 | the error flag is set when the receive or transmit timeout has passed |
| Client.Irc.Recover | src/Irc.php:2012-2017 | after a connection error the client reconnects; without one nothing changes |
| Client.Irc.ListenOnce | src/Irc.php:1567-2019 | when not connected: false and no handling; otherwise the wait timeout from the state before the round, and one message per received line, each the parse of its line with the nick of its moment, with its action handlers fired |
| Client.Irc.Listen | src/Irc.php:1550-1556 | one round of `listen`, with the same guarantees as a connected `listenOnce` |
| Client.Irc.Take | src/Irc.php:1648-1677 | the receive step as the round sees it: the parsed messages and the fired action handlers |
| Client.RemoveKeepsOrder | src/Irc.php:2143-2146 | removing an entry keeps ids increasing and below the counter |

## Left out

- Socket transport (`stream_socket_client`, `stream_select`, `fgets`, `fwrite`, `fclose`) is an oracle: the socket's state is a value, and the received data is a parameter of `ListenOnce`.
- The `fgets` read loop and the `exit` when `stream_select` fails are not modelled.
- Logging, debug levels, benchmarks, log destinations, daemon mode and the `__get`/`__call` hooks are output plumbing and are left out. So is the constructor's dynamic setter dispatch.
- The `IP_PATTERN` split of an address into host and port is left out. `Connect` takes the address as given.
- Client.Irc.Listen: `listen` loops while connected; the model states one round. The loop runs forever on a live connection.
- User syncing (`_usersyncing` and the users map) and DCC are not modelled, because no shown code fills them.
- Callbacks are recorded by id, not invoked. User-defined `event_` methods on the object are left out.
- The action-handler regex engine is a function parameter. `preg_match` is not modelled beyond the CTCP and ACTION patterns and the delimiter rule.
- The array forms of `unregisterActionHandler` and `unregisterTimeId` (a list of ids) are left out; one id per call is modelled.
- `rand(0, 999)` is one parameter per call.
- `microtime(true)` and `time()` become an integer millisecond clock. `usleep` only advances that clock.
- MessageCode (its numeric reply table), Priority, State and ChannelUser are not part of this model. The reply codes are those of section 5 of RFC 2812, matched as exact three-digit strings.
- Client.Irc.Reconnect: the channels are rejoined in some order of the snapshot set, not in the order of PHP's channel array.
- Client.Irc.CallTimeHandlers: the `_pingcheck` handler that `connect` registers (src/Irc.php:1037) is recorded as fired, not run, like every callback; so the keepalive PING and the reconnect of `PingCheck` are not reached from the listen round or the reconnect delay, and `PingCheck` is modelled as a method of its own.
- Client.Irc.ListenOnce: the store after the round is stated at `Receive` and `DispatchAll` (the replay of the built-in handlers when no line is an ERROR), not carried past the reconnect that ends the round.
- Client.Irc.Listen: the store after the round is stated at `Receive`, as for `ListenOnce`.
- PHP's loose `==` between numeric strings is not modelled. Nicks and parameters compare as exact strings.
- A NICK without a parameter renames to "".
- Client.Irc.SessionHandler (ping, privmsg, welcome, motd, umodeis, nicknameinuse as one dispatch) has no contract of its own. Its members are covered one by one.
- Client.Irc.ListenOnce: does not state the buffer size kept for the next round.
- Client.Irc.Listen: does not state the buffer size kept for the next round.
- Client.Irc.Retry: only the loop's exit condition and its frame are stated. The per-attempt facts are in `Attempt`.
- The getters `getMotd` and `getUsermode`, the `perform` list setter, `isMe` and `interrupt` are plain field reads or writes and are left out.
- Parser.ClassifyNumeric: states only that the type is one of the reply types. The per-code table is the function body.
