/**
 * Message classes as bit flags (src/Enum/HandlerType.php). A message carries
 * one flag, or two for CTCP traffic; an action handler carries a mask and
 * fires for a message whose flags share a bit with it. PHP integers are 64
 * bits wide, so masks are `bv64`.
 */
module HandlerType {

  type Mask = bv64

  const UNKNOWN: Mask := 1
  const CHANNEL: Mask := 2
  const QUERY: Mask := 4
  const CTCP: Mask := 8
  const NOTICE: Mask := 16
  const WHO: Mask := 32
  const JOIN: Mask := 64
  const INVITE: Mask := 128
  const ACTION: Mask := 256
  const TOPICCHANGE: Mask := 512
  const NICKCHANGE: Mask := 1024
  const KICK: Mask := 2048
  const QUIT: Mask := 4096
  const LOGIN: Mask := 8192
  const INFO: Mask := 16384
  const ULIST: Mask := 32768
  const NAME: Mask := 65536
  const MOTD: Mask := 131072
  const MODECHANGE: Mask := 262144
  const PART: Mask := 524288
  const ERROR: Mask := 1048576
  const BANLIST: Mask := 2097152
  const TOPIC: Mask := 4194304
  const NONRELEVANT: Mask := 8388608
  const WHOIS: Mask := 16777216
  const WHOWAS: Mask := 33554432
  const USERMODE: Mask := 67108864
  const CHANNELMODE: Mask := 134217728
  const CTCP_REQUEST: Mask := 268435456
  const CTCP_REPLY: Mask := 536870912
  /** DCC shares its value with CTCP_REPLY. */
  const DCC: Mask := 536870912
  const ALL: Mask := 1073741823

  /** A handler mask selects a message when the two share a bit. */
  predicate Selects(handlerMask: Mask, kind: Mask)
  {
    handlerMask & kind != 0
  }

  predicate IsSingleBit(m: Mask)
  {
    m != 0 && m & (m - 1) == 0
  }

  /** Every class is a single bit; DCC is the same bit as CTCP_REPLY. */
  lemma ClassesAreBits()
    ensures IsSingleBit(UNKNOWN) && IsSingleBit(CHANNEL) && IsSingleBit(QUERY) && IsSingleBit(CTCP)
    ensures IsSingleBit(NOTICE) && IsSingleBit(WHO) && IsSingleBit(JOIN) && IsSingleBit(INVITE)
    ensures IsSingleBit(ACTION) && IsSingleBit(TOPICCHANGE) && IsSingleBit(NICKCHANGE) && IsSingleBit(KICK)
    ensures IsSingleBit(QUIT) && IsSingleBit(LOGIN) && IsSingleBit(INFO) && IsSingleBit(ULIST)
    ensures IsSingleBit(NAME) && IsSingleBit(MOTD) && IsSingleBit(MODECHANGE) && IsSingleBit(PART)
    ensures IsSingleBit(ERROR) && IsSingleBit(BANLIST) && IsSingleBit(TOPIC) && IsSingleBit(NONRELEVANT)
    ensures IsSingleBit(WHOIS) && IsSingleBit(WHOWAS) && IsSingleBit(USERMODE) && IsSingleBit(CHANNELMODE)
    ensures IsSingleBit(CTCP_REQUEST) && IsSingleBit(CTCP_REPLY) && DCC == CTCP_REPLY
  {
  }

  /** Two different single-bit classes never select each other. */
  lemma BitsDisjoint(a: Mask, b: Mask)
    requires IsSingleBit(a) && IsSingleBit(b) && a != b
    ensures !Selects(a, b)
  {
  }

  /** ALL is exactly the union of the classes: nothing more, nothing less. */
  lemma AllIsUnionOfClasses()
    ensures ALL == UNKNOWN | CHANNEL | QUERY | CTCP | NOTICE | WHO | JOIN | INVITE | ACTION | TOPICCHANGE
      | NICKCHANGE | KICK | QUIT | LOGIN | INFO | ULIST | NAME | MOTD | MODECHANGE | PART
      | ERROR | BANLIST | TOPIC | NONRELEVANT | WHOIS | WHOWAS | USERMODE | CHANNELMODE
      | CTCP_REQUEST | CTCP_REPLY
  {
  }

  /** Registering with a non-empty combination of classes always passes the `& ALL` check. */
  lemma CombinationMeetsAll(m: Mask)
    requires m != 0 && m & !ALL == 0
    ensures Selects(m, ALL)
  {
  }

  /**
   * A CTCP request is flagged CTCP_REQUEST|CTCP and a CTCP reply
   * CTCP_REPLY|CTCP, so a single-class handler sees one exactly when it is
   * registered for one of the two flags.
   */
  lemma CtcpSelection(m: Mask)
    requires IsSingleBit(m)
    ensures Selects(m, CTCP_REQUEST | CTCP) <==> m == CTCP_REQUEST || m == CTCP
    ensures Selects(m, CTCP_REPLY | CTCP) <==> m == CTCP_REPLY || m == CTCP
  {
  }
}
