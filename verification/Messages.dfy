/** The messages of the update protocol: one character of type, one of id, then the sender's IP and
    its level, each without a length (source/p2pclient/src/p2pclient.cpp,
    source/p2pserver/src/p2pserver.cpp). */
module Messages {
  import opened Bytes

  const SERVER: Str := [49, 49, 49, 49]  // "1111"
  const TOP_LEVEL := 100
  const TYPE_A: Byte := 97
  const TYPE_B: Byte := 98
  const TYPE_C: Byte := 99
  const TYPE_D: Byte := 100
  const ID: Byte := 48  // '0'

  /** The 'd' reply of a node and the 'c' request of a client: type, id, IP, level. */
  function LevelReply(ip: Str, level: int): Str { [TYPE_D, ID] + ip + [ToByte(level)] }

  function LevelRequest(ip: Str, level: int): Str { [TYPE_C, ID] + ip + [ToByte(level)] }

  /** What a reader takes for IP and level: characters 2 to 5 and character 6. A string of six
      characters has a null character there. */
  function SenderOf(text: Str): Str
    requires |text| >= 6
  {
    Substr(text, 2, 4)
  }

  function LevelIn(text: Str): int
    requires |text| >= 6
  {
    SignedChar(if |text| > 6 then text[6] else 0)
  }

  /** Every level reply of this client is read as it was meant. */
  ghost predicate ReadsTrue(ip: Str) {
    forall level | 1 <= level <= TOP_LEVEL ::
      var t := LevelReply(ip, level); |t| > 6 && SenderOf(t) == ip && LevelIn(t) == level
  }

  lemma ReadBack(ip: Str, level: int)
    requires |ip| == 4 && 1 <= level <= TOP_LEVEL
    ensures var t := LevelReply(ip, level); |t| > 6 && t[0] == TYPE_D && SenderOf(t) == ip && LevelIn(t) == level
  {
  }

  /** A request of a client with four characters reads back as meant: type, sender and level. */
  lemma RequestReadBack(ip: Str, level: int)
    requires |ip| == 4 && 1 <= level <= TOP_LEVEL
    ensures var t := LevelRequest(ip, level); |t| > 6 && t[0] == TYPE_C && SenderOf(t) == ip && LevelIn(t) == level
  {
  }

  /** The format is unambiguous exactly for IPs of four characters. */
  lemma ReadsTrueIff(ip: Str)
    ensures ReadsTrue(ip) <==> |ip| == 4
  {
    if |ip| == 4 {
      forall level | 1 <= level <= TOP_LEVEL
        ensures var t := LevelReply(ip, level); |t| > 6 && SenderOf(t) == ip && LevelIn(t) == level
      {
        ReadBack(ip, level);
      }
    } else {
      var t := LevelReply(ip, 1);
      assert !(|t| > 6 && SenderOf(t) == ip);
    }
  }
}
