/** The client side: the neighbour table, the choice of the next server, the failover loops and the
    handling of replies (source/p2pclient/src/p2pclient.cpp). */
module P2PClients {
  import opened Bytes
  import opened Messages

  const UNKNOWN_LEVEL := 101

  // ---- choosing a neighbour ----

  ghost function Eligible(nei: map<Str, int>, level: int): set<Str> {
    set k | k in nei && nei[k] > level && k != SERVER
  }

  /** What `findNeiIP` promises: the first neighbour in key order that is ahead, else the server. */
  ghost predicate IsNext(nei: map<Str, int>, level: int, r: Str) {
    if Eligible(nei, level) == {} then r == SERVER else IsLeast(r, Eligible(nei, level))
  }

  lemma NextIsUnique(nei: map<Str, int>, level: int, r: Str, r': Str)
    requires IsNext(nei, level, r) && IsNext(nei, level, r')
    ensures r == r'
  {
    if r != SERVER && r' != SERVER { LexAntisymmetric(r, r'); }
  }

  /** `findNeiIP`: iterates the ordered map. */
  method FindNeiIP(nei: map<Str, int>, level: int) returns (r: Str)
    ensures IsNext(nei, level, r)
  {
    var rest := nei.Keys;
    while rest != {}
      invariant rest <= nei.Keys && Eligible(nei, level) <= rest
    {
      var k := LeastKey(rest);
      if nei[k] > level && k != SERVER {
        assert k in Eligible(nei, level);
        return k;
      }
      rest := rest - {k};
    }
    r := SERVER;
  }

  // ---- failover ----

  /** The table after n candidates in turn were tried, refused and removed. */
  ghost function Tried(nei: map<Str, int>, level: int, n: nat): map<Str, int> {
    if n == 0 then nei else var t := Tried(nei, level, n - 1); t - {Candidate(t, level)}
  }

  ghost function Candidate(nei: map<Str, int>, level: int): (r: Str)
    ensures IsNext(nei, level, r)
  {
    if Eligible(nei, level) == {} then SERVER
    else
      assert exists k :: IsLeast(k, Eligible(nei, level)) by {
        var k := LeastExists(Eligible(nei, level));
      }
      var k :| IsLeast(k, Eligible(nei, level)); k
  }

  /** Some candidate will accept. */
  ghost predicate Reachable(nei: map<Str, int>, level: int, accepting: set<Str>) {
    SERVER in accepting || exists k :: k in Eligible(nei, level) && k in accepting
  }

  /** Whether the (n+1)-st try succeeds. */
  ghost predicate Succeeds(nei: map<Str, int>, level: int, accepting: set<Str>, n: nat) {
    Candidate(Tried(nei, level, n), level) in accepting
  }

  ghost predicate RefusedBefore(nei: map<Str, int>, level: int, accepting: set<Str>, n: nat) {
    forall m: nat | m < n :: !Succeeds(nei, level, accepting, m)
  }

  ghost function Left(nei: map<Str, int>, level: int, n: nat): set<Str> { Eligible(Tried(nei, level, n), level) }

  lemma LeftStep(nei: map<Str, int>, level: int, n: nat)
    ensures Left(nei, level, n + 1) == Left(nei, level, n) - {Candidate(Tried(nei, level, n), level)}
  {
  }

  lemma {:induction false} LeftShrinks(nei: map<Str, int>, level: int, n: nat)
    ensures Left(nei, level, n) <= Eligible(nei, level)
  {
    if n > 0 {
      LeftShrinks(nei, level, n - 1);
      LeftStep(nei, level, n - 1);
    }
  }

  /** Refused candidates are the only ones removed. */
  lemma {:induction false} AcceptingIsLeft(nei: map<Str, int>, level: int, accepting: set<Str>, n: nat, k: Str)
    requires k in Eligible(nei, level) && k in accepting && RefusedBefore(nei, level, accepting, n)
    ensures k in Left(nei, level, n)
  {
    if n > 0 {
      AcceptingIsLeft(nei, level, accepting, n - 1, k);
      LeftStep(nei, level, n - 1);
      assert !Succeeds(nei, level, accepting, n - 1);
    }
  }

  /** A refusal is paid for by one neighbour less to try. */
  lemma RefusalShrinks(nei: map<Str, int>, level: int, accepting: set<Str>, n: nat)
    requires Reachable(nei, level, accepting)
    requires RefusedBefore(nei, level, accepting, n) && !Succeeds(nei, level, accepting, n)
    ensures RefusedBefore(nei, level, accepting, n + 1)
    ensures |Left(nei, level, n + 1)| == |Left(nei, level, n)| - 1
  {
    if SERVER !in accepting {
      var k :| k in Eligible(nei, level) && k in accepting;
      AcceptingIsLeft(nei, level, accepting, n, k);
    }
    assert Left(nei, level, n) != {};
    LeftStep(nei, level, n);
  }

  lemma {:induction false} FirstSuccess(nei: map<Str, int>, level: int, accepting: set<Str>, n: nat) returns (m: nat)
    requires Reachable(nei, level, accepting) && RefusedBefore(nei, level, accepting, n)
    requires |Left(nei, level, n)| + n <= |Eligible(nei, level)|
    ensures m <= |Eligible(nei, level)| && Succeeds(nei, level, accepting, m)
    decreases |Left(nei, level, n)|
  {
    if Succeeds(nei, level, accepting, n) {
      m := n;
    } else {
      RefusalShrinks(nei, level, accepting, n);
      m := FirstSuccess(nei, level, accepting, n + 1);
    }
  }

  /** The loop ends exactly when the server or some neighbour ahead accepts, and then within one try
      more than there are neighbours ahead. */
  lemma LoopEndsIff(nei: map<Str, int>, level: int, accepting: set<Str>)
    ensures (exists n: nat :: Succeeds(nei, level, accepting, n)) <==> Reachable(nei, level, accepting)
    ensures Reachable(nei, level, accepting) ==>
      exists n: nat :: n <= |Eligible(nei, level)| && Succeeds(nei, level, accepting, n)
  {
    forall n: nat | Succeeds(nei, level, accepting, n) ensures Reachable(nei, level, accepting) {
      LeftShrinks(nei, level, n);
    }
    if Reachable(nei, level, accepting) {
      var m := FirstSuccess(nei, level, accepting, 0);
    }
  }

  /** The first neighbour in key order that is ahead and accepts, else the server. */
  ghost predicate IsChoice(nei: map<Str, int>, level: int, accepting: set<Str>, ip: Str) {
    && ip in accepting
    && (forall k | k in Eligible(nei, level) && k in accepting :: ip != SERVER && LexLe(ip, k))
    && (ip != SERVER ==> ip in Eligible(nei, level))
  }

  lemma ChoiceReached(nei: map<Str, int>, level: int, accepting: set<Str>, n: nat)
    requires RefusedBefore(nei, level, accepting, n) && Succeeds(nei, level, accepting, n)
    ensures IsChoice(nei, level, accepting, Candidate(Tried(nei, level, n), level))
  {
    var ip := Candidate(Tried(nei, level, n), level);
    LeftShrinks(nei, level, n);
    forall k | k in Eligible(nei, level) && k in accepting ensures ip != SERVER && LexLe(ip, k) {
      AcceptingIsLeft(nei, level, accepting, n, k);
    }
  }

  /** n candidates were refused and removed; `left` more can be. */
  ghost predicate Trying(nei: map<Str, int>, level: int, accepting: set<Str>, n: nat, cur: map<Str, int>, left: nat) {
    && cur == Tried(nei, level, n)
    && RefusedBefore(nei, level, accepting, n)
    && left == |Left(nei, level, n)| && left + n <= |Eligible(nei, level)|
  }

  lemma TryNext(nei: map<Str, int>, level: int, accepting: set<Str>, n: nat, cur: map<Str, int>, left: nat, ip: Str)
    requires Reachable(nei, level, accepting) && Trying(nei, level, accepting, n, cur, left)
    requires ip == Candidate(cur, level) && ip !in accepting
    ensures left > 0 && Trying(nei, level, accepting, n + 1, cur - {ip}, left - 1)
  {
    RefusalShrinks(nei, level, accepting, n);
  }

  lemma TryEnd(nei: map<Str, int>, level: int, accepting: set<Str>, n: nat, cur: map<Str, int>, left: nat, ip: Str)
    requires Trying(nei, level, accepting, n, cur, left) && ip == Candidate(cur, level) && ip in accepting
    ensures IsChoice(nei, level, accepting, ip) && n <= |Eligible(nei, level)| && cur == Tried(nei, level, n)
  {
    ChoiceReached(nei, level, accepting, n);
  }

  // ---- replies ----

  /** A client's update level and its neighbour table. */
  datatype Node = Node(level: int, nei: map<Str, int>)

  /** `insertNeiIP` takes level 1 as unknown and stores 101. */
  function Stored(file: int): int { if file == 1 then UNKNOWN_LEVEL else file }

  /** A neighbour of which level 1 was heard is taken to be ahead of every client up to level 100; of
      every other level, the one that was heard counts. */
  lemma UnknownIsAhead(nei: map<Str, int>, ip: Str, file: int, level: int)
    requires ip != SERVER && 1 <= level <= TOP_LEVEL
    ensures ip in Eligible(nei[ip := Stored(file)], level) <==> file == 1 || file > level
  {
  }

  /** The entries of a 'b' reply: four characters of IP and one of level each. */
  function WithEntries(nei: map<Str, int>, body: Str, num: nat): map<Str, int>
    requires 5 * num <= |body|
    decreases num
  {
    if num == 0 then nei else WithEntries(nei[body[..4] := Stored(SignedChar(body[4]))], body[5..], num - 1)
  }

  /** What `processMessage` reads of a message must be there. */
  predicate Readable(text: Str) {
    && |text| >= 3
    && (text[0] == TYPE_B ==> 3 + 5 * SignedChar(text[2]) <= |text|)
    && (text[0] == TYPE_D ==> |text| >= 7)
  }

  function Heard(n: Node, text: Str): Node
    requires Readable(text)
  {
    if text[0] == TYPE_B then
      if SignedChar(text[2]) <= 0 then n else n.(nei := WithEntries(n.nei, text[3..], SignedChar(text[2])))
    else if text[0] == TYPE_D then
      Node(if LevelIn(text) > n.level then n.level + 1 else n.level, Noted(n.nei, text))
    else n
  }

  /** A client's server notes who asked, and at which level. */
  function Noted(nei: map<Str, int>, text: Str): map<Str, int>
    requires |text| >= 6
  {
    nei[SenderOf(text) := Stored(LevelIn(text))]
  }

  /** A reply without progress, short of the top level, makes the client change its peer. */
  predicate MovesOn(n: Node, text: Str)
    requires Readable(text)
  {
    Heard(n, text).level == n.level < TOP_LEVEL && (text[0] == TYPE_B || text[0] == TYPE_D)
  }

  /** What a client does after a reply: it asks the same peer again, has moved to another, or is done. */
  datatype Action = AskAgain(text: Str) | Moved | Done

  // ---- the code ----

  /** The static state of `P2PCServer` together with `P2PClient::IP`. */
  class P2PNode {
    var neiIP: map<Str, int>
    var updateFile: int
    var peer: Str

    function View(): Node
      reads this
    {
      Node(updateFile, neiIP)
    }

    constructor ()
      ensures View() == Node(1, map[]) && peer == []
    {
      neiIP, updateFile, peer := map[], 1, [];
    }

    method InsertNeiIP(ip: Str, file: int)
      modifies this`neiIP
      ensures neiIP == old(neiIP)[ip := Stored(file)]
    {
      var f := file;
      if f == 1 {
        f := UNKNOWN_LEVEL;
      }
      neiIP := neiIP[ip := f];
    }

    method ProcessUpdateFile(level: int) returns (res: int)
      modifies this`updateFile
      ensures updateFile == old(updateFile) + res && (res == 0 || res == 1)
      ensures res == 1 <==> level > old(updateFile)
    {
      if level > updateFile {
        updateFile := updateFile + 1;
        res := 1;
      } else {
        res := 0;
      }
    }

    /** The loop over the entries of a 'b' reply. */
    method InsertEntries(message: Str, num: nat)
      requires 3 + 5 * num <= |message|
      modifies this`neiIP
      ensures neiIP == WithEntries(old(neiIP), message[3..], num)
    {
      ghost var body := message[3..];
      for i := 0 to num
        invariant WithEntries(old(neiIP), body, num) == WithEntries(neiIP, body[5 * i..], num - i)
      {
        ghost var b := body[5 * i..];
        var ip, file := Substr(message, 3 + i * 5, 4), SignedChar(message[7 + i * 5]);
        assert ip == b[..4] && message[7 + i * 5] == b[4];
        assert b[5..] == body[5 * (i + 1)..];
        InsertNeiIP(ip, file);
      }
    }

    method ProcessMessage(message: Str) returns (res: int)
      requires Readable(message)
      modifies this`neiIP, this`updateFile
      ensures View() == Heard(old(View()), message)
      ensures -1 <= res <= 1 && (res == 1 <==> updateFile > old(updateFile))
      ensures res == -1 <==> message[0] != TYPE_B && message[0] != TYPE_D
    {
      if message[0] == TYPE_B {
        var num := SignedChar(message[2]);
        if num > 0 {
          InsertEntries(message, num);
        }
        res := 0;
      } else if message[0] == TYPE_D {
        InsertNeiIP(SenderOf(message), LevelIn(message));
        res := ProcessUpdateFile(LevelIn(message));
      } else {
        res := -1;
      }
    }

    method NextCandidate()
      modifies this`peer
      ensures peer == Candidate(neiIP, updateFile)
    {
      peer := FindNeiIP(neiIP, updateFile);
      NextIsUnique(neiIP, updateFile, peer, Candidate(neiIP, updateFile));
    }

    /** The loop of `onStringMessage`: try the candidate, remove it if it refuses. */
    method ChangeConnection(accepting: set<Str>) returns (attempts: nat)
      requires Reachable(neiIP, updateFile, accepting)
      modifies this`neiIP, this`peer
      ensures IsChoice(old(neiIP), updateFile, accepting, peer)
      ensures 1 <= attempts <= |Eligible(old(neiIP), updateFile)| + 1
      ensures neiIP == Tried(old(neiIP), updateFile, attempts - 1)
      ensures RefusedBefore(old(neiIP), updateFile, accepting, attempts - 1)
    {
      attempts := 1;
      ghost var nei := neiIP;
      ghost var left: nat := |Left(nei, updateFile, 0)|;
      NextCandidate();
      while peer !in accepting
        invariant attempts >= 1 && peer == Candidate(neiIP, updateFile)
        invariant Trying(nei, updateFile, accepting, attempts - 1, neiIP, left)
        decreases left
      {
        TryNext(nei, updateFile, accepting, attempts - 1, neiIP, left, peer);
        left := left - 1;
        neiIP := neiIP - {peer};
        NextCandidate();
        attempts := attempts + 1;
      }
      TryEnd(nei, updateFile, accepting, attempts - 1, neiIP, left, peer);
    }

    /** The do-while loop of `onConnection`: the lost peer, then each refused candidate, is removed
        before the next choice. */
    method Reconnect(accepting: set<Str>) returns (attempts: nat)
      requires Reachable(neiIP - {peer}, updateFile, accepting)
      modifies this`neiIP, this`peer
      ensures IsChoice(old(neiIP - {peer}), updateFile, accepting, peer)
      ensures 1 <= attempts <= |Eligible(old(neiIP - {peer}), updateFile)| + 1
      ensures neiIP == Tried(old(neiIP - {peer}), updateFile, attempts - 1)
      ensures RefusedBefore(old(neiIP - {peer}), updateFile, accepting, attempts - 1)
    {
      attempts := 0;
      ghost var start := neiIP - {peer};
      ghost var left: nat := |Left(start, updateFile, 0)|;
      while true
        invariant Trying(start, updateFile, accepting, attempts, neiIP - {peer}, left)
        decreases left
      {
        neiIP := neiIP - {peer};
        NextCandidate();
        attempts := attempts + 1;
        if peer in accepting {
          TryEnd(start, updateFile, accepting, attempts - 1, neiIP, left, peer);
          return;
        }
        TryNext(start, updateFile, accepting, attempts - 1, neiIP, left, peer);
        left := left - 1;
      }
    }

    /** `P2PClient::onStringMessage`, where a change of the peer comes to an end. An unknown message
        counts as progress, as in the source. */
    method OnReply(ip: Str, message: Str, accepting: set<Str>) returns (action: Action)
      requires Readable(message)
      requires MovesOn(View(), message) ==> Reachable(Heard(View(), message).nei, updateFile, accepting)
      modifies this
      ensures updateFile == Heard(old(View()), message).level
      ensures action.Done? <==> updateFile >= TOP_LEVEL
      ensures action.AskAgain? ==> action.text == LevelRequest(ip, updateFile)
      ensures action.Moved? <==> MovesOn(old(View()), message)
      ensures !action.Moved? ==> peer == old(peer) && neiIP == Heard(old(View()), message).nei
      ensures action.Moved? ==>
        var nei := Heard(old(View()), message).nei;
        && IsChoice(nei, updateFile, accepting, peer)
        && exists n: nat :: neiIP == Tried(nei, updateFile, n) && RefusedBefore(nei, updateFile, accepting, n)
    {
      var res := ProcessMessage(message);
      if updateFile < TOP_LEVEL {
        if res != 0 {
          action := AskAgain([TYPE_C, ID] + ip + [ToByte(updateFile)]);
        } else {
          var attempts := ChangeConnection(accepting);
          action := Moved;
        }
      } else {
        action := Done;
      }
    }

    /** `P2PCServer::onStringMessage`: note who asked, answer with the own level. */
    method OnRequest(ip: Str, message: Str) returns (ret: Str)
      requires |message| >= 6
      modifies this`neiIP
      ensures neiIP == Noted(old(neiIP), message)
      ensures ret == LevelReply(ip, updateFile)
    {
      InsertNeiIP(SenderOf(message), LevelIn(message));
      ret := [TYPE_D, ID] + ip + [ToByte(updateFile)];
    }
  }
}
