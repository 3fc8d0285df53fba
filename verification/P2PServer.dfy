/** The server's replies (source/p2pserver/src/p2pserver.cpp) and how a client reads them. */
module P2PServers {
  import opened Bytes
  import opened Messages
  import opened UserCatalogues
  import opened P2PClients
  import Codec

  /** One entry of a 'b' reply. */
  function EntryOf(ip: Str, file: int): Str { ip + [ToByte(file)] }

  /** The users other than the one who asks. */
  function Others(order: seq<Str>, ip: Str): seq<Str> {
    if order == [] then []
    else (if order[0] != ip then [order[0]] else []) + Others(order[1..], ip)
  }

  function Entries(order: seq<Str>, members: map<Str, int>): Str
    requires forall k | k in order :: k in members
  {
    if order == [] then [] else EntryOf(order[0], members[order[0]]) + Entries(order[1..], members)
  }

  lemma {:induction false} OthersAre(order: seq<Str>, ip: Str, x: Str)
    ensures x in Others(order, ip) <==> x in order && x != ip
    ensures |Others(order, ip)| <= |order|
  {
    if order != [] {
      OthersAre(order[1..], ip, x);
      assert order == [order[0]] + order[1..];
    }
  }

  lemma OthersIn(order: seq<Str>, ip: Str, members: map<Str, int>)
    requires forall k | k in order :: k in members
    ensures forall k | k in Others(order, ip) :: k in members
  {
    forall k | k in Others(order, ip) ensures k in members { OthersAre(order, ip, k); }
  }

  /** The text `retNeighborIP` builds when it visits the group in this order. */
  ghost predicate IsNeighbourList(order: seq<Str>, members: map<Str, int>, ip: Str, ret: Str) {
    && (forall k | k in Others(order, ip) :: k in members)
    && ret == [ToByte(|Others(order, ip)|)] + Entries(Others(order, ip), members)
  }

  /** The text holds every other user of the group once, in key order. */
  ghost predicate ListsNeighbours(members: map<Str, int>, ip: Str, ret: Str) {
    exists order :: Lists(order, members.Keys) && Sorted(order) && IsNeighbourList(order, members, ip, ret)
  }

  /** `retNeighborIP`: the loop over the ordered set, the count put in front at the end. */
  method RetNeighborIP(members: map<Str, int>, ip: Str) returns (ret: Str)
    ensures ListsNeighbours(members, ip, ret)
  {
    var iter := KeysInOrder(members.Keys);
    var entries: Str := [];
    var num := 0;
    ListStart(iter, ip, members);
    for i := 0 to |iter|
      invariant Building(iter, i, ip, members, entries, num)
    {
      ListStep(iter, i, ip, members, entries, num);
      if iter[i] != ip {
        entries := entries + EntryOf(iter[i], members[iter[i]]);
        num := num + 1;
      }
    }
    ListEnd(iter, ip, members, entries, num);
    ret := [ToByte(num)] + entries;
  }

  /** After i users of the iteration, `entries` and `num` are complete up to the rest of it. */
  ghost predicate Building(iter: seq<Str>, i: nat, ip: Str, members: map<Str, int>, entries: Str, num: int) {
    && i <= |iter| && (forall k | k in iter :: k in members)
    && (forall k | k in Others(iter, ip) :: k in members)
    && (forall k | k in Others(iter[i..], ip) :: k in members)
    && entries + Entries(Others(iter[i..], ip), members) == Entries(Others(iter, ip), members)
    && num + |Others(iter[i..], ip)| == |Others(iter, ip)|
  }

  lemma ListStart(iter: seq<Str>, ip: Str, members: map<Str, int>)
    requires forall k | k in iter :: k in members
    ensures Building(iter, 0, ip, members, [], 0)
  {
    OthersIn(iter, ip, members);
    assert iter[0..] == iter;
    assert [] + Entries(Others(iter, ip), members) == Entries(Others(iter, ip), members);
  }

  lemma ListStep(iter: seq<Str>, i: nat, ip: Str, members: map<Str, int>, entries: Str, num: int)
    requires Building(iter, i, ip, members, entries, num) && i < |iter|
    ensures if iter[i] != ip
            then Building(iter, i + 1, ip, members, entries + EntryOf(iter[i], members[iter[i]]), num + 1)
            else Building(iter, i + 1, ip, members, entries, num)
  {
    OthersStep(iter, i, ip, members);
    var tail := Entries(Others(iter[i + 1..], ip), members);
    Codec.Assoc(entries, EntryOf(iter[i], members[iter[i]]), tail);
    assert [] + tail == tail;
  }

  lemma ListEnd(iter: seq<Str>, ip: Str, members: map<Str, int>, entries: Str, num: int)
    requires Building(iter, |iter|, ip, members, entries, num)
    ensures IsNeighbourList(iter, members, ip, [ToByte(num)] + entries)
  {
    assert iter[|iter|..] == [];
    assert entries + [] == entries;
  }

  lemma OthersStep(iter: seq<Str>, i: nat, ip: Str, members: map<Str, int>)
    requires i < |iter| && (forall k | k in iter :: k in members)
    requires forall k | k in Others(iter[i..], ip) :: k in members
    ensures forall k | k in Others(iter[i + 1..], ip) :: k in members
    ensures |Others(iter[i..], ip)| == |Others(iter[i + 1..], ip)| + if iter[i] != ip then 1 else 0
    ensures Entries(Others(iter[i..], ip), members) ==
      (if iter[i] != ip then EntryOf(iter[i], members[iter[i]]) else []) + Entries(Others(iter[i + 1..], ip), members)
  {
    var rest := Others(iter[i + 1..], ip);
    assert iter[i..][1..] == iter[i + 1..];
    assert iter[i..][0] == iter[i];
    OthersIn(iter[i + 1..], ip, members);
    if iter[i] != ip {
      assert ([iter[i]] + rest)[1..] == rest;
    } else {
      assert [] + rest == rest;
    }
  }

  /** The whole 'b' message. */
  function NeighbourReply(list: Str): Str { [TYPE_B, ID] + list }

  // ---- the round trip ----

  /** Users as clients announce them: four-character IPs and a level that came out of a `char`. */
  ghost predicate Announced(members: map<Str, int>) {
    forall k | k in members :: |k| == 4 && -128 <= members[k] < 128
  }

  function SetOf(order: seq<Str>): set<Str> { set k | k in order }

  /** What the client should know afterwards. */
  ghost function Learnt(others: set<Str>, members: map<Str, int>): map<Str, int>
    requires others <= members.Keys
  {
    map k | k in others :: Stored(members[k])
  }

  lemma SignedCharOfByte(n: int)
    requires -128 <= n < 128
    ensures SignedChar(ToByte(n)) == n
  {
  }

  lemma EntryRead(nei: map<Str, int>, k: Str, file: int, tail: Str, num: nat)
    requires |k| == 4 && -128 <= file < 128 && |tail| == 5 * num
    ensures WithEntries(nei, EntryOf(k, file) + tail, num + 1) == WithEntries(nei[k := Stored(file)], tail, num)
  {
    var body := EntryOf(k, file) + tail;
    assert body[..4] == k && body[5..] == tail;
    SignedCharOfByte(file);
  }

  lemma LearntStep(nei: map<Str, int>, k: Str, rest: seq<Str>, members: map<Str, int>)
    requires k in members && forall x | x in rest :: x in members
    ensures forall x | x in [k] + rest :: x in members
    ensures nei[k := Stored(members[k])] + Learnt(SetOf(rest), members) == nei + Learnt(SetOf([k] + rest), members)
  {
    assert SetOf([k] + rest) == SetOf(rest) + {k};
  }

  lemma {:induction false} EntriesRoundTrip(nei: map<Str, int>, order: seq<Str>, members: map<Str, int>)
    requires Announced(members) && forall k | k in order :: k in members
    ensures |Entries(order, members)| == 5 * |order|
    ensures WithEntries(nei, Entries(order, members), |order|) == nei + Learnt(SetOf(order), members)
    decreases |order|
  {
    if order == [] {
      assert Learnt(SetOf(order), members) == map[];
    } else {
      var k, rest := order[0], order[1..];
      var nei' := nei[k := Stored(members[k])];
      EntriesRoundTrip(nei', rest, members);
      EntryRead(nei, k, members[k], Entries(rest, members), |rest|);
      LearntStep(nei, k, rest, members);
      assert order == [k] + rest;
    }
  }

  /** Reading the 'b' reply for a group, the client records exactly the members other than the one who
      asked, with level 1 turned into 101, and changes nothing else. */
  lemma NeighbourReplyRoundTrip(n: Node, members: map<Str, int>, ip: Str, order: seq<Str>, list: Str)
    requires Announced(members) && Lists(order, members.Keys) && |order| <= MAXQUE
    requires IsNeighbourList(order, members, ip, list)
    ensures Readable(NeighbourReply(list))
    ensures Heard(n, NeighbourReply(list)) == n.(nei := n.nei + Learnt(members.Keys - {ip}, members))
  {
    var reply, others := NeighbourReply(list), Others(order, ip);
    EntriesRoundTrip(n.nei, others, members);
    forall x ensures x in others <==> x in members.Keys - {ip} { OthersAre(order, ip, x); }
    OthersAre(order, ip, ip);
    assert SetOf(others) == members.Keys - {ip};
    SignedCharOfByte(|others|);
    assert reply[0] == TYPE_B && reply[2] == ToByte(|others|);
    assert reply[3..] == Entries(others, members);
  }

  /** Arrivals of clients that announce a four-character IP. */
  ghost predicate WellAnnounced(arrivals: seq<Arrival>) {
    forall i | 0 <= i < |arrivals| :: |arrivals[i].ip| == 4 && -128 <= arrivals[i].file < 128
  }

  ghost predicate AllAnnounced(c: Catalogue) { forall p | p in c.users :: Announced(c.users[p]) }

  lemma {:induction false} AnnouncedStays(c: Catalogue, arrivals: seq<Arrival>)
    requires Agrees(c) && AllAnnounced(c) && WellAnnounced(arrivals)
    ensures AllAnnounced(Final(c, arrivals))
    decreases |arrivals|
  {
    if arrivals != [] {
      var a := arrivals[0];
      assert |a.ip| == 4 && -128 <= a.file < 128;
      InsertKeeps(c, a.ip, a.file, a.frontWorks);
      var c' := After(c, a);
      forall p | p in c'.users ensures Announced(c'.users[p]) {
        forall k | k in c'.users[p] ensures |k| == 4 && -128 <= c'.users[p][k] < 128 {
          InsertRecords(c, a.ip, a.file, a.frontWorks, if p == Prefix(a.ip) then k else p);
          if p == Prefix(a.ip) && k != a.ip { assert Announced(Members(c, p)); }
          if p != Prefix(a.ip) { assert Announced(Members(c, p)); }
        }
      }
      AnnouncedStays(c', arrivals[1..]);
    }
  }

  /** For every catalogue that can arise and every group in it, the reply about the group tells a
      client exactly the members other than the one who asked. */
  lemma ReachableGroupsRoundTrip(arrivals: seq<Arrival>, n: Node, ip: Str, order: seq<Str>, list: Str)
    requires WellAnnounced(arrivals) && Prefix(ip) in Final(INITIAL, arrivals).users
    requires Lists(order, Final(INITIAL, arrivals).users[Prefix(ip)].Keys)
    requires IsNeighbourList(order, Final(INITIAL, arrivals).users[Prefix(ip)], ip, list)
    ensures var m := Final(INITIAL, arrivals).users[Prefix(ip)];
            && Readable(NeighbourReply(list))
            && Heard(n, NeighbourReply(list)) == n.(nei := n.nei + Learnt(m.Keys - {ip}, m))
  {
    var c, p := Final(INITIAL, arrivals), Prefix(ip);
    assert GroupOk(Prefix(SERVER), map[SERVER := TOP_LEVEL], [SERVER]);
    CatalogueAgrees(arrivals);
    AnnouncedStays(INITIAL, arrivals);
    assert GroupOk(p, c.users[p], c.userQue[p]);
    ListLength(order, c.users[p].Keys);
    ListLength(c.userQue[p], c.users[p].Keys);
    NeighbourReplyRoundTrip(n, c.users[p], ip, order, list);
  }

  // ---- the code ----

  /** What is sent back, and whether the server then shuts its side of the connection. */
  datatype Answer = NoAnswer | Text(text: Str, shutdown: bool)

  class P2PServer {
    const catalogue: UserCatalogue

    constructor ()
      ensures fresh(catalogue) && catalogue.Valid() && catalogue.View() == INITIAL
    {
      catalogue := new UserCatalogue();
    }

    /** `onStringMessage`; `frontWorks` is the result of the liveness probe, if one is made. */
    method OnStringMessage(message: Str, frontWorks: bool) returns (answer: Answer)
      requires catalogue.Valid() && |message| >= 6
      modifies catalogue
      ensures catalogue.Valid()
      ensures message[0] == TYPE_A ==>
        var ip, c := SenderOf(message), catalogue.View();
        && c == Inserted(old(catalogue.View()), ip, LevelIn(message), frontWorks)
        && Prefix(ip) in c.users
        && var m := c.users[Prefix(ip)];
        && answer.Text? && answer.shutdown
        && |answer.text| >= 2 && answer.text == NeighbourReply(answer.text[2..])
        && (|m| > 1 ==> ListsNeighbours(m, ip, answer.text[2..]))
        && (|m| <= 1 ==> answer.text[2..] == [1] + SERVER)
      ensures message[0] != TYPE_A ==> catalogue.View() == old(catalogue.View())
      ensures message[0] == TYPE_C ==> answer == Text(LevelReply(SERVER, TOP_LEVEL), false)
      ensures message[0] != TYPE_A && message[0] != TYPE_C ==> answer == NoAnswer
    {
      var ip := SenderOf(message);
      if message[0] == TYPE_A {
        catalogue.InsertUser(ip, LevelIn(message), frontWorks);
        var n := catalogue.HasNeighbor(ip);
        var list := [1] + SERVER;
        if n != 0 {
          var uset := catalogue.GetNeighborUsers(ip);
          list := RetNeighborIP(uset, ip);
        }
        answer := Text([TYPE_B, ID] + list, true);
        assert answer.text[2..] == list;
      } else if message[0] == TYPE_C {
        answer := Text([TYPE_D, ID] + SERVER + [ToByte(TOP_LEVEL)], false);
      } else {
        answer := NoAnswer;
      }
    }
  }
}
