/** `UserCatalogue`: groups of at most three users, each kept as a set and as a queue, with
    liveness-probed eviction (source/p2pserver/src/usercatalogue.cpp). The set is keyed by IP. */
module UserCatalogues {
  import opened Bytes
  import opened Messages

  const MAXQUE := 3

  /** `processIP`. */
  function Prefix(ip: Str): Str { Substr(ip, 0, 3) }

  /** Users are grouped by the first three characters of their IPs. */
  lemma SameGroupIff(a: Str, b: Str)
    requires |a| >= 3 && |b| >= 3
    ensures Prefix(a) == Prefix(b) <==> a[0] == b[0] && a[1] == b[1] && a[2] == b[2]
  {
    assert Prefix(a) == [a[0], a[1], a[2]] && Prefix(b) == [b[0], b[1], b[2]];
  }

  /** For each prefix, the set of users (IP to file level) and the queue of their IPs. */
  datatype Catalogue = Catalogue(users: map<Str, map<Str, int>>, userQue: map<Str, seq<Str>>)

  function Members(c: Catalogue, p: Str): map<Str, int> { if p in c.users then c.users[p] else map[] }

  function Que(c: Catalogue, p: Str): seq<Str> { if p in c.userQue then c.userQue[p] else [] }

  const INITIAL := Catalogue(map[Prefix(SERVER) := map[SERVER := TOP_LEVEL]],
                             map[Prefix(SERVER) := [SERVER]])

  /** `insertUser`; `frontWorks` is the answer of `isClientWorking(firstIP)`, if it is asked. */
  function Inserted(c: Catalogue, ip: Str, file: int, frontWorks: bool): Catalogue {
    var p := Prefix(ip);
    var uset, q := Members(c, p), Que(c, p);
    if p !in c.users then Catalogue(c.users[p := map[ip := file]], c.userQue[p := q + [ip]])
    else if ip in uset then c.(users := c.users[p := uset[ip := file]])
    else if |q| < MAXQUE then Catalogue(c.users[p := uset[ip := file]], c.userQue[p := q + [ip]])
    else if frontWorks then c.(userQue := c.userQue[p := q[1..] + [q[0]]])
    else Catalogue(c.users[p := (uset - {q[0]})[ip := file]], c.userQue[p := q[1..] + [ip]])
  }

  // ---- agreement ----

  ghost predicate GroupOk(p: Str, m: map<Str, int>, q: seq<Str>) {
    && 0 < |q| <= MAXQUE
    && (forall i, j | 0 <= i < j < |q| :: q[i] != q[j])
    && (forall ip :: ip in q <==> ip in m)
    && (forall ip | ip in q :: Prefix(ip) == p)
  }

  /** Both structures have the same groups, and in each group the same IPs. */
  ghost predicate Agrees(c: Catalogue) {
    && c.users.Keys == c.userQue.Keys
    && forall p | p in c.users :: GroupOk(p, c.users[p], c.userQue[p])
  }

  lemma PushKeeps(p: Str, m: map<Str, int>, q: seq<Str>, ip: Str, file: int)
    requires GroupOk(p, m, q) && ip !in m && |q| < MAXQUE && Prefix(ip) == p
    ensures GroupOk(p, m[ip := file], q + [ip])
  {
    assert ip !in q;
    assert forall x :: x in q + [ip] <==> x in q || x == ip;
  }

  lemma RotateKeeps(p: Str, m: map<Str, int>, q: seq<Str>)
    requires GroupOk(p, m, q)
    ensures GroupOk(p, m, q[1..] + [q[0]])
  {
    assert q == [q[0]] + q[1..];
    assert forall x :: x in q[1..] + [q[0]] <==> x in q;
  }

  lemma ReplaceKeeps(p: Str, m: map<Str, int>, q: seq<Str>, ip: Str, file: int)
    requires GroupOk(p, m, q) && ip !in m && Prefix(ip) == p
    ensures GroupOk(p, (m - {q[0]})[ip := file], q[1..] + [ip])
  {
    DropFront(q, ip);
  }

  /** Without its front, a queue of distinct IPs holds the others; a new one at the end stays distinct. */
  lemma DropFront(q: seq<Str>, ip: Str)
    requires q != [] && ip !in q && forall i, j | 0 <= i < j < |q| :: q[i] != q[j]
    ensures forall i, j | 0 <= i < j < |q| :: (q[1..] + [ip])[i] != (q[1..] + [ip])[j]
    ensures forall x :: x in q[1..] + [ip] <==> (x in q && x != q[0]) || x == ip
  {
    assert forall i | 0 <= i < |q[1..]| :: q[1..][i] == q[i + 1] != q[0];
    assert q == [q[0]] + q[1..];
    assert forall x :: x in q[1..] + [ip] <==> x in q[1..] || x == ip;
  }

  lemma GroupChanges(c: Catalogue, p: Str, m: map<Str, int>, q: seq<Str>)
    requires Agrees(c) && GroupOk(p, m, q)
    ensures Agrees(Catalogue(c.users[p := m], c.userQue[p := q]))
  {
  }

  lemma InsertKeeps(c: Catalogue, ip: Str, file: int, frontWorks: bool)
    requires Agrees(c)
    ensures Agrees(Inserted(c, ip, file, frontWorks))
  {
    var p := Prefix(ip);
    if p in c.users {
      var m, q := c.users[p], c.userQue[p];
      assert GroupOk(p, m, q);
      if ip in m {
        assert c.userQue[p := q] == c.userQue;
        GroupChanges(c, p, m[ip := file], q);
      } else if |q| < MAXQUE {
        PushKeeps(p, m, q, ip, file);
        GroupChanges(c, p, m[ip := file], q + [ip]);
      } else if frontWorks {
        RotateKeeps(p, m, q);
        assert c.users[p := m] == c.users;
        GroupChanges(c, p, m, q[1..] + [q[0]]);
      } else {
        ReplaceKeeps(p, m, q, ip, file);
        GroupChanges(c, p, (m - {q[0]})[ip := file], q[1..] + [ip]);
      }
    } else {
      assert [] + [ip] == [ip];
      GroupChanges(c, p, map[ip := file], [ip]);
    }
  }

  /** A newcomer to a full group whose front does not answer takes its place. */
  predicate Evicts(c: Catalogue, ip: Str, frontWorks: bool) {
    var q := Que(c, Prefix(ip));
    ip !in Members(c, Prefix(ip)) && |q| >= MAXQUE && !frontWorks
  }

  /** Who is in and with which level: the arrival is recorded with its level unless a working front
      keeps a full group closed; everybody else stays with the same level, but for the front that is
      evicted; and other groups are untouched. */
  lemma InsertRecords(c: Catalogue, ip: Str, file: int, frontWorks: bool, x: Str)
    requires Agrees(c)
    ensures var p := Prefix(ip); var m, m' := Members(c, p), Members(Inserted(c, ip, file, frontWorks), p);
            && (ip in m' <==> ip in m || |Que(c, p)| < MAXQUE || !frontWorks)
            && (ip in m' ==> m'[ip] == file)
            && (x != ip ==> (x in m' <==> x in m && !(Evicts(c, ip, frontWorks) && x == Que(c, p)[0])))
            && (x != ip && x in m' ==> m'[x] == m[x])
    ensures x != Prefix(ip) ==> Members(Inserted(c, ip, file, frontWorks), x) == Members(c, x)
                                && Que(Inserted(c, ip, file, frontWorks), x) == Que(c, x)
  {
    var p := Prefix(ip);
    if p in c.users {
      assert GroupOk(p, c.users[p], c.userQue[p]);
      if x != ip { OthersStay(c, ip, file, frontWorks, x); }
    }
  }

  lemma OthersStay(c: Catalogue, ip: Str, file: int, frontWorks: bool, x: Str)
    requires Agrees(c) && Prefix(ip) in c.users && x != ip
    ensures var p := Prefix(ip); var m, m' := Members(c, p), Members(Inserted(c, ip, file, frontWorks), p);
            && (x in m' <==> x in m && !(Evicts(c, ip, frontWorks) && x == Que(c, p)[0]))
            && (x in m' ==> m'[x] == m[x])
  {
    assert GroupOk(Prefix(ip), c.users[Prefix(ip)], c.userQue[Prefix(ip)]);
  }

  // ---- runs ----

  datatype Arrival = Arrival(ip: Str, file: int, frontWorks: bool)

  function After(c: Catalogue, a: Arrival): Catalogue { Inserted(c, a.ip, a.file, a.frontWorks) }

  ghost function Final(c: Catalogue, arrivals: seq<Arrival>): Catalogue
    decreases |arrivals|
  {
    if arrivals == [] then c else Final(After(c, arrivals[0]), arrivals[1..])
  }

  lemma {:induction false} AlwaysAgrees(c: Catalogue, arrivals: seq<Arrival>)
    requires Agrees(c)
    ensures Agrees(Final(c, arrivals))
    decreases |arrivals|
  {
    if arrivals != [] {
      InsertKeeps(c, arrivals[0].ip, arrivals[0].file, arrivals[0].frontWorks);
      AlwaysAgrees(After(c, arrivals[0]), arrivals[1..]);
    }
  }

  /** For every sequence of insertions and probe results, set and queue of each group agree: no
      duplicates, one prefix, at most three members. */
  lemma CatalogueAgrees(arrivals: seq<Arrival>)
    ensures Agrees(Final(INITIAL, arrivals))
    ensures forall p :: |Que(Final(INITIAL, arrivals), p)| <= 3
  {
    assert GroupOk(Prefix(SERVER), map[SERVER := TOP_LEVEL], [SERVER]);
    AlwaysAgrees(INITIAL, arrivals);
    var c := Final(INITIAL, arrivals);
    forall p ensures |Que(c, p)| <= 3 {
      if p in c.users { assert GroupOk(p, c.users[p], c.userQue[p]); }
    }
  }

  // ---- growth ----

  predicate Newcomer(c: Catalogue, p: Str, a: Arrival) { Prefix(a.ip) == p && a.ip !in Members(c, p) }

  /** A group with room takes newcomers in at the end and is not changed by the arrival of members. */
  lemma RoomGrows(c: Catalogue, p: Str, a: Arrival)
    requires Agrees(c) && |Que(c, p)| < MAXQUE
    ensures Que(After(c, a), p) == Que(c, p) + if Newcomer(c, p, a) then [a.ip] else []
  {
    if p in c.users { assert GroupOk(p, c.users[p], c.userQue[p]); }
    assert Que(c, p) + [] == Que(c, p);
  }

  /** The IPs of a prefix that are not yet in `known`, in the order of their first arrival. */
  function InOrderOfArrival(p: Str, known: seq<Str>, arrivals: seq<Arrival>): seq<Str>
    decreases |arrivals|
  {
    if arrivals == [] then []
    else
      var ip, rest := arrivals[0].ip, arrivals[1..];
      if Prefix(ip) == p && ip !in known then [ip] + InOrderOfArrival(p, known + [ip], rest)
      else InOrderOfArrival(p, known, rest)
  }

  lemma MembersQueued(c: Catalogue, p: Str, ip: Str)
    requires Agrees(c)
    ensures ip in Members(c, p) <==> ip in Que(c, p)
  {
    if p in c.users { assert GroupOk(p, c.users[p], c.userQue[p]); }
  }

  /** One arrival at a group that will not overflow. */
  lemma FillStep(c: Catalogue, p: Str, arrivals: seq<Arrival>)
    requires Agrees(c) && arrivals != []
    requires |Que(c, p)| + |InOrderOfArrival(p, Que(c, p), arrivals)| <= MAXQUE
    ensures var q' := Que(After(c, arrivals[0]), p);
            Que(c, p) + InOrderOfArrival(p, Que(c, p), arrivals) == q' + InOrderOfArrival(p, q', arrivals[1..])
  {
    var a, q, rest := arrivals[0], Que(c, p), arrivals[1..];
    MembersQueued(c, p, a.ip);
    if Newcomer(c, p, a) {
      RoomGrows(c, p, a);
      Appended(q, a.ip, InOrderOfArrival(p, q + [a.ip], rest));
    } else {
      OldFaces(c, p, a);
    }
  }

  lemma Appended(q: seq<Str>, ip: Str, rest: seq<Str>)
    ensures q + ([ip] + rest) == q + [ip] + rest
  {
  }

  /** A group fills up in the order of arrival: as long as at most three IPs of the prefix have come,
      all are in, whatever the probes say. */
  lemma {:induction false} FillsInOrder(c: Catalogue, p: Str, arrivals: seq<Arrival>)
    requires Agrees(c) && |Que(c, p)| + |InOrderOfArrival(p, Que(c, p), arrivals)| <= 3
    ensures Que(Final(c, arrivals), p) == Que(c, p) + InOrderOfArrival(p, Que(c, p), arrivals)
    decreases |arrivals|
  {
    if arrivals == [] {
      assert Que(c, p) + [] == Que(c, p);
    } else {
      var a := arrivals[0];
      InsertKeeps(c, a.ip, a.file, a.frontWorks);
      FillStep(c, p, arrivals);
      FillsInOrder(After(c, a), p, arrivals[1..]);
    }
  }

  lemma OldFaces(c: Catalogue, p: Str, a: Arrival)
    requires Agrees(c) && !Newcomer(c, p, a)
    ensures Que(After(c, a), p) == Que(c, p)
  {
    if p in c.users { assert GroupOk(p, c.users[p], c.userQue[p]); }
  }

  // ---- levels ----

  /** The level x announced last, or `level` if it did not come. */
  function LastAnnounced(x: Str, level: int, arrivals: seq<Arrival>): int
    decreases |arrivals|
  {
    if arrivals == [] then level
    else LastAnnounced(x, if arrivals[0].ip == x then arrivals[0].file else level, arrivals[1..])
  }

  /** A user in the catalogue always has the level it announced last: also if it was turned away or
      evicted in between. */
  lemma {:induction false} LevelsAreCurrent(c: Catalogue, x: Str, level: int, arrivals: seq<Arrival>)
    requires Agrees(c) && (x in Members(c, Prefix(x)) ==> Members(c, Prefix(x))[x] == level)
    ensures x in Members(Final(c, arrivals), Prefix(x)) ==>
              Members(Final(c, arrivals), Prefix(x))[x] == LastAnnounced(x, level, arrivals)
    decreases |arrivals|
  {
    if arrivals != [] {
      var a := arrivals[0];
      InsertKeeps(c, a.ip, a.file, a.frontWorks);
      InsertRecords(c, a.ip, a.file, a.frontWorks, x);
      InsertRecords(c, a.ip, a.file, a.frontWorks, Prefix(x));
      LevelsAreCurrent(After(c, a), x, if a.ip == x then a.file else level, arrivals[1..]);
    }
  }

  // ---- eviction ----

  predicate Full(c: Catalogue, p: Str) { p in c.users && |Que(c, p)| == MAXQUE }

  /** In a full group each newcomer, admitted or not, moves every member behind the front one place
      forward; every other arrival leaves the queue as it is. */
  lemma FullGroupShifts(c: Catalogue, p: Str, a: Arrival)
    requires Agrees(c) && Full(c, p)
    ensures Full(After(c, a), p)
    ensures var q, q' := Que(c, p), Que(After(c, a), p);
            if Newcomer(c, p, a)
            then q'[..MAXQUE - 1] == q[1..] && q'[MAXQUE - 1] == if a.frontWorks then q[0] else a.ip
            else q' == q
  {
    assert GroupOk(p, c.users[p], c.userQue[p]);
  }

  /** A front that does not answer is gone. */
  lemma FrontLeaves(c: Catalogue, p: Str, a: Arrival)
    requires Agrees(c) && Full(c, p) && Newcomer(c, p, a) && !a.frontWorks
    ensures Que(c, p)[0] !in Que(After(c, a), p)
  {
    var q := Que(c, p);
    assert GroupOk(p, c.users[p], q);
    assert forall i | 0 <= i < |q[1..]| :: q[1..][i] == q[i + 1] != q[0];
    assert q[0] in c.users[p];
  }

  lemma ShiftMembers(q: seq<Str>, q': seq<Str>, x: Str)
    requires |q| == |q'| == MAXQUE && q'[..MAXQUE - 1] == q[1..]
    ensures x in q ==> x in q' || x == q[0]
    ensures x in q' ==> x in q || x == q'[MAXQUE - 1]
  {
    assert q' == q[1..] + [q'[MAXQUE - 1]] && q == [q[0]] + q[1..];
  }

  ghost function Newcomers(c: Catalogue, p: Str, arrivals: seq<Arrival>): nat
    decreases |arrivals|
  {
    if arrivals == [] then 0
    else (if Newcomer(c, p, arrivals[0]) then 1 else 0) + Newcomers(After(c, arrivals[0]), p, arrivals[1..])
  }

  /** Whenever x is the front that a newcomer makes the server probe, the probe answers `works`; and
      x itself does not arrive if it is dead. */
  ghost predicate Probes(c: Catalogue, p: Str, x: Str, works: bool, arrivals: seq<Arrival>)
    decreases |arrivals|
  {
    arrivals == [] ||
      var a := arrivals[0];
      && (Newcomer(c, p, a) && Que(c, p) != [] && Que(c, p)[0] == x ==> a.frontWorks == works)
      && (!works ==> a.ip != x)
      && Probes(After(c, a), p, x, works, arrivals[1..])
  }

  lemma {:induction false} AbsentStays(c: Catalogue, p: Str, x: Str, arrivals: seq<Arrival>)
    requires Agrees(c) && Full(c, p) && x !in Que(c, p) && Probes(c, p, x, false, arrivals)
    ensures Full(Final(c, arrivals), p) && x !in Que(Final(c, arrivals), p)
    decreases |arrivals|
  {
    if arrivals != [] {
      var a := arrivals[0];
      InsertKeeps(c, a.ip, a.file, a.frontWorks);
      FullGroupShifts(c, p, a);
      var q, q' := Que(c, p), Que(After(c, a), p);
      if Newcomer(c, p, a) { ShiftMembers(q, q', x); }
      AbsentStays(After(c, a), p, x, arrivals[1..]);
    }
  }

  /** One arrival, seen from the member at place k. */
  lemma MemberStep(c: Catalogue, p: Str, k: nat, a: Arrival)
    requires Agrees(c) && Full(c, p) && k < MAXQUE
    ensures Agrees(After(c, a)) && Full(After(c, a), p)
    ensures !Newcomer(c, p, a) ==> Que(After(c, a), p) == Que(c, p)
    ensures Newcomer(c, p, a) && k > 0 ==> Que(After(c, a), p)[k - 1] == Que(c, p)[k]
    ensures Newcomer(c, p, a) && k == 0 && !a.frontWorks ==> Que(c, p)[0] !in Que(After(c, a), p)
  {
    InsertKeeps(c, a.ip, a.file, a.frontWorks);
    FullGroupShifts(c, p, a);
    if Newcomer(c, p, a) {
      if k > 0 {
        assert Que(After(c, a), p)[..MAXQUE - 1][k - 1] == Que(c, p)[1..][k - 1];
      } else if !a.frontWorks {
        FrontLeaves(c, p, a);
      }
    }
  }

  /** The member is at this place of the queue, or gone if the place is negative. */
  ghost predicate Aged(x: Str, place: int, q: seq<Str>) {
    if place < 0 then x !in q else place < |q| && q[place] == x
  }

  /** A member that stays dead moves forward with every newcomer and is evicted by the one that finds
      it in front: within three newcomers, wherever it stood. */
  lemma {:induction false} DeadIsEvicted(c: Catalogue, p: Str, k: nat, arrivals: seq<Arrival>)
    requires Agrees(c) && Full(c, p) && k < MAXQUE && Probes(c, p, Que(c, p)[k], false, arrivals)
    ensures Full(Final(c, arrivals), p)
    ensures Aged(Que(c, p)[k], k - Newcomers(c, p, arrivals), Que(Final(c, arrivals), p))
    decreases |arrivals|
  {
    if arrivals != [] {
      var a := arrivals[0];
      MemberStep(c, p, k, a);
      if !Newcomer(c, p, a) {
        DeadIsEvicted(After(c, a), p, k, arrivals[1..]);
      } else if k > 0 {
        DeadIsEvicted(After(c, a), p, k - 1, arrivals[1..]);
      } else {
        AbsentStays(After(c, a), p, Que(c, p)[0], arrivals[1..]);
      }
    }
  }

  /** A member that always answers its probe is never evicted. */
  lemma {:induction false} WorkingStays(c: Catalogue, p: Str, x: Str, arrivals: seq<Arrival>)
    requires Agrees(c) && Full(c, p) && x in Que(c, p) && Probes(c, p, x, true, arrivals)
    ensures Full(Final(c, arrivals), p) && x in Que(Final(c, arrivals), p)
    decreases |arrivals|
  {
    if arrivals != [] {
      var a := arrivals[0];
      InsertKeeps(c, a.ip, a.file, a.frontWorks);
      FullGroupShifts(c, p, a);
      var q, q' := Que(c, p), Que(After(c, a), p);
      if Newcomer(c, p, a) { ShiftMembers(q, q', x); }
      WorkingStays(After(c, a), p, x, arrivals[1..]);
    }
  }

  // ---- the code ----

  class UserCatalogue {
    var users: map<Str, map<Str, int>>
    var userQue: map<Str, seq<Str>>

    function View(): Catalogue
      reads this
    {
      Catalogue(users, userQue)
    }

    ghost predicate Valid()
      reads this
    {
      Agrees(View())
    }

    constructor ()
      ensures Valid() && View() == INITIAL
    {
      users := map[Prefix(SERVER) := map[SERVER := TOP_LEVEL]];
      userQue := map[Prefix(SERVER) := [SERVER]];
      assert GroupOk(Prefix(SERVER), map[SERVER := TOP_LEVEL], [SERVER]);
    }

    method InsertUser(ip: Str, file: int, frontWorks: bool)
      requires Valid()
      modifies this
      ensures Valid() && View() == Inserted(old(View()), ip, file, frontWorks)
    {
      InsertKeeps(View(), ip, file, frontWorks);
      var p := Prefix(ip);
      var uset: map<Str, int> := map[];
      var que := [];
      if p in users {
        assert GroupOk(p, users[p], userQue[p]);
        uset, que := users[p], userQue[p];
        if ip !in uset {
          if MAXQUE > |que| {
            que := que + [ip];
          } else {
            var firstIP := que[0];
            que := que[1..];
            if frontWorks {
              userQue := userQue[p := que + [firstIP]];
              return;
            } else {
              uset := uset - {firstIP};
              que := que + [ip];
            }
          }
        }
      } else {
        que := que + [ip];
      }
      assert p in users && ip in users[p] ==> userQue[p := que] == userQue;
      userQue := userQue[p := que];
      users := users[p := uset[ip := file]];
    }

    /** `hasNeighbor`, for an IP whose group exists. */
    method HasNeighbor(ip: Str) returns (n: int)
      requires Valid() && Prefix(ip) in users
      ensures n == |Members(View(), Prefix(ip))| - 1 >= 0
    {
      assert GroupOk(Prefix(ip), users[Prefix(ip)], userQue[Prefix(ip)]);
      assert userQue[Prefix(ip)][0] in users[Prefix(ip)];
      n := |users[Prefix(ip)]| - 1;
    }

    method GetNeighborUsers(ip: Str) returns (uset: map<Str, int>)
      requires Valid() && Prefix(ip) in users
      ensures uset == Members(View(), Prefix(ip))
      ensures forall x :: x in uset <==> x in Que(View(), Prefix(ip))
    {
      assert GroupOk(Prefix(ip), users[Prefix(ip)], userQue[Prefix(ip)]);
      uset := users[Prefix(ip)];
    }
  }
}
