/** The update protocol: any number of clients, one server at level 100, and messages in flight
    (source/p2pclient/src/p2pclient.cpp, source/p2pserver/src/p2pserver.cpp). Each message handler
    is one atomic step; messages may overtake each other and may be lost. */
module UpdateProtocol {
  import opened Bytes
  import opened Messages
  import opened P2PClients

  /** A request on its way to a node, or a reply on its way back to a client. */
  datatype Packet =
    | Request(from: Str, to: Str, text: Str)
    | Reply(from: Str, to: Str, text: Str)

  /** `served` counts the replies of the server that clients have taken in. */
  datatype Swarm = Swarm(clients: map<Str, Node>, flying: multiset<Packet>, served: nat)

  const START := Swarm(map[], multiset{}, 0)

  datatype Step =
    | Join(ip: Str)
    | Ask(ip: Str, to: Str)
    | Answer(p: Packet)
    | TakeIn(p: Packet)
    | Lose(p: Packet)
    | Forget(ip: Str, nei: Str)
    | ListNeighbours(ip: Str, text: Str)

  /** A client's IP is any string that is not in use; a message too short for what its handler reads
      is never handled. */
  predicate Enabled(s: Swarm, step: Step) {
    match step
    case Join(ip) => ip !in s.clients && ip != SERVER
    case Ask(ip, to) => ip in s.clients
    case Answer(p) => p.Request? && p in s.flying && |p.text| >= 6 && (p.to == SERVER || p.to in s.clients)
    case TakeIn(p) => p.Reply? && p in s.flying && p.to in s.clients && Readable(p.text)
    case Lose(p) => p in s.flying
    case Forget(ip, _) => ip in s.clients
    case ListNeighbours(ip, text) => ip in s.clients && Readable(text) && text[0] == TYPE_B
  }

  /** A client's own server answers any request and notes who asked; the central server answers with
      level 100. */
  function Answered(s: Swarm, p: Packet): Swarm
    requires p.Request? && |p.text| >= 6 && (p.to == SERVER || p.to in s.clients)
  {
    if p.to == SERVER then
      s.(flying := s.flying + multiset{Reply(SERVER, p.from, LevelReply(SERVER, TOP_LEVEL))})
    else
      var n := s.clients[p.to];
      s.(clients := s.clients[p.to := n.(nei := Noted(n.nei, p.text))],
         flying := s.flying + multiset{Reply(p.to, p.from, LevelReply(p.to, n.level))})
  }

  predicate FromServer(p: Packet) { p.from == SERVER && p.text != [] && p.text[0] == TYPE_D }

  function Apply(s: Swarm, step: Step): Swarm
    requires Enabled(s, step)
  {
    match step
    case Join(ip) => s.(clients := s.clients[ip := Node(1, map[])])
    case Ask(ip, to) =>
      s.(flying := s.flying + multiset{Request(ip, to, LevelRequest(ip, s.clients[ip].level))})
    case Answer(p) => Answered(s.(flying := s.flying - multiset{p}), p)
    case TakeIn(p) =>
      Swarm(s.clients[p.to := Heard(s.clients[p.to], p.text)], s.flying - multiset{p},
            if FromServer(p) then s.served + 1 else s.served)
    case Lose(p) => s.(flying := s.flying - multiset{p})
    case Forget(ip, nei) => s.(clients := s.clients[ip := s.clients[ip].(nei := s.clients[ip].nei - {nei})])
    case ListNeighbours(ip, text) => s.(clients := s.clients[ip := Heard(s.clients[ip], text)])
  }

  ghost predicate Runs(s: Swarm, steps: seq<Step>)
    decreases |steps|
  {
    steps == [] || (Enabled(s, steps[0]) && Runs(Apply(s, steps[0]), steps[1..]))
  }

  ghost function Final(s: Swarm, steps: seq<Step>): Swarm
    requires Runs(s, steps)
    decreases |steps|
  {
    if steps == [] then s else Final(Apply(s, steps[0]), steps[1..])
  }

  // ---- what holds of every swarm ----

  lemma {:induction false} RunSnoc(s: Swarm, steps: seq<Step>, step: Step)
    requires Runs(s, steps) && Enabled(Final(s, steps), step)
    ensures Runs(s, steps + [step]) && Final(s, steps + [step]) == Apply(Final(s, steps), step)
    decreases |steps|
  {
    if steps == [] {
      assert [] + [step] == [step] && [step][1..] == [];
    } else {
      RunSnoc(Apply(s, steps[0]), steps[1..], step);
      assert (steps + [step])[1..] == steps[1..] + [step];
    }
  }

  /** A request is answered by exactly one reply to the client that asked, from the node it asked: the
      server's carries level 100, a client's the level it has; and the client now knows who asked. */
  lemma AnswerIs(s: Swarm, p: Packet, level: int)
    requires Enabled(s, Answer(p)) && SERVER !in s.clients
    requires p.text == LevelRequest(p.from, level) && |p.from| == 4 && 1 <= level <= TOP_LEVEL && |p.to| == 4
    requires p.to in s.clients ==> 1 <= s.clients[p.to].level <= TOP_LEVEL
    ensures var s' := Apply(s, Answer(p));
            && s'.clients.Keys == s.clients.Keys && s'.served == s.served
            && (exists r :: IsAnswer(s, p, r) && s'.flying == s.flying - multiset{p} + multiset{r})
            && (forall ip | ip in s.clients && ip != p.to :: s'.clients[ip] == s.clients[ip])
            && (p.to in s.clients ==>
                  && s'.clients[p.to].level == s.clients[p.to].level
                  && s'.clients[p.to].nei == s.clients[p.to].nei[p.from := if level == 1 then 101 else level])
  {
    RequestReadBack(p.from, level);
    var known := if p.to == SERVER then TOP_LEVEL else s.clients[p.to].level;
    ReadBack(p.to, known);
    var r := Reply(p.to, p.from, LevelReply(p.to, known));
    assert IsAnswer(s, p, r);
  }

  predicate IsAnswer(s: Swarm, p: Packet, r: Packet) {
    && r.Reply? && r.from == p.to && r.to == p.from && |r.text| > 6 && r.text[0] == TYPE_D
    && SenderOf(r.text) == p.to
    && LevelIn(r.text) == if p.to in s.clients then s.clients[p.to].level else 100
  }

  /** No client leaves, no level falls and none rises by more than `most`. */
  ghost predicate LevelsGrow(s: Swarm, s': Swarm, most: int) {
    && s.clients.Keys <= s'.clients.Keys
    && (forall ip | ip in s.clients :: s.clients[ip].level <= s'.clients[ip].level <= s.clients[ip].level + most)
  }

  /** No step lowers a level, and only the taking in of a reply raises one, by one. */
  lemma StepLevels(s: Swarm, step: Step)
    requires Enabled(s, step)
    ensures LevelsGrow(s, Apply(s, step), if step.TakeIn? then 1 else 0)
  {
  }

  ghost function Replies(steps: seq<Step>): nat {
    if steps == [] then 0 else (if steps[0].TakeIn? then 1 else 0) + Replies(steps[1..])
  }

  /** Over every run levels never decrease, and no client rises by more than the replies taken in. */
  lemma {:induction false} LevelsNeverDecrease(s: Swarm, steps: seq<Step>)
    requires Runs(s, steps)
    ensures LevelsGrow(s, Final(s, steps), Replies(steps))
    decreases |steps|
  {
    if steps != [] {
      StepLevels(s, steps[0]);
      LevelsNeverDecrease(Apply(s, steps[0]), steps[1..]);
    }
  }

  // ---- packets and tables ----

  ghost function Asked(steps: seq<Step>): nat {
    if steps == [] then 0 else (if steps[0].Ask? then 1 else 0) + Asked(steps[1..])
  }

  ghost function Consumed(steps: seq<Step>): nat {
    if steps == [] then 0 else (if steps[0].TakeIn? || steps[0].Lose? then 1 else 0) + Consumed(steps[1..])
  }

  lemma PacketStep(s: Swarm, step: Step)
    requires Enabled(s, step)
    ensures |Apply(s, step).flying| ==
      |s.flying| + (if step.Ask? then 1 else 0) - (if step.TakeIn? || step.Lose? then 1 else 0)
    ensures step.TakeIn? || step.Lose? ==> Apply(s, step).flying + multiset{step.p} == s.flying
  {
  }

  /** Over every run each question is in flight, as itself or as its one answer, until that is taken in or
      lost: nothing is duplicated and nothing disappears. */
  lemma {:induction false} PacketsConserved(s: Swarm, steps: seq<Step>)
    requires Runs(s, steps)
    ensures |Final(s, steps).flying| + Consumed(steps) == |s.flying| + Asked(steps)
    decreases |steps|
  {
    if steps != [] {
      PacketStep(s, steps[0]);
      PacketsConserved(Apply(s, steps[0]), steps[1..]);
    }
  }

  /** The client whose level or table a step may change. */
  predicate Concerns(step: Step, ip: Str) {
    match step
    case Join(who) => who == ip
    case Answer(p) => p.to == ip
    case TakeIn(p) => p.to == ip
    case Forget(who, _) => who == ip
    case ListNeighbours(who, _) => who == ip
    case _ => false
  }

  /** A step changes no other client; one that joins knows nobody; one that forgets a neighbour keeps all
      others; and one that reads a message is left as `P2PNode.ProcessMessage` leaves it. */
  lemma StepTables(s: Swarm, step: Step, ip: Str)
    requires Enabled(s, step) && ip in Apply(s, step).clients
    ensures var n' := Apply(s, step).clients[ip];
            if !Concerns(step, ip) then ip in s.clients && n' == s.clients[ip]
            else match step
              case Join(_) => n'.level == 1 && n'.nei.Keys == {}
              case Forget(_, x) =>
                && n'.level == s.clients[ip].level && n'.nei.Keys == s.clients[ip].nei.Keys - {x}
                && (forall k | k in n'.nei :: n'.nei[k] == s.clients[ip].nei[k])
              case TakeIn(p) => n' == Heard(s.clients[ip], p.text)
              case ListNeighbours(_, text) => n' == Heard(s.clients[ip], text)
              case Answer(p) =>
                n'.level == s.clients[ip].level && (ip != SERVER ==> n'.nei == Noted(s.clients[ip].nei, p.text))
              case _ => true
  {
  }

  /** The server's replies all carry level 100, and no client has its address. */
  ghost predicate ServerOk(s: Swarm) {
    && SERVER !in s.clients
    && (forall p | p in s.flying && p.Reply? && p.from == SERVER :: p.text == LevelReply(SERVER, TOP_LEVEL))
  }

  /** The server's replies this client has taken in. */
  ghost function ServedTo(steps: seq<Step>, ip: Str): nat {
    if steps == [] then 0
    else (if ServesTo(steps[0], ip) then 1 else 0) + ServedTo(steps[1..], ip)
  }

  predicate ServesTo(step: Step, ip: Str) { step.TakeIn? && FromServer(step.p) && step.p.to == ip }

  /** A client's level, or the one it will start with. */
  ghost function Standing(s: Swarm, ip: Str): int { if ip in s.clients then s.clients[ip].level else 1 }

  /** The client has gained k levels, or is at 100. */
  ghost predicate Lifted(before: int, k: int, after: int) { after >= Min(TOP_LEVEL, before + k) }

  lemma ServedStep(s: Swarm, step: Step, ip: Str)
    requires ServerOk(s) && Enabled(s, step)
    ensures ServerOk(Apply(s, step))
    ensures Lifted(Standing(s, ip), if ServesTo(step, ip) then 1 else 0, Standing(Apply(s, step), ip))
  {
    StepLevels(s, step);
    if ServesTo(step, ip) { ReadBack(SERVER, TOP_LEVEL); }
  }

  /** Over every run of any clients, each reply of the server lifts the client that takes it in: after
      k of them it is k levels higher, or at 100. */
  lemma {:induction false} ServerLifts(s: Swarm, steps: seq<Step>, ip: Str)
    requires ServerOk(s) && Runs(s, steps)
    ensures Lifted(Standing(s, ip), ServedTo(steps, ip), Standing(Final(s, steps), ip))
    decreases |steps|
  {
    if steps != [] {
      ServedStep(s, steps[0], ip);
      ServerLifts(Apply(s, steps[0]), steps[1..], ip);
    }
  }

  /** A client asks the server, which answers, and the answer is taken in. */
  ghost function RoundWithServer(s: Swarm, ip: Str): seq<Step>
    requires ip in s.clients
  {
    [Ask(ip, SERVER)] + [Answer(Request(ip, SERVER, LevelRequest(ip, s.clients[ip].level)))]
    + [TakeIn(Reply(SERVER, ip, LevelReply(SERVER, TOP_LEVEL)))]
  }

  lemma RoundLifts(s: Swarm, ip: Str)
    requires ip in s.clients && |ip| >= 3 && s.clients[ip].level < TOP_LEVEL
    ensures Runs(s, RoundWithServer(s, ip))
    ensures var d := Final(s, RoundWithServer(s, ip));
            ip in d.clients && d.clients[ip].level == s.clients[ip].level + 1
  {
    var q := Request(ip, SERVER, LevelRequest(ip, s.clients[ip].level));
    var r := Reply(SERVER, ip, LevelReply(SERVER, TOP_LEVEL));
    assert [] + [Ask(ip, SERVER)] == [Ask(ip, SERVER)];
    RunSnoc(s, [], Ask(ip, SERVER));
    RunSnoc(s, [Ask(ip, SERVER)], Answer(q));
    ReadBack(SERVER, TOP_LEVEL);
    RunSnoc(s, [Ask(ip, SERVER)] + [Answer(q)], TakeIn(r));
  }

  lemma {:induction false} RunAppend(s: Swarm, a: seq<Step>, b: seq<Step>)
    requires Runs(s, a) && Runs(Final(s, a), b)
    ensures Runs(s, a + b) && Final(s, a + b) == Final(Final(s, a), b)
    decreases |b|
  {
    if b == [] {
      assert a + b == a;
    } else {
      RunSnoc(s, a, b[0]);
      RunAppend(s, a + [b[0]], b[1..]);
      assert a + [b[0]] + b[1..] == a + b;
    }
  }

  /** From every state of every swarm, any client can still finish: some run takes it to level 100. */
  lemma {:induction false} CanFinish(s: Swarm, ip: Str) returns (steps: seq<Step>)
    requires ip in s.clients && |ip| >= 3 && s.clients[ip].level <= TOP_LEVEL
    ensures Runs(s, steps) && ip in Final(s, steps).clients && Final(s, steps).clients[ip].level == TOP_LEVEL
    decreases TOP_LEVEL - s.clients[ip].level
  {
    if s.clients[ip].level == TOP_LEVEL {
      steps := [];
    } else {
      var a := RoundWithServer(s, ip);
      RoundLifts(s, ip);
      var b := CanFinish(Final(s, a), ip);
      RunAppend(s, a, b);
      steps := a + b;
    }
  }

  // ---- what holds if no IP is misread as a level ----

  /** The character that is read as the level is the level itself, is missing, or is no progress for
      anyone. */
  predicate Harmless(ip: Str) { |ip| <= 4 || SignedChar(ip[4]) <= 1 }

  ghost predicate ClientOk(s: Swarm, ip: Str)
    requires ip in s.clients
  {
    1 <= s.clients[ip].level <= TOP_LEVEL && Harmless(ip) && ip != SERVER
  }

  ghost function LevelOf(s: Swarm, ip: Str): int {
    if ip in s.clients then s.clients[ip].level else TOP_LEVEL
  }

  /** A reply was written by its sender at a level it has not lost since, the server's at 100. */
  ghost predicate ReplyOk(s: Swarm, p: Packet) {
    && (p.from == SERVER || p.from in s.clients)
    && exists level: int :: Carries(p, level) && 1 <= level <= LevelOf(s, p.from)
  }

  ghost predicate Carries(p: Packet, level: int) {
    p.text == LevelReply(p.from, level) && (p.from == SERVER ==> level == TOP_LEVEL)
  }

  ghost predicate Inv(s: Swarm) {
    && (forall ip | ip in s.clients :: ClientOk(s, ip))
    && (forall p | p in s.flying && p.Reply? :: ReplyOk(s, p))
  }

  /** What is read in a reply, if it can be read, is at most its sender's current level. */
  ghost predicate Honest(s: Swarm, p: Packet) {
    Readable(p.text) ==> p.text[0] == TYPE_D && LevelIn(p.text) <= LevelOf(s, p.from)
  }

  lemma CarriedLevel(ip: Str, level: int)
    requires Harmless(ip) && 1 <= level <= TOP_LEVEL && Readable(LevelReply(ip, level))
    ensures LevelReply(ip, level)[0] == TYPE_D && LevelIn(LevelReply(ip, level)) <= level
    ensures |ip| == 4 ==> SenderOf(LevelReply(ip, level)) == ip && LevelIn(LevelReply(ip, level)) == level
  {
    if |ip| == 4 { ReadBack(ip, level); }
  }

  /** Exactly how a client's level moves when it takes a level reply in: by one, if what it reads is
      ahead, and then its sender is; so every reply of the server lifts it by one until 100. */
  lemma HeardLevel(s: Swarm, p: Packet)
    requires Inv(s) && p in s.flying && p.Reply? && p.to in s.clients && Readable(p.text)
    ensures Honest(s, p)
    ensures var n, n', carried := s.clients[p.to], Heard(s.clients[p.to], p.text), LevelIn(p.text);
            && n'.level == (if carried > n.level then n.level + 1 else n.level)
            && (p.from == SERVER ==> n'.level == Min(n.level + 1, TOP_LEVEL))
            && (|p.from| == 4 ==> n'.nei == n.nei[p.from := Stored(carried)])
  {
    assert ReplyOk(s, p) && ClientOk(s, p.to);
    if p.from in s.clients { assert ClientOk(s, p.from); }
    var level: int :| Carries(p, level) && 1 <= level <= LevelOf(s, p.from);
    CarriedLevel(p.from, level);
  }

  /** Levels only grow, so replies in flight stay honest. */
  lemma ReplyStays(s: Swarm, s': Swarm, p: Packet, most: int)
    requires ReplyOk(s, p) && LevelsGrow(s, s', most) && SERVER !in s'.clients
    ensures ReplyOk(s', p)
  {
    var level: int :| Carries(p, level) && 1 <= level <= LevelOf(s, p.from);
    assert Carries(p, level) && level <= LevelOf(s', p.from);
  }

  lemma ClientStays(s: Swarm, step: Step, ip: Str)
    requires Inv(s) && Enabled(s, step) && (step.Join? ==> Harmless(step.ip)) && ip in Apply(s, step).clients
    ensures ClientOk(Apply(s, step), ip)
  {
    StepLevels(s, step);
    if ip in s.clients { assert ClientOk(s, ip); }
    if step.TakeIn? {
      HeardLevel(s, step.p);
      if step.p.from in s.clients { assert ClientOk(s, step.p.from); }
    }
  }

  lemma StepKeeps(s: Swarm, step: Step)
    requires Inv(s) && Enabled(s, step) && (step.Join? ==> Harmless(step.ip))
    ensures Inv(Apply(s, step))
  {
    var s' := Apply(s, step);
    StepLevels(s, step);
    forall ip | ip in s'.clients ensures ClientOk(s', ip) { ClientStays(s, step, ip); }
    forall q | q in s'.flying && q.Reply? ensures ReplyOk(s', q) {
      if q in s.flying {
        ReplyStays(s, s', q, 1);
      } else {
        var level := LevelOf(s', q.from);
        assert Carries(q, level);
      }
    }
  }

  /** No client is above `b`. */
  ghost predicate Below(s: Swarm, b: int) {
    b >= 1 && forall ip | ip in s.clients :: s.clients[ip].level <= b
  }

  /** The highest level rises only when a client takes in a reply of the server, and then by one. */
  lemma MaximumStep(s: Swarm, step: Step, b: int)
    requires Inv(s) && Enabled(s, step) && Below(s, b)
    ensures Below(Apply(s, step), if step.TakeIn? && FromServer(step.p) then b + 1 else b)
  {
    var s' := Apply(s, step);
    StepLevels(s, step);
    forall ip | ip in s'.clients
      ensures s'.clients[ip].level <= if step.TakeIn? && FromServer(step.p) then b + 1 else b
    {
      if step.TakeIn? && ip == step.p.to {
        HeardLevel(s, step.p);
        assert ReplyOk(s, step.p);
      }
    }
  }

  ghost predicate JoinsIn(steps: seq<Step>, ips: iset<Str>) {
    forall i | 0 <= i < |steps| && steps[i].Join? :: steps[i].ip in ips
  }

  ghost predicate AllHarmless(ips: iset<Str>) {
    forall ip | ip in ips && ip != SERVER :: Harmless(ip)
  }

  /** Over every run of harmless clients: no client is ever further ahead of level 1 than the number of
      server replies taken in, however many clients exchange replies. */
  lemma {:induction false} LevelsAreSafe(s: Swarm, steps: seq<Step>, ips: iset<Str>)
    requires Inv(s) && Runs(s, steps) && JoinsIn(steps, ips) && AllHarmless(ips) && Below(s, 1 + s.served)
    ensures Inv(Final(s, steps)) && Below(Final(s, steps), 1 + Final(s, steps).served)
    decreases |steps|
  {
    if steps != [] {
      assert steps[0].Join? ==> steps[0].ip in ips;
      assert JoinsIn(steps[1..], ips);
      StepKeeps(s, steps[0]);
      MaximumStep(s, steps[0], 1 + s.served);
      LevelsAreSafe(Apply(s, steps[0]), steps[1..], ips);
    }
  }

  /** Levels lie in 1..100, and nobody got ahead without the server. */
  ghost predicate LevelsOk(s: Swarm) {
    forall ip | ip in s.clients :: 1 <= s.clients[ip].level <= Min(TOP_LEVEL, 1 + s.served)
  }

  ghost predicate AllHonest(s: Swarm) {
    forall p | p in s.flying && p.Reply? :: Honest(s, p)
  }

  lemma SafeState(s: Swarm)
    requires Inv(s) && Below(s, 1 + s.served)
    ensures LevelsOk(s) && AllHonest(s)
  {
    forall ip | ip in s.clients ensures 1 <= s.clients[ip].level <= Min(TOP_LEVEL, 1 + s.served) {
      assert ClientOk(s, ip);
    }
    forall p | p in s.flying && p.Reply? ensures Honest(s, p) {
      assert ReplyOk(s, p);
      if p.from in s.clients { assert ClientOk(s, p.from); }
      var level: int :| Carries(p, level) && 1 <= level <= LevelOf(s, p.from);
      if Readable(p.text) { CarriedLevel(p.from, level); }
    }
  }

  // ---- and only then ----

  /** The two clients join; there may be only one. */
  ghost function JoinRun(a: Str, b: Str): seq<Step> { if a == b then [Join(a)] else [Join(a)] + [Join(b)] }

  lemma JoinRuns(a: Str, b: Str)
    requires a != SERVER && b != SERVER
    ensures Runs(START, JoinRun(a, b))
    ensures var s := Final(START, JoinRun(a, b));
            && s.clients == map[a := Node(1, map[]), b := Node(1, map[])] && s.served == 0 && s.flying == multiset{}
  {
    assert [] + [Join(a)] == [Join(a)];
    RunSnoc(START, [], Join(a));
    if a != b { RunSnoc(START, [Join(a)], Join(b)); }
  }

  /** Client `b` asks `a`, which answers at level 1. */
  ghost function AskRun(a: Str, b: Str): seq<Step> {
    JoinRun(a, b) + [Ask(b, a)] + [Answer(Request(b, a, LevelRequest(b, 1)))]
  }

  lemma AskRuns(a: Str, b: Str)
    requires a != SERVER && b != SERVER && |b| >= 3
    ensures Runs(START, AskRun(a, b))
    ensures var s := Final(START, AskRun(a, b));
            && s.clients.Keys == {a, b} && s.clients[a].level == 1 && s.clients[b].level == 1 && s.served == 0
            && s.flying == multiset{Reply(a, b, LevelReply(a, 1))}
  {
    var q := Request(b, a, LevelRequest(b, 1));
    JoinRuns(a, b);
    RunSnoc(START, JoinRun(a, b), Ask(b, a));
    RunSnoc(START, JoinRun(a, b) + [Ask(b, a)], Answer(q));
  }

  ghost function MisreadRun(a: Str, b: Str): seq<Step> {
    AskRun(a, b) + [TakeIn(Reply(a, b, LevelReply(a, 1)))]
  }

  /** The fifth character of `a` is taken for a level: the answer is not honest, and whoever asks, be
      it `a` itself, rises without any reply of the server. */
  lemma MisreadLevel(a: Str, b: Str)
    requires a != SERVER && b != SERVER && |b| >= 3 && !Harmless(a)
    ensures Runs(START, AskRun(a, b)) && !AllHonest(Final(START, AskRun(a, b)))
    ensures Runs(START, MisreadRun(a, b)) && b in Final(START, MisreadRun(a, b)).clients
    ensures var s := Final(START, MisreadRun(a, b)); s.clients[b].level == 2 && s.served == 0
  {
    AskRuns(a, b);
    var s, p := Final(START, AskRun(a, b)), Reply(a, b, LevelReply(a, 1));
    assert p in s.flying && LevelIn(p.text) == SignedChar(a[4]);
    assert !Honest(s, p);
    RunSnoc(START, AskRun(a, b), TakeIn(p));
  }

  /** For instance a client at port 10000, whose '0' reads as level 48. */
  lemma PortOfFiveDigits()
    ensures var port, b: Str := [49, 48, 48, 48, 48], [50, 50, 50, 50];
            exists steps :: Runs(START, steps) && JoinsIn(steps, iset{port, b}) && b in Final(START, steps).clients
                            && Final(START, steps).clients[b].level == 2 && Final(START, steps).served == 0
  {
    var port, b: Str := [49, 48, 48, 48, 48], [50, 50, 50, 50];
    MisreadLevel(port, b);
    assert JoinsIn(MisreadRun(port, b), iset{port, b});
  }

  ghost predicate AlwaysLevelsOk(ips: iset<Str>) {
    forall steps | Runs(START, steps) && JoinsIn(steps, ips) :: LevelsOk(Final(START, steps))
  }

  ghost predicate AlwaysHonest(ips: iset<Str>) {
    forall steps | Runs(START, steps) && JoinsIn(steps, ips) :: AllHonest(Final(START, steps))
  }

  /** Exactly when a population of clients is safe, whatever IPs may join. In every reachable state
      levels stay within 1..100 and within the server's replies exactly if no IP has a fifth character
      that is read as a level above 1, as every port of five digits has; and exactly then every reply
      in flight is honest. */
  lemma ReachableLevels(ips: iset<Str>)
    ensures AlwaysLevelsOk(ips) <==> AllHarmless(ips)
    ensures AlwaysHonest(ips) <==> AllHarmless(ips)
  {
    if AllHarmless(ips) {
      forall steps | Runs(START, steps) && JoinsIn(steps, ips)
        ensures LevelsOk(Final(START, steps)) && AllHonest(Final(START, steps))
      {
        LevelsAreSafe(START, steps, ips);
        SafeState(Final(START, steps));
      }
    } else {
      var a :| a in ips && a != SERVER && !Harmless(a);
      MisreadLevel(a, a);
      assert JoinsIn(AskRun(a, a), ips) && JoinsIn(MisreadRun(a, a), ips);
      assert !LevelsOk(Final(START, MisreadRun(a, a)));
    }
  }
}
