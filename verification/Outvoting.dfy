/** Why the timing theorem is for one subscription: the least of the wishes outvotes an iterator that wished to run
    again at once, and exactly when that is harmless. */
module Outvoting {
  import opened Types
  import opened Batching
  import opened Queues
  import opened Protocol
  import opened Timing
  import opened Several
  import opened SeveralTiming
  import opened Histogram

  // ----- Turns ---------------------------------------------------------------------------------

  lemma {:induction false} MovesThen(g: Group, moves: seq<Move>, g': Group, move: Move, b: Bounds)
    requires TimelyMoves(g, moves, g', b) && TimelyMove(g', move, b)
    ensures TimelyMoves(g, moves + [move], Act(g', move), b)
    decreases |moves|
  {
    hide Act, Possible, RoundOnTime;
    if moves == [] {
      assert [move][1..] == [];
      assert TimelyMoves(Act(g, move), [], Act(g', move), b);
    } else {
      assert (moves + [move])[1..] == moves[1..] + [move];
      MovesThen(Act(g, moves[0]), moves[1..], g', move, b);
    }
  }

  lemma Onward(g: Group, move: Move, b: Bounds)
    requires Arises(g, b) && TimelyMove(g, move, b)
    ensures Arises(Act(g, move), b)
  {
    var n, now, moves :| TimelyMoves(Begun(n, now), moves, g, b);
    MovesThen(Begun(n, now), moves, g, move, b);
  }

  /** The history once an id has been watched, too. */
  function WithWatched(h: History, id: AckId, pulledAt: Time): History {
    h.(watched := h.watched + {id}, pulled := h.pulled[id := pulledAt])
  }

  /** Nothing is completed, drained or chosen. */
  ghost predicate Plain(s: State) {
    && s.q.acks == {} && s.q.nacks == {}
    && s.acks == [] && s.nacks == [] && s.due == [] && s.batch == []
  }

  /** What the iterator grants, going by its own processing times so far, is within the bounds. */
  ghost predicate Grants(s: State, seconds: nat, b: Bounds) {
    10 <= seconds <= 600 && 1000 * seconds <= b.longest && IsDeadline(s.h.samples, seconds)
  }

  /** An iterator at its turn, with no time spent in the round so far. */
  ghost predicate AtTurn(g: Group, b: Bounds, s: State) {
    && Arises(g, b) && g.at.Working? && g.at.turn < |g.its| && s == g.its[g.at.turn] && g.now == g.mark == s.now
    && forall i :: 0 <= i < |g.its| && g.its[i].needSleep ==> g.its[i].sleep >= 0
  }

  /** The iterator whose turn it is goes on; or its turn is over. */
  function With(g: Group, t: State): Group {
    if g.at.Working? && g.at.turn < |g.its| then g.(its := g.its[g.at.turn := t]) else g
  }

  function Over(g: Group, t: State): Group {
    if g.at.Working? && g.at.turn < |g.its| then NextTurn(g, g.its[g.at.turn := t]) else g
  }

  lemma WithTwice(g: Group, s: State, t: State)
    ensures With(With(g, s), t) == With(g, t) && Over(With(g, s), t) == Over(g, t)
  {
    if g.at.Working? && g.at.turn < |g.its| {
      assert g.its[g.at.turn := s][g.at.turn := t] == g.its[g.at.turn := t];
    }
  }

  lemma Proceed(g: Group, b: Bounds, s: State, step: Step, t: State) returns (g': Group)
    requires AtTurn(g, b, s) && Enabled(s, step) && InTurn(step) && Succeeds(step) && t == Apply(s, step)
    requires (step.Choose? ==> 1000 * step.seconds <= b.longest) && t.phase != Top
    requires t.now == s.now && (t.needSleep ==> t.sleep >= 0)
    ensures AtTurn(g', b, t) && g' == With(g, t)
  {
    hide Apply, Enabled, Arises;
    g' := Act(g, Pass(step));
    Onward(g, Pass(step), b);
  }

  lemma Conclude(g: Group, b: Bounds, s: State, step: Step, t: State) returns (g': Group)
    requires AtTurn(g, b, s) && Enabled(s, step) && Concludes(step) && t == Apply(s, step) && t.phase == Top
    requires (step.Choose? ==> 1000 * step.seconds <= b.longest) && (t.needSleep ==> t.sleep >= 0)
    ensures Arises(g', b) && g' == Over(g, t)
  {
    hide Apply, Enabled, Arises;
    g' := Act(g, Pass(step));
    assert Least(g.its[g.at.turn := t]) >= 0;
    Onward(g, Pass(step), b);
  }

  /** With nothing completed, a turn goes straight to choosing. */
  lemma NothingToSend(g: Group, b: Bounds, s: State) returns (g': Group, t: State)
    requires AtTurn(g, b, s) && Plain(s) && s.phase == Merged && !s.needSleep
    ensures AtTurn(g', b, t) && t == s.(phase := SendingNacks) && g' == With(g, t)
  {
    hide AtTurn;
    t := s.(phase := SendingAcks);
    assert Lists([], {});
    assert s.q.keepAlive - {} == s.q.keepAlive;
    assert s.h.early + ({} + {}) * s.q.input.Keys == s.h.early;
    assert Apply(s, Drain([], [])) == t;
    g' := Proceed(g, b, s, Drain([], []), t);
    assert Apply(t, EraseNacks) == s.(phase := SendingNacks);
    g' := Proceed(g', b, t, EraseNacks, s.(phase := SendingNacks));
    WithTwice(g, t, s.(phase := SendingNacks));
    t := s.(phase := SendingNacks);
  }

  /** The turn is over, no time has passed in it, and what was watched and completed is the same. */
  ghost predicate TurnOver(s: State, t: State) {
    t.phase == Top && t.now == s.now && t.h == s.h && t.q.input == s.q.input && Plain(t)
  }

  /** A turn with nothing due. */
  lemma QuietTurn(g: Group, b: Bounds, s: State, seconds: nat, m: Time) returns (g': Group, t: State)
    requires AtTurn(g, b, s) && Plain(s) && s.phase == Merged && !s.needSleep && Grants(s, seconds, b)
    requires Due(s.q.keepAlive, s.now) == {} && IsShortest(s.q.keepAlive, s.now, m) && m >= 0
    ensures Arises(g', b) && g' == Over(g, t) && TurnOver(s, t)
    ensures t.q == s.q && t.server == s.server && t.needSleep == (s.q.keepAlive != map[]) && t.sleep == m / 2
  {
    var g1, s1 := NothingToSend(g, b, s);
    hide AtTurn, Arises, IsDeadline;
    assert Lists([], {});
    var choose := Choose([], seconds, m);
    t := Apply(s1, choose);
    g' := Conclude(g1, b, s1, choose, t);
    WithTwice(g, s1, t);
  }

  lemma ChooseOnly(g: Group, b: Bounds, s: State, seconds: nat, id: AckId, m: Time) returns (g': Group, t: State)
    requires AtTurn(g, b, s) && Plain(s) && s.phase == SendingNacks && !s.needSleep && |id| < 1000
    requires Due(s.q.keepAlive, s.now) == {id} && IsShortest(s.q.keepAlive, s.now, m)
    requires Grants(s, seconds, b)
    ensures AtTurn(g', b, t) && g' == With(g, t)
    ensures t == s.(phase := Calling, batch := [id], chosenAt := s.now, grant := 1000 * seconds)
  {
    hide AtTurn, IsDeadline;
    assert Lists([id], {id});
    var choose := Choose([id], seconds, m);
    var s1 := s.(phase := Extending, due := [id], chosenAt := s.now, grant := 1000 * seconds);
    assert Apply(s, choose) == s1;
    var g1 := Proceed(g, b, s, choose, s1);
    assert [id][..1] == [id] && [id][1..] == [];
    CutUnique([id], MAX_PAYLOAD, 1);
    t := s.(phase := Calling, batch := [id], chosenAt := s.now, grant := 1000 * seconds);
    assert Apply(s1, Carve) == t;
    g' := Proceed(g1, b, s1, Carve, t);
    WithTwice(g, s1, t);
  }

  lemma CallOnly(g: Group, b: Bounds, s: State, id: AckId) returns (g': Group, t: State)
    requires AtTurn(g, b, s) && s.phase == Calling && s.batch == [id] && !s.needSleep
    ensures AtTurn(g', b, t) && g' == With(g, t)
    ensures t == s.(phase := Extending, batch := [], attempt := s.now, reached := true, q := t.q, server := t.server)
    ensures t.q == s.q.Stamp({id}, s.now + s.grant) && t.server == Lease(s.server, {id}, s.now + s.grant)
  {
    hide AtTurn;
    var s1 := s.(phase := InFlight, attempt := s.now, reached := false);
    assert Apply(s, Begin) == s1;
    g' := Proceed(g, b, s, Begin, s1);
    assert Elements([id]) == {id};
    var s2 := s1.(server := Lease(s.server, {id}, s.now + s.grant), reached := true);
    assert Apply(s1, Reach(s.now)) == s2;
    g' := Proceed(g', b, s1, Reach(s.now), s2);
    WithTwice(g, s1, s2);
    hide With;
    g', t := Replied(g', b, s2, id);
    WithTwice(g, s2, t);
  }

  lemma Replied(g: Group, b: Bounds, s: State, id: AckId) returns (g': Group, t: State)
    requires AtTurn(g, b, s) && s.phase == InFlight && s.reached && s.batch == [id] && !s.needSleep
    ensures AtTurn(g', b, t) && g' == With(g, t)
    ensures t == s.(phase := Extending, batch := [], q := t.q) && t.q == s.q.Stamp({id}, s.attempt + s.grant)
  {
    hide AtTurn, With;
    assert Elements([id]) == {id};
    t := Apply(s, End(Success));
    g' := Proceed(g, b, s, End(Success), t);
  }

  /** A turn in which one lease is due: it is extended, and the iterator wishes to run again. */
  lemma BusyTurn(g: Group, b: Bounds, s: State, seconds: nat, id: AckId, m: Time) returns (g': Group, t: State)
    requires AtTurn(g, b, s) && Plain(s) && s.phase == Merged && !s.needSleep && |id| < 1000
    requires Due(s.q.keepAlive, s.now) == {id} && IsShortest(s.q.keepAlive, s.now, m)
    requires Grants(s, seconds, b)
    ensures Arises(g', b) && g' == Over(g, t) && TurnOver(s, t) && !t.needSleep
    ensures t.q == s.q.Stamp({id}, s.now + 1000 * seconds) && t.server == Lease(s.server, {id}, s.now + 1000 * seconds)
  {
    hide AtTurn, Arises, With, Over, IsDeadline;
    var g1, s1 := NothingToSend(g, b, s);
    var g2, s2 := ChooseOnly(g1, b, s1, seconds, id, m);
    WithTwice(g, s1, s2);
    var g3, s3 := CallOnly(g2, b, s2, id);
    WithTwice(g, s2, s3);
    t := Apply(s3, Finish);
    g' := Conclude(g3, b, s3, Finish, t);
    WithTwice(g, s3, t);
  }

  /** A turn in which the only lease has been completed: it is acknowledged, and nothing is left. */
  lemma LastTurn(g: Group, b: Bounds, s: State, seconds: nat, id: AckId) returns (g': Group, t: State)
    requires AtTurn(g, b, s) && s.phase == Merged && !s.needSleep && Grants(s, seconds, b) && |id| < 1000
    requires s.q.acks == {id} && s.q.nacks == {} && s.q.input == map[] && s.q.keepAlive.Keys == {id}
    ensures Arises(g', b) && g' == Over(g, t) && t.phase == Top && t.now == s.now && Plain(t) && !t.needSleep
    ensures t.q == Queues(map[], map[], {}, {}) && t.h == s.h.(log := s.h.log + [Batch(Ack, {id}, true)])
  {
    hide AtTurn, IsDeadline, With, Over, Arises;
    var g1, s1 := Acknowledged(g, b, s, id);
    assert Lists([], {}) && Due(s1.q.keepAlive, s1.now) == {} && IsShortest(s1.q.keepAlive, s1.now, SO_MANY);
    var choose := Choose([], seconds, SO_MANY);
    t := Apply(s1, choose);
    g' := Conclude(g1, b, s1, choose, t);
    WithTwice(g, s1, t);
  }

  lemma Acknowledged(g: Group, b: Bounds, s: State, id: AckId) returns (g': Group, t: State)
    requires AtTurn(g, b, s) && s.phase == Merged && !s.needSleep && |id| < 1000
    requires s.q.acks == {id} && s.q.nacks == {} && s.q.input == map[] && s.q.keepAlive.Keys == {id}
    ensures AtTurn(g', b, t) && g' == With(g, t)
    ensures t == s.(phase := SendingNacks, q := Queues(map[], map[], {}, {}), acks := [], nacks := [],
                    h := s.h.(log := s.h.log + [Batch(Ack, {id}, true)]))
  {
    hide AtTurn, With;
    assert Lists([id], {id}) && Lists([], {});
    var s1 := s.(phase := SendingAcks, q := Queues(map[], map[], {}, {}), acks := [id], nacks := []);
    assert s.q.keepAlive - {id} == map[];
    assert s.h.early + ({id} + {}) * s.q.input.Keys == s.h.early;
    assert Apply(s, Drain([id], [])) == s1;
    var g1 := Proceed(g, b, s, Drain([id], []), s1);
    assert [id][..1] == [id] && [id][1..] == [] && Elements([id]) == {id};
    CutUnique([id], MAX_PAYLOAD, 1);
    var s2 := s1.(acks := [], h := s.h.(log := s.h.log + [Batch(Ack, {id}, true)]));
    assert Apply(s1, SendAckBatch(true)) == s2;
    var g2 := Proceed(g1, b, s1, SendAckBatch(true), s2);
    WithTwice(g, s1, s2);
    t := s2.(phase := SendingNacks);
    assert Apply(s2, EraseNacks) == t;
    g' := Proceed(g2, b, s2, EraseNacks, t);
    WithTwice(g, s2, t);
  }

  const NOTHING_KEPT: map<AckId, Time> := map[]

  // ----- Rounds of two -------------------------------------------------------------------------

  /** Two iterators between rounds, with these leases to keep alive once their input is merged, and what each grants. */
  ghost predicate Two(g: Group, b: Bounds, s: State, t: State, a: map<AckId, Time>, c: map<AckId, Time>, d: nat) {
    && Arises(g, b) && g.its == [s, t] && g.now == s.now == t.now && s.phase == t.phase == Top && Plain(s) && Plain(t)
    && s.q.input + s.q.keepAlive == a && t.q.input + t.q.keepAlive == c && Grants(s, d, b) && Grants(t, 10, b)
  }

  /** The thread is free to merge them, and they are merged in time. */
  ghost predicate Ready(g: Group, b: Bounds, s: State, t: State) {
    && (g.at == Asleep || (g.at == AtTop && !g.needSleep && !AllIdle(g)))
    && MergedInTime(s, b.margin) && MergedInTime(t, b.margin)
  }

  lemma MergeTwo(g: Group, b: Bounds, s: State, t: State) returns (g': Group, s': State, t': State)
    requires Arises(g, b) && g.its == [s, t] && g.now == s.now == t.now && s.phase == t.phase == Top
    requires Ready(g, b, s, t)
    ensures AtTurn(g', b, s') && g' == g.(its := [s', t'], at := Working(0), needSleep := false, mark := g.now)
    ensures IsJoined(s, s') && IsJoined(t, t')
  {
    JoinedIsJoined(s);
    JoinedIsJoined(t);
    hide Arises, MergedInTime, Joined, Idle, IsJoined;
    s', t' := Joined(s), Joined(t);
    g' := Act(g, MergeAll);
    assert g'.its == [s', t'];
    Onward(g, MergeAll, b);
    AtFirstTurn(g', b, s, t, s', t');
  }

  lemma AtFirstTurn(g: Group, b: Bounds, s: State, t: State, s': State, t': State)
    requires Arises(g, b) && g.its == [s', t'] && g.at == Working(0) && g.now == g.mark == s.now == t.now
    requires IsJoined(s, s') && IsJoined(t, t')
    ensures AtTurn(g, b, s')
  {
  }

  ghost predicate IsJoined(s: State, t: State) {
    && t.phase == Merged && !t.needSleep && t.q == s.q.Merge() && t.now == s.now && t.h == s.h && t.server == s.server
    && t.acks == s.acks && t.nacks == s.nacks && t.due == s.due && t.batch == s.batch
  }

  lemma JoinedIsJoined(s: State)
    requires s.phase == Top
    ensures IsJoined(s, Joined(s))
  {
  }

  lemma AtSecondTurn(g: Group, b: Bounds, s: State, t: State)
    requires Arises(g, b) && g.its == [s, t] && g.at == Working(1) && g.now == g.mark == t.now
    requires (s.needSleep ==> s.sleep >= 0) && !t.needSleep
    ensures AtTurn(g, b, t)
  {
  }

  /** After a round of two, with no time spent in it. */
  ghost predicate Between(g: Group, b: Bounds, now: Time, s: State, t: State) {
    && Arises(g, b) && g.its == [s, t] && g.now == g.mark == s.now == t.now == now && s.phase == t.phase == Top
    && Plain(s) && Plain(t) && s.q.input == map[] && t.q.input == map[]
  }

  /** One at least wished to sleep: asleep, with the least of the wishes. */
  ghost predicate Slept(g: Group, b: Bounds, now: Time, s: State, t: State, sleep: Time) {
    Between(g, b, now, s, t) && g.at == Asleep && g.needSleep && g.sleep == sleep
  }

  lemma GoToSleep(g: Group, b: Bounds, s: State, t: State) returns (g': Group)
    requires Between(g, b, g.now, s, t) && g.at == AtTop
    requires g.sleep == Least(g.its) && (g.needSleep <==> g.sleep != SO_MANY) && 0 <= g.sleep < SO_MANY
    ensures Slept(g', b, g.now, s, t, if Wish(s) < Wish(t) then Wish(s) else Wish(t)) && g'.now == g.now
  {
    LeastOfTwo(s, t);
    hide Arises, Plain, Least;
    Onward(g, Doze, b);
    g' := Act(g, Doze);
  }

  lemma LeastOfTwo(s: State, t: State)
    requires Least([s, t]) < SO_MANY
    ensures Least([s, t]) == if Wish(s) < Wish(t) then Wish(s) else Wish(t)
  {
    assert Wish([s, t][0]) == Wish(s) && Wish([s, t][1]) == Wish(t);
  }

  lemma LeastBelow(s: State, t: State)
    ensures Least([s, t]) <= Wish(s) && Least([s, t]) <= Wish(t)
    ensures 0 <= Wish(s) && 0 <= Wish(t) ==> 0 <= Least([s, t])
    ensures Wish(s) == SO_MANY && Wish(t) == SO_MANY ==> Least([s, t]) == SO_MANY
  {
    assert Wish([s, t][0]) == Wish(s) && Wish([s, t][1]) == Wish(t);
  }

  /** The second turn of a round, with nothing due; then the thread goes to sleep if one of them wished to. */
  lemma QuietSecond(g: Group, b: Bounds, s: State, t: State, n: Time) returns (g': Group, t': State)
    requires Arises(g, b) && g.its == [s, t] && g.at == Working(1) && g.now == g.mark == s.now == t.now
    requires s.phase == Top && Plain(s) && s.q.input == map[] && (s.needSleep ==> 0 <= s.sleep < SO_MANY)
    requires t.phase == Merged && !t.needSleep && Plain(t) && t.q.input == map[] && Grants(t, 10, b)
    requires Due(t.q.keepAlive, t.now) == {} && IsShortest(t.q.keepAlive, t.now, n) && 0 <= n
    requires s.needSleep || t.q.keepAlive != map[]
    ensures TurnOver(t, t') && t'.q == t.q && t'.server == t.server && t'.needSleep == (t.q.keepAlive != map[])
    ensures t'.sleep == n / 2 && g'.now == g.now
    ensures Slept(g', b, g.now, s, t', if Wish(s) < Wish(t') then Wish(s) else Wish(t'))
  {
    hide Arises, AtTurn, IsDeadline;
    assert AtTurn(g, b, t) by { AtSecondTurn(g, b, s, t); }
    g', t' := QuietTurn(g, b, t, 10, n);
    assert g'.its == [s, t'];
    LeastBelow(s, t');
    g' := GoToSleep(g', b, s, t');
  }

  /** A round with nothing due. */
  lemma QuietRound(g: Group, b: Bounds, s: State, t: State, a: map<AckId, Time>, c: map<AckId, Time>, d: nat, m: Time,
                   n: Time) returns (g': Group, s': State, t': State)
    requires Two(g, b, s, t, a, c, d) && Ready(g, b, s, t)
    requires Due(a, g.now) == {} && IsShortest(a, g.now, m) && 0 <= m && a != map[] && m < SO_MANY
    requires Due(c, g.now) == {} && IsShortest(c, g.now, n) && 0 <= n
    ensures Slept(g', b, g.now, s', t', if c != map[] && n / 2 < m / 2 then n / 2 else m / 2) && g'.now == g.now
    ensures s'.q.keepAlive == a && t'.q.keepAlive == c && s'.h == s.h && t'.h == t.h
    ensures s'.server == s.server && t'.server == t.server
  {
    hide Arises, AtTurn, MergedInTime, IsDeadline;
    g', s', t' := MergeTwo(g, b, s, t);
    g', s' := QuietTurn(g', b, s', d, m);
    g', t' := QuietSecond(g', b, s', t', n);
  }

  /** A round in which the first iterator extends its only lease, and the second has nothing due. */
  lemma FirstBusy(g: Group, b: Bounds, s: State, t: State, id: AckId, left: Time, c: map<AckId, Time>, d: nat, n: Time)
    returns (g': Group, s': State, t': State)
    requires Two(g, b, s, t, map[id := g.now + left], c, d) && Ready(g, b, s, t) && left <= GRACE && |id| < 1000
    requires Due(c, g.now) == {} && IsShortest(c, g.now, n) && 0 <= n < SO_MANY && c != map[]
    ensures Slept(g', b, g.now, s', t', n / 2) && g'.now == g.now
    ensures s'.q.keepAlive == map[id := g.now + 1000 * d] && t'.q.keepAlive == c && s'.h == s.h && t'.h == t.h
    ensures t'.server == t.server
  {
    hide Arises, AtTurn, MergedInTime, IsDeadline;
    g', s', t' := MergeTwo(g, b, s, t);
    assert id in s'.q.keepAlive && Due(s'.q.keepAlive, g.now) == {id} && IsShortest(s'.q.keepAlive, g.now, left);
    g', s' := BusyTurn(g', b, s', d, id, left);
    assert s'.q.keepAlive == map[id := g.now + 1000 * d];
    g', t' := QuietSecond(g', b, s', t', n);
  }

  /** The same while the second one has no leases: both wish to run again. */
  lemma FirstAlone(g: Group, b: Bounds, s: State, t: State, id: AckId, left: Time, d: nat)
    returns (g': Group, s': State, t': State)
    requires Two(g, b, s, t, map[id := g.now + left], map[], d) && Ready(g, b, s, t) && left <= GRACE && |id| < 1000
    ensures Two(g', b, s', t', map[id := g.now + 1000 * d], map[], d) && Ready(g', b, s', t')
    ensures g'.now == g'.mark == g.now && s'.q.input == map[] && t'.q.input == map[] && s'.h == s.h && t'.h == t.h
    ensures t'.server == t.server
  {
    hide Arises, AtTurn, IsDeadline;
    g', s', t' := MergeTwo(g, b, s, t);
    assert id in s'.q.keepAlive && Due(s'.q.keepAlive, g.now) == {id} && IsShortest(s'.q.keepAlive, g.now, left);
    g', s' := BusyTurn(g', b, s', d, id, left);
    assert s'.q.keepAlive == map[id := g.now + 1000 * d] && id in s'.q.keepAlive;
    g', t' := EmptySecond(g', b, s', t');
    assert s'.q.input + s'.q.keepAlive == s'.q.keepAlive && NOTHING_KEPT + NOTHING_KEPT == NOTHING_KEPT;
    assert !Idle(g'.its[0].q);
  }

  lemma EmptySecond(g: Group, b: Bounds, s: State, t: State) returns (g': Group, t': State)
    requires Arises(g, b) && g.its == [s, t] && g.at == Working(1) && g.now == g.mark == s.now == t.now
    requires s.phase == Top && Plain(s) && !s.needSleep && t.phase == Merged && !t.needSleep && Plain(t)
    requires t.q == Queues(map[], map[], {}, {}) && Grants(t, 10, b)
    ensures Arises(g', b) && g'.its == [s, t'] && g'.at == AtTop && !g'.needSleep && g'.now == g'.mark == g.now
    ensures TurnOver(t, t') && t'.q == t.q && t'.server == t.server && !t'.needSleep
  {
    hide Arises, AtTurn, IsDeadline;
    assert AtTurn(g, b, t) by { AtSecondTurn(g, b, s, t); }
    assert Due(t.q.keepAlive, t.now) == {} && IsShortest(t.q.keepAlive, t.now, SO_MANY);
    g', t' := QuietTurn(g, b, t, 10, SO_MANY);
    assert g'.its == [s, t'];
    LeastBelow(s, t');
  }

  /** A round in which the first iterator has nothing due, and the second extends one lease: it is outvoted. */
  lemma SecondBusy(g: Group, b: Bounds, s: State, t: State, a: map<AckId, Time>, d: nat, m: Time, c: map<AckId, Time>,
                   id: AckId, n: Time) returns (g': Group, s': State, t': State)
    requires Two(g, b, s, t, a, c, d) && Ready(g, b, s, t)
    requires Due(a, g.now) == {} && IsShortest(a, g.now, m) && 0 <= m < SO_MANY && a != map[]
    requires Due(c, g.now) == {id} && IsShortest(c, g.now, n) && |id| < 1000
    ensures Slept(g', b, g.now, s', t', m / 2) && g'.now == g.now
    ensures s'.q.keepAlive == a && t'.q == Queues(map[], c, {}, {}).Stamp({id}, g.now + MIN_ACK_DEADLINE)
    ensures s'.h == s.h && t'.h == t.h && t'.server == Lease(t.server, {id}, g.now + MIN_ACK_DEADLINE)
  {
    hide Arises, AtTurn, MergedInTime, IsDeadline;
    g', s', t' := MergeTwo(g, b, s, t);
    g', s' := QuietTurn(g', b, s', d, m);
    g', t' := BusySecond(g', b, s', t', id, n);
  }

  lemma BusySecond(g: Group, b: Bounds, s: State, t: State, id: AckId, n: Time) returns (g': Group, t': State)
    requires Arises(g, b) && g.its == [s, t] && g.at == Working(1) && g.now == g.mark == s.now == t.now
    requires s.phase == Top && Plain(s) && s.q.input == map[] && s.needSleep && 0 <= s.sleep < SO_MANY
    requires t.phase == Merged && !t.needSleep && Plain(t) && t.q.input == map[] && Grants(t, 10, b) && |id| < 1000
    requires Due(t.q.keepAlive, t.now) == {id} && IsShortest(t.q.keepAlive, t.now, n)
    ensures TurnOver(t, t') && t'.q == t.q.Stamp({id}, t.now + MIN_ACK_DEADLINE)
    ensures t'.server == Lease(t.server, {id}, t.now + MIN_ACK_DEADLINE)
    ensures Slept(g', b, g.now, s, t', s.sleep) && g'.now == g.now
  {
    hide Arises, AtTurn, IsDeadline;
    assert AtTurn(g, b, t) by { AtSecondTurn(g, b, s, t); }
    g', t' := BusyTurn(g, b, t, 10, id, n);
    assert g'.its == [s, t'];
    LeastBelow(s, t');
    g' := GoToSleep(g', b, s, t');
  }

  /** Somebody wakes the thread before its sleep and the overrun are over, or they are over. */
  lemma SleepFor(g: Group, b: Bounds, s: State, t: State, sleep: Time, time: nat)
    returns (g': Group, s': State, t': State)
    requires Slept(g, b, g.now, s, t, sleep) && time <= sleep + b.e
    ensures Arises(g', b) && g' == g.(its := [s', t'], now := g.now + time) && RoundOnTime(g', b)
    ensures s' == s.(now := g'.now) && t' == t.(now := g'.now)
  {
    hide Arises;
    s', t' := s.(now := g.now + time), t.(now := g.now + time);
    g' := Act(g, Pause(time));
    assert g'.its == [s', t'];
    Onward(g, Pause(time), b);
  }

  lemma SleepUntil(g: Group, b: Bounds, s: State, t: State, sleep: Time, time: nat, d: nat)
    returns (g': Group, s': State, t': State)
    requires Slept(g, b, g.now, s, t, sleep) && time <= sleep + b.e && Grants(s, d, b) && Grants(t, 10, b)
    ensures Two(g', b, s', t', s.q.keepAlive, t.q.keepAlive, d) && Ready(g', b, s', t') && g'.now == g.now + time
    ensures s'.h == s.h && t'.h == t.h && s'.server == s.server && t'.server == t.server
  {
    hide Arises, IsDeadline;
    g', s', t' := SleepFor(g, b, s, t, sleep, time);
    assert map[] + s.q.keepAlive == s.q.keepAlive && map[] + t.q.keepAlive == t.q.keepAlive;
  }

  /** The thread sleeps for a millisecond, and an id is watched, which wakes it. */
  lemma SleepOneMore(g: Group, b: Bounds, s: State, t: State, sleep: Time, a: map<AckId, Time>, c: map<AckId, Time>,
                     d: nat, id: AckId) returns (g': Group, s': State, t': State)
    requires Slept(g, b, g.now, s, t, sleep) && sleep >= 1 && b.margin < FRESH && Grants(s, d, b) && Grants(t, 10, b)
    requires s.q.keepAlive == a && t.q.keepAlive == c && id !in c && id !in t.h.watched
    ensures Two(g', b, s', t', a, c[id := g.now + 1 + FRESH], d) && Ready(g', b, s', t') && g'.now == g.now + 1
    ensures s'.h == s.h && t'.h == WithWatched(t.h, id, g.now + 1) && s'.server == s.server
    ensures t'.server == t.server[id := g.now + 1 + FRESH]
  {
    hide Arises, IsDeadline;
    var t1;
    g', s', t1 := SleepFor(g, b, s, t, sleep, 1);
    var add := User(1, Add(id, g'.now, g'.now + FRESH));
    t' := Apply(t1, add.step);
    Onward(g', add, b);
    g' := Act(g', add);
    assert g'.its == [s', t'];
    assert map[] + s.q.keepAlive == a && t'.q.input + t'.q.keepAlive == c[id := g'.now + FRESH];
  }

  // ----- What the first iterator grants --------------------------------------------------------

  /** Between rounds with nothing in hand: the first iterator grants d seconds, the second has not seen any message. */
  ghost predicate Set(g: Group, b: Bounds, s: State, t: State, d: nat) {
    && Two(g, b, s, t, map[], map[], d) && g.at == AtTop && !g.needSleep
    && s.q == t.q == Queues(map[], map[], {}, {}) && "a" !in s.h.watched && "a" !in s.h.first
    && t.h == Start(0).h && t.server == map[]
  }

  lemma Unused(b: Bounds) returns (g: Group, s: State, t: State)
    requires MIN_ACK_DEADLINE <= b.longest
    ensures Set(g, b, s, t, 10) && g.now == 0 && s == Start(0)
  {
    g, s, t := Begun(2, 0), Start(0), Start(0);
    assert TimelyMoves(Begun(2, 0), [], Begun(2, 0), b);
    assert g.its == [s, t];
    DeadlineOfOne(10);
    hide IsDeadline, TimelyMoves;
    assert NOTHING_KEPT + NOTHING_KEPT == NOTHING_KEPT;
  }

  /** The first iterator gets an id, and merges it at once. */
  lemma WatchFirst(g: Group, b: Bounds, s: State, t: State, d: nat, id: AckId) returns (g': Group, s': State, t': State)
    requires Set(g, b, s, t, d) && b.margin < FRESH && id !in s.h.watched
    ensures Slept(g', b, g.now, s', t', FRESH / 2) && g'.now == g.now
    ensures s'.q.keepAlive == map[id := g.now + FRESH] && t'.q.keepAlive == map[]
    ensures s'.h == WithWatched(s.h, id, g.now) && t'.h == t.h && t'.server == t.server
    ensures Grants(s', d, b) && Grants(t', 10, b)
  {
    hide Arises, IsDeadline;
    var add := User(0, Add(id, g.now, g.now + FRESH));
    s' := Apply(s, add.step);
    Onward(g, add, b);
    g' := Act(g, add);
    assert g'.its == [s', t];
    var a: map<AckId, Time>, c: map<AckId, Time> := map[id := g.now + FRESH], map[];
    assert id in s'.q.input && !Idle(g'.its[0].q);
    assert s'.q.input + s'.q.keepAlive == a && t.q.input + t.q.keepAlive == c;
    assert id in a && Due(a, g.now) == {} && IsShortest(a, g.now, FRESH);
    assert Due(c, g.now) == {} && IsShortest(c, g.now, SO_MANY);
    g', s', t' := QuietRound(g', b, s', t, a, c, d, FRESH, SO_MANY);
  }

  /** The only lease is due, is extended, and the thread sleeps for the half of it. */
  lemma KeepOnce(g: Group, b: Bounds, s: State, t: State, sleep: Time, time: nat, id: AckId, left: Time)
    returns (g': Group, s': State, t': State)
    requires Slept(g, b, g.now, s, t, sleep) && time <= sleep + b.e && Grants(s, 10, b) && Grants(t, 10, b)
    requires s.q.keepAlive == map[id := g.now + time + left] && left <= GRACE && |id| < 1000 && t.q.keepAlive == map[]
    ensures Slept(g', b, g'.now, s', t', GRACE) && g'.now == g.now + time
    ensures s'.q.keepAlive == map[id := g'.now + MIN_ACK_DEADLINE] && t'.q.keepAlive == map[]
    ensures s'.h == s.h && t'.h == t.h && t'.server == t.server
  {
    hide Arises, Slept, Two, Ready, IsDeadline;
    g', s', t' := SleepUntil(g, b, s, t, sleep, time, 10);
    g', s', t' := FirstAlone(g', b, s', t', id, left, 10);
    var a: map<AckId, Time>, c: map<AckId, Time> := map[id := g'.now + MIN_ACK_DEADLINE], map[];
    assert id in a && Due(a, g'.now) == {} && IsShortest(a, g'.now, MIN_ACK_DEADLINE);
    assert Due(c, g'.now) == {} && IsShortest(c, g'.now, SO_MANY);
    g', s', t' := QuietRound(g', b, s', t', a, c, 10, MIN_ACK_DEADLINE, SO_MANY);
  }

  /** A message that takes the user eleven seconds, kept alive with the least deadline, makes the first iterator grant
      eleven seconds from then on. */
  lemma Experienced(b: Bounds) returns (g: Group, s: State, t: State)
    requires 11_000 <= b.longest && b.margin < FRESH
    ensures Set(g, b, s, t, 11)
  {
    hide Arises, Slept, Two, Ready, IsDeadline;
    g, s, t := Unused(b);
    g, s, t := WatchFirst(g, b, s, t, 10, "z");
    g, s, t := KeepOnce(g, b, s, t, FRESH / 2, 4000, "z", GRACE);
    g, s, t := KeepOnce(g, b, s, t, GRACE, GRACE, "z", GRACE);
    g, s, t := CompleteFirst(g, b, s, t, "z");
  }

  /** Eleven seconds after its pull the only lease is completed, and the thread is woken. */
  lemma CompleteFirst(g: Group, b: Bounds, s: State, t: State, id: AckId) returns (g': Group, s': State, t': State)
    requires Slept(g, b, 9000, s, t, GRACE) && g.now == 9000 && s.h == WithWatched(Start(0).h, id, 0)
    requires s.q.keepAlive.Keys == {id} && |id| < 1000 && id != "a" && 11_000 <= b.longest
    requires t.q.keepAlive == map[] && t.h == Start(0).h && t.server == map[] && Grants(t, 10, b)
    ensures Set(g', b, s', t', 11)
  {
    DeadlineOfOne(11);
    hide Arises, AtTurn, IsDeadline;
    var s1, t1;
    g', s1, t1 := SleepFor(g, b, s, t, GRACE, 2000);
    var done := User(0, Complete(id, Ack));
    var s2 := s1.(q := s1.q.(acks := {id}), h := s1.h.(first := map[id := Ack], samples := [11]));
    assert Apply(s1, done.step) == s2;
    Onward(g', done, b);
    g' := Act(g', done);
    assert g'.its == [s2, t1];
    g', s', t' := LastRound(g', b, s2, t1, id);
  }

  /** The round after that leaves nothing. */
  lemma LastRound(g: Group, b: Bounds, s: State, t: State, id: AckId) returns (g': Group, s': State, t': State)
    requires Arises(g, b) && g.its == [s, t] && g.now == s.now == t.now && s.phase == t.phase == Top
    requires g.at == Asleep && |id| < 1000 && id != "a" && Grants(s, 11, b) && Grants(t, 10, b) && Plain(t)
    requires s.q.acks == {id} && s.q.nacks == {} && s.q.input == map[] && s.q.keepAlive.Keys == {id}
    requires s.h.watched == {id} && s.h.first == map[id := Ack]
    requires t.q == Queues(map[], map[], {}, {}) && t.h == Start(0).h && t.server == map[]
    ensures Set(g', b, s', t', 11)
  {
    hide Arises, AtTurn, IsDeadline;
    g', s', t' := MergeTwo(g, b, s, t);
    assert s.q.input + s.q.keepAlive == s.q.keepAlive && NOTHING_KEPT + NOTHING_KEPT == NOTHING_KEPT;
    g', s' := LastTurn(g', b, s', 11, id);
    g', t' := EmptySecond(g', b, s', t');
  }

  // ----- The run -------------------------------------------------------------------------------

  /** One lease of the first iterator, and a millisecond later one of the second. */
  lemma TwoLeases(g0: Group, b: Bounds, s0: State, t0: State, d: nat) returns (g: Group, s: State, t: State)
    requires Set(g0, b, s0, t0, d) && b.margin < FRESH
    ensures Slept(g, b, g0.now + 1, s, t, 4499) && g.now == g0.now + 1 && s.q.keepAlive == map["a" := g0.now + FRESH]
    ensures t.q.keepAlive == map["c" := g0.now + 1 + FRESH] && Grants(s, d, b) && Grants(t, 10, b)
    ensures t.h.first == map[] && "b" !in t.h.watched
  {
    hide Arises, Slept, Two, Ready, IsDeadline;
    var now := g0.now;
    var a: map<AckId, Time>, c: map<AckId, Time> := map["a" := now + FRESH], map["c" := now + 1 + FRESH];
    g, s, t := WatchFirst(g0, b, s0, t0, d, "a");
    g, s, t := SleepOneMore(g, b, s, t, FRESH / 2, a, map[], d, "c");
    assert "a" in a && Due(a, now + 1) == {} && IsShortest(a, now + 1, FRESH - 1);
    assert "c" in c && Due(c, now + 1) == {} && IsShortest(c, now + 1, FRESH);
    g, s, t := QuietRound(g, b, s, t, a, c, d, FRESH - 1, FRESH);
  }

  /** Another millisecond later a second one of the second. */
  lemma ThreeLeases(g0: Group, b: Bounds, s0: State, t0: State, d: nat) returns (g: Group, s: State, t: State)
    requires Set(g0, b, s0, t0, d) && b.margin < FRESH
    ensures Slept(g, b, g0.now + 2, s, t, 4499) && g.now == g0.now + 2 && s.q.keepAlive == map["a" := g0.now + FRESH]
    ensures t.q.keepAlive == map["c" := g0.now + 1 + FRESH, "b" := g0.now + 2 + FRESH]
    ensures "b" in t.h.watched && t.h.first == map[] && "b" in t.server && t.server["b"] == g0.now + 2 + FRESH
    ensures Grants(s, d, b) && Grants(t, 10, b)
  {
    hide Arises, Slept, Two, Ready, IsDeadline;
    var now := g0.now;
    var a: map<AckId, Time>, c: map<AckId, Time> := map["a" := now + FRESH], map["c" := now + 1 + FRESH];
    g, s, t := TwoLeases(g0, b, s0, t0, d);
    g, s, t := SleepOneMore(g, b, s, t, 4499, a, c, d, "b");
    var both: map<AckId, Time> := map["c" := now + 1 + FRESH, "b" := now + 2 + FRESH];
    assert c["b" := now + 2 + FRESH] == both;
    assert "a" in a && Due(a, now + 2) == {} && IsShortest(a, now + 2, FRESH - 2);
    assert "c" in both && Due(both, now + 2) == {} && IsShortest(both, now + 2, FRESH - 1);
    g, s, t := QuietRound(g, b, s, t, a, both, d, FRESH - 2, FRESH - 1);
  }

  /** The first iterator extends its lease when it is due; a millisecond later one lease of the second is due and the
      other just is not. Wishing to run again, it is outvoted by the first, which asks to sleep for half of what it
      got. */
  lemma Outvoted(g0: Group, b: Bounds, s0: State, t0: State, d: nat) returns (g: Group, s: State, t: State)
    requires Set(g0, b, s0, t0, d) && b.margin < FRESH
    ensures Slept(g, b, g0.now + 4001, s, t, (1000 * d - 1) / 2) && g.now == g0.now + 4001
    ensures Grants(s, d, b) && Grants(t, 10, b) && "b" in t.q.keepAlive
    ensures "b" in t.h.watched && t.h.first == map[] && "b" in t.server && t.server["b"] == g0.now + 2 + FRESH
  {
    hide Arises, Slept, Two, Ready, IsDeadline;
    var now := g0.now;
    var c: map<AckId, Time> := map["c" := now + 1 + FRESH, "b" := now + 2 + FRESH];
    g, s, t := ThreeLeases(g0, b, s0, t0, d);
    g, s, t := SleepUntil(g, b, s, t, 4499, 3998, d);
    assert "c" in c && Due(c, now + 4000) == {} && IsShortest(c, now + 4000, 5001);
    g, s, t := FirstBusy(g, b, s, t, "a", GRACE, c, d, 5001);
    g, s, t := SleepUntil(g, b, s, t, 2500, 1, d);
    var a: map<AckId, Time> := map["a" := now + 4000 + 1000 * d];
    assert "a" in a && Due(a, now + 4001) == {} && IsShortest(a, now + 4001, 1000 * d - 1);
    assert Due(c, now + 4001) == {"c"} && IsShortest(c, now + 4001, GRACE);
    g, s, t := SecondBusy(g, b, s, t, a, d, 1000 * d - 1, c, "c", GRACE);
  }

  /** The lease that was not due runs out during the sleep, its overrun, or the round after it. */
  lemma OutvotedLapses(g0: Group, b: Bounds, s0: State, t0: State, d: nat) returns (g: Group)
    requires Set(g0, b, s0, t0, d) && b.margin < FRESH && (1000 * d - 1) / 2 + 2 * b.e > GRACE
    ensures Arises(g, b) && |g.its| == 2 && Lapsed(g.its[1], "b")
  {
    hide Arises, AtTurn, IsDeadline;
    var s, t;
    g, s, t := Outvoted(g0, b, s0, t0, d);
    g, s, t := SleepUntil(g, b, s, t, (1000 * d - 1) / 2, (1000 * d - 1) / 2 + b.e, d);
    g, s, t := MergeTwo(g, b, s, t);
    assert Arises(g, b) by { TurnArises(g, b, s); }
    Onward(g, Pause(b.e), b);
    g := Act(g, Pause(b.e));
    assert g.its[1] == t.(now := g.now);
  }

  lemma TurnArises(g: Group, b: Bounds, s: State)
    requires AtTurn(g, b, s)
    ensures Arises(g, b)
  {
  }

  /** The exact condition, for any number of iterators and deadlines in whole seconds: no lease lapses in any such run
      if and only if half of the longest deadline and the overrun are within the grace period, or the margin is so long
      that nothing uncompleted is ever merged. As no deadline is shorter than ten seconds, that leaves no overrun at
      all. */
  lemma ExactlyWhenOutvotingIsHarmless(b: Bounds)
    requires MIN_ACK_DEADLINE <= b.longest <= MAX_ACK_DEADLINE && b.longest % 1000 == 0
    ensures (forall g, i: nat, id | Arises(g, b) && i < |g.its| :: !Lapsed(g.its[i], id))
            <==> Harmless(b) || b.margin >= FRESH
  {
    if Harmless(b) || b.margin >= FRESH {
      forall g, i: nat, id | Arises(g, b) && i < |g.its|
        ensures !Lapsed(g.its[i], id)
      {
        if Harmless(b) {
          NoneLapses(g, b, i, id);
        } else {
          NoneLapsesUnmerged(g, b, i, id);
        }
      }
    } else {
      var g, s, t;
      if b.e > 0 {
        g, s, t := Unused(b);
        g := OutvotedLapses(g, b, s, t, 10);
      } else {
        g, s, t := Experienced(b);
        g := OutvotedLapses(g, b, s, t, 11);
      }
      assert Lapsed(g.its[1 as nat], "b");
    }
  }
}
