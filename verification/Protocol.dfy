/** The life of ack ids between the pull thread, the user's threads and the ack thread, as atomic steps. Each critical
    section is one step; so is each moment at which a call starts, reaches the server or comes back. */
module Protocol {
  import opened Types
  import opened Batching
  import opened Queues
  import Histogram

  /** Where the ack thread is: at the top of its loop or waiting there; or in a pass, which merges, sends what was
      completed, chooses the leases to extend and extends them, one call (of several attempts) after the other. */
  datatype Phase = Top | Waiting | Merged | SendingAcks | SendingNacks | Extending | Calling | InFlight

  /** One call for completed ids; a call that is not ok threw. */
  datatype Batch = Batch(action: Action, ids: set<AckId>, ok: bool)

  datatype State = State(
    now: Time,
    q: Queues,
    phase: Phase,
    // what the pass has drained and not sent, and has chosen and not extended
    acks: seq<AckId>, nacks: seq<AckId>, due: seq<AckId>, batch: seq<AckId>,
    // when the leases were chosen, the deadline granted, the start of the attempt, whether it reached the server
    chosenAt: Time, grant: Time, attempt: Time, reached: bool,
    // how the ack thread means to wait, when it started its pass or ended the last one, and when it last ended a pass
    // or began to wait
    needSleep: bool, sleep: Time, mark: Time, rested: Time,
    h: History,
    // the server: when each lease really ends
    server: map<AckId, Time>)

  /** The ids ever watched, their first completion, the calls made for completed ids, and the ids a throw dropped; also
      the ids drained before they were merged, and the ids dropped while still kept alive; when the ids were pulled, and
      the processing times that were recorded. */
  datatype History = History(watched: set<AckId>, first: map<AckId, Action>, log: seq<Batch>, dropped: set<AckId>,
                             early: set<AckId>, unerased: set<AckId>, pulled: map<AckId, Time>, samples: seq<nat>) {

    /** In whole seconds, from the pull on. */
    function Processed(id: AckId, now: Time): nat {
      if id in pulled && pulled[id] <= now then (now - pulled[id]) / 1000 else 0
    }
  }

  datatype Reply = Success | Retry

  datatype Step =
    | Add(id: AckId, pulledAt: Time, deadline: Time)
    | Complete(id: AckId, action: Action)
    | Tick(time: nat)
    | Wait
    | TimeOut
    | Merge
    | Skip
    | Drain(acks: seq<AckId>, nacks: seq<AckId>)
    | SendAckBatch(ok: bool)
    | EraseNacks
    | SendNackBatch(ok: bool, reaches: bool)
    | Choose(due: seq<AckId>, seconds: nat, shortest: Time)
    | Carve
    | Begin
    | Reach(from: Time)
    | End(reply: Reply)
    | Throw
    | Finish

  /** What an iterator does in its turn, but for the time that passes. */
  predicate InTurn(step: Step) {
    && !step.Add? && !step.Complete? && !step.Tick? && !step.Wait? && !step.TimeOut? && !step.Merge? && !step.Skip?
  }

  /** The turn ends with a result, and not with an exception. */
  predicate Concludes(step: Step) {
    step.Finish? || (step.Choose? && step.due == [])
  }

  ghost predicate Lists(ids: seq<AckId>, all: set<AckId>) {
    Distinct(ids) && Elements(ids) == all
  }

  predicate Idle(q: Queues) {
    q.input == map[] && q.keepAlive == map[]
  }

  ghost predicate Enabled(s: State, step: Step) {
    match step
    // every delivery has its own ack id, at least the least deadline, and takes at most a second to arrive
    case Add(id, pulledAt, deadline) =>
      id !in s.h.watched && pulledAt <= s.now && pulledAt - 1000 + MIN_ACK_DEADLINE <= deadline
    case Complete(id, _) => id in s.h.watched && id !in s.h.first
    case Tick(_) => true
    case Wait => s.phase == Top && (s.needSleep || Idle(s.q))
    case TimeOut => s.phase == Waiting && !s.needSleep
    case Merge => s.phase == Waiting || (s.phase == Top && !s.needSleep && !Idle(s.q))
    // with several iterators: one before this one threw, and the turn of this one does not come
    case Skip => s.phase == Merged
    case Drain(acks, nacks) => s.phase == Merged && Lists(acks, s.q.acks) && Lists(nacks, s.q.nacks)
    case SendAckBatch(_) => s.phase == SendingAcks && s.acks != []
    case EraseNacks => s.phase == SendingAcks && s.acks == []
    case SendNackBatch(ok, reaches) => s.phase == SendingNacks && s.nacks != [] && (ok ==> reaches)
    // what is granted is the percentile of the processing times so far
    case Choose(due, seconds, shortest) =>
      && s.phase == SendingNacks && s.nacks == []
      && 10 <= seconds <= 600 && Histogram.IsDeadline(s.h.samples, seconds)
      && Lists(due, Due(s.q.keepAlive, s.now)) && IsShortest(s.q.keepAlive, s.now, shortest)
    case Carve => s.phase == Extending && s.due != []
    case Begin => s.phase == Calling
    // the server counts from some moment of the attempt: when it was sent, when it arrived, or between
    case Reach(from) => s.phase == InFlight && s.attempt <= from <= s.now
    case End(reply) => s.phase == InFlight && (reply == Success ==> s.reached)
    case Throw => s.phase == Calling || s.phase == InFlight
    case Finish => s.phase == Extending && s.due == []
  }

  /** The pass is over, by its end or by a throw, and its locals are gone. */
  function EndPass(s: State): State {
    s.(phase := Top, acks := [], nacks := [], due := [], batch := [], needSleep := false, mark := s.now,
       rested := s.now)
  }

  function Lease(server: map<AckId, Time>, ids: set<AckId>, deadline: Time): map<AckId, Time> {
    map id | id in server :: if id in ids then deadline else server[id]
  }

  ghost function Apply(s: State, step: Step): State
    requires Enabled(s, step)
  {
    match step
    case Add(id, pulledAt, deadline) =>
      s.(q := s.q.Watch(id, pulledAt + MIN_ACK_DEADLINE - 1000),
         h := s.h.(watched := s.h.watched + {id}, pulled := s.h.pulled[id := pulledAt]),
         server := s.server[id := deadline])
    case Complete(id, action) =>
      s.(q := s.q.Complete(id, action),
         h := s.h.(first := s.h.first[id := action], samples := s.h.samples + [s.h.Processed(id, s.now)]))
    case Tick(time) => s.(now := s.now + time)
    case Wait => s.(phase := Waiting, rested := s.now)
    case TimeOut => s.(phase := Top)
    case Merge => s.(q := s.q.Merge(), phase := Merged, needSleep := false, mark := s.now)
    case Skip => EndPass(s)
    // keepAlive belongs to the ack thread alone, so nobody sees it between the drain and the erasing
    case Drain(acks, nacks) =>
      s.(q := s.q.Drain().Erase(s.q.acks), phase := SendingAcks, acks := acks, nacks := nacks,
         h := s.h.(early := s.h.early + (s.q.acks + s.q.nacks) * s.q.input.Keys))
    case SendAckBatch(ok) =>
      var k := Cut(s.acks, MAX_PAYLOAD);
      var log := s.h.log + [Batch(Ack, Elements(s.acks[..k]), ok)];
      if ok then s.(acks := s.acks[k..], h := s.h.(log := log))
      else EndPass(s).(h := s.h.(log := log, dropped := s.h.dropped + Elements(s.acks) + Elements(s.nacks),
                                 unerased := s.h.unerased + Elements(s.nacks)))
    case EraseNacks => s.(q := s.q.Erase(Elements(s.nacks)), phase := SendingNacks)
    case SendNackBatch(ok, reaches) =>
      var k := Cut(s.nacks, MAX_PAYLOAD);
      var log := s.h.log + [Batch(Nack, Elements(s.nacks[..k]), ok)];
      var s' := if reaches then s.(server := Lease(s.server, Elements(s.nacks[..k]), s.now)) else s;
      if ok then s'.(nacks := s.nacks[k..], h := s.h.(log := log))
      else EndPass(s').(h := s.h.(log := log, dropped := s.h.dropped + Elements(s.nacks)))
    case Choose(due, seconds, shortest) =>
      if due != [] then s.(phase := Extending, due := due, chosenAt := s.now, grant := 1000 * seconds)
      else EndPass(s).(needSleep := s.q.keepAlive != map[], sleep := shortest / 2)
    case Carve =>
      var k := Cut(s.due, MAX_PAYLOAD);
      s.(phase := Calling, batch := s.due[..k], due := s.due[k..])
    case Begin => s.(phase := InFlight, attempt := s.now, reached := false)
    case Reach(from) => s.(server := Lease(s.server, Elements(s.batch), from + s.grant), reached := true)
    case End(reply) =>
      if reply == Retry then s.(phase := Calling)
      else s.(phase := Extending, batch := [], q := s.q.Stamp(Elements(s.batch), s.attempt + s.grant))
    case Throw => EndPass(s)
    case Finish => EndPass(s)
  }

  function Start(now: Time): State {
    State(now, Queues(map[], map[], {}, {}), Top, [], [], [], [], now, MIN_ACK_DEADLINE, now, false, false, 0, now, now,
          History({}, map[], [], {}, {}, {}, map[], []), map[])
  }

  /** The steps lead from s to t. */
  ghost predicate Leads(s: State, steps: seq<Step>, t: State)
    decreases |steps|
  {
    if steps == [] then s == t
    else Enabled(s, steps[0]) && Leads(Apply(s, steps[0]), steps[1..], t)
  }

  ghost predicate Reachable(s: State) {
    exists now, steps :: Leads(Start(now), steps, s)
  }

  lemma {:induction false} LeadsOn(s: State, steps: seq<Step>, t: State, step: Step)
    requires Leads(s, steps, t) && Enabled(t, step)
    ensures Leads(s, steps + [step], Apply(t, step))
    decreases |steps|
  {
    hide Apply, Enabled;
    if steps == [] {
      assert [step][1..] == [];
      assert Leads(Apply(s, step), [], Apply(t, step));
    } else {
      assert (steps + [step])[1..] == steps[1..] + [step];
      LeadsOn(Apply(s, steps[0]), steps[1..], t, step);
    }
  }

  lemma NextReachable(s: State, step: Step)
    requires Reachable(s) && Enabled(s, step)
    ensures Reachable(Apply(s, step))
  {
    var now, steps :| Leads(Start(now), steps, s);
    LeadsOn(Start(now), steps, s, step);
  }

  lemma StartReachable(now: Time)
    ensures Reachable(Start(now))
  {
    assert Leads(Start(now), [], Start(now));
  }
}
