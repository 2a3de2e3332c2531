/** What the client believes of a lease against what the server holds. */
module Leases {
  import opened Types
  import opened Batching
  import opened Queues
  import opened Protocol
  import opened Conservation
  import opened Histogram

  // ----- What the server does ------------------------------------------------------------------

  /** Whether a step ends or moves the lease of this id at the server: a request to give back ends the leases of its
      batch, one to extend moves those of its batch, if it takes effect. */
  predicate Touches(s: State, step: Step, id: AckId) {
    match step
    case Add(added, _, _) => id == added
    case SendNackBatch(_, reaches) => reaches && id in s.nacks[..Cut(s.nacks, MAX_PAYLOAD)]
    case Reach(_) => id in s.batch
    case _ => false
  }

  /** A lease begins when its message is pulled, ends at once when it is given back, and otherwise runs for what was
      asked for; no other lease is touched, and none is forgotten. */
  lemma ServerStep(s: State, step: Step, id: AckId)
    requires Enabled(s, step)
    ensures var t := Apply(s, step);
            && (id in t.server <==> id in s.server || (step.Add? && Touches(s, step, id)))
            && (id in t.server ==>
                  t.server[id] == if !Touches(s, step, id) then s.server[id]
                                  else if step.Add? then step.deadline
                                  else if step.Reach? then step.from + s.grant
                                  else s.now)
  {
  }

  // ----- What the client chooses ---------------------------------------------------------------

  /** The leases chosen and not yet extended: distinct, still kept alive, and inside the grace period when chosen. */
  ghost predicate Chosen(s: State) {
    && (s.phase != Extending && s.phase != Calling && s.phase != InFlight ==> s.due == [] && s.batch == [])
    && (s.phase == Extending ==> s.batch == [])
    && Distinct(s.batch) && Distinct(s.due) && (forall id :: id in s.batch ==> id !in s.due)
    && (forall id :: id in s.batch || id in s.due ==> id in s.q.keepAlive && s.q.keepAlive[id] <= s.chosenAt + GRACE)
    && s.chosenAt <= s.now && MIN_ACK_DEADLINE <= s.grant
    && (s.phase == InFlight ==> s.chosenAt <= s.attempt <= s.now)
  }

  ghost predicate Live(s: State, id: AckId) {
    id in s.h.watched && id !in s.h.first
  }

  /** No uncompleted lease ends at the server before the client means to extend it, even while a call is in flight. */
  ghost predicate Believes(s: State) {
    && s.h.watched <= s.server.Keys
    && (forall id :: Live(s, id) && id in s.q.input ==> s.q.input[id] <= s.server[id])
    && (forall id :: Live(s, id) && id in s.q.keepAlive ==> s.q.keepAlive[id] <= s.server[id])
    && (s.phase == InFlight && s.reached ==>
          forall id :: Live(s, id) && id in s.batch ==> s.attempt + s.grant <= s.server[id])
  }

  ghost predicate Sound(s: State) {
    Conserved(s) && Chosen(s) && Believes(s)
  }

  /** The steps of the ack thread once it has sent the completed ids. */
  predicate Extends(step: Step) {
    step.Choose? || step.Carve? || step.Begin? || step.Reach? || step.End? || step.Throw? || step.Finish?
  }

  lemma ChosenOnCarve(s: State)
    requires Chosen(s) && Enabled(s, Carve)
    ensures Chosen(Apply(s, Carve))
  {
    Halves(s.due, Cut(s.due, MAX_PAYLOAD));
  }

  lemma ChosenOnChoose(s: State, step: Step)
    requires Chosen(s) && Enabled(s, step) && step.Choose?
    ensures Chosen(Apply(s, step))
  {
    assert forall id :: id in step.due ==> id in Elements(step.due);
  }

  lemma ChosenWhileExtending(s: State, step: Step)
    requires Chosen(s) && Enabled(s, step) && Extends(step)
    ensures Chosen(Apply(s, step))
  {
    match step {
      case Carve => ChosenOnCarve(s);
      case Choose(_, _, _) => ChosenOnChoose(s, step);
      case _ =>
    }
  }

  lemma ChosenStep(s: State, step: Step)
    requires Conserved(s) && Chosen(s) && Enabled(s, step)
    ensures Chosen(Apply(s, step))
  {
    hide Places, SentIn, AllPlaced, InOneCall;
    if Extends(step) {
      ChosenWhileExtending(s, step);
    } else if !step.Add? && !step.Complete? && !step.Tick? {
      assert s.due == [] && s.batch == [];
    }
  }

  /** Ids being given back are completed, so the end of their leases concerns no live one. */
  lemma BelievesOnGiveBack(s: State, step: Step)
    requires Sound(s) && Enabled(s, step) && step.SendNackBatch?
    ensures Believes(Apply(s, step))
  {
    forall id | id in s.nacks
      ensures !Live(s, id)
    {
      assert Placed(s, id);
    }
    hide Places, SentIn, AllPlaced, InOneCall;
    Halves(s.nacks, Cut(s.nacks, MAX_PAYLOAD));
  }

  lemma BelievesDuringCall(s: State, step: Step)
    requires Sound(s) && Enabled(s, step) && (step.Reach? || step.End?)
    ensures Believes(Apply(s, step))
  {
    hide AllPlaced, InOneCall, Locals;
  }

  lemma BelievesWhileExtending(s: State, step: Step)
    requires Sound(s) && Enabled(s, step) && Extends(step)
    ensures Believes(Apply(s, step))
  {
    hide Conserved, Chosen;
    if step.Reach? || step.End? {
      BelievesDuringCall(s, step);
    } else {
      assert Apply(s, step).q == s.q && Apply(s, step).server == s.server && Apply(s, step).h == s.h;
    }
  }

  lemma BelievesByUser(s: State, step: Step)
    requires Watching(s) && Chosen(s) && Believes(s) && Enabled(s, step) && (step.Add? || step.Complete?)
    ensures Believes(Apply(s, step))
  {
  }

  /** Leases merge, or completed ones go; none begins or moves. */
  lemma BelievesOnMoving(s: State, step: Step)
    requires Watching(s) && Believes(s) && Enabled(s, step) && (step.Merge? || step.Drain? || step.EraseNacks?)
    ensures Believes(Apply(s, step))
  {
  }

  lemma BelievesAlike(s: State, step: Step)
    requires Believes(s) && Enabled(s, step)
    requires step.Tick? || step.Wait? || step.TimeOut? || step.Skip? || step.SendAckBatch?
    ensures Believes(Apply(s, step))
  {
  }

  lemma BelievesStep(s: State, step: Step)
    requires Sound(s) && Enabled(s, step)
    ensures Believes(Apply(s, step))
  {
    hide Places, SentIn, AllPlaced, InOneCall, Chosen, Believes, Watching, Apply;
    match step {
      case SendNackBatch(_, _) => BelievesOnGiveBack(s, step);
      case Add(_, _, _) => BelievesByUser(s, step);
      case Complete(_, _) => BelievesByUser(s, step);
      case Merge => BelievesOnMoving(s, step);
      case Drain(_, _) => BelievesOnMoving(s, step);
      case EraseNacks => BelievesOnMoving(s, step);
      case _ =>
        if Extends(step) {
          BelievesWhileExtending(s, step);
        } else {
          BelievesAlike(s, step);
        }
    }
  }

  lemma {:induction false} RunSound(s: State, steps: seq<Step>, t: State)
    requires Sound(s) && Leads(s, steps, t)
    ensures Sound(t)
    decreases |steps|
  {
    hide Conserved, Chosen, Believes, Apply, Enabled;
    if steps != [] {
      ConservedStep(s, steps[0]);
      ChosenStep(s, steps[0]);
      BelievesStep(s, steps[0]);
      RunSound(Apply(s, steps[0]), steps[1..], t);
    }
  }

  lemma ReachableSound(s: State)
    requires Reachable(s)
    ensures Sound(s)
  {
    var now, steps :| Leads(Start(now), steps, s);
    StartConserves(now);
    RunSound(Start(now), steps, s);
  }

  /** When the client means to extend a lease it holds. */
  function NextAck(q: Queues, id: AckId): Time
    requires id in q.Held()
  {
    if id in q.keepAlive then q.keepAlive[id] else q.input[id]
  }

  /** In every reachable state, after whatever retries, lost replies and throws, the client holds every uncompleted
      lease and never believes in a later end of it than the server. */
  lemma NeverBelievesLater(s: State, id: AckId)
    requires Reachable(s) && Live(s, id)
    ensures id in s.q.Held() && id in s.server && NextAck(s.q, id) <= s.server[id]
  {
    ReachableSound(s);
  }

  // ----- What is granted -----------------------------------------------------------------------

  /** While leases are being extended, the deadline granted is the percentile of the processing times that were recorded
      up to some moment of the run. */
  ghost predicate Earned(s: State) {
    s.phase == Extending || s.phase == Calling || s.phase == InFlight ==>
      exists k, seconds: nat ::
        0 <= k <= |s.h.samples| && s.grant == 1000 * seconds && IsDeadline(s.h.samples[..k], seconds)
  }

  lemma EarnedAlike(s: State, t: State)
    requires Earned(s) && s.h.samples <= t.h.samples && t.grant == s.grant
    requires t.phase == Extending || t.phase == Calling || t.phase == InFlight ==>
               s.phase == Extending || s.phase == Calling || s.phase == InFlight
    ensures Earned(t)
  {
    hide IsDeadline;
    if t.phase == Extending || t.phase == Calling || t.phase == InFlight {
      var k, seconds: nat :|
        0 <= k <= |s.h.samples| && s.grant == 1000 * seconds && IsDeadline(s.h.samples[..k], seconds);
      assert s.h.samples[..k] == t.h.samples[..k];
    }
  }

  lemma EarnedStep(s: State, step: Step)
    requires Earned(s) && Enabled(s, step)
    ensures Earned(Apply(s, step))
  {
    if step.Choose? {
      assert s.h.samples[..|s.h.samples|] == s.h.samples;
      hide IsDeadline;
    } else {
      GrantStays(s, step);
      hide Apply, Enabled, Earned;
      EarnedAlike(s, Apply(s, step));
    }
  }

  lemma GrantStays(s: State, step: Step)
    requires Enabled(s, step) && !step.Choose?
    ensures var t := Apply(s, step);
            && s.h.samples <= t.h.samples && t.grant == s.grant
            && (t.phase == Extending || t.phase == Calling || t.phase == InFlight ==>
                  s.phase == Extending || s.phase == Calling || s.phase == InFlight)
  {
  }

  lemma {:induction false} RunEarns(s: State, steps: seq<Step>, t: State)
    requires Earned(s) && Leads(s, steps, t)
    ensures Earned(t)
    decreases |steps|
  {
    hide Earned, Apply, Enabled;
    if steps != [] {
      EarnedStep(s, steps[0]);
      RunEarns(Apply(s, steps[0]), steps[1..], t);
    }
  }

  /** No lease is ever extended by more than it has taken the user at most to process a message, and by ten seconds if
      no message has taken longer. */
  lemma NoGrantBeyondExperience(s: State, longest: nat)
    requires Reachable(s) && (s.phase == Extending || s.phase == Calling || s.phase == InFlight)
    requires 10 <= longest && forall i :: 0 <= i < |s.h.samples| ==> s.h.samples[i] <= longest
    ensures MIN_ACK_DEADLINE <= s.grant <= 1000 * longest
  {
    var now, steps :| Leads(Start(now), steps, s);
    RunEarns(Start(now), steps, s);
    var k, seconds: nat :|
        0 <= k <= |s.h.samples| && s.grant == 1000 * seconds && IsDeadline(s.h.samples[..k], seconds);
    if seconds > longest {
      AllAtMost(s.h.samples[..k], seconds - 1);
    }
  }

  lemma {:induction false} AllAtMost(samples: seq<nat>, x: nat)
    requires forall i :: 0 <= i < |samples| ==> samples[i] <= x
    ensures CountLe(samples, x) == |samples|
  {
    if samples != [] {
      AllAtMost(samples[..|samples| - 1], x);
    }
  }
}
