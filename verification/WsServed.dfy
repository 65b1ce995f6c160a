/**
 That the inbound queue gets on: what arrives is accepted while there is room, what was accepted is
 published, and what was published is handled, whatever else happens in between.
 */
module WsServed {
  import opened Basics
  import opened WsMachine
  import opened WsQueue
  import opened WsCopies

  // ---------------------------------------------------------------- the consumer, one item

  /** The item at the head of the ring is there to be handled. */
  predicate HeadReady(s: Sys) {
    Shaped(s.ring) && s.ring.count > 0 && s.ring.slots[s.ring.head].ready
  }

  /** The item next in turn. */
  function NextItem(s: Sys): Item
    requires s.log.popped < |s.log.accepted|
  {
    s.log.accepted[s.log.popped].item
  }

  /** Two steps of the consumer handle the next accepted item and change nothing else; but a data item
      for which there is no headroom stays, and everything is as it was. */
  lemma HandlesNext(s: Sys, first: bool, headroom: bool)
    requires AllOk(s) && s.consumer.Looking? && HeadReady(s)
    ensures s.log.popped < |s.log.accepted|
    ensures Run(s, [Consume(first), Consume(headroom)])
         == if NextItem(s).kind.Data? && !headroom then s
            else s.(consumer := Handled, log := s.log.(handled := s.log.handled + [NextItem(s)]))
  {
    hide AllOk;
    var s1 := Step1(s, Consume(first));
    assert s1 == s.(consumer := Has(s.ring.head));
    ReadsNext(s1);
    var s2 := Step1(s1, Consume(headroom));
    TwoSteps(s, Consume(first), Consume(headroom));
  }

  lemma Step1(s: Sys, a: Action) returns (s': Sys)
    requires AllOk(s)
    ensures Ok(s) && Able(s, a) && AllOk(s') && s' == Step(s, a)
  {
    hide Ok, OwnOk, FreedOk, Step;
    AllKeep(s, a);
    s' := Step(s, a);
  }

  lemma IsOk(s: Sys)
    requires AllOk(s)
    ensures Ok(s)
  {
  }

  lemma OneStep(s: Sys, a: Action)
    requires AllOk(s)
    ensures Able(s, a) && AllOk(Step(s, a)) && Run(s, [a]) == Step(s, a)
  {
    hide AllOk, Step, Able;
    AllKeep(s, a);
    assert [a][1..] == [];
  }

  lemma TwoSteps(s: Sys, a: Action, b: Action)
    requires AllOk(s)
    ensures Able(s, a) && AllOk(Step(s, a)) && Able(Step(s, a), b)
    ensures Run(s, [a, b]) == Step(Step(s, a), b)
  {
    hide AllOk, Step, Able;
    OneStep(s, a);
    OneStep(Step(s, a), b);
    assert [a, b][1..] == [b];
  }

  /** Two more take it from the ring and give its copy back. */
  lemma PopsNext(s: Sys, headroom: bool, last: bool)
    requires AllOk(s) && s.consumer.Handled?
    ensures s.log.popped < |s.log.accepted| && s.ring.count > 0
    ensures var s' := Run(s, [Consume(headroom), Consume(last)]);
            && s'.consumer.Looking? && s'.producers == s.producers && s'.heap == s.heap
            && s'.ring.count == s.ring.count - 1 && s'.ring.head == (s.ring.head + 1) % QUEUE_SIZE
            && s'.log == s.log.(popped := s.log.popped + 1,
                                freed := Freed(s.log.freed, s.log.accepted[s.log.popped].pay))
  {
    hide AllOk;
    assert Ok(s) by { IsOk(s); }
    PopsItsCopy(s);
    var s1 := Step1(s, Consume(headroom));
    var s2 := Step1(s1, Consume(last));
    TwoSteps(s, Consume(headroom), Consume(last));
  }

  // ---------------------------------------------------------------- what is published stays so

  /** The n-th accepted item was taken from the ring, or can be. */
  predicate Published(s: Sys, n: nat) {
    n < s.log.popped || (n < |s.log.accepted| && Shaped(s.ring) && s.ring.slots[Place(n)].ready)
  }

  lemma StaysPublished(s: Sys, a: Action, n: nat)
    requires Ok(s) && Able(s, a) && Published(s, n)
    ensures Published(Step(s, a), n)
  {
    hide CopyOk, ItemsOf, Place;
    if n >= s.log.popped {
      match a
      case Arrive(_, _, _) =>
      case Go(k) =>
        if k < |s.producers| {
          if s.producers[k].Holding? && s.ring.count < QUEUE_SIZE { PlacesApart(n, |s.log.accepted|); }
          if s.producers[k].Filling? { assert TicketOk(s.producers[k], s.ring, s.log.accepted, s.log.popped); }
        }
      case Consume(_) =>
        if s.consumer.Handled? && n > s.log.popped { PlacesApart(s.log.popped, n); }
    }
  }

  // ---------------------------------------------------------------- every published item is handled

  /** Steps the consumer has made, of the four that each item takes. */
  function Progress(s: Sys): int {
    4 * s.log.popped + match s.consumer
                       case Looking => 0
                       case Has(_) => 1
                       case Handled => 2
                       case Freeing(_) => -1
  }

  /** All the consumer's steps have headroom. */
  predicate WithHeadroom(actions: seq<Action>) {
    forall i :: 0 <= i < |actions| && actions[i].Consume? ==> actions[i].headroom
  }

  function Consumes(actions: seq<Action>): nat {
    if actions == [] then 0 else (if actions[0].Consume? then 1 else 0) + Consumes(actions[1..])
  }

  /** With headroom each step of the consumer gets on while something published is left; nobody else's
      step sets it back. */
  lemma StepProgress(s: Sys, a: Action, n: nat)
    requires Ok(s) && Able(s, a) && WithHeadroom([a]) && forall m :: 0 <= m < n ==> Published(s, m)
    ensures Progress(Step(s, a)) >= Progress(s)
    ensures a.Consume? && Progress(s) < 4 * n ==> Progress(Step(s, a)) >= Progress(s) + 1
  {
    hide CopyOk, ItemsOf, Place, SlotOk, TicketOk;
    assert [a][0] == a;
    if s.log.popped < n { assert Published(s, s.log.popped); }
  }

  lemma {:induction false} RunProgress(s: Sys, actions: seq<Action>, n: nat)
    requires AllOk(s) && WithHeadroom(actions) && forall m :: 0 <= m < n ==> Published(s, m)
    ensures Progress(Run(s, actions)) >= Progress(s) + Consumes(actions) || Progress(Run(s, actions)) >= 4 * n
    decreases |actions|
  {
    hide AllOk, Published, Progress, Step, Able;
    if actions != [] {
      var a := actions[0];
      var s1 := Step1(s, a);
      StepProgress(s, a, n);
      forall m | 0 <= m < n ensures Published(s1, m) { StaysPublished(s, a, m); }
      RunProgress(s1, actions[1..], n);
    }
  }

  lemma {:induction false} AcceptedGrows(s: Sys, actions: seq<Action>)
    requires AllOk(s)
    ensures s.log.accepted <= Run(s, actions).log.accepted
    decreases |actions|
  {
    hide AllOk;
    if actions != [] {
      var s1 := Step1(s, actions[0]);
      AcceptedGrows(s1, actions[1..]);
    }
  }

  /** The first n accepted items being published, they are all handled, in the order they were accepted,
      once the consumer has made four steps for each with headroom, whatever the producers do meanwhile;
      and taken from the ring. */
  lemma AllHandled(producers: nat, before: seq<Action>, actions: seq<Action>, n: nat)
    requires forall m :: 0 <= m < n ==> Published(Reached(producers, before), m)
    requires WithHeadroom(actions) && Progress(Reached(producers, before)) + Consumes(actions) >= 4 * n
    ensures var s, s' := Reached(producers, before), Run(Reached(producers, before), actions);
            && n <= s'.log.popped <= |s'.log.handled| && n <= |s.log.accepted|
            && forall m :: 0 <= m < n ==> s'.log.handled[m] == s.log.accepted[m].item
  {
    hide Reached, Run, SlotsOk, ProducersOk, OwnOk, FreedOk, CopiesOk, Published;
    var s := Reached(producers, before);
    var s' := Run(s, actions);
    RunProgress(s, actions, n);
    AcceptedGrows(s, actions);
    AcceptedSoFar(s, n);
  }

  lemma AcceptedSoFar(s: Sys, n: nat)
    requires Ok(s) && forall m :: 0 <= m < n ==> Published(s, m)
    ensures n <= |s.log.accepted|
  {
    if n > 0 { assert Published(s, n - 1); }
  }

  // ---------------------------------------------------------------- what arrives is published

  /** A message that is not too long, and for which there is memory, is taken by a producer that is idle;
      any other leaves everything as it is. */
  lemma TakesMessage(s: Sys, k: nat, item: Item, allocates: bool)
    requires k < |s.producers|
    ensures var s' := ArriveStep(s, k, item, allocates);
            if s.producers[k].Idle? && |item.bytes| <= 7168 && (item.bytes == [] || allocates) then
              && s'.producers[k].Holding? && s'.producers[k].item == item
              && CopyOk(item, s'.producers[k].pay, s'.heap) && s.heap <= s'.heap
              && s' == s.(producers := s.producers[k := s'.producers[k]], heap := s'.heap)
            else s' == s
  {
  }

  /** A message in hand is accepted if the ring has room, as the last; else its copy is given back. */
  lemma AcceptsOrDrops(s: Sys, k: nat)
    requires AllOk(s) && k < |s.producers| && s.producers[k].Holding?
    ensures var p := s.producers[k];
            var s' := Run(s, [Go(k)]);
            if s.ring.count < 6 then
              && s'.log.accepted == s.log.accepted + [Accepted(p.item, p.pay)] && |s'.producers| == |s.producers|
              && s'.producers[k].Filling? && s'.producers[k].ticket == |s.log.accepted| && s'.producers[k].step == 0
            else
              Run(s, [Go(k), Go(k)]) ==
                s.(producers := s.producers[k := Idle], log := s.log.(freed := Freed(s.log.freed, p.pay)))
  {
    hide AllOk;
    OneStep(s, Go(k));
    TwoSteps(s, Go(k), Go(k));
    assert s.producers[k := Dropping(s.producers[k].pay)][k := Idle] == s.producers[k := Idle];
  }

  function Goes(actions: seq<Action>, k: nat): nat {
    if actions == [] then 0 else (if actions[0] == Go(k) then 1 else 0) + Goes(actions[1..], k)
  }

  /** Turn t is published, or producer k is filling its slot and has this many stores behind it. */
  predicate OnItsWay(s: Sys, k: nat, t: nat, step: nat) {
    Published(s, t) || (k < |s.producers| && s.producers[k].Filling? && s.producers[k].ticket == t
                        && s.producers[k].step >= step)
  }

  lemma StepFills(s: Sys, a: Action, k: nat, t: nat, step: nat)
    requires Ok(s) && Able(s, a) && OnItsWay(s, k, t, step)
    ensures OnItsWay(Step(s, a), k, t, if a == Go(k) then step + 1 else step)
  {
    hide CopyOk, ItemsOf, Place, Published;
    if Published(s, t) {
      StaysPublished(s, a, t);
    } else if a == Go(k) && s.producers[k].step >= FILL_STEPS {
      PublishesOwn(s, k);
    }
  }

  lemma PublishesOwn(s: Sys, k: nat)
    requires Ok(s) && k < |s.producers| && s.producers[k].Filling? && s.producers[k].step >= FILL_STEPS
    requires Able(s, Go(k))
    ensures Published(Step(s, Go(k)), s.producers[k].ticket)
  {
    hide CopyOk, ItemsOf, Place;
    assert TicketOk(s.producers[k], s.ring, s.log.accepted, s.log.popped);
  }

  /** Whatever anybody else does, an accepted item is published once its producer has made its stores and
      the step that publishes. */
  lemma {:induction false} GetsPublished(s: Sys, actions: seq<Action>, k: nat, t: nat, step: nat)
    requires AllOk(s) && OnItsWay(s, k, t, step) && step + Goes(actions, k) > 5
    ensures Published(Run(s, actions), t)
    decreases |actions|
  {
    hide AllOk, Published, Step, Able;
    if Published(s, t) {
      RunStaysPublished(s, actions, t);
    } else if actions == [] {
      NotBeyond(s, k);
    } else {
      var s1 := Step1(s, actions[0]);
      StepFills(s, actions[0], k, t, step);
      GetsPublished(s1, actions[1..], k, t, if actions[0] == Go(k) then step + 1 else step);
    }
  }

  lemma NotBeyond(s: Sys, k: nat)
    requires AllOk(s) && k < |s.producers| && s.producers[k].Filling?
    ensures s.producers[k].step <= FILL_STEPS
  {
    hide CopyOk, ItemsOf, Place, OwnOk, FreedOk;
    assert TicketOk(s.producers[k], s.ring, s.log.accepted, s.log.popped);
  }

  lemma {:induction false} RunStaysPublished(s: Sys, actions: seq<Action>, t: nat)
    requires AllOk(s) && Published(s, t)
    ensures Published(Run(s, actions), t)
    decreases |actions|
  {
    hide AllOk, Published, Step, Able;
    if actions != [] {
      var s1 := Step1(s, actions[0]);
      StaysPublished(s, actions[0], t);
      RunStaysPublished(s1, actions[1..], t);
    }
  }
}
