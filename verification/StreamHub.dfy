/**
 The event hub of the web application (cope/web/app.py): numbered events per topic, bounded queues
 per subscriber, and the end marker a slow subscriber gets instead of events with gaps.
 */
module StreamHub {
  import opened Common

  type Topic = string

  datatype Event = Event(topic: Topic, seqNumber: nat, kind: string)

  /** An entry of a queue; None is the end marker. */
  type Entry = Option<Event>

  /** asyncio.Queue: a size of zero or less is no bound. */
  predicate Full(queue: seq<Entry>, maxQueue: int)
  {
    maxQueue > 0 && |queue| >= maxQueue
  }

  /** A queue with both its ends: what was offered to it and what its reader took out, up to the marker. */
  datatype Feed = Feed(maxQueue: int, queue: seq<Entry>, closed: bool, offered: seq<Event>, taken: seq<Event>, ended: bool)

  function NewFeed(maxQueue: int): Feed { Feed(maxQueue, [], false, [], [], false) }

  // ---------------------------------------------------------------- the two kinds of queue

  /** StreamSubscription.enqueue: an overflow closes the subscription for good. */
  function AfterEnqueue(f: Feed, event: Event): Feed
  {
    var offered := f.(offered := f.offered + [event]);
    if f.closed then offered
    else if Full(f.queue, f.maxQueue) then offered.(closed := true, queue := [None])
    else offered.(queue := f.queue + [Some(event)])
  }

  /** _enqueue_internal_event: nothing remembers an overflow, so later events line up behind the marker. */
  function AfterEnqueueInternal(f: Feed, event: Event): Feed
  {
    var offered := f.(offered := f.offered + [event]);
    if Full(f.queue, f.maxQueue) then offered.(queue := [None]) else offered.(queue := f.queue + [Some(event)])
  }

  /** The reader takes the next entry; at the marker it stops reading. */
  function Take(f: Feed): Feed
  {
    if f.ended || f.queue == [] then f
    else if f.queue[0].None? then f.(queue := f.queue[1..], ended := true)
    else f.(queue := f.queue[1..], taken := f.taken + [f.queue[0].value])
  }

  datatype Action = Offer(event: Event) | Read

  function Act(f: Feed, action: Action, internal: bool): Feed
  {
    match action
    case Offer(event) => if internal then AfterEnqueueInternal(f, event) else AfterEnqueue(f, event)
    case Read => Take(f)
  }

  function Run(f: Feed, actions: seq<Action>, internal: bool): Feed
  {
    if actions == [] then f else Act(Run(f, actions[..|actions| - 1], internal), actions[|actions| - 1], internal)
  }

  // ---------------------------------------------------------------- what a reader gets

  function EventsOf(queue: seq<Entry>): (events: seq<Event>)
    requires forall i :: 0 <= i < |queue| ==> queue[i].Some?
    ensures |events| == |queue|
  {
    seq(|queue|, i requires 0 <= i < |queue| => queue[i].value)
  }

  /** Everything offered so far was taken or is in the queue. */
  ghost predicate Complete(f: Feed)
  {
    && (forall i :: 0 <= i < |f.queue| ==> f.queue[i].Some?)
    && f.taken + EventsOf(f.queue) == f.offered
  }

  /** Something was dropped: then the next entry is the marker, or the reader has already stopped. */
  ghost predicate CutOff(f: Feed)
  {
    f.ended || (f.queue != [] && f.queue[0] == None)
  }

  ghost predicate FeedOk(f: Feed, internal: bool)
  {
    && f.taken <= f.offered
    && (!internal && f.closed ==> CutOff(f))
    && (f.ended || Complete(f) || CutOff(f))
    && (!internal && f.ended ==> f.closed)
    && (f.maxQueue > 0 ==> |f.queue| <= f.maxQueue)
    && (!internal && !f.closed ==> Complete(f) && !f.ended)
  }

  lemma {:induction false} OfferKeepsOk(f: Feed, event: Event, internal: bool)
    requires FeedOk(f, internal)
    ensures FeedOk(Act(f, Offer(event), internal), internal)
  {
    var after := Act(f, Offer(event), internal);
    assert f.taken <= f.offered + [event];
    if Complete(f) && after.queue == f.queue + [Some(event)] {
      assert EventsOf(after.queue) == EventsOf(f.queue) + [event];
      assert after.taken + EventsOf(after.queue) == after.offered;
      assert Complete(after);
    }
  }

  lemma {:induction false} ReadKeepsOk(f: Feed, internal: bool)
    requires FeedOk(f, internal)
    ensures FeedOk(Take(f), internal)
  {
    var after := Take(f);
    if !f.ended && f.queue != [] && f.queue[0].Some? {
      assert Complete(f);
      assert EventsOf(f.queue) == [f.queue[0].value] + EventsOf(after.queue);
      assert after.taken + EventsOf(after.queue) == f.taken + EventsOf(f.queue);
      assert Complete(after);
    }
  }

  lemma {:induction false} RunKeepsOk(maxQueue: int, actions: seq<Action>, internal: bool)
    ensures FeedOk(Run(NewFeed(maxQueue), actions, internal), internal)
  {
    hide FeedOk, Act;
    if actions == [] {
      NewIsOk(maxQueue, internal);
    } else {
      var k := |actions| - 1;
      RunKeepsOk(maxQueue, actions[..k], internal);
      var before := Run(NewFeed(maxQueue), actions[..k], internal);
      if actions[k].Offer? {
        OfferKeepsOk(before, actions[k].event, internal);
      } else {
        ReadKeepsOk(before, internal);
        ReadIsTake(before, internal);
      }
    }
  }

  lemma {:induction false} ReadIsTake(f: Feed, internal: bool)
    ensures Act(f, Read, internal) == Take(f)
  {
  }

  lemma {:induction false} NewIsOk(maxQueue: int, internal: bool)
    ensures FeedOk(NewFeed(maxQueue), internal)
  {
  }

  /**
   Whatever the interleaving of offers and reads, a reader sees a gap-free prefix of what was
   offered. While nothing was dropped it can still get everything; once something was dropped, the
   very next thing it sees is the end marker.
   */
  lemma {:induction false} ReadersSeeAPrefix(maxQueue: int, actions: seq<Action>, internal: bool)
    ensures var f := Run(NewFeed(maxQueue), actions, internal);
            && f.taken <= f.offered
            && (maxQueue > 0 ==> |f.queue| <= maxQueue)
            && (!f.ended && !Complete(f) ==> Take(f).ended && Take(f).taken == f.taken)
  {
    hide Run, Complete;
    RunKeepsOk(maxQueue, actions, internal);
    MaxStays(maxQueue, actions, internal);
  }

  lemma {:induction false} MaxStays(maxQueue: int, actions: seq<Action>, internal: bool)
    ensures Run(NewFeed(maxQueue), actions, internal).maxQueue == maxQueue
  {
    if actions != [] {
      MaxStays(maxQueue, actions[..|actions| - 1], internal);
    }
  }

  /** A reader that keeps reading a feed without losses ends up with everything that was offered. */
  function ReadAll(f: Feed): (after: Feed)
    decreases |f.queue|
  {
    if f.ended || f.queue == [] then f else ReadAll(Take(f))
  }

  lemma {:induction false} NothingIsLostWithoutOverflow(f: Feed, internal: bool)
    requires FeedOk(f, internal) && !f.ended && Complete(f)
    ensures ReadAll(f).taken == f.offered && !ReadAll(f).ended
    decreases |f.queue|
  {
    if f.queue != [] {
      ReadKeepsOk(f, internal);
      var after := Take(f);
      assert EventsOf(f.queue) == [f.queue[0].value] + EventsOf(after.queue);
      assert after.taken + EventsOf(after.queue) == f.taken + EventsOf(f.queue);
      NothingIsLostWithoutOverflow(after, internal);
    } else {
      assert f.taken + EventsOf(f.queue) == f.taken;
    }
  }

  /** A closed subscription only has the marker left, and stays that way. */
  lemma {:induction false} ClosedStaysClosed(f: Feed, event: Event)
    requires FeedOk(f, false) && f.closed
    ensures AfterEnqueue(f, event).queue == f.queue && AfterEnqueue(f, event).closed
    ensures Take(f).ended && Take(f).taken == f.taken
  {
  }

  /**
   An event is lost to a queue exactly when the queue has a bound and holds that many entries, or is
   closed already; then the marker replaces everything. Any other event goes to the end.
   */
  lemma {:induction false} OverflowIsExact(f: Feed, event: Event, internal: bool)
    requires FeedOk(f, internal)
    ensures var a := Act(f, Offer(event), internal);
            && a.offered == f.offered + [event] && a.taken == f.taken && a.ended == f.ended && a.maxQueue == f.maxQueue
            && if !internal && f.closed then a.queue == f.queue && a.closed
               else if f.maxQueue > 0 && |f.queue| == f.maxQueue then a.queue == [None] && (!internal ==> a.closed)
               else a.queue == f.queue + [Some(event)] && a.closed == f.closed
  {
    hide Complete, CutOff;
  }

  /** A read takes the first entry, if there is one and the reader has not stopped: an event, or the marker that stops it. */
  lemma {:induction false} ReadIsExact(f: Feed)
    ensures var a := Take(f);
            && a.offered == f.offered && a.closed == f.closed && a.maxQueue == f.maxQueue
            && if f.ended || |f.queue| == 0 then a == f
               else
                 && f.queue == [f.queue[0]] + a.queue
                 && (f.queue[0] == None ==> a.ended && a.taken == f.taken)
                 && (f.queue[0] != None ==> !a.ended && a.taken == f.taken + [f.queue[0].value])
  {
  }

  // ---------------------------------------------------------------- numbering

  /** How many events of a topic are in a log. */
  function CountTopic(log: seq<Event>, topic: Topic): nat
  {
    if log == [] then 0 else CountTopic(log[..|log| - 1], topic) + if log[|log| - 1].topic == topic then 1 else 0
  }

  lemma {:induction false} CountAppend(log: seq<Event>, event: Event, topic: Topic)
    ensures CountTopic(log + [event], topic) == CountTopic(log, topic) + if event.topic == topic then 1 else 0
  {
    assert (log + [event])[..|log|] == log;
  }

  /** The k-th event of every topic carries number k. */
  ghost predicate Consecutive(log: seq<Event>)
  {
    forall i {:trigger log[..i]} :: 0 <= i < |log| ==> log[i].seqNumber == CountTopic(log[..i], log[i].topic) + 1
  }

  lemma {:induction false} ConsecutiveAppend(log: seq<Event>, event: Event)
    requires Consecutive(log) && event.seqNumber == CountTopic(log, event.topic) + 1
    ensures Consecutive(log + [event])
  {
    var after := log + [event];
    forall i {:trigger after[..i]} | 0 <= i < |after| ensures after[i].seqNumber == CountTopic(after[..i], after[i].topic) + 1 {
      if i < |log| {
        assert after[..i] == log[..i];
      } else {
        assert after[..i] == log;
      }
    }
  }

  ghost function SameTopicBelow(log: seq<Event>, topic: Topic, n: nat): set<nat>
    requires n <= |log|
  {
    set j | 0 <= j < n && log[j].topic == topic
  }

  lemma {:induction false} CountIsCardinality(log: seq<Event>, topic: Topic, n: nat)
    requires n <= |log|
    ensures CountTopic(log[..n], topic) == |SameTopicBelow(log, topic, n)|
  {
    if n == 0 {
      assert SameTopicBelow(log, topic, n) == {};
    } else {
      CountIsCardinality(log, topic, n - 1);
      assert log[..n][..n - 1] == log[..n - 1];
      assert SameTopicBelow(log, topic, n)
          == SameTopicBelow(log, topic, n - 1) + if log[n - 1].topic == topic then {n - 1} else {};
    }
  }

  /** The first event of a topic has number 1, and every other one more than the events of its topic before it. */
  lemma {:induction false} NumbersCountEvents(log: seq<Event>, i: nat)
    requires Consecutive(log) && i < |log|
    ensures log[i].seqNumber == |SameTopicBelow(log, log[i].topic, i)| + 1
  {
    CountIsCardinality(log, log[i].topic, i);
    assert log[..i] == log[..i];
  }

  lemma {:induction false} CountSame(log: seq<Event>, i: nat, j: nat, topic: Topic)
    requires i <= j <= |log| && forall k :: i <= k < j ==> log[k].topic != topic
    ensures CountTopic(log[..j], topic) == CountTopic(log[..i], topic)
    decreases j
  {
    if i < j {
      assert log[..j][..j - 1] == log[..j - 1];
      CountSame(log, i, j - 1, topic);
    }
  }

  /** Neighbours of a topic differ by exactly one, so a reader can tell from the numbers whether it missed any. */
  lemma {:induction false} NumbersRiseByOne(log: seq<Event>, i: nat, j: nat)
    requires Consecutive(log) && i < j < |log| && log[i].topic == log[j].topic
    requires forall k :: i < k < j ==> log[k].topic != log[i].topic
    ensures log[j].seqNumber == log[i].seqNumber + 1
  {
    assert log[i].seqNumber == CountTopic(log[..i], log[i].topic) + 1;
    assert log[j].seqNumber == CountTopic(log[..j], log[j].topic) + 1;
    assert log[..i + 1][..i] == log[..i];
    CountSame(log, i + 1, j, log[i].topic);
  }

  // ---------------------------------------------------------------- the objects

  class StreamSubscription {
    const maxQueue: int
    const topics: seq<Topic>
    var queue: seq<Entry>
    var closed: bool
    ghost var offered: seq<Event>
    ghost var taken: seq<Event>
    ghost var ended: bool

    ghost function View(): Feed
      reads this
    {
      Feed(maxQueue, queue, closed, offered, taken, ended)
    }

    ghost predicate Valid()
      reads this
    {
      FeedOk(View(), false)
    }

    constructor (topics: seq<Topic>, maxQueue: int)
      ensures Valid() && View() == NewFeed(maxQueue) && this.topics == topics
    {
      this.topics := topics;
      this.maxQueue := maxQueue;
      queue, closed := [], false;
      offered, taken, ended := [], [], false;
    }

    /** enqueue: on overflow the queue is emptied entry by entry and the marker put in. */
    method Enqueue(event: Event)
      requires Valid()
      modifies this
      ensures Valid() && View() == AfterEnqueue(old(View()), event)
    {
      OfferKeepsOk(View(), event, false);
      hide FeedOk;
      offered := offered + [event];
      if closed {
        return;
      }
      if Full(queue, maxQueue) {
        closed := true;
        while queue != []
          invariant closed && offered == old(offered) + [event] && taken == old(taken) && ended == old(ended)
          decreases |queue|
        {
          queue := queue[1..];
        }
        queue := queue + [None];
        return;
      }
      queue := queue + [Some(event)];
    }

    /** One read of the streaming response; None ends it. */
    method Get() returns (entry: Entry)
      requires Valid() && queue != [] && !ended
      modifies this
      ensures Valid() && View() == Take(old(View())) && entry == old(queue)[0]
      ensures entry.None? <==> ended
    {
      ReadKeepsOk(View(), false);
      hide FeedOk;
      entry := queue[0];
      queue := queue[1..];
      if entry.None? {
        ended := true;
      } else {
        taken := taken + [entry.value];
      }
    }
  }

  /** _enqueue_internal_event */
  method EnqueueInternalEvent(queue: seq<Entry>, maxQueue: int, event: Event) returns (after: seq<Entry>)
    ensures after == AfterEnqueueInternal(NewFeed(maxQueue).(queue := queue), event).queue
  {
    after := queue;
    if Full(queue, maxQueue) {
      while after != []
        decreases |after|
      {
        after := after[1..];
      }
      after := after + [None];
      return;
    }
    after := after + [Some(event)];
  }

  class Hub {
    var seqByTopic: map<Topic, nat>
    /** Everything published so far. */
    ghost var log: seq<Event>

    ghost predicate Valid()
      reads this
    {
      && Consecutive(log)
      && forall topic :: (if topic in seqByTopic then seqByTopic[topic] else 0) == CountTopic(log, topic)
    }

    constructor ()
      ensures Valid() && log == []
    {
      seqByTopic, log := map[], [];
    }

    /** publish, up to the numbering: every event of a topic gets the next number of that topic. */
    method Publish(topic: Topic, kind: string) returns (event: Event)
      requires Valid()
      modifies this
      ensures Valid() && log == old(log) + [event]
      ensures event == Event(topic, CountTopic(old(log), topic) + 1, kind)
    {
      hide CountTopic, Consecutive;
      var number := (if topic in seqByTopic then seqByTopic[topic] else 0) + 1;
      seqByTopic := seqByTopic[topic := number];
      event := Event(topic, number, kind);
      ConsecutiveAppend(log, event);
      forall other: Topic ensures CountTopic(log + [event], other) == CountTopic(log, other) + if other == topic then 1 else 0 {
        CountAppend(log, event, other);
      }
      log := log + [event];
    }
  }
}
