/** A run in which a thread gets a message queue and a message enters it. */
module QueueRun {
  import opened Names
  import opened CircularIndex
  import opened KernelState
  import opened Scheduler
  import opened Messages
  import opened Machine
  import opened Separation
  import opened Requests
  import opened Buffers
  import opened Conservation
  import opened Flags
  import opened Priority
  import opened Exclusion
  import opened Theorems
  import opened MessageAnswers

  lemma FirstStep(s0: K, main: Pid, idle: Pid, lowest: nat, mainPrio: nat, slots: seq<Msg>)
    requires Booted(s0, main, idle, lowest, mainPrio) && IsSize(|slots|) && |slots| < U32
    ensures Enabled(s0, DoInitQueue(slots))
  {
    BootKeepsLists(s0.m, main, idle, lowest, mainPrio);
    hide RunQueuesOk, WaitListsOk, PlacesOk, IsSize;
  }

  lemma SecondStep(s0: K, s1: K, main: Pid, idle: Pid, lowest: nat, mainPrio: nat, slots: seq<Msg>)
    requires Booted(s0, main, idle, lowest, mainPrio) && IsSize(|slots|) && |slots| < U32 && Shape(s1.m)
    requires Enabled(s0, DoInitQueue(slots)) && s1 == Apply(s0, DoInitQueue(slots))
    ensures Enabled(s1, DoSend(main, 0, 0, false)) && s1.m.active == main && main in s1.m.prio
  {
    hide Shape, IsSize;
  }

  /** The main thread gives itself a queue and sends itself a message: it is
      queued and the send returns 1. */
  lemma MessageIsQueued(s0: K, main: Pid, idle: Pid, lowest: nat, mainPrio: nat, slots: seq<Msg>)
      returns (tr: seq<K>, steps: seq<Step>)
    requires Booted(s0, main, idle, lowest, mainPrio) && IsSize(|slots|) && 0 < |slots| < U32
    ensures Run(tr, steps) && tr[0] == s0 && steps == [DoInitQueue(slots), DoSend(main, 0, 0, false)]
    ensures var msg := Msg(main, 0, 0, tr[1].nextId);
            && Shape(tr[1].m) && Send(tr[1].m, main, msg, false).1 == Done(1)
            && main in tr[2].m.queue && tr[2].m.queue[main].slots != [] && Items(tr[2].m.queue[main]) == [msg]
  {
    var first, second := DoInitQueue(slots), DoSend(main, 0, 0, false);
    FirstStep(s0, main, idle, lowest, mainPrio, slots);
    var s1 := Apply(s0, first);
    assert Boot(s0);
    RunOfOne(s0, first);
    ShapeAfter([s0, s1], [first]);
    SecondStep(s0, s1, main, idle, lowest, mainPrio, slots);
    hide Booted, Boot, Enabled, Apply, IsSize, Shape;
    var s2 := Apply(s1, second);
    tr, steps := [s0, s1, s2], [first, second];
    RunOfTwo(s0, first, s1, second);
    InitQueueAnswers(tr, steps, 0);
    SendAnswers(tr, steps, 1);
    QueuedIs(s1, s2, main);
  }

  lemma RunOfOne(s0: K, first: Step)
    requires Boot(s0) && Enabled(s0, first)
    ensures Run([s0, Apply(s0, first)], [first])
  {
    hide Boot, Enabled, Apply;
  }

  lemma RunOfTwo(s0: K, first: Step, s1: K, second: Step)
    requires Boot(s0) && Enabled(s0, first) && s1 == Apply(s0, first) && Enabled(s1, second)
    ensures Run([s0, s1, Apply(s1, second)], [first, second])
  {
    hide Boot, Enabled, Apply;
  }

  lemma ShapeAfter(tr: seq<K>, steps: seq<Step>)
    requires Run(tr, steps) && |tr| == 2
    ensures Shape(tr[1].m)
  {
    hide Run, RequestsOk, BuffersOk, MessagesOk, NumbersOk, FlagStateOk, PriorityOk, EncodingOk;
    RunIsSafe(tr, steps, 1);
    CoreShape(tr[1].m, tr[1].c);
  }

  lemma QueuedIs(s1: K, s2: K, main: Pid)
    requires Defined(s1.m, s1.c) && s1.m.active == main && main in s1.m.queue && main in s1.m.prio
    requires s1.m.queue[main].slots != [] && Items(s1.m.queue[main]) == []
    requires var msg := Msg(main, 0, 0, s1.nextId); SendDid(s1, Send(s1.m, main, msg, false).1, s2, main, msg, false)
    ensures var msg := Msg(main, 0, 0, s1.nextId);
            && Send(s1.m, main, msg, false).1 == Done(1)
            && main in s2.m.queue && s2.m.queue[main].slots != [] && Items(s2.m.queue[main]) == [msg]
  {
    hide Shape, Send, Items, HandedTo, ParkedAt;
  }
}
