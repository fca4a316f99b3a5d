/** What the calls of mailboxes answer and do in every run. */
module MailboxAnswers {
  import opened Names
  import opened Sequences
  import opened CircularIndex
  import opened KernelState
  import opened Scheduler
  import opened Mutexes
  import opened Mailboxes
  import opened Machine
  import opened Separation
  import opened Requests
  import opened Buffers
  import opened Conservation
  import opened Flags
  import opened Priority
  import opened Exclusion
  import opened Theorems
  import opened Answers

  // Rings

  /** All slots are in use, as cib_full finds it: the difference of the counters,
      taken as a signed number, is not below the size. */
  predicate AllUsed(f: Mailbox) {
    |f.slots| <= Avail(f.cib) < 0x8000_0000
  }

  lemma FullIs(f: Mailbox)
    ensures Full(f.cib) <==> AllUsed(f)
  {
    var _ := SizeBound(|f.slots|);
  }

  /** The ring with one message more, which is the newest. */
  ghost predicate Grew(f: Mailbox, g: Mailbox, msg: Msg) {
    && |g.slots| == |f.slots| && g.cib == f.cib.(write := Inc(f.cib.write))
    && (Avail(f.cib) < |f.slots| ==>
          Avail(g.cib) == Avail(f.cib) + 1 && Contents(g.cib, g.slots) == Contents(f.cib, f.slots) + [msg])
  }

  /** The ring with its oldest message taken out. */
  ghost predicate Shrank(f: Mailbox, g: Mailbox, msg: Msg) {
    && g.slots == f.slots && g.cib == f.cib.(read := Inc(f.cib.read))
    && (0 < Avail(f.cib) <= |f.slots| ==> Contents(f.cib, f.slots) == [msg] + Contents(g.cib, g.slots))
  }

  lemma StoreGrows(f: Mailbox, msg: Msg)
    ensures Grew(f, PutSlot(f, msg), msg)
  {
    FullIs(f);
    if Avail(f.cib) < |f.slots| { PutAppends(f.cib, f.slots, msg); }
  }

  lemma TakeShrinks(f: Mailbox)
    ensures Shrank(f, GetSlot(f).0, GetSlot(f).1)
  {
    if 0 < Avail(f.cib) <= |f.slots| { GetTakesHead(f.cib, f.slots); }
  }

  // Waiting and waking

  lemma WaitIs(m: Mem, l: ListId)
    requires ActiveRuns(m)
    ensures ActiveFirst(m) && Keyed(Lst(m.lists, l), m.prio)
    ensures WaitIn(m, l) == Enlisted(Dequeued(m, m.active, MboxBlocked), m.active, l)
  {
    hide RunQueuesOk, WaitListsOk, PlacesOk, LevelsOk, ListsKeyed, RunQueuesKeyed, SetStatus, AddToList, Insert;
    DequeueIs(m, MboxBlocked);
    EnlistIs(m, l);
    EnlistIs(SetStatus(m, m.active, MboxBlocked), l);
  }

  // Putting

  /** mbox_put and mbox_try_put, on the memory */
  ghost predicate PutMemDid(m: Mem, r: Mem, out: Out, b: nat, msg: Msg, blocking: bool)
    requires ListsInv(m) && b in m.mbox
  {
    var w, f := Lst(m.lists, Readers(b)), m.mbox[b];
    if w != [] then
      && w[0] in m.prio && m.prio[w[0]] < |m.rq| && out == SwitchTo(m.prio[w[0]])
      && r == Readied(Released(m.(buf := m.buf[w[0] := msg]), Readers(b)), w[0], Pending)
    else if !AllUsed(f) then
      out == Done(1) && b in r.mbox && Grew(f, r.mbox[b], msg.(sender := m.active))
      && r == m.(mbox := m.mbox[b := r.mbox[b]])
    else if blocking then
      && out == Yield(PutDone(b, msg)) && ActiveFirst(m) && Keyed(Lst(m.lists, Writers(b)), m.prio)
      && r == Enlisted(Dequeued(m, m.active, MboxBlocked), m.active, Writers(b))
    else out == Done(0) && r == m
  }

  lemma BufferKeepsLists(m: Mem, t: Pid, msg: Msg)
    requires ListsInv(m)
    ensures ListsInv(m.(buf := m.buf[t := msg]))
  {
  }

  lemma PutIs(m: Mem, b: nat, msg: Msg, blocking: bool)
    requires ListsInv(m) && b in m.mbox && (blocking ==> ActiveRuns(m))
    ensures var (r, out) := PutMsg(m, b, msg, blocking); PutMemDid(m, r, out, b, msg, blocking)
  {
    hide RunQueuesOk, WaitListsOk, PlacesOk, LevelsOk, RunQueuesKeyed, WakeFirst, WaitIn, PutSlot, Full, AllUsed, Grew,
      Readied, Released, Enlisted, Dequeued;
    var w := Lst(m.lists, Readers(b));
    FullIs(m.mbox[b]);
    if w != [] {
      BufferKeepsLists(m, w[0], msg);
      WakeFirstIs(m.(buf := m.buf[w[0] := msg]), Readers(b));
    } else {
      StoreGrows(m.mbox[b], msg.(sender := m.active));
      if blocking { WaitIs(m, Writers(b)); }
    }
  }

  /** mbox_put and mbox_try_put */
  ghost predicate PutCallDid(s: K, out: Out, s': K, b: nat, msg: Msg, blocking: bool)
    requires ListsInv(s.m) && b in s.m.mbox && Defined(s.m, s.c)
  {
    var w, f := Lst(s.m.lists, Readers(b)), s.m.mbox[b];
    var put := if w != [] then msg else msg.(sender := s.m.active);
    && (Succeeds(out) <==> w != [] || !AllUsed(f))
    && (Succeeds(out) <==> Of(s'.bx.puts, b) == Of(s.bx.puts, b) + [put])
    && (out == Done(0) <==> w == [] && AllUsed(f) && !blocking)
    && (out == Done(0) ==> s' == s.(nextId := s.nextId + 1))
    && PutMemDid(s.m, s'.m.(csr := s.m.csr), out, b, msg, blocking)
    && match out
       case Done(_) => s'.c == s.c && s'.m.csr == s.m.csr
       case SwitchTo(p) => Asks(s, s', p)
       case Yield(k) => s'.m.csr == s.m.csr && s'.c == s.c.(pc := s.c.pc[s.m.active := Rotating(k)])
       case _ => false
  }

  lemma PutOutIs(m: Mem, r: Mem, out: Out, b: nat, msg: Msg, blocking: bool)
    requires ListsInv(m) && b in m.mbox && PutMemDid(m, r, out, b, msg, blocking)
    ensures r.active == m.active && r.prio == m.prio && r.csr == m.csr && !out.YieldHigher? && (out.Yield? ==> blocking)
    ensures Succeeds(out) <==> Lst(m.lists, Readers(b)) != [] || !AllUsed(m.mbox[b])
    ensures out == Done(0) <==> Lst(m.lists, Readers(b)) == [] && AllUsed(m.mbox[b]) && !blocking
    ensures out == Done(0) ==> r == m
  {
    hide RunQueuesOk, WaitListsOk, PlacesOk, ListsKeyed, RunQueuesKeyed, AllUsed, Grew, Insert;
  }

  lemma PutsGrow(bx: BoxLog, m: Mem, b: nat, msg: Msg, out: Out)
    ensures var put := if Lst(m.lists, Readers(b)) != [] then msg else msg.(sender := m.active);
            Succeeds(out) <==> Of(PutLog(bx, m, b, msg, out).puts, b) == Of(bx.puts, b) + [put]
    ensures !Succeeds(out) ==> PutLog(bx, m, b, msg, out) == bx
  {
    if !Succeeds(out) { assert forall x :: |Of(bx.puts, b) + [x]| == |Of(bx.puts, b)| + 1; }
  }

  lemma PutSettles(s: K, r: Mem, out: Out, s': K)
    requires Defined(s.m, s.c) && r.active == s.m.active && r.prio == s.m.prio && r.csr == s.m.csr
    requires !out.YieldHigher? && (out.Yield? ==> !s.c.isr)
    requires s'.m == Ended(s, r, out).m && s'.c == Ended(s, r, out).c
    ensures s'.m.(csr := s.m.csr) == r
    ensures match out
            case Done(_) => s'.c == s.c && s'.m.csr == s.m.csr && s'.m == r
            case SwitchTo(p) => Asks(s, s', p)
            case Yield(k) => s'.m.csr == s.m.csr && s'.c == s.c.(pc := s.c.pc[s.m.active := Rotating(k)])
            case _ => false
  {
    hide LevelsOk, ListsKeyed, RunQueuesKeyed, On;
    if out.SwitchTo? { SettleAsks(r, s.c.isr, out.prio); }
  }

  lemma PutStep(s: K, b: nat, typ: nat, content: nat, blocking: bool)
    requires Defined(s.m, s.c) && ListsInv(s.m) && b in s.m.mbox && (blocking ==> ActiveRuns(s.m) && !s.c.isr)
    ensures var msg := Msg(KERNEL_PID_UNDEF, typ, content, s.nextId);
            PutCallDid(s, PutMsg(s.m, b, msg, blocking).1, StepPut(s, b, typ, content, blocking), b, msg, blocking)
  {
    hide ListsInv, Shape, PutMsg, PutMemDid, AllUsed, PutLog, Asks, Ended, Succeeds, ActiveRuns;
    var msg := Msg(KERNEL_PID_UNDEF, typ, content, s.nextId);
    var (r, out) := PutMsg(s.m, b, msg, blocking);
    PutIs(s.m, b, msg, blocking);
    PutOutIs(s.m, r, out, b, msg, blocking);
    PutsGrow(s.bx, s.m, b, msg, out);
    ActiveLives(s);
    PutSettles(s, r, out, StepPut(s, b, typ, content, blocking));
    EndedDone(s, r, 0);
  }

  /** A put reports success at once exactly if a reader waits, who gets the
      message, or a slot is free, which takes it; and exactly then the message
      counts as put. mbox_try_put returns 0 exactly if no reader waits and all
      slots are in use, and changes nothing; mbox_put waits then. */
  lemma PutAnswers(tr: seq<K>, steps: seq<Step>, i: nat)
    requires Run(tr, steps) && i < |steps| && steps[i].DoPut?
    ensures var s, step := tr[i], steps[i];
            var msg := Msg(KERNEL_PID_UNDEF, step.typ, step.content, s.nextId);
            && ListsInv(s.m) && step.b in s.m.mbox && Defined(s.m, s.c)
            && PutCallDid(s, PutMsg(s.m, step.b, msg, step.blocking).1, tr[i + 1], step.b, msg, step.blocking)
  {
    hide Run, Core, RequestsOk, BuffersOk, MessagesOk, NumbersOk, FlagStateOk, PriorityOk, EncodingOk, ListsInv, Shape,
      ActiveRuns, PutMsg, StepPut, PutCallDid;
    RunLengths(tr, steps);
    StepOfRun(tr, steps, i);
    if steps[i].blocking { ReadyIsUser(tr[i]); }
    PutStep(tr[i], steps[i].b, steps[i].typ, steps[i].content, steps[i].blocking);
  }

  // Getting

  /** mbox_get and mbox_try_get, on the memory */
  ghost predicate GetMemDid(m: Mem, r: Mem, out: Out, got: Option<Msg>, b: nat, blocking: bool)
    requires ListsInv(m) && b in m.mbox
  {
    var a, w, f := m.active, Lst(m.lists, Writers(b)), m.mbox[b];
    if Avail(f.cib) != 0 then
      && b in r.mbox && got.Some? && Shrank(f, r.mbox[b], got.value)
      && var n := m.(mbox := m.mbox[b := r.mbox[b]]);
         if w == [] then out == Done(1) && r == n
         else
           && w[0] in m.prio && m.prio[w[0]] < |m.rq| && out == SwitchTo(m.prio[w[0]])
           && r == Readied(Released(n, Writers(b)), w[0], Pending)
    else
      && got == None
      && if blocking then
           && out == Yield(GetDone(b)) && ActiveFirst(m) && Keyed(Lst(m.lists, Readers(b)), m.prio)
           && r == Enlisted(Dequeued(m.(wait := m.wait[a := Buffer]), a, MboxBlocked), a, Readers(b))
         else out == Done(0) && r == m
  }

  lemma BoxKeepsLists(m: Mem, b: nat, f: Mailbox)
    requires ListsInv(m)
    ensures ListsInv(m.(mbox := m.mbox[b := f]))
  {
  }

  lemma WaitDataKeepsRuns(m: Mem)
    requires ActiveRuns(m)
    ensures ActiveRuns(m.(wait := m.wait[m.active := Buffer]))
  {
  }

  lemma GetIs(m: Mem, b: nat, blocking: bool)
    requires ListsInv(m) && b in m.mbox && (blocking ==> ActiveRuns(m))
    ensures var (r, out, got) := GetMsg(m, b, blocking); GetMemDid(m, r, out, got, b, blocking)
  {
    hide RunQueuesOk, WaitListsOk, PlacesOk, LevelsOk, RunQueuesKeyed, WakeFirst, WaitIn, GetSlot, Avail, Shrank,
      Enlisted, Dequeued;
    var (f, msg) := GetSlot(m.mbox[b]);
    TakeShrinks(m.mbox[b]);
    var n := m.(mbox := m.mbox[b := f]);
    BoxKeepsLists(m, b, f);
    if Lst(m.lists, Writers(b)) != [] { WakeFirstIs(n, Writers(b)); }
    if blocking {
      WaitDataKeepsRuns(m);
      WaitIs(m.(wait := m.wait[m.active := Buffer]), Readers(b));
    }
  }

  lemma GetOutIs(m: Mem, r: Mem, out: Out, got: Option<Msg>, b: nat, blocking: bool)
    requires ListsInv(m) && b in m.mbox && GetMemDid(m, r, out, got, b, blocking)
    ensures r.active == m.active && r.prio == m.prio && r.csr == m.csr && !out.YieldHigher? && (out.Yield? ==> blocking)
    ensures (Succeeds(out) <==> Avail(m.mbox[b].cib) != 0) && (Succeeds(out) <==> got.Some?)
    ensures out == Done(0) <==> Avail(m.mbox[b].cib) == 0 && !blocking
    ensures out == Done(0) ==> r == m
  {
    hide RunQueuesOk, WaitListsOk, PlacesOk, ListsKeyed, RunQueuesKeyed, Avail, Shrank, Insert;
  }

  /** mbox_get and mbox_try_get */
  ghost predicate GetCallDid(s: K, out: Out, got: Option<Msg>, s': K, b: nat, blocking: bool)
    requires ListsInv(s.m) && b in s.m.mbox && Defined(s.m, s.c)
  {
    && (Succeeds(out) <==> Avail(s.m.mbox[b].cib) != 0)
    && (if Succeeds(out) then got.Some? && Of(s'.bx.gets, b) == Of(s.bx.gets, b) + [got.value]
        else got == None && s'.bx.gets == s.bx.gets)
    && (out == Done(0) <==> Avail(s.m.mbox[b].cib) == 0 && !blocking)
    && (out == Done(0) ==> s' == s)
    && GetMemDid(s.m, s'.m.(csr := s.m.csr), out, got, b, blocking)
    && match out
       case Done(_) => s'.c == s.c && s'.m.csr == s.m.csr
       case SwitchTo(p) => Asks(s, s', p)
       case Yield(k) => s'.m.csr == s.m.csr && s'.c == s.c.(pc := s.c.pc[s.m.active := Rotating(k)])
       case _ => false
  }

  lemma GetStep(s: K, b: nat, blocking: bool)
    requires Defined(s.m, s.c) && ListsInv(s.m) && b in s.m.mbox && (blocking ==> ActiveRuns(s.m) && !s.c.isr)
    ensures var (_, out, got) := GetMsg(s.m, b, blocking);
            GetCallDid(s, out, got, StepGet(s, b, blocking), b, blocking)
  {
    hide ListsInv, Shape, GetMsg, GetMemDid, Avail, Asks, Ended, Succeeds, ActiveRuns;
    var (r, out, got) := GetMsg(s.m, b, blocking);
    GetIs(s.m, b, blocking);
    GetOutIs(s.m, r, out, got, b, blocking);
    ActiveLives(s);
    PutSettles(s, r, out, StepGet(s, b, blocking));
    EndedDone(s, r, 0);
  }

  /** A get reports success at once exactly if the mailbox is not empty, and
      exactly then a message counts as got, the oldest; a waiting writer goes on.
      mbox_try_get of an empty mailbox returns 0 and changes nothing; mbox_get
      waits. */
  lemma GetAnswers(tr: seq<K>, steps: seq<Step>, i: nat)
    requires Run(tr, steps) && i < |steps| && steps[i].DoGet?
    ensures ListsInv(tr[i].m) && steps[i].b in tr[i].m.mbox && Defined(tr[i].m, tr[i].c)
    ensures var (_, out, got) := GetMsg(tr[i].m, steps[i].b, steps[i].blocking);
            GetCallDid(tr[i], out, got, tr[i + 1], steps[i].b, steps[i].blocking)
  {
    hide Run, Core, RequestsOk, BuffersOk, MessagesOk, NumbersOk, FlagStateOk, PriorityOk, EncodingOk, ListsInv, Shape,
      ActiveRuns, GetMsg, StepGet, GetCallDid;
    RunLengths(tr, steps);
    StepOfRun(tr, steps, i);
    if steps[i].blocking { ReadyIsUser(tr[i]); }
    GetStep(tr[i], steps[i].b, steps[i].blocking);
  }

  // The store behind a wait

  /** A writer that has waited stores its message, whatever the mailbox holds, and
      goes on. */
  lemma StoreAnswers(tr: seq<K>, steps: seq<Step>, i: nat)
    requires Run(tr, steps) && i < |steps| && steps[i].Resume?
    requires var s := tr[i]; s.m.active in s.c.pc && s.c.pc[s.m.active].Do? && s.c.pc[s.m.active].k.PutDone?
    ensures var s, s', a := tr[i], tr[i + 1], tr[i].m.active;
            var b, msg := s.c.pc[a].k.mbox, s.c.pc[a].k.msg.(sender := a);
            && b in s.m.mbox && b in s'.m.mbox && Grew(s.m.mbox[b], s'.m.mbox[b], msg)
            && s' == s.(m := s.m.(mbox := s.m.mbox[b := s'.m.mbox[b]]), c := s.c.(pc := s.c.pc[a := User]),
                        bx := s.bx.(puts := Logged(s.bx.puts, b, msg)))
  {
    hide Run, Safe, ListsInv, Shape, PutSlot, Grew, Logged;
    RunLengths(tr, steps);
    StepOfRun(tr, steps, i);
    var s, a := tr[i], tr[i].m.active;
    StoreGrows(s.m.mbox[s.c.pc[a].k.mbox], s.c.pc[a].k.msg.(sender := a));
  }
}
