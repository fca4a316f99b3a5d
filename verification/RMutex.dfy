/** core/rmutex.c: the recursive mutex under every interleaving of its atomic
    steps. The inner mutex is given to any one of its waiters when released. */
module RecursiveMutex {
  import opened Names

  const COUNTS: nat := 0x1_0000

  /** Where a thread is in rmutex_lock, rmutex_trylock or rmutex_unlock. */
  datatype Point =
    | Outside
    | AtTry(try: bool)     // before mutex_trylock
    | AtLoad(try: bool)    // it failed; before the load of owner
    | AtLock               // before mutex_lock
    | InQueue              // blocked in mutex_lock
    | AtStore              // has the mutex; before the store to owner
    | AtInc                // before refcount++
    | AtDec                // before refcount--
    | AtClear              // refcount is zero; before the reset of owner
    | AtRelease            // before mutex_unlock

  /** `depth` counts the finished locks less the unlocks of each thread. */
  datatype State = State(holder: Option<Pid>, owner: Pid, refcount: nat, at: map<Pid, Point>, depth: map<Pid, nat>)

  datatype Step =
    | CallLock(p: Pid, try: bool)
    | CallUnlock(p: Pid)
    | TryLock(p: Pid)
    | LoadOwner(p: Pid)
    | Lock(p: Pid)
    | StoreOwner(p: Pid)
    | Increment(p: Pid)
    | Decrement(p: Pid)
    | ClearOwner(p: Pid)
    | Release(p: Pid, next: Option<Pid>)

  /** uint16_t arithmetic. */
  function Up(n: nat): nat {
    if n + 1 == COUNTS then 0 else n + 1
  }

  function Down(n: nat): nat {
    if n == 0 then COUNTS - 1 else n - 1
  }

  ghost predicate Waits(s: State, t: Pid) {
    t in s.at && s.at[t] == InQueue
  }

  /** A thread unlocks only what it locked, and may lock any number of times; a
      released mutex goes to a waiter if there is one. */
  ghost predicate Enabled(s: State, step: Step) {
    var p := step.p;
    && p in s.at && p in s.depth
    && match step
       case CallLock(_, _) => s.at[p] == Outside
       case CallUnlock(_) => s.at[p] == Outside && s.depth[p] > 0
       case TryLock(_) => s.at[p].AtTry?
       case LoadOwner(_) => s.at[p].AtLoad?
       case Lock(_) => s.at[p] == AtLock
       case StoreOwner(_) => s.at[p] == AtStore
       case Increment(_) => s.at[p] == AtInc
       case Decrement(_) => s.at[p] == AtDec
       case ClearOwner(_) => s.at[p] == AtClear
       case Release(_, next) =>
         s.at[p] == AtRelease && if next.Some? then Waits(s, next.value) else forall t :: !Waits(s, t)
  }

  ghost function Apply(s: State, step: Step): State
    requires Enabled(s, step)
  {
    var p := step.p;
    match step
    case CallLock(_, try) => s.(at := s.at[p := AtTry(try)])
    case CallUnlock(_) => s.(at := s.at[p := AtDec])
    case TryLock(_) =>
      if s.holder.None? then s.(holder := Some(p), at := s.at[p := AtStore])
          else s.(at := s.at[p := AtLoad(s.at[p].try)])
    case LoadOwner(_) =>
      s.(at := s.at[p := if s.owner == p then AtStore else if s.at[p].try then Outside else AtLock])
    case Lock(_) =>
      if s.holder.None? then s.(holder := Some(p), at := s.at[p := AtStore]) else s.(at := s.at[p := InQueue])
    case StoreOwner(_) => s.(owner := p, at := s.at[p := AtInc])
    case Increment(_) => s.(refcount := Up(s.refcount), depth := s.depth[p := s.depth[p] + 1], at := s.at[p := Outside])
    case Decrement(_) =>
      var n := Down(s.refcount);
      s.(refcount := n, depth := s.depth[p := if s.depth[p] > 0 then s.depth[p] - 1 else 0],
         at := s.at[p := if n == 0 then AtClear else Outside])
    case ClearOwner(_) => s.(owner := KERNEL_PID_UNDEF, at := s.at[p := AtRelease])
    case Release(_, next) =>
      if next.Some? then s.(holder := next, at := s.at[p := Outside][next.value := AtStore])
      else s.(holder := None, at := s.at[p := Outside])
  }

  ghost predicate Initial(s: State) {
    && s.holder == None && s.owner == KERNEL_PID_UNDEF && s.refcount == 0
    && (forall p :: p in s.at <==> p in s.depth)
    && (forall p :: p in s.at ==> p != KERNEL_PID_UNDEF && s.at[p] == Outside && s.depth[p] == 0)
  }

  ghost predicate Run(tr: seq<State>, steps: seq<Step>) {
    && |tr| == |steps| + 1 && Initial(tr[0])
    && forall i :: 0 <= i < |steps| ==> Enabled(tr[i], steps[i]) && tr[i + 1] == Apply(tr[i], steps[i])
  }

  // What decides

  /** The unlock leaves a positive multiple of 2^16 locks, for which the 16-bit
      count is zero. Its caller can tell from its own depth. */
  ghost predicate LeavesMultiple(s: State, step: Step) {
    step.Decrement? && step.p in s.depth && s.depth[step.p] > 1 && (s.depth[step.p] - 1) % COUNTS == 0
  }

  /** No unlock before step `n` leaves such a number. */
  ghost predicate Counting(tr: seq<State>, steps: seq<Step>, n: nat) {
    forall i :: 0 <= i < n && i < |tr| && i < |steps| ==> !LeavesMultiple(tr[i], steps[i])
  }

  /** Every thread locks less than 2^16 times deep. */
  ghost predicate Shallow(tr: seq<State>) {
    forall i, p :: 0 <= i < |tr| && p in tr[i].depth ==> tr[i].depth[p] < COUNTS
  }

  lemma ShallowIsCounting(tr: seq<State>, steps: seq<Step>, n: nat)
    requires Shallow(tr)
    ensures Counting(tr, steps, n)
  {
  }

  // What every step keeps

  /** A thread without the mutex: it has locked nothing and is on its way to it at most. */
  predicate Without(at: Point, depth: nat) {
    depth == 0 && (at == Outside || at.AtTry? || at.AtLoad? || at == AtLock || at == InQueue)
  }

  /** A thread with the mutex: what owner holds, by where the thread is. */
  predicate With(p: Pid, at: Point, depth: nat, owner: Pid) {
    match at
    case Outside => depth > 0 && owner == p
    case AtTry(_) => depth > 0 && owner == p
    case AtLoad(_) => depth > 0 && owner == p
    case AtLock => false
    case InQueue => false
    case AtStore => owner == (if depth == 0 then KERNEL_PID_UNDEF else p)
    case AtInc => owner == p
    case AtDec => depth > 0 && owner == p
    case AtClear => depth == 0 && owner == p
    case AtRelease => depth == 0 && owner == KERNEL_PID_UNDEF
  }

  ghost predicate Inv(s: State) {
    && (forall p :: p in s.at <==> p in s.depth) && (forall p :: p in s.at ==> p != KERNEL_PID_UNDEF)
    && (forall p :: p in s.at && s.holder != Some(p) ==> Without(s.at[p], s.depth[p]))
    && match s.holder
       case None => s.owner == KERNEL_PID_UNDEF && s.refcount == 0 && forall t :: !Waits(s, t)
       case Some(h) => h in s.at && With(h, s.at[h], s.depth[h], s.owner) && s.refcount == s.depth[h] % COUNTS
  }

  lemma ReleaseKeepsInv(s: State, p: Pid, next: Option<Pid>)
    requires Inv(s) && Enabled(s, Release(p, next))
    ensures Inv(Apply(s, Release(p, next)))
  {
    var r := Apply(s, Release(p, next));
    assert s.holder != Some(p) ==> Without(s.at[p], s.depth[p]);
    if next.Some? { assert Without(s.at[next.value], s.depth[next.value]); }
    assert forall t :: Waits(r, t) ==> Waits(s, t);
  }

  /** On the way to the mutex. */
  lemma EntryKeepsInv(s: State, step: Step)
    requires Inv(s) && Enabled(s, step)
    requires step.CallLock? || step.TryLock? || step.LoadOwner? || step.Lock?
    ensures Inv(Apply(s, step))
  {
    var p, r := step.p, Apply(s, step);
    assert s.holder != Some(p) ==> Without(s.at[p], s.depth[p]);
    assert forall t :: Waits(r, t) ==> Waits(s, t) || t == p;
  }

  /** With the mutex. */
  lemma HolderKeepsInv(s: State, step: Step)
    requires Inv(s) && Enabled(s, step)
    requires step.CallUnlock? || step.StoreOwner? || step.Increment? || step.Decrement? || step.ClearOwner?
    requires !LeavesMultiple(s, step)
    ensures Inv(Apply(s, step))
  {
    var p, r := step.p, Apply(s, step);
    CountsUp(s.depth[p]);
    assert s.holder != Some(p) ==> Without(s.at[p], s.depth[p]);
    assert forall t :: Waits(r, t) ==> Waits(s, t);
  }

  /** The count goes with the depth, modulo 2^16. */
  lemma CountsUp(n: nat)
    ensures Up(n % COUNTS) == (n + 1) % COUNTS
    ensures n > 0 ==> Down(n % COUNTS) == (n - 1) % COUNTS
  {
  }

  lemma StepKeepsInv(s: State, step: Step)
    requires Inv(s) && Enabled(s, step) && !LeavesMultiple(s, step)
    ensures Inv(Apply(s, step))
  {
    hide Inv, Apply, Enabled, LeavesMultiple;
    if step.Release? {
      ReleaseKeepsInv(s, step.p, step.next);
    } else if step.CallLock? || step.TryLock? || step.LoadOwner? || step.Lock? {
      EntryKeepsInv(s, step);
    } else {
      HolderKeepsInv(s, step);
    }
  }

  /** The state of a run up to the first unlock that leaves a multiple of 2^16. */
  lemma {:induction false} RunKeepsInv(tr: seq<State>, steps: seq<Step>, i: nat)
    requires Run(tr, steps) && i < |tr| && Counting(tr, steps, i)
    ensures Inv(tr[i])
  {
    hide Inv, Apply, Enabled, LeavesMultiple;
    if i == 0 {
      InitialInv(tr[0]);
    } else {
      RunKeepsInv(tr, steps, i - 1);
      StepKeepsInv(tr[i - 1], steps[i - 1]);
    }
  }

  lemma InitialInv(s: State)
    requires Initial(s)
    ensures Inv(s)
  {
  }

  // The properties

  /** After a failed trylock a thread reads its own pid exactly if it has the mutex. */
  lemma OwnerTellsTheHolder(tr: seq<State>, steps: seq<Step>, i: nat, p: Pid)
    requires Run(tr, steps) && i < |tr| && Counting(tr, steps, i) && p in tr[i].at && tr[i].at[p].AtLoad?
    ensures tr[i].owner == p <==> tr[i].holder == Some(p)
  {
    RunKeepsInv(tr, steps, i);
  }

  /** The count is the holder's nesting depth, modulo 2^16, and nobody else has any. */
  lemma CountIsTheDepth(tr: seq<State>, steps: seq<Step>, i: nat, p: Pid)
    requires Run(tr, steps) && i < |tr| && Counting(tr, steps, i) && p in tr[i].depth
    ensures tr[i].holder == Some(p) ==> tr[i].refcount == tr[i].depth[p] % COUNTS
    ensures tr[i].holder == Some(p) && tr[i].depth[p] < COUNTS ==> tr[i].refcount == tr[i].depth[p]
    ensures tr[i].holder != Some(p) ==> tr[i].depth[p] == 0
  {
    RunKeepsInv(tr, steps, i);
  }

  /** Between calls a thread has the mutex exactly if it has locked more often
      than unlocked; so it is released exactly at depth zero. */
  lemma HeldExactlyWhileLocked(tr: seq<State>, steps: seq<Step>, i: nat, p: Pid)
    requires Run(tr, steps) && i < |tr| && Counting(tr, steps, i)
    requires p in tr[i].at && p in tr[i].depth && tr[i].at[p] == Outside
    ensures tr[i].holder == Some(p) <==> tr[i].depth[p] > 0
  {
    RunKeepsInv(tr, steps, i);
  }

  /** The mutex leaves its holder only in the release at depth zero, and then
      goes to a waiter if there is one. */
  lemma ReleasedAtDepthZero(tr: seq<State>, steps: seq<Step>, i: nat, p: Pid)
    requires Run(tr, steps) && i < |steps| && Counting(tr, steps, i)
    requires tr[i].holder == Some(p) && tr[i + 1].holder != Some(p)
    ensures steps[i].Release? && steps[i].p == p && p in tr[i].depth && tr[i].depth[p] == 0
    ensures tr[i + 1].holder.None? <==> forall t :: !Waits(tr[i], t)
  {
    RunKeepsInv(tr, steps, i);
  }

  // What a lock answers

  /** Where a thread can be in a lock: only rmutex_lock waits. */
  predicate InLock(at: Point, try: bool) {
    match at
    case AtTry(t) => t == try
    case AtLoad(t) => t == try
    case AtLock => !try
    case InQueue => !try
    case AtStore => true
    case AtInc => true
    case _ => false
  }

  /** The call that thread `p` makes in step `i` has not returned before state `j`. */
  ghost predicate Calling(tr: seq<State>, i: nat, j: nat, p: Pid) {
    j <= |tr| && forall n :: i < n < j ==> p in tr[n].at && tr[n].at[p] != Outside
  }

  lemma LockGoesOn(s: State, step: Step, p: Pid, try: bool)
    requires Enabled(s, step) && p in s.at && p in s.depth && InLock(s.at[p], try)
    ensures var s' := Apply(s, step);
            && p in s'.at && p in s'.depth
            && (InLock(s'.at[p], try) ==> s'.depth[p] == s.depth[p])
            && (!InLock(s'.at[p], try) ==> s'.at[p] == Outside && step.p == p && (step.Increment? || step.LoadOwner?))
  {
  }

  lemma {:induction false} StillLocking(tr: seq<State>, steps: seq<Step>, i: nat, j: nat, p: Pid, try: bool)
    requires Run(tr, steps) && i < j < |tr| && steps[i] == CallLock(p, try) && Calling(tr, i, j + 1, p)
    ensures p in tr[i].depth && p in tr[j].depth && InLock(tr[j].at[p], try) && tr[j].depth[p] == tr[i].depth[p]
    decreases j
  {
    hide Initial;
    if j == i + 1 {
      assert Enabled(tr[i], steps[i]);
    } else {
      StillLocking(tr, steps, i, j - 1, p, try);
      hide Apply, Enabled;
      LockGoesOn(tr[j - 1], steps[j - 1], p, try);
    }
  }

  /** rmutex_trylock never waits for the mutex. */
  lemma TryLockNeverWaits(tr: seq<State>, steps: seq<Step>, i: nat, j: nat, p: Pid)
    requires Run(tr, steps) && i < j < |tr| && steps[i] == CallLock(p, true) && Calling(tr, i, j + 1, p)
    ensures tr[j].at[p] != AtLock && tr[j].at[p] != InQueue
  {
    hide Run;
    StillLocking(tr, steps, i, j, p, true);
  }

  /** Before the load of owner mutex_trylock has failed. */
  lemma {:induction false} HasTried(tr: seq<State>, steps: seq<Step>, i: nat, j: nat, p: Pid, try: bool)
      returns (n: nat)
    requires Run(tr, steps) && i < j < |tr| && steps[i] == CallLock(p, try) && Calling(tr, i, j + 1, p)
    requires tr[j].at[p].AtLoad?
    ensures i < n < j && steps[n] == TryLock(p) && tr[n].holder.Some?
    decreases j
  {
    hide Initial;
    assert Enabled(tr[j - 1], steps[j - 1]);
    if tr[j - 1].at[p].AtLoad? && j - 1 > i { n := HasTried(tr, steps, i, j - 1, p, try); } else { n := j - 1; }
  }

  /** A lock returns with the mutex, locked once more. Only rmutex_trylock
      returns without it, and only if another thread had it when it tried. */
  lemma LockEnds(tr: seq<State>, steps: seq<Step>, i: nat, j: nat, p: Pid, try: bool) returns (n: nat)
    requires Run(tr, steps) && i < j < |steps| && Counting(tr, steps, j) && steps[i] == CallLock(p, try)
    requires Calling(tr, i, j + 1, p) && p in tr[j + 1].at && tr[j + 1].at[p] == Outside
    ensures p in tr[i].depth && p in tr[j + 1].depth
    ensures if steps[j] == Increment(p)
            then tr[j + 1].holder == Some(p) && tr[j + 1].depth[p] == tr[i].depth[p] + 1
            else
              && try && steps[j] == LoadOwner(p) && tr[j + 1].depth[p] == tr[i].depth[p]
              && tr[j + 1].holder != Some(p)
              && i < n < j && steps[n] == TryLock(p) && tr[n].holder.Some? && tr[n].holder.value != p
  {
    StillLocking(tr, steps, i, j, p, try);
    RunKeepsInv(tr, steps, j);
    assert Enabled(tr[j], steps[j]) && tr[j + 1] == Apply(tr[j], steps[j]);
    hide Initial, Inv, Enabled, Apply, LeavesMultiple;
    ReturnsAs(tr[j], steps[j], p, try);
    n := i;
    if steps[j] != Increment(p) {
      n := HasTried(tr, steps, i, j, p, try);
      StillLocking(tr, steps, i, n, p, try);
      RunKeepsInv(tr, steps, n);
      OthersHold(tr[n], p);
    }
  }

  /** Who has locked nothing and tries has not got the mutex. */
  lemma OthersHold(s: State, p: Pid)
    requires Inv(s) && p in s.at && p in s.depth && s.at[p].AtTry? && s.depth[p] == 0
    ensures s.holder != Some(p)
  {
  }

  lemma ReturnsAs(s: State, step: Step, p: Pid, try: bool)
    requires Inv(s) && Enabled(s, step) && p in s.at && p in s.depth && InLock(s.at[p], try)
    requires Apply(s, step).at[p] == Outside
    ensures var s' := Apply(s, step);
            if step == Increment(p) then s'.holder == Some(p) && s'.depth[p] == s.depth[p] + 1
            else
              && try && step == LoadOwner(p) && s.at[p].AtLoad? && s'.holder != Some(p)
              && s'.depth[p] == s.depth[p] == 0
  {
  }

  // The 16-bit count

  /** The step makes its caller release the mutex. */
  ghost predicate GivesUp(s: State, step: Step)
    requires Enabled(s, step)
  {
    step.Decrement? && Apply(s, step).at[step.p] == AtClear
  }

  /** Until an unlock has released too early, an unlock releases exactly if the
      locks left are a multiple of 2^16, zero included. */
  lemma ReleaseIffMultiple(tr: seq<State>, steps: seq<Step>, i: nat)
    requires Run(tr, steps) && i < |steps| && Counting(tr, steps, i) && steps[i].Decrement?
    ensures GivesUp(tr[i], steps[i]) <==> tr[i + 1].depth[steps[i].p] % COUNTS == 0
  {
    RunKeepsInv(tr, steps, i);
    CountsUp(tr[i].depth[steps[i].p]);
  }

  /** Every release of the first `n` steps is at depth zero. */
  ghost predicate ReleasesAtZero(tr: seq<State>, steps: seq<Step>, n: nat)
    requires Run(tr, steps) && n <= |steps|
  {
    forall i :: 0 <= i < n && GivesUp(tr[i], steps[i]) ==> tr[i + 1].depth[steps[i].p] == 0
  }

  /** Exactly when the recursive mutex is right, for any depth: every release is
      at depth zero if and only if no unlock leaves a positive multiple of 2^16. */
  lemma {:induction false} ReleasesAtZeroIff(tr: seq<State>, steps: seq<Step>, n: nat)
    requires Run(tr, steps) && n <= |steps|
    ensures ReleasesAtZero(tr, steps, n) <==> Counting(tr, steps, n)
  {
    if n > 0 {
      ReleasesAtZeroIff(tr, steps, n - 1);
      hide Apply, Initial;
      if Counting(tr, steps, n - 1) {
        LastUnlock(tr, steps, n - 1);
        assert Counting(tr, steps, n) <==> !LeavesMultiple(tr[n - 1], steps[n - 1]);
      }
    }
  }

  lemma LastUnlock(tr: seq<State>, steps: seq<Step>, i: nat)
    requires Run(tr, steps) && i < |steps| && Counting(tr, steps, i)
    ensures LeavesMultiple(tr[i], steps[i])
            <==> GivesUp(tr[i], steps[i]) && tr[i + 1].depth[steps[i].p] != 0
  {
    RunKeepsInv(tr, steps, i);
    if steps[i].Decrement? { ReleaseIffMultiple(tr, steps, i); }
  }

  // A run that loses the mutex

  lemma Goes(tr: seq<State>, steps: seq<Step>, step: Step)
    requires Run(tr, steps) && Enabled(tr[|steps|], step)
    ensures Run(tr + [Apply(tr[|steps|], step)], steps + [step])
  {
    hide Enabled, Apply, Initial;
  }

  /** Threads 2 and 3, where they are and how deep they have locked. */
  function Two(h: Option<Pid>, owner: Pid, n: nat, at2: Point, depth2: nat, at3: Point, depth3: nat): State {
    State(h, owner, n, map[2 := at2, 3 := at3], map[2 := depth2, 3 := depth3])
  }

  /** Both are outside; thread 2 has locked `n` times. */
  function Nested(n: nat): State {
    if n == 0 then Two(None, KERNEL_PID_UNDEF, 0, Outside, 0, Outside, 0)
    else Two(Some(2), 2, n % COUNTS, Outside, n, Outside, 0)
  }

  lemma Performs(tr: seq<State>, steps: seq<Step>, step: Step, s: State) returns (tr': seq<State>, steps': seq<Step>)
    requires Run(tr, steps) && Enabled(tr[|steps|], step) && s == Apply(tr[|steps|], step)
    ensures Run(tr', steps') && steps' == steps + [step] && tr' == tr + [s]
  {
    Goes(tr, steps, step);
    tr', steps' := tr + [s], steps + [step];
  }

  lemma FirstLock(tr: seq<State>, steps: seq<Step>) returns (tr': seq<State>, steps': seq<Step>)
    requires Run(tr, steps) && tr[|steps|] == Nested(0)
    ensures Run(tr', steps') && tr'[|steps'|] == Nested(1)
  {
    hide Run;
    tr', steps' := Performs(tr, steps, CallLock(2, false), Two(None, 0, 0, AtTry(false), 0, Outside, 0));
    tr', steps' := Performs(tr', steps', TryLock(2), Two(Some(2), 0, 0, AtStore, 0, Outside, 0));
    tr', steps' := Performs(tr', steps', StoreOwner(2), Two(Some(2), 2, 0, AtInc, 0, Outside, 0));
    tr', steps' := Performs(tr', steps', Increment(2), Nested(1));
  }

  lemma NextLock(tr: seq<State>, steps: seq<Step>, n: nat) returns (tr': seq<State>, steps': seq<Step>)
    requires Run(tr, steps) && tr[|steps|] == Nested(n) && n > 0
    ensures Run(tr', steps') && tr'[|steps'|] == Nested(n + 1)
  {
    CountsUp(n);
    hide Run, Up;
    var c := n % COUNTS;
    tr', steps' := Performs(tr, steps, CallLock(2, false), Two(Some(2), 2, c, AtTry(false), n, Outside, 0));
    tr', steps' := Performs(tr', steps', TryLock(2), Two(Some(2), 2, c, AtLoad(false), n, Outside, 0));
    tr', steps' := Performs(tr', steps', LoadOwner(2), Two(Some(2), 2, c, AtStore, n, Outside, 0));
    tr', steps' := Performs(tr', steps', StoreOwner(2), Two(Some(2), 2, c, AtInc, n, Outside, 0));
    tr', steps' := Performs(tr', steps', Increment(2), Nested(n + 1));
  }

  lemma {:induction false} LocksDeep(n: nat) returns (tr: seq<State>, steps: seq<Step>)
    ensures Run(tr, steps) && tr[|steps|] == Nested(n)
  {
    if n == 0 {
      tr, steps := [Nested(0)], [];
    } else {
      hide Run;
      tr, steps := LocksDeep(n - 1);
      if n == 1 { tr, steps := FirstLock(tr, steps); } else { tr, steps := NextLock(tr, steps, n - 1); }
    }
  }

  lemma LengthOf(tr: seq<State>, steps: seq<Step>)
    requires Run(tr, steps)
    ensures |tr| == |steps| + 1
  {
  }

  /** Step `i` is an unlock of thread 2 that leaves a multiple of 2^16; the
      assertions at the head of rmutex_unlock hold. */
  ghost predicate Early(tr: seq<State>, steps: seq<Step>, i: nat) {
    i < |steps| && i < |tr| && LeavesMultiple(tr[i], steps[i]) && steps[i].p == 2 == tr[i].owner && tr[i].refcount == 1
  }

  lemma EarlyUnlock()
    ensures var s := Two(Some(2), 2, 1, AtDec, COUNTS + 1, Outside, 0);
            && LeavesMultiple(s, Decrement(2)) && Enabled(s, Decrement(2))
            && Apply(s, Decrement(2)) == Two(Some(2), 2, 0, AtClear, COUNTS, Outside, 0)
  {
    assert (COUNTS + 1 - 1) % COUNTS == 0;
  }

  /** Thread 2 unlocks once. */
  lemma UnlocksEarly(tr: seq<State>, steps: seq<Step>) returns (tr': seq<State>, steps': seq<Step>, i: nat)
    requires Run(tr, steps) && tr[|steps|] == Nested(COUNTS + 1)
    ensures Run(tr', steps') && tr'[|steps'|] == Two(Some(2), 2, 0, AtClear, COUNTS, Outside, 0)
    ensures Early(tr', steps', i)
  {
    LengthOf(tr, steps);
    EarlyUnlock();
    hide Run, LeavesMultiple;
    i := |steps| + 1;
    tr', steps' := Performs(tr, steps, CallUnlock(2), Two(Some(2), 2, 1, AtDec, COUNTS + 1, Outside, 0));
    hide Apply, Enabled;
    tr', steps' := Performs(tr', steps', Decrement(2), Two(Some(2), 2, 0, AtClear, COUNTS, Outside, 0));
  }

  /** Thread 2 gives the mutex back, and thread 3 takes it. */
  lemma MutexMoves(tr: seq<State>, steps: seq<Step>) returns (tr': seq<State>, steps': seq<Step>)
    requires Run(tr, steps) && tr[|steps|] == Two(Some(2), 2, 0, AtClear, COUNTS, Outside, 0)
    ensures Run(tr', steps') && tr <= tr' && steps <= steps'
    ensures tr'[|steps'|] == Two(Some(3), 0, 0, Outside, COUNTS, AtStore, 0)
  {
    hide Run;
    tr', steps' := Performs(tr, steps, ClearOwner(2), Two(Some(2), 0, 0, AtRelease, COUNTS, Outside, 0));
    tr', steps' := Performs(tr', steps', Release(2, None), Two(None, 0, 0, Outside, COUNTS, Outside, 0));
    tr', steps' := Performs(tr', steps', CallLock(3, false), Two(None, 0, 0, Outside, COUNTS, AtTry(false), 0));
    tr', steps' := Performs(tr', steps', TryLock(3), Two(Some(3), 0, 0, Outside, COUNTS, AtStore, 0));
  }

  /** After 2^16 + 1 locks one unlock releases the mutex, with 2^16 to go, and
      another thread gets it: two threads have it locked at once. */
  lemma WrappedCountReleases() returns (tr: seq<State>, steps: seq<Step>, i: nat)
    ensures Run(tr, steps) && Early(tr, steps, i)
    ensures tr[|steps|] == Two(Some(3), 3, 1, Outside, COUNTS, Outside, 1)
  {
    hide Run, LeavesMultiple;
    tr, steps := LocksDeep(COUNTS + 1);
    tr, steps, i := UnlocksEarly(tr, steps);
    tr, steps := MutexMoves(tr, steps);
    tr, steps := Performs(tr, steps, StoreOwner(3), Two(Some(3), 3, 0, Outside, COUNTS, AtInc, 0));
    tr, steps := Performs(tr, steps, Increment(3), Two(Some(3), 3, 1, Outside, COUNTS, Outside, 1));
  }
}
