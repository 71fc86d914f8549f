/**
 Per-CPU scheduler totals: fair weight, deadline utilization and the two task
 counts, kept up to date by insertion, removal, stealing, migration and changes of
 effective profile.
 */
module SchedulerTotals {
  import opened Aggregates
  import opened Basics
  import opened Profiles

  type Cpu = nat

  datatype Transient = NotMoving | Rescheduling | Stolen | Migrating

  /** active: counted in the totals of cpu; while stolen or migrating cpu still names the source. */
  datatype Task = Task(eff: EffectiveProfile, active: bool, cpu: Option<Cpu>, transient: Transient, idle: bool)

  datatype Totals = Totals(weight: int, utilization: int, fairTasks: int, deadlineTasks: int)

  const NOTHING := Totals(0, 0, 0, 0)

  function Plus(a: Totals, b: Totals): Totals {
    Totals(a.weight + b.weight, a.utilization + b.utilization, a.fairTasks + b.fairTasks,
           a.deadlineTasks + b.deadlineTasks)
  }

  function Minus(a: Totals, b: Totals): Totals {
    Totals(a.weight - b.weight, a.utilization - b.utilization, a.fairTasks - b.fairTasks,
           a.deadlineTasks - b.deadlineTasks)
  }

  function Share(eff: EffectiveProfile): Totals {
    match eff
    case EffFair(w) => Totals(w, 0, 1, 0)
    case EffDeadline(u, _) => Totals(0, u, 0, 1)
  }

  /** The totals recomputed from scratch. */
  ghost function Sum<K>(m: map<K, Totals>): Totals {
    Fold(m, NOTHING, Plus)
  }

  lemma SumSplit<K>(m: map<K, Totals>, k: K)
    requires k in m
    ensures Sum(m) == Plus(m[k], Sum(m - {k}))
  {
    FoldSplit(m, NOTHING, Plus, k);
  }

  /** The shares of the threads counted on a CPU. */
  function ActiveOn(threads: map<ThreadId, Task>, c: Cpu): map<ThreadId, Totals> {
    map t | t in threads && threads[t].active && threads[t].cpu == Some(c) :: Share(threads[t].eff)
  }

  /** An active thread is assigned to a live CPU and is never an idle thread. */
  predicate Placed(threads: map<ThreadId, Task>, totals: map<Cpu, Totals>) {
    forall t :: t in threads && threads[t].active ==>
      threads[t].cpu.Some? && threads[t].cpu.value in totals && !threads[t].idle
  }

  ghost predicate Summed(threads: map<ThreadId, Task>, totals: map<Cpu, Totals>) {
    forall c :: c in totals ==> totals[c] == Sum(ActiveOn(threads, c))
  }

  /** Where a thread is counted, if anywhere. */
  function CountedOn(k: Task): Option<Cpu> {
    if k.active then k.cpu else None
  }

  /** What a change of one thread's record must do to the totals of one CPU. */
  function Shift(x: Totals, before: Task, after: Task, c: Cpu): Totals {
    var less := if CountedOn(before) == Some(c) then Minus(x, Share(before.eff)) else x;
    if CountedOn(after) == Some(c) then Plus(less, Share(after.eff)) else less
  }

  lemma ActiveWithout(threads: map<ThreadId, Task>, t: ThreadId, c: Cpu)
    requires t in threads
    ensures var m := ActiveOn(threads, c);
            Sum(m) ==
            if CountedOn(threads[t]) == Some(c) then Plus(Share(threads[t].eff), Sum(m - {t})) else Sum(m - {t})
  {
    var m := ActiveOn(threads, c);
    if CountedOn(threads[t]) == Some(c) {
      SumSplit(m, t);
    } else {
      assert m - {t} == m;
    }
  }

  lemma OthersUnmoved(threads: map<ThreadId, Task>, t: ThreadId, k: Task, c: Cpu)
    requires t in threads
    ensures ActiveOn(threads[t := k], c) - {t} == ActiveOn(threads, c) - {t}
  {
  }

  lemma ActiveShift(threads: map<ThreadId, Task>, t: ThreadId, k: Task, c: Cpu)
    requires t in threads
    ensures Sum(ActiveOn(threads[t := k], c)) == Shift(Sum(ActiveOn(threads, c)), threads[t], k, c)
  {
    hide ActiveOn, Sum;
    ActiveWithout(threads, t, c);
    ActiveWithout(threads[t := k], t, c);
    OthersUnmoved(threads, t, k, c);
  }

  /** One thread's record changes and the totals move with it. */
  lemma RecordChange(threads: map<ThreadId, Task>, totals: map<Cpu, Totals>, t: ThreadId, k: Task,
                     totals': map<Cpu, Totals>)
    requires t in threads && Summed(threads, totals) && totals'.Keys == totals.Keys
    requires forall c :: c in totals ==> totals'[c] == Shift(totals[c], threads[t], k, c)
    ensures Summed(threads[t := k], totals')
  {
    forall c | c in totals' ensures totals'[c] == Sum(ActiveOn(threads[t := k], c)) {
      ActiveShift(threads, t, k, c);
    }
  }

  class Schedulers {
    var threads: map<ThreadId, Task>
    var totals: map<Cpu, Totals>

    ghost predicate Exact()
      reads this
    {
      Placed(threads, totals) && Summed(threads, totals)
    }

    /** Insert on the scheduler of CPU c; does nothing for a thread that is already active. */
    method Insert(c: Cpu, t: ThreadId)
      requires Exact() && t in threads && c in totals && !threads[t].idle
      modifies this
      ensures Exact() && totals.Keys == old(totals.Keys)
      ensures threads == if old(threads[t].active) then old(threads)
                         else old(threads)[t := old(threads[t]).(active := true, cpu := Some(c))]
    {
      hide Summed;
      ghost var threads0, totals0 := threads, totals;
      var k := threads[t];
      if !k.active {
        threads := threads[t := k.(active := true, cpu := Some(c))];
        var x := totals[c];
        if k.eff.EffFair? {
          totals := totals[c := x.(fairTasks := x.fairTasks + 1, weight := x.weight + k.eff.weight)];
        } else {
          totals := totals[c := x.(utilization := x.utilization + k.eff.utilization,
                                   deadlineTasks := x.deadlineTasks + 1)];
        }
        RecordChange(threads0, totals0, t, threads[t], totals);
      }
    }

    /** RemoveForTransition on the scheduler the thread is counted on; the thread keeps its CPU. */
    method RemoveForTransition(c: Cpu, t: ThreadId, target: Transient)
      requires Exact() && t in threads && c in totals && !threads[t].idle
      requires threads[t].transient == NotMoving && target != Rescheduling
      requires threads[t].active ==> threads[t].cpu == Some(c)
      modifies this
      ensures Exact() && totals.Keys == old(totals.Keys)
      ensures threads == old(threads)[t := old(threads[t]).(active := false, transient := target)]
    {
      hide Summed;
      ghost var threads0, totals0 := threads, totals;
      var k := threads[t];
      threads := threads[t := k.(active := false, transient := target)];
      if k.active {
        var x := totals[c];
        if k.eff.EffFair? {
          totals := totals[c := x.(fairTasks := x.fairTasks - 1, weight := x.weight - k.eff.weight)];
        } else {
          totals := totals[c := x.(utilization := x.utilization - k.eff.utilization,
                                   deadlineTasks := x.deadlineTasks - 1)];
        }
      }
      RecordChange(threads0, totals0, t, threads[t], totals);
    }

    /** Remove: as above, and the thread leaves its CPU. */
    method Remove(c: Cpu, t: ThreadId, reason: Transient)
      requires Exact() && t in threads && c in totals && !threads[t].idle
      requires threads[t].transient == NotMoving && reason != Rescheduling
      requires threads[t].active ==> threads[t].cpu == Some(c)
      modifies this
      ensures Exact() && totals.Keys == old(totals.Keys)
      ensures threads == old(threads)[t := old(threads[t]).(active := false, transient := reason, cpu := None)]
    {
      hide Summed;
      RemoveForTransition(c, t, reason);
      ghost var threads1 := threads;
      threads := threads[t := threads[t].(cpu := None)];
      Relabel(threads1, totals, t, threads[t]);
    }

    /** FinishTransition on the scheduler the thread moves to. */
    method FinishTransition(c: Cpu, t: ThreadId)
      requires Exact() && t in threads && c in totals && !threads[t].idle && !threads[t].active
      requires threads[t].transient == Migrating || threads[t].transient == Stolen
      modifies this
      ensures Exact() && totals.Keys == old(totals.Keys)
      ensures threads == old(threads)[t := old(threads[t]).(active := true, cpu := Some(c),
                           transient := if old(threads[t].transient) == Migrating then NotMoving else Rescheduling)]
    {
      hide Summed;
      var moving := threads[t].transient;
      Insert(c, t);
      ghost var threads1 := threads;
      threads := threads[t := threads[t].(transient := if moving == Migrating then NotMoving else Rescheduling)];
      Relabel(threads1, totals, t, threads[t]);
    }

    /** A thread is marked as mid-reschedule, or arrives. */
    method MarkRescheduling(t: ThreadId, rescheduling: bool)
      requires Exact() && t in threads && threads[t].transient == if rescheduling then NotMoving else Rescheduling
      modifies this`threads
      ensures Exact()
      ensures threads ==
              old(threads)[t := old(threads[t]).(transient := if rescheduling then Rescheduling else NotMoving)]
    {
      hide Summed;
      ghost var threads0 := threads;
      threads := threads[t := threads[t].(transient := if rescheduling then Rescheduling else NotMoving)];
      Relabel(threads0, totals, t, threads[t]);
    }

    /**
     The bookkeeping of HandlePiInteractionCommon: the effective profile changes in
     whatever state the event finds the thread, running, queued or between two CPUs.
     */
    method EffectiveProfileChanged(t: ThreadId, eff: EffectiveProfile)
      requires Exact() && t in threads
      modifies this
      ensures Exact() && totals.Keys == old(totals.Keys)
      ensures threads == old(threads)[t := old(threads[t]).(eff := eff)]
    {
      hide Summed;
      ghost var threads0, totals0 := threads, totals;
      var k := threads[t];
      threads := threads[t := k.(eff := eff)];
      if k.cpu.Some? && k.active {
        var x := totals[k.cpu.value];
        if k.eff.EffFair? {
          x := x.(weight := x.weight - k.eff.weight, fairTasks := x.fairTasks - 1);
        } else {
          x := x.(utilization := x.utilization - k.eff.utilization, deadlineTasks := x.deadlineTasks - 1);
        }
        if eff.EffFair? {
          x := x.(weight := x.weight + eff.weight, fairTasks := x.fairTasks + 1);
        } else {
          x := x.(utilization := x.utilization + eff.utilization, deadlineTasks := x.deadlineTasks + 1);
        }
        totals := totals[k.cpu.value := x];
      }
      RecordChange(threads0, totals0, t, threads[t], totals);
    }

    /**
     InitializeFirstThread writes the weight total instead of adding to it, so the
     totals stay exact if and only if the CPU had no fair weight before.  Its only caller
     sets up the first thread of a CPU.
     */
    method InitializeFirstThread(c: Cpu, t: ThreadId, weight: int)
      requires Exact() && t in threads && c in totals && !threads[t].idle && !threads[t].active
      modifies this
      ensures Exact() <==> old(totals[c].weight) == 0
      ensures threads == old(threads)[t := Task(EffFair(weight), true, Some(c), NotMoving, false)]
      ensures totals == old(totals)[c := old(totals[c]).(weight := weight, fairTasks := old(totals[c].fairTasks) + 1)]
    {
      ghost var threads0, totals0 := threads, totals;
      threads := threads[t := Task(EffFair(weight), true, Some(c), NotMoving, false)];
      totals := totals[c := totals[c].(weight := weight, fairTasks := totals[c].fairTasks + 1)];
      OverwriteExactIff(threads0, totals0, t, threads[t], c, totals);
      hide Summed;
    }

    /** RemoveFirstThread: the boot thread stops counting and turns idle. */
    method RemoveFirstThread(c: Cpu, t: ThreadId, idleWeight: int)
      requires Exact() && t in threads && c in totals
      requires threads[t].active && threads[t].cpu == Some(c) && threads[t].eff.EffFair?
      modifies this
      ensures Exact() && totals.Keys == old(totals.Keys)
      ensures threads == old(threads)[t := old(threads[t]).(active := false, eff := EffFair(idleWeight))]
    {
      hide Summed;
      ghost var threads0, totals0 := threads, totals;
      var k := threads[t];
      threads := threads[t := k.(active := false, eff := EffFair(idleWeight))];
      totals := totals[c := totals[c].(weight := totals[c].weight - k.eff.weight,
                                       fairTasks := totals[c].fairTasks - 1)];
      RecordChange(threads0, totals0, t, threads[t], totals);
    }
  }

  /** A total that is written rather than adjusted is right exactly if nothing was there before. */
  lemma OverwriteExactIff(threads: map<ThreadId, Task>, totals: map<Cpu, Totals>, t: ThreadId, k: Task, c: Cpu,
                          totals': map<Cpu, Totals>)
    requires t in threads && c in totals && Summed(threads, totals) && !threads[t].active
    requires k.active && k.cpu == Some(c) && k.eff.EffFair?
    requires totals' == totals[c := totals[c].(weight := k.eff.weight, fairTasks := totals[c].fairTasks + 1)]
    ensures Summed(threads[t := k], totals') <==> totals[c].weight == 0
  {
    ActiveShift(threads, t, k, c);
    if totals[c].weight == 0 {
      RecordChange(threads, totals, t, k, totals');
    } else {
      assert totals'[c] != Sum(ActiveOn(threads[t := k], c));
    }
  }

  /** A change of record that moves no count. */
  lemma Relabel(threads: map<ThreadId, Task>, totals: map<Cpu, Totals>, t: ThreadId, k: Task)
    requires t in threads && Summed(threads, totals)
    requires CountedOn(k) == CountedOn(threads[t]) && k.eff == threads[t].eff
    ensures Summed(threads[t := k], totals)
  {
    RecordChange(threads, totals, t, k, totals);
  }
}
