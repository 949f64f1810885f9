/** `runPromisesInSequence` as a specification: perform the tasks one after
    the other, each on the account the previous one left, and stop at the first
    task that fails, which makes the whole run fail (src/index.ts:35-40,
    index.ts:22-27). The one-second pause between tasks is not modelled. */
module Runner {
  import opened Provider

  function RunSpec<T>(a: Account, tasks: seq<T>, perform: (Account, T) -> Outcome): Outcome
    decreases |tasks|
  {
    if tasks == [] then Outcome(true, a)
    else
      var o := perform(a, tasks[0]);
      if !o.ok then o else RunSpec(o.account, tasks[1..], perform)
  }

  /** Running two task sequences one after the other: the second starts from
      where the first left the account, and not at all when the first failed. */
  lemma {:induction false} RunAppend<T>(a: Account, t1: seq<T>, t2: seq<T>, f: (Account, T) -> Outcome)
    ensures var o := RunSpec(a, t1, f);
            RunSpec(a, t1 + t2, f) == if o.ok then RunSpec(o.account, t2, f) else o
    decreases |t1|
  {
    if t1 == [] {
      assert t1 + t2 == t2;
    } else {
      assert (t1 + t2)[0] == t1[0] && (t1 + t2)[1..] == t1[1..] + t2;
      var o := f(a, t1[0]);
      if o.ok {
        RunAppend(o.account, t1[1..], t2, f);
      }
    }
  }

  /** When every task before position k succeeds and task k fails, the run
      ends with the outcome of task k: none of the tasks after it is performed. */
  lemma RunStopsAt<T>(a: Account, tasks: seq<T>, k: nat, f: (Account, T) -> Outcome)
    requires k < |tasks|
    requires RunSpec(a, tasks[..k], f).ok
    requires !f(RunSpec(a, tasks[..k], f).account, tasks[k]).ok
    ensures RunSpec(a, tasks, f) == f(RunSpec(a, tasks[..k], f).account, tasks[k])
  {
    var b := RunSpec(a, tasks[..k], f).account;
    assert tasks == tasks[..k] + tasks[k..];
    RunAppend(a, tasks[..k], tasks[k..], f);
    assert tasks[k..][0] == tasks[k];
  }

  /** The log grew by new entries only, all successful except perhaps the
      last, whose status is the outcome; a failure always leaves its entry. So
      a failed run ends with the one failed request, and nothing after it. */
  predicate Appended(before: seq<Entry>, after: seq<Entry>, ok: bool)
  {
    |before| <= |after| && after[..|before|] == before &&
    (forall i :: |before| <= i < |after| - 1 ==> after[i].ok) &&
    (|before| < |after| ==> after[|after| - 1].ok == ok) &&
    (!ok ==> |before| < |after|)
  }

  /** A successful step followed by any step is again one step. */
  lemma AppendedTrans(x: seq<Entry>, y: seq<Entry>, z: seq<Entry>, ok: bool)
    requires Appended(x, y, true) && Appended(y, z, ok)
    ensures Appended(x, z, ok)
  {
    assert z[..|x|] == y[..|y|][..|x|];
    forall i | |x| <= i < |z| - 1
      ensures z[i].ok
    {
      if i < |y| {
        assert z[i] == y[i];
      }
    }
  }

  /** A run of tasks that each keep to `Appended` keeps to it as a whole. */
  lemma {:induction false} RunAppended<T>(a: Account, tasks: seq<T>, f: (Account, T) -> Outcome)
    requires forall b: Account, i :: 0 <= i < |tasks| ==> Appended(b.log, f(b, tasks[i]).account.log, f(b, tasks[i]).ok)
    ensures Appended(a.log, RunSpec(a, tasks, f).account.log, RunSpec(a, tasks, f).ok)
    decreases |tasks|
  {
    if tasks != [] {
      var o := f(a, tasks[0]);
      if o.ok {
        forall b: Account, i | 0 <= i < |tasks[1..]|
          ensures Appended(b.log, f(b, tasks[1..][i]).account.log, f(b, tasks[1..][i]).ok)
        {
          assert tasks[1..][i] == tasks[i + 1];
        }
        RunAppended(o.account, tasks[1..], f);
        AppendedTrans(a.log, o.account.log, RunSpec(a, tasks, f).account.log, RunSpec(a, tasks, f).ok);
      }
    }
  }

  /** The stage a request belongs to in the top-level sequence: deleting the
      rule, deleting lists, creating lists, creating the rule; reads are 0. */
  function Phase(op: Op): nat
  {
    match op
    case ListLists => 0
    case ListRules => 0
    case DeleteRule(_) => 1
    case DeleteList(_) => 2
    case CreateList(_) => 3
    case CreateRule(_) => 4
  }

  /** Every request logged from position `from` on that changes something
      belongs to a phase between `lo` and `hi`. */
  predicate Within(log: seq<Entry>, from: nat, lo: nat, hi: nat)
  {
    forall i :: from <= i < |log| && Phase(log[i].op) != 0 ==> lo <= Phase(log[i].op) <= hi
  }

  /** The requests logged from position `from` on that change something come in phase order. */
  predicate Ordered(log: seq<Entry>, from: nat)
  {
    forall i, j :: from <= i < j < |log| && Phase(log[i].op) != 0 && Phase(log[j].op) != 0 ==>
      Phase(log[i].op) <= Phase(log[j].op)
  }

  /** One task only appends to the log, and only requests of phase `p` or reads. */
  predicate StepWithin(b: Account, o: Outcome, p: nat)
  {
    |b.log| <= |o.account.log| && o.account.log[..|b.log|] == b.log && Within(o.account.log, |b.log|, p, p)
  }

  /** Tasks in nondecreasing phase, each keeping to its own phase, log their
      requests in phase order. */
  lemma {:induction false} RunWithin<T>(a: Account, tasks: seq<T>, f: (Account, T) -> Outcome, ph: T -> nat, lo: nat, hi: nat)
    requires forall i :: 0 <= i < |tasks| ==> lo <= ph(tasks[i]) <= hi
    requires forall i, j :: 0 <= i < j < |tasks| ==> ph(tasks[i]) <= ph(tasks[j])
    requires forall b: Account, i :: 0 <= i < |tasks| ==> StepWithin(b, f(b, tasks[i]), ph(tasks[i]))
    ensures |a.log| <= |RunSpec(a, tasks, f).account.log|
    ensures RunSpec(a, tasks, f).account.log[..|a.log|] == a.log
    ensures Within(RunSpec(a, tasks, f).account.log, |a.log|, lo, hi)
    ensures Ordered(RunSpec(a, tasks, f).account.log, |a.log|)
    decreases |tasks|
  {
    if tasks != [] {
      var o := f(a, tasks[0]);
      assert StepWithin(a, o, ph(tasks[0]));
      if o.ok {
        var p := ph(tasks[0]);
        forall b: Account, i | 0 <= i < |tasks[1..]|
          ensures StepWithin(b, f(b, tasks[1..][i]), ph(tasks[1..][i]))
        {
          assert tasks[1..][i] == tasks[i + 1];
        }
        RunWithin(o.account, tasks[1..], f, ph, p, hi);
        var log := RunSpec(a, tasks, f).account.log;
        var mid := |o.account.log|;
        assert log[..mid] == o.account.log;
        assert log[..|a.log|] == a.log;
        forall i | |a.log| <= i < mid
          ensures log[i] == o.account.log[i]
        {
        }
      }
    }
  }

  /** A property of the account that every task keeps holds after the run. */
  lemma {:induction false} RunPreserves<T>(a: Account, tasks: seq<T>, f: (Account, T) -> Outcome, P: Account -> bool)
    requires P(a)
    requires forall b: Account, i :: 0 <= i < |tasks| && P(b) ==> P(f(b, tasks[i]).account)
    ensures P(RunSpec(a, tasks, f).account)
    decreases |tasks|
  {
    if tasks != [] {
      var o := f(a, tasks[0]);
      if o.ok {
        forall b: Account, i | 0 <= i < |tasks[1..]| && P(b)
          ensures P(f(b, tasks[1..][i]).account)
        {
          assert tasks[1..][i] == tasks[i + 1];
        }
        RunPreserves(o.account, tasks[1..], f, P);
      }
    }
  }

  /** Two task sequences whose tasks act alike, position by position, run alike. */
  lemma {:induction false} RunMapped<T, U>(a: Account, ts: seq<T>, us: seq<U>, f: (Account, T) -> Outcome, g: (Account, U) -> Outcome)
    requires |ts| == |us|
    requires forall b: Account, i :: 0 <= i < |ts| ==> f(b, ts[i]) == g(b, us[i])
    ensures RunSpec(a, ts, f) == RunSpec(a, us, g)
    decreases |ts|
  {
    if ts != [] {
      var o := f(a, ts[0]);
      assert o == g(a, us[0]);
      if o.ok {
        forall b: Account, i | 0 <= i < |ts[1..]|
          ensures f(b, ts[1..][i]) == g(b, us[1..][i])
        {
          assert ts[1..][i] == ts[i + 1] && us[1..][i] == us[i + 1];
        }
        RunMapped(o.account, ts[1..], us[1..], f, g);
      }
    }
  }

  /** When every task succeeds from every account satisfying `P`, and keeps
      `P`, a run from such an account succeeds. */
  lemma {:induction false} RunSucceeds<T>(a: Account, tasks: seq<T>, f: (Account, T) -> Outcome, P: Account -> bool)
    requires P(a)
    requires forall b: Account, i :: 0 <= i < |tasks| && P(b) ==> f(b, tasks[i]).ok && P(f(b, tasks[i]).account)
    ensures RunSpec(a, tasks, f).ok
    decreases |tasks|
  {
    if tasks != [] {
      forall b: Account, i | 0 <= i < |tasks[1..]| && P(b)
        ensures f(b, tasks[1..][i]).ok && P(f(b, tasks[1..][i]).account)
      {
        assert tasks[1..][i] == tasks[i + 1];
      }
      RunSucceeds(f(a, tasks[0]).account, tasks[1..], f, P);
    }
  }

  /** A run is its first task, then, when that succeeds, the run of the others. */
  lemma RunCons<T>(a: Account, tasks: seq<T>, f: (Account, T) -> Outcome)
    requires tasks != []
    ensures var o := f(a, tasks[0]);
            RunSpec(a, tasks, f) == if o.ok then RunSpec(o.account, tasks[1..], f) else o
  {
  }
}
