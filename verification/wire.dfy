/** What the host does on the display's lines, as a trace of events, and how a sequence of
    intended events plays out when the SPI bus reports errors. */
module Wire {
  import opened Bytes

  /** One observable action on the chip-select, data/command and reset lines, the SPI bus,
      the delay provider or the busy line. */
  datatype Event =
    | CsLow | CsHigh                 // chip select, active low
    | DcLow | DcHigh                 // data/command select: low = command, high = data
    | RstLow | RstHigh               // reset line, active low
    | DelayMs(ms: nat)               // a blocking delay
    | Wait                           // `wait_until_idle` returned: the busy line read not-busy
    | Write(bytes: seq<Byte>)        // one SPI transfer that the bus accepted
    | WriteError(bytes: seq<Byte>)   // one SPI transfer that the bus reported an error for

  /** A trace the host intends to produce: transfers are attempted, never already failed. */
  predicate Planned(plan: seq<Event>)
  {
    forall i :: 0 <= i < |plan| ==> !plan[i].WriteError?
  }

  /** Number of SPI transfers in a trace. */
  function Transfers(plan: seq<Event>): nat
    decreases |plan|
  {
    if plan == [] then 0 else (if plan[0].Write? then 1 else 0) + Transfers(plan[1..])
  }

  lemma {:induction false} TransfersAppend(a: seq<Event>, b: seq<Event>)
    ensures Transfers(a + b) == Transfers(a) + Transfers(b)
    decreases |a|
  {
    if a == [] {
      assert a + b == b;
    } else {
      assert (a + b)[1..] == a[1..] + b;
      TransfersAppend(a[1..], b);
    }
  }

  /** The result of running a plan: the events that actually happened, whether every
      transfer succeeded, and the number of the next transfer. */
  datatype Outcome = Outcome(events: seq<Event>, ok: bool, next: nat)

  /** Runs `plan` against a bus on which transfer number `k` fails iff `k in faults`, the
      first transfer being number `n`. The run stops right after the first failing transfer,
      as every `?` of the driver does. */
  function Exec(plan: seq<Event>, n: nat, faults: set<nat>): Outcome
    decreases |plan|
  {
    if plan == [] then Outcome([], true, n)
    else if plan[0].Write? && n in faults then Outcome([WriteError(plan[0].bytes)], false, n + 1)
    else
      var rest := Exec(plan[1..], if plan[0].Write? then n + 1 else n, faults);
      Outcome([plan[0]] + rest.events, rest.ok, rest.next)
  }

  /** Running a single event. */
  lemma ExecSingle(e: Event, n: nat, faults: set<nat>)
    ensures Exec([e], n, faults) ==
      if e.Write? && n in faults then Outcome([WriteError(e.bytes)], false, n + 1)
      else Outcome([e], true, if e.Write? then n + 1 else n)
  {
    assert [e][1..] == [];
    assert [e] + [] == [e];
  }

  /** Running `plan` from trace `trace0` and transfer number `n0` ended in trace `trace1`,
      transfer number `n1` and success flag `ok`. */
  ghost predicate Ran(plan: seq<Event>, faults: set<nat>, trace0: seq<Event>, n0: nat,
                      trace1: seq<Event>, n1: nat, ok: bool)
  {
    var r := Exec(plan, n0, faults);
    trace1 == trace0 + r.events && n1 == r.next && ok == r.ok
  }

  /** Running two plans one after the other is running the first and, only if it
      succeeded, the second from where the first left off. */
  lemma {:induction false} ExecAppend(a: seq<Event>, b: seq<Event>, n: nat, faults: set<nat>)
    ensures Exec(a + b, n, faults) ==
      var ra := Exec(a, n, faults);
      if !ra.ok then ra
      else var rb := Exec(b, ra.next, faults); Outcome(ra.events + rb.events, rb.ok, rb.next)
    decreases |a|
  {
    if a == [] {
      assert a + b == b;
    } else {
      assert (a + b)[0] == a[0];
      assert (a + b)[1..] == a[1..] + b;
      if !(a[0].Write? && n in faults) {
        ExecAppend(a[1..], b, if a[0].Write? then n + 1 else n, faults);
      }
    }
  }

  /** A successful run followed by a run of the next plan is a run of both plans. */
  lemma RanThen(a: seq<Event>, b: seq<Event>, faults: set<nat>, t0: seq<Event>, n0: nat,
                t1: seq<Event>, n1: nat, t2: seq<Event>, n2: nat, ok: bool)
    requires Ran(a, faults, t0, n0, t1, n1, true)
    requires Ran(b, faults, t1, n1, t2, n2, ok)
    ensures Ran(a + b, faults, t0, n0, t2, n2, ok)
  {
    var ra, rb := Exec(a, n0, faults), Exec(b, n1, faults);
    ExecAppend(a, b, n0, faults);
    assert Exec(a + b, n0, faults) == Outcome(ra.events + rb.events, rb.ok, rb.next);
    calc {
      t2;
      t1 + rb.events;
      (t0 + ra.events) + rb.events;
      { assert (t0 + ra.events) + rb.events == t0 + (ra.events + rb.events); }
      t0 + (ra.events + rb.events);
    }
  }

  /** A failed run of a prefix of a plan is a failed run of the whole plan: nothing after
      the failing transfer happens. */
  lemma RanStop(a: seq<Event>, plan: seq<Event>, faults: set<nat>, t0: seq<Event>, n0: nat,
                t1: seq<Event>, n1: nat)
    requires a <= plan
    requires Ran(a, faults, t0, n0, t1, n1, false)
    ensures Ran(plan, faults, t0, n0, t1, n1, false)
  {
    ExecAppend(a, plan[|a|..], n0, faults);
    assert a + plan[|a|..] == plan;
  }

  /** A run succeeds iff none of the plan's transfers is faulty; a successful run performs
      exactly the plan and uses up one transfer number per transfer. */
  lemma {:induction false} ExecSucceeds(plan: seq<Event>, n: nat, faults: set<nat>)
    requires Planned(plan)
    ensures Exec(plan, n, faults).ok <==> forall k :: n <= k < n + Transfers(plan) ==> k !in faults
    ensures Exec(plan, n, faults).ok ==>
      Exec(plan, n, faults).events == plan && Exec(plan, n, faults).next == n + Transfers(plan)
    decreases |plan|
  {
    if plan != [] {
      var n' := if plan[0].Write? then n + 1 else n;
      assert Planned(plan[1..]) by {
        forall i | 0 <= i < |plan[1..]| ensures !plan[1..][i].WriteError? {
          assert plan[1..][i] == plan[i + 1];
        }
      }
      ExecSucceeds(plan[1..], n', faults);
    }
  }

  /** A failed run performs the plan up to the failing transfer, records that transfer as
      failed, and does nothing after it. */
  lemma {:induction false} ExecStops(plan: seq<Event>, n: nat, faults: set<nat>)
    requires !Exec(plan, n, faults).ok
    ensures var r := Exec(plan, n, faults); var k := |r.events| - 1;
      0 <= k < |plan| && plan[k].Write? && n + Transfers(plan[..k]) in faults &&
      r.events == plan[..k] + [WriteError(plan[k].bytes)]
    decreases |plan|
  {
    var r := Exec(plan, n, faults);
    if plan[0].Write? && n in faults {
      assert plan[..0] == [];
    } else {
      var n' := if plan[0].Write? then n + 1 else n;
      ExecStops(plan[1..], n', faults);
      var k := |r.events| - 1;
      assert plan[..k] == [plan[0]] + plan[1..][..k - 1];
      assert Transfers(plan[..k]) == (if plan[0].Write? then 1 else 0) + Transfers(plan[1..][..k - 1]) by {
        assert plan[..k][1..] == plan[1..][..k - 1];
      }
    }
  }
}
