/**
 * The single-slot handoff of the pending activation code: written by the
 * install request, read later by the OS callback, cleared on a terminal
 * activity result.
 */
module ActivationCodeStore {
  import opened Wrappers

  /** The slot; `None` is Kotlin's `null`. */
  datatype Store = Store(slot: Option<string>)

  /** The slot as the process starts: nothing pending. */
  function Initial(): (s: Store)
    ensures Get(s) == None
  {
    Store(None)
  }

  /** `set(code)`: overwrite unconditionally, whatever was pending. */
  function Set(s: Store, code: string): (r: Store)
    ensures Get(r) == Some(code)
  {
    Store(Some(code))
  }

  /** `get()`: read the slot. */
  function Get(s: Store): Option<string> {
    s.slot
  }

  /** `clear()`: forget the pending code. */
  function Clear(s: Store): (r: Store)
    ensures Get(r) == None
  {
    Store(None)
  }

  /**
   * `get()` answers exactly what the slot holds: writing its answer back
   * (a `set` of the code, or a `clear` for null) changes nothing.
   */
  lemma ReadThenWriteBack(s: Store)
    ensures Get(s).Some? ==> Set(s, Get(s).value) == s
    ensures Get(s).None? ==> Clear(s) == s && s == Initial()
  {
  }

  /** Last write wins, and no earlier code survives a newer `set`. */
  lemma LastWriteWins(s: Store, a: string, b: string)
    ensures Set(Set(s, a), b) == Set(s, b)
    ensures Get(Set(Set(s, a), b)) == Some(b)
  {
  }

  /** `clear()` is idempotent. */
  lemma ClearIdempotent(s: Store)
    ensures Clear(Clear(s)) == Clear(s)
  {
  }

  // ---------------------------------------------------------------------
  // The store driven by an arbitrary sequence of calls
  // ---------------------------------------------------------------------

  datatype Op = SetOp(code: string) | GetOp | ClearOp

  /** What one call answers: `get()` returns a value, the others return Unit. */
  datatype Answer = Done | Got(value: Option<string>)

  datatype Trace = Trace(store: Store, answers: seq<Answer>)

  function Apply(s: Store, op: Op): Store {
    match op
    case SetOp(c) => Set(s, c)
    case GetOp => s
    case ClearOp => Clear(s)
  }

  function AnswerOf(s: Store, op: Op): Answer {
    if op.GetOp? then Got(Get(s)) else Done
  }

  /** Performs the calls one after another, recording what each answered. */
  function Run(s: Store, ops: seq<Op>): (t: Trace)
    ensures |t.answers| == |ops|
    decreases |ops|
  {
    if |ops| == 0 then Trace(s, [])
    else
      var rest := Run(Apply(s, ops[0]), ops[1..]);
      Trace(rest.store, [AnswerOf(s, ops[0])] + rest.answers)
  }

  /**
   * Reference reading of the slot: the most recent `set` or `clear` in
   * `ops` decides it, reads are transparent, and with neither the initial
   * content remains.
   */
  function LatestWrite(init: Option<string>, ops: seq<Op>): Option<string> {
    if |ops| == 0 then init
    else
      match ops[|ops| - 1]
      case SetOp(c) => Some(c)
      case ClearOp => None
      case GetOp => LatestWrite(init, ops[..|ops| - 1])
  }

  lemma {:induction false} LatestWriteHead(init: Option<string>, op: Op, ops: seq<Op>)
    ensures LatestWrite(init, [op] + ops) == LatestWrite(Get(Apply(Store(init), op)), ops)
    decreases |ops|
  {
    if |ops| == 0 {
      assert [op] + ops == [op];
      assert ([op] + ops)[..0] == [];
    } else {
      var last := |ops| - 1;
      assert ([op] + ops)[..|[op] + ops| - 1] == [op] + ops[..last];
      assert ([op] + ops)[|[op] + ops| - 1] == ops[last];
      if ops[last].GetOp? {
        LatestWriteHead(init, op, ops[..last]);
      }
    }
  }

  /**
   * Running the calls leaves exactly the latest write in the slot, and every
   * `get()` answers the latest write before it: reads never change the slot
   * and a read after `set(c)` (with no write in between) returns `c`.
   */
  lemma {:induction false} RunMatchesLatestWrite(s: Store, ops: seq<Op>)
    ensures Get(Run(s, ops).store) == LatestWrite(Get(s), ops)
    ensures forall i :: 0 <= i < |ops| && ops[i].GetOp? ==>
      Run(s, ops).answers[i] == Got(LatestWrite(Get(s), ops[..i]))
    decreases |ops|
  {
    if |ops| > 0 {
      var s1 := Apply(s, ops[0]);
      RunMatchesLatestWrite(s1, ops[1..]);
      assert s1 == Store(Get(s1));
      LatestWriteHead(Get(s), ops[0], ops[1..]);
      assert [ops[0]] + ops[1..] == ops;
      forall i | 0 <= i < |ops| && ops[i].GetOp?
        ensures Run(s, ops).answers[i] == Got(LatestWrite(Get(s), ops[..i]))
      {
        if i == 0 {
          assert ops[..0] == [];
        } else {
          assert ops[1..][i - 1] == ops[i];
          assert ops[1..][..i - 1] == ops[1..i];
          LatestWriteHead(Get(s), ops[0], ops[1..i]);
          assert [ops[0]] + ops[1..i] == ops[..i];
        }
      }
    }
  }

  /** Two consecutive reads return the same value. */
  lemma ConsecutiveReadsAgree(s: Store, ops: seq<Op>, i: nat)
    requires i + 1 < |ops| && ops[i] == GetOp && ops[i + 1] == GetOp
    ensures Run(s, ops).answers[i] == Run(s, ops).answers[i + 1]
  {
    RunMatchesLatestWrite(s, ops);
    assert ops[..i + 1][..i] == ops[..i];
  }

  /** Without an earlier `set`, a read on the initial slot returns null. */
  lemma {:induction false} NoSetNoCode(ops: seq<Op>)
    requires forall j :: 0 <= j < |ops| ==> !ops[j].SetOp?
    ensures LatestWrite(Get(Initial()), ops) == None
    decreases |ops|
  {
    if |ops| > 0 && ops[|ops| - 1].GetOp? {
      NoSetNoCode(ops[..|ops| - 1]);
    }
  }

  /** A read that no `set` precedes, starting from the initial slot, returns null. */
  lemma ReadBeforeSetIsNull(ops: seq<Op>, i: nat)
    requires i < |ops| && ops[i] == GetOp
    requires forall j :: 0 <= j < i ==> !ops[j].SetOp?
    ensures Run(Initial(), ops).answers[i] == Got(None)
  {
    var prefix := ops[..i];
    assert forall j :: 0 <= j < |prefix| ==> prefix[j] == ops[j];
    NoSetNoCode(prefix);
    RunMatchesLatestWrite(Initial(), ops);
  }
}
