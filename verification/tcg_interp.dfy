/**
 * A small interpreter for the TCG ops of module Tcg, used to state what an
 * emitted snippet does when the translated block runs: which helper it calls
 * with which argument values, whether it reaches a PCC bounds violation, and
 * which TCG values it leaves behind.
 *
 * The helpers, the general-purpose registers and the CPU environment are
 * parameters (a Machine); a helper either returns a value or traps.
 * Execution is bounded by fuel because TCG branches may go backwards.
 */
module TcgInterp {
  import opened Tcg

  /** What the emitted code can observe of the running CPU. */
  datatype Machine = Machine(
    env: int,                                  // cpu_env
    gpr: int -> int,                           // current value of each general register
    call: (Helper, seq<int>) -> Option<int>)   // a helper's result, or None when it traps

  /** How a run of some code ends. */
  datatype Outcome =
    | Finished(temps: map<Temp, int>)          // fell off the end of the code
    | PccFault(addr: nat, numBytes: nat)       // reached gen_raise_pcc_violation
    | HelperFault(helper: Helper, args: seq<int>)  // a check helper trapped
    | Stuck                                    // read an unset value or jumped to an unplaced label
    | OutOfFuel

  function Eval(m: Machine, temps: map<Temp, int>, a: Operand): int
    requires a.Tmp? ==> a.t in temps
  {
    match a
    case Env => m.env
    case Tmp(t) => temps[t]
  }

  /** The argument values of a helper call, or None when one of them is unset. */
  function EvalArgs(m: Machine, temps: map<Temp, int>, args: seq<Operand>): (r: Option<seq<int>>)
    ensures r.Some? <==> forall i :: 0 <= i < |args| ==> (args[i].Tmp? ==> args[i].t in temps)
    ensures r.Some? ==> |r.value| == |args|
    ensures r.Some? ==> forall i :: 0 <= i < |args| ==> r.value[i] == Eval(m, temps, args[i])
  {
    if args == [] then Some([])
    else if args[0].Tmp? && args[0].t !in temps then None
    else match EvalArgs(m, temps, args[1..])
      case None => None
      case Some(rest) => Some([Eval(m, temps, args[0])] + rest)
  }

  /** What one op does, apart from where control goes in the code around it. */
  datatype Effect =
    | Next(temps: map<Temp, int>)                 // fall through to the following op
    | Jump(lbl: Label, temps: map<Temp, int>)     // branch to where the label is placed
    | Stop(outcome: Outcome)

  function Exec(m: Machine, op: Op, temps: map<Temp, int>): (r: Effect)
    ensures r.Stop? ==> !r.outcome.Finished? && !r.outcome.OutOfFuel?
    ensures r.Jump? ==> op.BrCondEqZero? && r.lbl == op.lbl
  {
    match op
    case ConstI32(d, v) => Next(temps[d := v])
    case ConstTl(d, v) => Next(temps[d := v])
    case AddI(d, s, imm) =>
      if s in temps then Next(temps[d := temps[s] + imm]) else Stop(Stuck)
    case GetGpr(d, reg) => Next(temps[d := m.gpr(reg)])
    case HelperCall(h, ret, args) =>
      (match EvalArgs(m, temps, args)
       case None => Stop(Stuck)
       case Some(vals) =>
         match m.call(h, vals)
         case None => Stop(HelperFault(h, vals))
         case Some(v) => Next(temps[ret := v]))
    case RaisePcc(addr, n) => Stop(PccFault(addr, n))
    case BrCondEqZero(c, l) =>
      if c !in temps then Stop(Stuck)
      else if temps[c] != 0 then Next(temps)
      else Jump(l, temps)
    case SetLabel(_) => Next(temps)
    case FreeTemp(t) => Next(temps - {t})
  }

  /** The effect of executing the op at pc of the code. */
  datatype Step = Continue(pc: nat, temps: map<Temp, int>) | Halt(outcome: Outcome)

  function StepAt(m: Machine, code: seq<Op>, pc: nat, temps: map<Temp, int>): (r: Step)
    requires pc < |code|
    ensures r.Continue? ==> r.pc <= |code|
    ensures r.Halt? ==> !r.outcome.Finished? && !r.outcome.OutOfFuel?
  {
    match Exec(m, code[pc], temps)
    case Next(temps') => Continue(pc + 1, temps')
    case Jump(l, temps') =>
      (match LabelIndex(code, l)
       case None => Halt(Stuck)
       case Some(j) => Continue(j, temps'))
    case Stop(o) => Halt(o)
  }

  /** Run the code from instruction pc with at most fuel steps. */
  function Run(m: Machine, code: seq<Op>, pc: nat, temps: map<Temp, int>, fuel: nat): Outcome
    decreases fuel
  {
    if pc >= |code| then Finished(temps)
    else if fuel == 0 then OutOfFuel
    else
      var st := StepAt(m, code, pc, temps);
      if st.Continue? then Run(m, code, st.pc, st.temps, fuel - 1) else st.outcome
  }

  /** One step of a run that continues. */
  lemma RunContinues(m: Machine, code: seq<Op>, pc: nat, temps: map<Temp, int>, fuel: nat,
                     next: nat, temps': map<Temp, int>)
    requires pc < |code| && fuel > 0
    requires StepAt(m, code, pc, temps) == Continue(next, temps')
    ensures Run(m, code, pc, temps, fuel) == Run(m, code, next, temps', fuel - 1)
  {
  }

  /** The end of a snippet whose last effective op is a check helper writing ret. */
  function HelperOutcome(m: Machine, h: Helper, vals: seq<int>, temps: map<Temp, int>, ret: Temp): Outcome
  {
    match m.call(h, vals)
    case None => HelperFault(h, vals)
    case Some(v) => Finished(temps[ret := v])
  }

  /** The step of a check helper call that writes ret and falls through to next. */
  function HelperStep(m: Machine, h: Helper, vals: seq<int>, temps: map<Temp, int>, ret: Temp, next: nat): Step
  {
    match m.call(h, vals)
    case None => Halt(HelperFault(h, vals))
    case Some(v) => Continue(next, temps[ret := v])
  }

  /** More fuel does not change a run that did not run out of fuel. */
  lemma {:induction false} RunMonotone(m: Machine, code: seq<Op>, pc: nat, temps: map<Temp, int>, f: nat, g: nat)
    requires f <= g
    requires Run(m, code, pc, temps, f) != OutOfFuel
    ensures Run(m, code, pc, temps, g) == Run(m, code, pc, temps, f)
    decreases f
  {
    if pc < |code| {
      match StepAt(m, code, pc, temps)
      case Continue(next, temps') =>
        RunMonotone(m, code, next, temps', f - 1, g - 1);
      case Halt(_) =>
    }
  }

  /** One step inside the prefix is the same step when more code follows, unless it jumps to an unplaced label. */
  lemma StepPrefix(m: Machine, pre: seq<Op>, s: seq<Op>, pc: nat, temps: map<Temp, int>)
    requires pc < |pre|
    requires StepAt(m, pre, pc, temps) != Halt(Stuck) || !Exec(m, pre[pc], temps).Jump?
    ensures StepAt(m, pre + s, pc, temps) == StepAt(m, pre, pc, temps)
  {
    assert (pre + s)[pc] == pre[pc];
    var e := Exec(m, pre[pc], temps);
    if e.Jump? {
      LabelIndexAppendPlaced(pre, s, e.lbl);
    }
  }

  /**
   * Code appended after a prefix does not disturb the prefix: if the prefix
   * runs from pc to its end, the longer code runs from pc to the same point.
   */
  lemma {:induction false} RunPrefix(m: Machine, pre: seq<Op>, s: seq<Op>, pc: nat, temps: map<Temp, int>,
                                     f: nat, temps': map<Temp, int>, g: nat)
    requires pc <= |pre|
    requires Run(m, pre, pc, temps, f) == Finished(temps')
    requires Run(m, pre + s, |pre|, temps', g) != OutOfFuel
    ensures Run(m, pre + s, pc, temps, f + g) == Run(m, pre + s, |pre|, temps', g)
    decreases f
  {
    if pc == |pre| {
      RunMonotone(m, pre + s, |pre|, temps', g, f + g);
    } else {
      var st := StepAt(m, pre, pc, temps);
      StepPrefix(m, pre, s, pc, temps);
      RunPrefix(m, pre, s, st.pc, st.temps, f - 1, temps', g);
    }
  }

  /**
   * A run of the prefix that stops at a fault (a PCC violation or a helper
   * that traps) stops the same way when more code follows: nothing appended
   * later executes.
   */
  lemma {:induction false} RunPrefixHalts(m: Machine, pre: seq<Op>, s: seq<Op>, pc: nat, temps: map<Temp, int>, f: nat)
    requires pc <= |pre|
    requires Run(m, pre, pc, temps, f).PccFault? || Run(m, pre, pc, temps, f).HelperFault?
    ensures Run(m, pre + s, pc, temps, f) == Run(m, pre, pc, temps, f)
    decreases f
  {
    var st := StepAt(m, pre, pc, temps);
    StepPrefix(m, pre, s, pc, temps);
    if st.Continue? {
      RunPrefixHalts(m, pre, s, st.pc, st.temps, f - 1);
    }
  }

  /** One step of code placed after a prefix with labels of its own is the step of that code, shifted. */
  lemma StepShift(m: Machine, pre: seq<Op>, s: seq<Op>, i: nat, temps: map<Temp, int>)
    requires i < |s|
    requires LabelsIn(s) !! LabelsIn(pre)
    ensures StepAt(m, s, i, temps).Continue? ==>
              StepAt(m, pre + s, |pre| + i, temps) == Continue(|pre| + StepAt(m, s, i, temps).pc, StepAt(m, s, i, temps).temps)
    ensures StepAt(m, s, i, temps).Halt? ==> StepAt(m, pre + s, |pre| + i, temps) == StepAt(m, s, i, temps)
  {
    assert (pre + s)[|pre| + i] == s[i];
    var e := Exec(m, s[i], temps);
    if e.Jump? {
      LabelsInContains(s, i);
      LabelIndexAppendFresh(pre, s, e.lbl);
    }
  }

  /**
   * Code placed after a prefix runs as it would on its own, provided it
   * mentions no label the prefix mentions.
   */
  lemma {:induction false} RunShift(m: Machine, pre: seq<Op>, s: seq<Op>, i: nat, temps: map<Temp, int>, f: nat)
    requires LabelsIn(s) !! LabelsIn(pre)
    ensures Run(m, pre + s, |pre| + i, temps, f) == Run(m, s, i, temps, f)
    decreases f
  {
    if i < |s| && f > 0 {
      var st := StepAt(m, s, i, temps);
      StepShift(m, pre, s, i, temps);
      if st.Continue? {
        RunShift(m, pre, s, st.pc, st.temps, f - 1);
      }
    }
  }

  /**
   * Emission order is execution order: when the code emitted so far runs to
   * its end, code appended to it (with labels of its own) then runs exactly
   * as it would on its own, from the values the prefix left.
   */
  lemma Compose(m: Machine, pre: seq<Op>, s: seq<Op>, temps: map<Temp, int>, f: nat, temps': map<Temp, int>, g: nat)
    requires Run(m, pre, 0, temps, f) == Finished(temps')
    requires LabelsIn(s) !! LabelsIn(pre)
    requires Run(m, s, 0, temps', g) != OutOfFuel
    ensures Run(m, pre + s, 0, temps, f + g) == Run(m, s, 0, temps', g)
  {
    RunShift(m, pre, s, 0, temps', g);
    assert |pre| + 0 == |pre|;
    RunPrefix(m, pre, s, 0, temps, f, temps', g);
  }

  /** Compose, with any fuel that covers both parts. */
  lemma ComposeWithin(m: Machine, pre: seq<Op>, s: seq<Op>, temps: map<Temp, int>, f: nat, temps': map<Temp, int>,
                      g: nat, fuel: nat)
    requires Run(m, pre, 0, temps, f) == Finished(temps')
    requires LabelsIn(s) !! LabelsIn(pre)
    requires Run(m, s, 0, temps', g) != OutOfFuel
    requires f + g <= fuel
    ensures Run(m, pre + s, 0, temps, fuel) == Run(m, s, 0, temps', g)
  {
    Compose(m, pre, s, temps, f, temps', g);
    RunMonotone(m, pre + s, 0, temps, f + g, fuel);
  }
}
