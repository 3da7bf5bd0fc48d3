/**
 * The slice of QEMU's TCG intermediate representation that the CHERI
 * capability-check emitters use, and the op stream they append to.
 *
 * A TCG value (a TCGv, TCGv_i32 or TCGv_cap_checked_ptr handle) is a
 * temporary index; a TCGLabel is a label number. The op stream of the
 * translation block being built is the class TcgContext: its methods are the
 * TCG primitives the emitters call (tcg_const_i32, tcg_const_tl,
 * tcg_temp_free, gen_new_label and the generators that append one op).
 */
module Tcg {

  datatype Option<T> = None | Some(value: T)

  /** Index of a TCG value (global or temporary). */
  type Temp = nat

  /** Number of a TCG label. */
  type Label = nat

  /** An argument of a helper call: the CPU environment pointer or a TCG value. */
  datatype Operand = Env | Tmp(t: Temp)

  /** The three classes of capability-checked memory access. */
  datatype AccessKind = Load | Store | Rmw

  /** The runtime helpers the emitted code calls; their bodies are not modelled. */
  datatype Helper =
    | CapCheck(kind: AccessKind)   // gen_helper_cap_{load,store,rmw}_check
    | DdcCheck(callback: nat)      // the check_ddc callback chosen by the caller

  /** One emitted IR instruction. */
  datatype Op =
    | ConstI32(dst: Temp, value: int)                              // tcg_const_i32
    | ConstTl(dst: Temp, value: int)                               // tcg_const_tl
    | AddI(dst: Temp, src: Temp, imm: int)                         // tcg_gen_addi_tl
    | GetGpr(dst: Temp, reg: int)                                  // gen_get_gpr / gen_load_gpr
    | HelperCall(helper: Helper, ret: Temp, args: seq<Operand>)    // gen_helper_* call
    | RaisePcc(addr: nat, numBytes: nat)                           // gen_raise_pcc_violation
    | BrCondEqZero(cond: Temp, lbl: Label)                         // tcg_gen_brcondi_tl(TCG_COND_EQ, cond, 0, lbl)
    | SetLabel(lbl: Label)                                         // gen_set_label
    | FreeTemp(t: Temp)                                            // tcg_temp_free*

  /** The labels an op mentions. */
  function OpLabels(op: Op): set<Label>
  {
    match op
    case BrCondEqZero(_, l) => {l}
    case SetLabel(l) => {l}
    case _ => {}
  }

  /** The labels mentioned anywhere in a stretch of code. */
  function LabelsIn(code: seq<Op>): set<Label>
  {
    if code == [] then {} else OpLabels(code[0]) + LabelsIn(code[1..])
  }

  lemma {:induction false} LabelsInAppend(a: seq<Op>, b: seq<Op>)
    ensures LabelsIn(a + b) == LabelsIn(a) + LabelsIn(b)
  {
    if a == [] {
      assert a + b == b;
    } else {
      assert (a + b)[0] == a[0];
      assert (a + b)[1..] == a[1..] + b;
      LabelsInAppend(a[1..], b);
    }
  }

  /** Code none of whose ops mentions a label mentions no label. */
  lemma {:induction false} LabelsInNone(code: seq<Op>)
    requires forall i :: 0 <= i < |code| ==> OpLabels(code[i]) == {}
    ensures LabelsIn(code) == {}
  {
    if code != [] {
      assert OpLabels(code[0]) == {};
      assert forall i :: 0 <= i < |code[1..]| ==> code[1..][i] == code[i + 1];
      LabelsInNone(code[1..]);
    }
  }

  /** Every label an op of the code mentions is among the code's labels. */
  lemma {:induction false} LabelsInContains(code: seq<Op>, i: nat)
    requires i < |code|
    ensures OpLabels(code[i]) <= LabelsIn(code)
  {
    if i > 0 {
      assert code[1..][i - 1] == code[i];
      LabelsInContains(code[1..], i - 1);
    }
  }

  /**
   * Where a label is placed: the index of the first SetLabel(l) of the code,
   * or None when the code never places it.
   */
  function LabelIndex(code: seq<Op>, l: Label): (r: Option<nat>)
    ensures r.Some? ==> r.value < |code| && code[r.value] == SetLabel(l)
    ensures r.Some? ==> forall i :: 0 <= i < r.value ==> code[i] != SetLabel(l)
    ensures r.None? ==> forall i :: 0 <= i < |code| ==> code[i] != SetLabel(l)
  {
    if code == [] then None
    else if code[0] == SetLabel(l) then Some(0)
    else match LabelIndex(code[1..], l)
      case None => None
      case Some(j) => Some(j + 1)
  }

  /** Appending code does not move a label that is already placed. */
  lemma LabelIndexAppendPlaced(pre: seq<Op>, s: seq<Op>, l: Label)
    requires LabelIndex(pre, l).Some?
    ensures LabelIndex(pre + s, l) == LabelIndex(pre, l)
  {
    var j := LabelIndex(pre, l).value;
    assert (pre + s)[j] == SetLabel(l);
    forall i | 0 <= i < j ensures (pre + s)[i] != SetLabel(l) {
      assert (pre + s)[i] == pre[i];
    }
  }

  /** A label that the prefix never mentions is found in the appended code, shifted. */
  lemma LabelIndexAppendFresh(pre: seq<Op>, s: seq<Op>, l: Label)
    requires l !in LabelsIn(pre)
    ensures LabelIndex(pre + s, l) ==
              match LabelIndex(s, l)
              case None => None
              case Some(j) => Some(|pre| + j)
  {
    forall i | 0 <= i < |pre| ensures (pre + s)[i] != SetLabel(l) {
      LabelsInContains(pre, i);
      assert (pre + s)[i] == pre[i];
    }
    match LabelIndex(s, l)
    case None =>
      forall i | |pre| <= i < |pre + s| ensures (pre + s)[i] != SetLabel(l) {
        assert (pre + s)[i] == s[i - |pre|];
      }
    case Some(j) =>
      assert (pre + s)[|pre| + j] == SetLabel(l);
      forall i | |pre| <= i < |pre| + j ensures (pre + s)[i] != SetLabel(l) {
        assert (pre + s)[i] == s[i - |pre|];
      }
  }

  /**
   * The TCG state of the translation block being built: the op stream, the
   * set of live temporaries, and the allocators for fresh temporaries and
   * fresh labels.
   */
  class TcgContext {
    var ops: seq<Op>
    var live: set<Temp>
    var nextTemp: Temp
    var nextLabel: Label

    /** Live temporaries and every label in the stream were handed out already. */
    ghost predicate Valid()
      reads this
    {
      && (forall t :: t in live ==> t < nextTemp)
      && (forall l :: l in LabelsIn(ops) ==> l < nextLabel)
    }

    /** An empty block; the indices below firstTemp belong to the globals. */
    constructor (firstTemp: Temp)
      ensures Valid()
      ensures ops == [] && live == {} && nextTemp == firstTemp && nextLabel == 0
    {
      ops := [];
      live := {};
      nextTemp := firstTemp;
      nextLabel := 0;
    }

    /** tcg_const_i32: a fresh temporary loaded with a constant. */
    method NewConstI32(value: int) returns (t: Temp)
      requires Valid()
      modifies this
      ensures Valid()
      ensures t == old(nextTemp) && t !in old(live)
      ensures ops == old(ops) + [ConstI32(t, value)]
      ensures live == old(live) + {t}
      ensures nextTemp == old(nextTemp) + 1 && nextLabel == old(nextLabel)
    {
      t := nextTemp;
      LabelsInAppend(ops, [ConstI32(t, value)]);
      ops := ops + [ConstI32(t, value)];
      live := live + {t};
      nextTemp := nextTemp + 1;
    }

    /** tcg_const_tl: a fresh target-long temporary loaded with a constant. */
    method NewConstTl(value: int) returns (t: Temp)
      requires Valid()
      modifies this
      ensures Valid()
      ensures t == old(nextTemp) && t !in old(live)
      ensures ops == old(ops) + [ConstTl(t, value)]
      ensures live == old(live) + {t}
      ensures nextTemp == old(nextTemp) + 1 && nextLabel == old(nextLabel)
    {
      t := nextTemp;
      LabelsInAppend(ops, [ConstTl(t, value)]);
      ops := ops + [ConstTl(t, value)];
      live := live + {t};
      nextTemp := nextTemp + 1;
    }

    /** tcg_temp_free, tcg_temp_free_i32: release a live temporary. */
    method TempFree(t: Temp)
      requires Valid() && t in live
      modifies this
      ensures Valid()
      ensures ops == old(ops) + [FreeTemp(t)]
      ensures live == old(live) - {t}
      ensures nextTemp == old(nextTemp) && nextLabel == old(nextLabel)
    {
      LabelsInAppend(ops, [FreeTemp(t)]);
      ops := ops + [FreeTemp(t)];
      live := live - {t};
    }

    /** gen_new_label: a label that nothing in the stream mentions yet. */
    method NewLabel() returns (l: Label)
      requires Valid()
      modifies this
      ensures Valid()
      ensures l == old(nextLabel) && l !in LabelsIn(ops)
      ensures ops == old(ops) && live == old(live)
      ensures nextTemp == old(nextTemp) && nextLabel == old(nextLabel) + 1
    {
      l := nextLabel;
      nextLabel := nextLabel + 1;
    }

    /** Append one op that allocates and frees nothing. */
    method Emit(op: Op)
      requires Valid()
      requires forall l :: l in OpLabels(op) ==> l < nextLabel
      modifies this
      ensures Valid()
      ensures ops == old(ops) + [op]
      ensures live == old(live)
      ensures nextTemp == old(nextTemp) && nextLabel == old(nextLabel)
    {
      LabelsInAppend(ops, [op]);
      assert LabelsIn([op]) == OpLabels(op) by {
        assert [op][1..] == [];
      }
      ops := ops + [op];
    }
  }
}
