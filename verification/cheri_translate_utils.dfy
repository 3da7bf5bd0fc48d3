/**
 * The CHERI capability-check emitters of the QEMU translator
 * (target/cheri-common/cheri-translate-utils.h).
 *
 * Each emitter appends a short, fixed sequence of TCG ops to the op stream
 * of the block being translated. For every emitter there is a function that
 * gives the ops it appends; the method is proved to append exactly those ops
 * and to leave the live temporaries balanced, and lemmas say what the
 * appended ops do when the block runs (module TcgInterp).
 */
module CheriTranslateUtils {
  import opened Tcg
  import opened TcgInterp

  /** QEMU's MemOp: bits MO_SIZE hold log2 of the access width in bytes. */
  type MemOp = nat

  /** 2 to the power n, the value of 1 << n. */
  function Pow2(n: nat): nat
  {
    if n == 0 then 1 else 2 * Pow2(n - 1)
  }

  /** memop_size: 1 << (op & MO_SIZE), with MO_SIZE == 3 (op & 3 is op % 4 on a nat). */
  function MemopSize(op: MemOp): (r: nat)
    ensures r == Pow2(op % 4)
    ensures 1 <= r <= 8
  {
    match op % 4
    case 0 => 1
    case 1 => 2
    case 2 => 4
    case _ => 8
  }

  /** target_ulong arithmetic on the 64-bit CHERI targets wraps modulo 2^64. */
  const TARGET_ULONG_MOD: nat := 0x1_0000_0000_0000_0000

  /** uint32_t, the type of num_bytes. */
  const UINT32_MOD: nat := 0x1_0000_0000

  /** The fields of DisasContextBase that the PCC emitters read. */
  datatype DisasContextBase = DisasContextBase(
    pcFirst: nat,               // pc_first: first instruction of the block
    pcNext: nat,                // pc_next: the instruction after the current one
    pccTop: nat,                // pcc_top: top of the executing PCC
    inPccBounds: nat -> bool,   // in_pcc_bounds(&ctx->base, addr)
    cheri: bool)                // whether the build defines TARGET_CHERI

  /** The address fields hold target_ulong values. */
  predicate TargetUlongFields(ctx: DisasContextBase)
  {
    ctx.pcFirst < TARGET_ULONG_MOD && ctx.pcNext < TARGET_ULONG_MOD && ctx.pccTop < TARGET_ULONG_MOD
  }

  // ---------------------------------------------------------------------
  // What each emitter appends
  // ---------------------------------------------------------------------

  /**
   * generate_cap_<kind>_check with fresh temporaries t (tcs) and t + 1
   * (tsize): two constants, one helper call, then the temporaries freed in
   * reverse order of allocation.
   */
  function CapCheckOps(kind: AccessKind, resultaddr: Temp, capreg: nat, offset: Temp, op: MemOp, t: Temp): seq<Op>
  {
    [ ConstI32(t, capreg),
      ConstI32(t + 1, MemopSize(op)),
      HelperCall(CapCheck(kind), resultaddr, [Env, Tmp(t), Tmp(offset), Tmp(t + 1)]),
      FreeTemp(t + 1),
      FreeTemp(t) ]
  }

  /**
   * generate_cap_<kind>_check_imm with fresh temporary t (toffset): the
   * offset as a constant, the register form on it, then toffset freed.
   */
  function CapCheckImmOps(kind: AccessKind, resultaddr: Temp, capreg: nat, offset: int, op: MemOp, t: Temp): seq<Op>
  {
    [ConstTl(t, offset)] + CapCheckOps(kind, resultaddr, capreg, t, op, t + 1) + [FreeTemp(t)]
  }

  /** The add of the offset is left out only for the compile-time constant 0. */
  predicate EmitsOffsetAdd(offset: int, offsetIsConst: bool)
  {
    !offsetIsConst || offset != 0
  }

  /**
   * generate_get_ddc_checked_gpr_plus_offset with fresh temporary t (tcop):
   * fetch the register into addr, add the offset in place, and let the
   * check_ddc callback overwrite addr with the checked address.
   */
  function DdcCheckedGprOps(addr: Temp, regNum: int, offset: int, offsetIsConst: bool, mop: MemOp,
                            checkDdc: nat, t: Temp): seq<Op>
  {
    [GetGpr(addr, regNum)]
    + (if EmitsOffsetAdd(offset, offsetIsConst) then [AddI(addr, addr, offset)] else [])
    + [ ConstI32(t, mop),
        HelperCall(DdcCheck(checkDdc), addr, [Env, Tmp(addr), Tmp(t)]),
        FreeTemp(t) ]
  }

  /** The address a is below the top of the executing PCC. */
  predicate BelowPccTop(ctx: DisasContextBase, a: nat)
  {
    a < ctx.pccTop
  }

  /** The test pc_next + num_bytes > pcc_top, in target_ulong arithmetic. */
  predicate FetchPastPccTop(ctx: DisasContextBase, numBytes: nat)
  {
    (ctx.pcNext + numBytes) % TARGET_ULONG_MOD > ctx.pccTop
  }

  /** gen_check_pcc_bounds_next_inst. */
  function NextInstCheckOps(ctx: DisasContextBase, numBytes: nat): seq<Op>
  {
    if ctx.cheri && FetchPastPccTop(ctx, numBytes) then [RaisePcc(ctx.pcNext, numBytes)] else []
  }

  /** gen_check_branch_target. */
  function BranchTargetCheckOps(ctx: DisasContextBase, addr: nat): seq<Op>
  {
    if ctx.cheri && !ctx.inPccBounds(addr) then [RaisePcc(addr, 0)] else []
  }

  /** gen_check_cond_branch_target, with l the label it allocates. */
  function CondBranchTargetCheckOps(ctx: DisasContextBase, branchcond: Temp, l: Label, addr: nat): seq<Op>
  {
    if !ctx.cheri || ctx.inPccBounds(addr) then []
    else [BrCondEqZero(branchcond, l), RaisePcc(addr, 0), SetLabel(l)]
  }

  // ---------------------------------------------------------------------
  // The emitters
  // ---------------------------------------------------------------------

  /**
   * generate_cap_load_check, generate_cap_store_check and
   * generate_cap_rmw_check: the one macro body, with the access kind as a
   * parameter. The TCG values handed in were allocated before the call.
   */
  method GenerateCapCheck(tcg: TcgContext, kind: AccessKind, resultaddr: Temp, capreg: nat, offset: Temp, op: MemOp)
    requires tcg.Valid()
    requires resultaddr < tcg.nextTemp && offset < tcg.nextTemp
    modifies tcg
    ensures tcg.Valid()
    ensures tcg.ops == old(tcg.ops) + CapCheckOps(kind, resultaddr, capreg, offset, op, old(tcg.nextTemp))
    ensures tcg.live == old(tcg.live)
    ensures tcg.nextTemp == old(tcg.nextTemp) + 2 && tcg.nextLabel == old(tcg.nextLabel)
  {
    var tcs := tcg.NewConstI32(capreg);
    var tsize := tcg.NewConstI32(MemopSize(op));
    tcg.Emit(HelperCall(CapCheck(kind), resultaddr, [Env, Tmp(tcs), Tmp(offset), Tmp(tsize)]));
    tcg.TempFree(tsize);
    tcg.TempFree(tcs);
  }

  /** generate_cap_<kind>_check_imm: the register form on a constant offset. */
  method GenerateCapCheckImm(tcg: TcgContext, kind: AccessKind, resultaddr: Temp, capreg: nat, offset: int, op: MemOp)
    requires tcg.Valid()
    requires resultaddr < tcg.nextTemp
    modifies tcg
    ensures tcg.Valid()
    ensures tcg.ops == old(tcg.ops) + CapCheckImmOps(kind, resultaddr, capreg, offset, op, old(tcg.nextTemp))
    ensures tcg.live == old(tcg.live)
    ensures tcg.nextTemp == old(tcg.nextTemp) + 3 && tcg.nextLabel == old(tcg.nextLabel)
  {
    var toffset := tcg.NewConstTl(offset);
    GenerateCapCheck(tcg, kind, resultaddr, capreg, toffset, op);
    tcg.TempFree(toffset);
  }

  /**
   * generate_get_ddc_checked_gpr_plus_offset. Whether offset is a
   * compile-time constant (__builtin_constant_p) is the input offsetIsConst;
   * checkDdc names the callback the caller passes.
   */
  method GenerateGetDdcCheckedGprPlusOffset(tcg: TcgContext, addr: Temp, regNum: int, offset: int,
                                            offsetIsConst: bool, mop: MemOp, checkDdc: nat)
    requires tcg.Valid()
    requires addr < tcg.nextTemp
    modifies tcg
    ensures tcg.Valid()
    ensures tcg.ops == old(tcg.ops) + DdcCheckedGprOps(addr, regNum, offset, offsetIsConst, mop, checkDdc, old(tcg.nextTemp))
    ensures tcg.live == old(tcg.live)
    ensures tcg.nextTemp == old(tcg.nextTemp) + 1 && tcg.nextLabel == old(tcg.nextLabel)
  {
    tcg.Emit(GetGpr(addr, regNum));
    if !offsetIsConst || offset != 0 {
      tcg.Emit(AddI(addr, addr, offset));
    }
    var tcop := tcg.NewConstI32(mop);
    tcg.Emit(HelperCall(DdcCheck(checkDdc), addr, [Env, Tmp(addr), Tmp(tcop)]));
    tcg.TempFree(tcop);
  }

  /** gen_check_pcc_bounds_next_inst; the debug assertion is the precondition. */
  method GenCheckPccBoundsNextInst(tcg: TcgContext, ctx: DisasContextBase, numBytes: nat)
    requires tcg.Valid()
    requires TargetUlongFields(ctx) && numBytes < UINT32_MOD
    requires ctx.cheri ==> ctx.pcNext >= ctx.pcFirst
    modifies tcg
    ensures tcg.Valid()
    ensures tcg.ops == old(tcg.ops) + NextInstCheckOps(ctx, numBytes)
    ensures tcg.live == old(tcg.live)
    ensures tcg.nextTemp == old(tcg.nextTemp) && tcg.nextLabel == old(tcg.nextLabel)
  {
    if ctx.cheri {
      if (ctx.pcNext + numBytes) % TARGET_ULONG_MOD > ctx.pccTop {
        tcg.Emit(RaisePcc(ctx.pcNext, numBytes));
      }
    }
  }

  /** gen_check_branch_target. */
  method GenCheckBranchTarget(tcg: TcgContext, ctx: DisasContextBase, addr: nat)
    requires tcg.Valid()
    requires TargetUlongFields(ctx) && addr < TARGET_ULONG_MOD
    modifies tcg
    ensures tcg.Valid()
    ensures tcg.ops == old(tcg.ops) + BranchTargetCheckOps(ctx, addr)
    ensures tcg.live == old(tcg.live)
    ensures tcg.nextTemp == old(tcg.nextTemp) && tcg.nextLabel == old(tcg.nextLabel)
  {
    if ctx.cheri {
      if !ctx.inPccBounds(addr) {
        tcg.Emit(RaisePcc(addr, 0));
      }
    }
  }

  /**
   * gen_check_cond_branch_target: nothing when the target is within PCC;
   * otherwise a branch over the violation when branchcond is zero. The label
   * it uses is fresh: the stream mentioned it nowhere before.
   */
  method GenCheckCondBranchTarget(tcg: TcgContext, ctx: DisasContextBase, branchcond: Temp, addr: nat)
    requires tcg.Valid()
    requires TargetUlongFields(ctx) && addr < TARGET_ULONG_MOD
    modifies tcg
    ensures tcg.Valid()
    ensures tcg.ops == old(tcg.ops) + CondBranchTargetCheckOps(ctx, branchcond, old(tcg.nextLabel), addr)
    ensures old(tcg.nextLabel) !in LabelsIn(old(tcg.ops))
    ensures tcg.live == old(tcg.live) && tcg.nextTemp == old(tcg.nextTemp)
    ensures tcg.nextLabel == old(tcg.nextLabel) + (if !ctx.cheri || ctx.inPccBounds(addr) then 0 else 1)
  {
    if !ctx.cheri {
      return;
    }
    if ctx.inPccBounds(addr) {
      return;
    }
    var skipBtargetCheck := tcg.NewLabel();
    tcg.Emit(BrCondEqZero(branchcond, skipBtargetCheck));
    tcg.Emit(RaisePcc(addr, 0));
    tcg.Emit(SetLabel(skipBtargetCheck));
  }

  // ---------------------------------------------------------------------
  // What the appended ops do when the block runs
  // ---------------------------------------------------------------------

  /** The argument list (env, a, b, c) of the memory-access check helpers. */
  lemma EvalArgsFour(m: Machine, temps: map<Temp, int>, a: Operand, b: Operand, c: Operand)
    requires a.Tmp? && b.Tmp? && c.Tmp?
    requires a.t in temps && b.t in temps && c.t in temps
    ensures EvalArgs(m, temps, [Env, a, b, c]) == Some([m.env, temps[a.t], temps[b.t], temps[c.t]])
  {
    var args := [Env, a, b, c];
    var r := EvalArgs(m, temps, args);
    assert r.Some?;
    assert |r.value| == 4;
    assert r.value[0] == Eval(m, temps, args[0]) == m.env;
    assert r.value[1] == Eval(m, temps, args[1]) == temps[a.t];
    assert r.value[2] == Eval(m, temps, args[2]) == temps[b.t];
    assert r.value[3] == Eval(m, temps, args[3]) == temps[c.t];
    assert r.value == [m.env, temps[a.t], temps[b.t], temps[c.t]];
  }

  /**
   * The register-offset check calls the helper of its class exactly once,
   * with the environment, the capability register number, the offset's
   * value and the access width, and writes the checked address into
   * resultaddr; its two temporaries do not outlive it.
   */
  lemma CapCheckRuns(m: Machine, kind: AccessKind, resultaddr: Temp, capreg: nat, offset: Temp, op: MemOp,
                     t: Temp, temps: map<Temp, int>, fuel: nat)
    requires resultaddr < t && offset < t
    requires offset in temps
    requires fuel >= 5
    ensures Run(m, CapCheckOps(kind, resultaddr, capreg, offset, op, t), 0, temps, fuel)
         == HelperOutcome(m, CapCheck(kind), [m.env, capreg, temps[offset], MemopSize(op)],
                          temps - {t, t + 1}, resultaddr)
  {
    var code := CapCheckOps(kind, resultaddr, capreg, offset, op, t);
    var t2 := temps[t := capreg][t + 1 := MemopSize(op)];
    var vals := [m.env, capreg, temps[offset], MemopSize(op)];
    assert Run(m, code, 0, temps, fuel) == Run(m, code, 2, t2, fuel - 2) by {
      assert Run(m, code, 0, temps, fuel) == Run(m, code, 1, temps[t := capreg], fuel - 1);
    }
    assert StepAt(m, code, 2, t2) == HelperStep(m, CapCheck(kind), vals, t2, resultaddr, 3) by {
      EvalArgsFour(m, t2, Tmp(t), Tmp(offset), Tmp(t + 1));
    }
    match m.call(CapCheck(kind), vals)
    case None =>
    case Some(v) =>
      var t3 := t2[resultaddr := v];
      assert Run(m, code, 2, t2, fuel - 2) == Finished(t3 - {t + 1} - {t}) by {
        assert Run(m, code, 2, t2, fuel - 2) == Run(m, code, 3, t3, fuel - 3);
        assert Run(m, code, 3, t3, fuel - 3) == Run(m, code, 4, t3 - {t + 1}, fuel - 4);
      }
      assert t3 - {t + 1} - {t} == (temps - {t, t + 1})[resultaddr := v];
  }

  /**
   * The immediate form, op by op: the offset constant first, then the
   * register form's five ops on it, then the offset temporary freed.
   */
  lemma CapCheckImmOpsSpelledOut(kind: AccessKind, resultaddr: Temp, capreg: nat, offset: int, op: MemOp, t: Temp)
    ensures CapCheckImmOps(kind, resultaddr, capreg, offset, op, t)
         == [ ConstTl(t, offset),
              ConstI32(t + 1, capreg),
              ConstI32(t + 2, MemopSize(op)),
              HelperCall(CapCheck(kind), resultaddr, [Env, Tmp(t + 1), Tmp(t), Tmp(t + 2)]),
              FreeTemp(t + 2),
              FreeTemp(t + 1),
              FreeTemp(t) ]
  {
  }

  /** After the offset constant, the immediate form runs the register form on it as if on its own. */
  lemma CapCheckImmEntersRegisterForm(m: Machine, kind: AccessKind, resultaddr: Temp, capreg: nat, offset: int,
                                      op: MemOp, t: Temp, temps: map<Temp, int>, fuel: nat)
    requires fuel >= 1
    ensures Run(m, CapCheckImmOps(kind, resultaddr, capreg, offset, op, t), 0, temps, fuel)
         == Run(m, CapCheckOps(kind, resultaddr, capreg, t, op, t + 1) + [FreeTemp(t)], 0, temps[t := offset], fuel - 1)
  {
    var s := CapCheckOps(kind, resultaddr, capreg, t, op, t + 1) + [FreeTemp(t)];
    var code := CapCheckImmOps(kind, resultaddr, capreg, offset, op, t);
    assert code == [ConstTl(t, offset)] + s;
    LabelsInNone([ConstTl(t, offset)]);
    RunContinues(m, code, 0, temps, fuel, 1, temps[t := offset]);
    RunShift(m, [ConstTl(t, offset)], s, 0, temps[t := offset], fuel - 1);
  }

  /** A check helper's result overwrites whatever its return value held before. */
  lemma HelperOutcomeOverwrite(m: Machine, h: Helper, vals: seq<int>, temps: map<Temp, int>, ret: Temp, x: int)
    ensures HelperOutcome(m, h, vals, temps[ret := x], ret) == HelperOutcome(m, h, vals, temps, ret)
  {
  }

  /** Freeing a temporary after a snippet that ends in a check helper only drops that temporary. */
  lemma HelperOutcomeThenFree(m: Machine, code: seq<Op>, temps: map<Temp, int>, f: nat,
                              h: Helper, vals: seq<int>, temps': map<Temp, int>, ret: Temp, t: Temp)
    requires ret != t
    requires Run(m, code, 0, temps, f) == HelperOutcome(m, h, vals, temps', ret)
    ensures Run(m, code + [FreeTemp(t)], 0, temps, f + 1) == HelperOutcome(m, h, vals, temps' - {t}, ret)
  {
    match m.call(h, vals)
    case None =>
      RunMonotone(m, code, 0, temps, f, f + 1);
      RunPrefixHalts(m, code, [FreeTemp(t)], 0, temps, f + 1);
    case Some(v) =>
      assert Run(m, [FreeTemp(t)], 0, temps'[ret := v], 1) == Finished(temps'[ret := v] - {t});
      Compose(m, code, [FreeTemp(t)], temps, f, temps'[ret := v], 1);
      assert temps'[ret := v] - {t} == (temps' - {t})[ret := v];
  }

  /**
   * The immediate form is the register form on a constant: the helper sees
   * the literal offset itself, and none of the three temporaries outlives
   * the snippet.
   */
  lemma CapCheckImmRuns(m: Machine, kind: AccessKind, resultaddr: Temp, capreg: nat, offset: int, op: MemOp,
                        t: Temp, temps: map<Temp, int>, fuel: nat)
    requires resultaddr < t
    requires fuel >= 7
    ensures Run(m, CapCheckImmOps(kind, resultaddr, capreg, offset, op, t), 0, temps, fuel)
         == HelperOutcome(m, CapCheck(kind), [m.env, capreg, offset, MemopSize(op)],
                          temps - {t, t + 1, t + 2}, resultaddr)
  {
    var t0 := temps[t := offset];
    var vals := [m.env, capreg, offset, MemopSize(op)];
    CapCheckImmEntersRegisterForm(m, kind, resultaddr, capreg, offset, op, t, temps, fuel);
    CapCheckRuns(m, kind, resultaddr, capreg, t, op, t + 1, t0, fuel - 2);
    assert t0[t] == offset;
    HelperOutcomeThenFree(m, CapCheckOps(kind, resultaddr, capreg, t, op, t + 1), t0, fuel - 2,
                          CapCheck(kind), vals, t0 - {t + 1, t + 2}, resultaddr, t);
    assert t0 - {t + 1, t + 2} - {t} == temps - {t, t + 1, t + 2};
  }

  /**
   * The DDC-relative resolver checks the register's value plus the offset,
   * passing the MemOp itself, and overwrites addr with the result. Leaving
   * out the add for a constant zero offset does not change what is checked.
   */
  lemma DdcCheckedGprRuns(m: Machine, addr: Temp, regNum: int, offset: int, offsetIsConst: bool, mop: MemOp,
                          checkDdc: nat, t: Temp, temps: map<Temp, int>, fuel: nat)
    requires addr < t
    requires fuel >= 5
    ensures Run(m, DdcCheckedGprOps(addr, regNum, offset, offsetIsConst, mop, checkDdc, t), 0, temps, fuel)
         == HelperOutcome(m, DdcCheck(checkDdc), [m.env, m.gpr(regNum) + offset, mop], temps - {t}, addr)
  {
    var ta := temps[addr := m.gpr(regNum) + offset];
    DdcCheckedGprEntersCall(m, addr, regNum, offset, offsetIsConst, mop, checkDdc, t, temps, fuel);
    DdcCallRuns(m, addr, mop, checkDdc, t, ta);
    assert ta - {t} == (temps - {t})[addr := m.gpr(regNum) + offset];
    HelperOutcomeOverwrite(m, DdcCheck(checkDdc), [m.env, m.gpr(regNum) + offset, mop], temps - {t}, addr,
                           m.gpr(regNum) + offset);
  }

  /** After the fetch and the add, the resolver runs the callback part as if on its own. */
  lemma DdcCheckedGprEntersCall(m: Machine, addr: Temp, regNum: int, offset: int, offsetIsConst: bool, mop: MemOp,
                                checkDdc: nat, t: Temp, temps: map<Temp, int>, fuel: nat)
    requires addr < t
    requires fuel >= 5
    ensures Run(m, DdcCheckedGprOps(addr, regNum, offset, offsetIsConst, mop, checkDdc, t), 0, temps, fuel)
         == Run(m, [ConstI32(t, mop), HelperCall(DdcCheck(checkDdc), addr, [Env, Tmp(addr), Tmp(t)]), FreeTemp(t)],
                0, temps[addr := m.gpr(regNum) + offset], 3)
  {
    var head := [GetGpr(addr, regNum)] + (if EmitsOffsetAdd(offset, offsetIsConst) then [AddI(addr, addr, offset)] else []);
    var tail := [ConstI32(t, mop), HelperCall(DdcCheck(checkDdc), addr, [Env, Tmp(addr), Tmp(t)]), FreeTemp(t)];
    var ta := temps[addr := m.gpr(regNum) + offset];
    assert DdcCheckedGprOps(addr, regNum, offset, offsetIsConst, mop, checkDdc, t) == head + tail;
    DdcFetchRuns(m, addr, regNum, offset, offsetIsConst, temps);
    DdcCallRuns(m, addr, mop, checkDdc, t, ta);
    assert LabelsIn(tail) !! LabelsIn(head) by {
      LabelsInNone(head);
      LabelsInNone(tail);
    }
    ComposeWithin(m, head, tail, temps, |head|, ta, 3, fuel);
  }

  /** The fetch of the register and the add of the offset leave their sum in addr. */
  lemma DdcFetchRuns(m: Machine, addr: Temp, regNum: int, offset: int, offsetIsConst: bool, temps: map<Temp, int>)
    ensures var head := [GetGpr(addr, regNum)] + (if EmitsOffsetAdd(offset, offsetIsConst) then [AddI(addr, addr, offset)] else []);
            Run(m, head, 0, temps, |head|) == Finished(temps[addr := m.gpr(regNum) + offset])
  {
    var fetched := temps[addr := m.gpr(regNum)];
    if EmitsOffsetAdd(offset, offsetIsConst) {
      var head := [GetGpr(addr, regNum), AddI(addr, addr, offset)];
      assert Run(m, head, 0, temps, 2) == Run(m, head, 1, fetched, 1);
      assert fetched[addr := m.gpr(regNum) + offset] == temps[addr := m.gpr(regNum) + offset];
    } else {
      assert [GetGpr(addr, regNum)] + [] == [GetGpr(addr, regNum)];
    }
  }

  /** The call of the check_ddc callback on addr, with the MemOp in a temporary that is freed after. */
  lemma DdcCallRuns(m: Machine, addr: Temp, mop: MemOp, checkDdc: nat, t: Temp, temps: map<Temp, int>)
    requires addr < t && addr in temps
    ensures Run(m, [ConstI32(t, mop), HelperCall(DdcCheck(checkDdc), addr, [Env, Tmp(addr), Tmp(t)]), FreeTemp(t)], 0, temps, 3)
         == HelperOutcome(m, DdcCheck(checkDdc), [m.env, temps[addr], mop], temps - {t}, addr)
  {
    var code := [ConstI32(t, mop), HelperCall(DdcCheck(checkDdc), addr, [Env, Tmp(addr), Tmp(t)]), FreeTemp(t)];
    var tc := temps[t := mop];
    var vals := [m.env, temps[addr], mop];
    assert Run(m, code, 0, temps, 3) == Run(m, code, 1, tc, 2);
    var r := EvalArgs(m, tc, [Env, Tmp(addr), Tmp(t)]);
    assert r.Some?;
    assert r.value == vals by {
      assert r.value[1] == Eval(m, tc, Tmp(addr)) && r.value[2] == Eval(m, tc, Tmp(t));
    }
    match m.call(DdcCheck(checkDdc), vals)
    case None =>
    case Some(v) =>
      assert Run(m, code, 1, tc, 2) == Run(m, code, 2, tc[addr := v], 1);
      assert tc[addr := v] - {t} == (temps - {t})[addr := v];
  }

  /**
   * With no wrap-around at the end of the address space, the sequential
   * fetch check is left out exactly when every byte of the next instruction
   * lies below the top of PCC (and always in a build without CHERI).
   */
  lemma NextInstCheckElidedIffInRegion(ctx: DisasContextBase, numBytes: nat)
    requires numBytes > 0
    requires ctx.pcNext + numBytes < TARGET_ULONG_MOD
    ensures NextInstCheckOps(ctx, numBytes) == [] <==>
              !ctx.cheri || forall a: nat :: ctx.pcNext <= a < ctx.pcNext + numBytes ==> BelowPccTop(ctx, a)
  {
    assert (ctx.pcNext + numBytes) % TARGET_ULONG_MOD == ctx.pcNext + numBytes;
    if ctx.cheri && !FetchPastPccTop(ctx, numBytes) {
      assert forall a: nat :: ctx.pcNext <= a < ctx.pcNext + numBytes ==> BelowPccTop(ctx, a);
    }
    if ctx.cheri && FetchPastPccTop(ctx, numBytes) {
      var last := ctx.pcNext + numBytes - 1;
      assert ctx.pcNext <= last < ctx.pcNext + numBytes && !BelowPccTop(ctx, last);
    }
  }

  /**
   * The end-of-address-space case the source leaves open: an instruction
   * that starts below the top of PCC and runs past it is not checked when
   * its end wraps past 2^64.
   */
  lemma NextInstCheckMissedOnWrap(ctx: DisasContextBase)
    requires ctx.cheri && ctx.pcNext == TARGET_ULONG_MOD - 2 && ctx.pccTop == TARGET_ULONG_MOD - 1
    ensures NextInstCheckOps(ctx, 4) == []
    ensures BelowPccTop(ctx, ctx.pcNext) && !BelowPccTop(ctx, ctx.pcNext + 1)
  {
    assert (ctx.pcNext + 4) % TARGET_ULONG_MOD == 2;
  }

  /**
   * When the code emitted so far runs to its end, the sequential fetch
   * check that follows raises the violation with pc_next and num_bytes
   * exactly when the fetch passes the top of PCC, and otherwise lets
   * execution continue with every value unchanged.
   */
  lemma NextInstCheckRuns(m: Machine, ctx: DisasContextBase, numBytes: nat,
                          pre: seq<Op>, temps: map<Temp, int>, f: nat, temps': map<Temp, int>)
    requires Run(m, pre, 0, temps, f) == Finished(temps')
    ensures Run(m, pre + NextInstCheckOps(ctx, numBytes), 0, temps, f + 1)
         == if ctx.cheri && FetchPastPccTop(ctx, numBytes) then PccFault(ctx.pcNext, numBytes) else Finished(temps')
  {
    var s := NextInstCheckOps(ctx, numBytes);
    assert LabelsIn(s) == {} by {
      if s != [] { assert s[1..] == []; }
    }
    Compose(m, pre, s, temps, f, temps', 1);
  }

  /**
   * Likewise for an unconditional branch: the violation is raised with the
   * target and zero extra bytes exactly when the target is outside PCC.
   */
  lemma BranchTargetCheckRuns(m: Machine, ctx: DisasContextBase, addr: nat,
                              pre: seq<Op>, temps: map<Temp, int>, f: nat, temps': map<Temp, int>)
    requires Run(m, pre, 0, temps, f) == Finished(temps')
    ensures Run(m, pre + BranchTargetCheckOps(ctx, addr), 0, temps, f + 1)
         == if ctx.cheri && !ctx.inPccBounds(addr) then PccFault(addr, 0) else Finished(temps')
  {
    var s := BranchTargetCheckOps(ctx, addr);
    assert LabelsIn(s) == {} by {
      if s != [] { assert s[1..] == []; }
    }
    Compose(m, pre, s, temps, f, temps', 1);
  }

  /**
   * The conditional-branch check, placed after code that runs to its end
   * and with a label that code never mentions, raises the violation exactly
   * when the target is outside PCC and the branch is taken (branchcond is
   * not zero); on the not-taken path it jumps to the label and execution
   * continues with every value unchanged.
   */
  lemma CondBranchTargetCheckRuns(m: Machine, ctx: DisasContextBase, branchcond: Temp, l: Label, addr: nat,
                                  pre: seq<Op>, temps: map<Temp, int>, f: nat, temps': map<Temp, int>)
    requires Run(m, pre, 0, temps, f) == Finished(temps')
    requires l !in LabelsIn(pre)
    requires branchcond in temps'
    ensures Run(m, pre + CondBranchTargetCheckOps(ctx, branchcond, l, addr), 0, temps, f + 3)
         == if ctx.cheri && !ctx.inPccBounds(addr) && temps'[branchcond] != 0
            then PccFault(addr, 0)
            else Finished(temps')
  {
    var s := CondBranchTargetCheckOps(ctx, branchcond, l, addr);
    if s == [] {
      assert LabelsIn(s) == {};
      Compose(m, pre, s, temps, f, temps', 3);
    } else {
      assert LabelsIn(s) == {l} by {
        assert s[1..] == [RaisePcc(addr, 0), SetLabel(l)];
        assert s[1..][1..] == [SetLabel(l)];
        assert s[1..][1..][1..] == [];
        assert LabelsIn(s[1..][1..]) == {l};
        assert LabelsIn(s[1..]) == {l};
        assert LabelsIn(s) == {l} + LabelsIn(s[1..]);
      }
      assert s[2] == SetLabel(l);
      assert LabelIndex(s, l) == Some(2);
      if temps'[branchcond] != 0 {
        assert Run(m, s, 0, temps', 3) == Run(m, s, 1, temps', 2);
      } else {
        assert Run(m, s, 0, temps', 3) == Run(m, s, 2, temps', 2);
      }
      Compose(m, pre, s, temps, f, temps', 3);
    }
  }

  // ---------------------------------------------------------------------
  // Worked cases
  // ---------------------------------------------------------------------

  /** A 4-byte store (MO_32) through capability register 3 at immediate offset 8. */
  lemma StoreImmExample(resultaddr: Temp, t: Temp)
    ensures CapCheckImmOps(Store, resultaddr, 3, 8, 2, t)
         == [ ConstTl(t, 8),
              ConstI32(t + 1, 3),
              ConstI32(t + 2, 4),
              HelperCall(CapCheck(Store), resultaddr, [Env, Tmp(t + 1), Tmp(t), Tmp(t + 2)]),
              FreeTemp(t + 2),
              FreeTemp(t + 1),
              FreeTemp(t) ]
  {
  }

  /** Sequential fetch of 4 bytes at 0x1000: none at top 0x1004, one at top 0x1002. */
  lemma NextInstCheckExample(ctx: DisasContextBase)
    requires ctx.cheri && ctx.pcNext == 0x1000
    ensures ctx.pccTop == 0x1004 ==> NextInstCheckOps(ctx, 4) == []
    ensures ctx.pccTop == 0x1002 ==> NextInstCheckOps(ctx, 4) == [RaisePcc(0x1000, 4)]
  {
  }
}
