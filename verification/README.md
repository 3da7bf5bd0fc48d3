# CHERI capability-check emitters of the QEMU translator

This project models `target/cheri-common/cheri-translate-utils.h` from the
CHERI fork of QEMU. The file holds the code generators that a CHERI target's
instruction translator calls to put capability checks into the TCG
intermediate representation of a translation block:

- `generate_cap_{load,store,rmw}_check` and their `_imm` forms. They emit a
  call to the runtime bounds-check helper of one access class. The helper
  gets the capability register number, the offset and the access width.
- `generate_get_ddc_checked_gpr_plus_offset`. It fetches a general-purpose
  register, adds an immediate offset, and lets a caller-chosen DDC
  (default data capability) check callback overwrite the address with the
  checked address.
- `gen_check_pcc_bounds_next_inst`, `gen_check_branch_target` and
  `gen_check_cond_branch_target`. They decide at translation time whether
  the next sequential fetch, or a branch target, needs a PCC
  (program-counter capability) bounds violation. For a conditional branch
  they emit a label / branch-if-zero / violation / set-label pattern.

The model has three modules:

- `Tcg` (`tcg.dfy`): the TCG ops these emitters produce, and the class
  `TcgContext`. The class holds the op stream of the block, the set of live
  temporaries, and the counters that hand out fresh temporaries and fresh
  labels. Its methods are the TCG primitives the emitters call
  (`tcg_const_i32`, `tcg_const_tl`, `tcg_temp_free`, `gen_new_label`, and
  appending one op).
- `TcgInterp` (`tcg_interp.dfy`): a small interpreter for those ops. The
  helpers, the general-purpose registers and `cpu_env` are parameters of it.
  It proves that code appended after a prefix runs as it would on its own
  (`Compose`), provided that the prefix runs to its end, that the appended
  code mentions no label the prefix mentions, and that the appended code's
  own run does not run out of fuel.
- `CheriTranslateUtils` (`cheri_translate_utils.dfy`): the six emitters, as
  methods that append to a `TcgContext`. For each emitter, a function gives
  the ops it appends. Lemmas say what those ops do when the block runs.

`DisasContextBase` is a value: the emitters only read `pc_first`,
`pc_next`, `pcc_top` and `in_pcc_bounds`. The op stream is the state that
they change. The `TARGET_CHERI` build switch is the `cheri` field of the
context. Without it the PCC emitters append nothing. The memory-access
emitters and the DDC resolver do not exist without it, so they do not
consult the flag.

Points of the code worth noting:

- The DDC resolver passes the MemOp itself (`tcg_const_i32(mop)`) to the
  callback, not its byte width.
- The DDC resolver emits the add of the offset unless the offset is the
  compile-time constant 0. So it also emits the add for an offset that is
  not a compile-time constant, whatever its value.
- The test `pc_next + num_bytes > pcc_top` is done in `target_ulong`
  arithmetic, which wraps. The model keeps the wrap-around
  (`FetchPastPccTop`). The PCC emitters require the context's addresses to
  be `target_ulong` values and `num_bytes` a `uint32_t` value.

## Model

| member | source | states |
|---|---|---|
| `CheriTranslateUtils.GenerateCapCheck` | target/cheri-common/cheri-translate-utils.h:39-50 | Appends, in order: a constant for `capreg`, a constant for `memop_size(op)`, one call of the helper of the access class with `(resultaddr, env, capreg-const, offset, size-const)`, then frees the size temporary and then the register temporary. The set of live temporaries is unchanged. No label is used. |
| `CheriTranslateUtils.GenerateCapCheckImm` | target/cheri-common/cheri-translate-utils.h:51-58 | Appends a `tcg_const_tl(offset)`, then exactly what the register form appends with that temporary as the offset, then frees it. The live temporaries are unchanged. |
| `CheriTranslateUtils.GenerateGetDdcCheckedGprPlusOffset` | target/cheri-common/cheri-translate-utils.h:68-85 | Appends a GPR fetch into `addr`, then an add-immediate of `offset` into `addr` unless `offset` is the compile-time constant 0, then a constant holding `mop`, one call of the `check_ddc` callback with `(addr, env, addr, tcop)`, and the free of `tcop`. The live temporaries are unchanged. |
| `CheriTranslateUtils.GenCheckPccBoundsNextInst` | target/cheri-common/cheri-translate-utils.h:89-102 | Appends exactly one `RaisePcc(pc_next, num_bytes)` when `pc_next + num_bytes` (in `target_ulong` arithmetic) exceeds `pcc_top`, and nothing otherwise. The debug assertion `pc_next >= pc_first` is its precondition. Without CHERI it appends nothing. |
| `CheriTranslateUtils.GenCheckBranchTarget` | target/cheri-common/cheri-translate-utils.h:104-111 | Appends exactly one `RaisePcc(addr, 0)` when `!in_pcc_bounds(addr)`, and nothing otherwise. |
| `CheriTranslateUtils.GenCheckCondBranchTarget` | target/cheri-common/cheri-translate-utils.h:113-130 | Appends nothing and allocates no label when `in_pcc_bounds(addr)`, whatever `branchcond` is. Otherwise it appends exactly `[BrCondEqZero(branchcond, L), RaisePcc(addr, 0), SetLabel(L)]`, where L is a new label that the stream did not mention before. |
| `CheriTranslateUtils.CapCheckRuns` | target/cheri-common/cheri-translate-utils.h:44-49 | When run, the register-form snippet calls the helper of its class exactly once, with `env`, the capability register number, the offset's value and `memop_size(op)`. It writes the result into `resultaddr` (or stops at the helper's trap). Its two temporaries do not outlive it. |
| `CheriTranslateUtils.CapCheckImmOpsSpelledOut` | target/cheri-common/cheri-translate-utils.h:55-57 | Lists the immediate form op by op: the offset constant, the register form on it (its temporaries allocated after the offset's), and the free of the offset temporary last. |
| `CheriTranslateUtils.CapCheckImmRuns` | target/cheri-common/cheri-translate-utils.h:51-57 | When run, the immediate form is observably the register form: the same helper is called with the literal offset as its offset argument. None of its three temporaries outlives it. |
| `CheriTranslateUtils.DdcCheckedGprRuns` | target/cheri-common/cheri-translate-utils.h:72-84 | When run, the resolver calls the `check_ddc` callback with `env`, the register's value plus `offset`, and `mop`. The checked result overwrites `addr` in place. Leaving out the add for a constant zero offset does not change what is checked. |
| `CheriTranslateUtils.NextInstCheckElidedIffInRegion` | target/cheri-common/cheri-translate-utils.h:96-100 | When the fetch does not wrap past the end of the address space, the sequential-fetch check is left out exactly when every byte of the next instruction lies below `pcc_top`. This holds both ways, including at the exact boundary `pc_next + num_bytes == pcc_top`. |
| `CheriTranslateUtils.NextInstCheckMissedOnWrap` | target/cheri-common/cheri-translate-utils.h:97-98 | The case the code marks as open: with `pcc_top == 2^64 - 1`, a 4-byte fetch at `2^64 - 2` starts below the top and runs past it, but its end wraps, so no check is emitted. |
| `CheriTranslateUtils.NextInstCheckRuns` | target/cheri-common/cheri-translate-utils.h:98-100 | After code that runs to its end, the appended check raises the violation with `(pc_next, num_bytes)` exactly when the fetch passes `pcc_top`. Otherwise execution continues with every value unchanged. |
| `CheriTranslateUtils.BranchTargetCheckRuns` | target/cheri-common/cheri-translate-utils.h:107-109 | After code that runs to its end, the appended check raises the violation with `(addr, 0)` exactly when the target is outside PCC. Otherwise execution continues with every value unchanged. |
| `CheriTranslateUtils.CondBranchTargetCheckRuns` | target/cheri-common/cheri-translate-utils.h:120-128 | After code that runs to its end and never mentions the new label, the appended pattern reaches the violation exactly when the target is outside PCC and `branchcond != 0` (the branch is taken). On the not-taken path it skips to the label and continues with every value unchanged. |
| `CheriTranslateUtils.StoreImmExample` | target/cheri-common/cheri-translate-utils.h:51-62 | A 4-byte store through capability register 3 at immediate offset 8 emits the offset constant 8, the register constant 3, the width constant 4, and one store-check call with those three after `env`. |
| `CheriTranslateUtils.NextInstCheckExample` | target/cheri-common/cheri-translate-utils.h:98-100 | A 4-byte fetch at 0x1000 emits no check when `pcc_top` is 0x1004, and exactly `RaisePcc(0x1000, 4)` when `pcc_top` is 0x1002. |
| `CheriTranslateUtils.MemopSize` | target/cheri-common/cheri-translate-utils.h:45 | `memop_size(op)` is `1 << (op & 3)`: 2 to the power of the low two bits of the MemOp, so a width of 1, 2, 4 or 8 bytes. |
| `Tcg.TcgContext.Emit` | target/cheri-common/cheri-translate-utils.h:125-128 | Appending one op adds exactly that op at the end of the stream. The live temporaries and both counters are unchanged. The op may mention only labels already handed out. The same primitive also stands for `gen_get_gpr`/`gen_load_gpr` (lines 73-75), `tcg_gen_addi_tl` (80), the `gen_helper_*` and `check_ddc` calls (46, 83) and `gen_raise_pcc_violation` (99, 108). |
| `Tcg.TcgContext.NewConstI32` | target/cheri-common/cheri-translate-utils.h:44 | `tcg_const_i32` appends a constant into a fresh temporary that was not live before, and makes it live. |
| `Tcg.TcgContext.NewConstTl` | target/cheri-common/cheri-translate-utils.h:55 | `tcg_const_tl` appends a constant into a fresh temporary that was not live before, and makes it live. |
| `Tcg.TcgContext.TempFree` | target/cheri-common/cheri-translate-utils.h:48-49 | `tcg_temp_free` releases a live temporary. The free is recorded in the stream, so its order can be observed. |
| `Tcg.TcgContext.NewLabel` | target/cheri-common/cheri-translate-utils.h:123 | `gen_new_label` returns a label that nothing in the stream mentions yet. |

## Left out

- TCG backend: what `tcg_const_*`, `tcg_gen_addi_tl`, `tcg_gen_brcondi_tl`, labels and helper calls become in host code is not modelled. They are appended abstract ops. The interpreter in `tcg_interp.dfy` is a reference semantics for those ops, not the JIT.
- Interpreter arithmetic: `AddI` and the constants are unbounded integers. The 64-bit wrap of `tcg_gen_addi_tl` and the 32-bit truncation of `tcg_const_i32` at run time are not modelled.
- Temporary allocation: TCG reuses the indices of freed temporaries. The model hands out a new index every time. Freshness (a new temporary is not live) holds in both. Freeing is bookkeeping in TCG; the model also records it as an op, so that the order of the frees can be stated.
- Runtime helpers: the bodies of `gen_helper_cap_{load,store,rmw}_check` and of the `check_ddc` callback are not modelled. A helper either returns a value or traps; which one is a parameter of the interpreter.
- `in_pcc_bounds` and `gen_raise_pcc_violation` are defined in `cheri-translate-utils-base.h`, which is not part of this model. `in_pcc_bounds` is an uninterpreted function of the context. The violation is a recorded op that ends execution. Exception delivery is not modelled.
- `memop_size` and the MemOp encoding come from `exec/memop.h`, which is not part of this model. The model takes the encoding where the low two bits give log2 of the width (`MO_SIZE == 3`).
- GPR fetch: the choice between `gen_get_gpr` (RISC-V) and `gen_load_gpr` (MIPS), and the build error for other targets, is one abstract `GetGpr` op.
- `__builtin_constant_p(offset)` is the boolean input `offsetIsConst`.
- `likely`/`unlikely` hints are not modelled. `tcg_debug_assert` is a precondition; what a debug build does when it fails is not modelled.
- Target width: `target_ulong` is 64 bits (`TARGET_ULONG_MOD`). The 32-bit CHERI targets are not modelled.
- The three expansions of the `_gen_cap_check` macro (load, store, rmw) are one method with the access class as a parameter.
- NextInstCheckElidedIffInRegion: states the "every fetched byte is below `pcc_top`" reading only when `pc_next + num_bytes` does not reach `2^64`. Past that point the code wraps, and `NextInstCheckMissedOnWrap` shows the check is then missed.
