/**
 * The instruction-level vocabulary of the simulator: mnemonics, the handler kinds the
 * dispatch picks between, and the handler behaviour the runner relies on, kept abstract
 * as an oracle (the handlers themselves build solver formulas).
 */
module Opcodes {
  import opened Wrappers

  /**
   * A mnemonic, as the ordinal of an enumeration. The constants below name the mnemonics
   * the dispatch mentions (their ordinals are this model's own; only their distinctness
   * matters); every value from NamedCount on stands for some other mnemonic.
   */
  newtype Mnemonic = x: int | 0 <= x

  const NONE: Mnemonic := 0
  const UNKNOWN: Mnemonic := 1
  const MOV: Mnemonic := 2
  const CMOVE: Mnemonic := 3
  const CMOVZ: Mnemonic := 4
  const CMOVNE: Mnemonic := 5
  const CMOVNZ: Mnemonic := 6
  const CMOVA: Mnemonic := 7
  const CMOVNBE: Mnemonic := 8
  const CMOVAE: Mnemonic := 9
  const CMOVNB: Mnemonic := 10
  const CMOVB: Mnemonic := 11
  const CMOVNAE: Mnemonic := 12
  const CMOVBE: Mnemonic := 13
  const CMOVNA: Mnemonic := 14
  const CMOVG: Mnemonic := 15
  const CMOVNLE: Mnemonic := 16
  const CMOVGE: Mnemonic := 17
  const CMOVNL: Mnemonic := 18
  const CMOVL: Mnemonic := 19
  const CMOVNGE: Mnemonic := 20
  const CMOVLE: Mnemonic := 21
  const CMOVNG: Mnemonic := 22
  const CMOVC: Mnemonic := 23
  const CMOVNC: Mnemonic := 24
  const CMOVO: Mnemonic := 25
  const CMOVNO: Mnemonic := 26
  const CMOVS: Mnemonic := 27
  const CMOVNS: Mnemonic := 28
  const CMOVP: Mnemonic := 29
  const CMOVPE: Mnemonic := 30
  const CMOVNP: Mnemonic := 31
  const CMOVPO: Mnemonic := 32
  const XCHG: Mnemonic := 33
  const BSWAP: Mnemonic := 34
  const XADD: Mnemonic := 35
  const CMPXCHG: Mnemonic := 36
  const CMPXCHG8B: Mnemonic := 37
  const PUSH: Mnemonic := 38
  const POP: Mnemonic := 39
  const PUSHA: Mnemonic := 40
  const PUSHAD: Mnemonic := 41
  const POPA: Mnemonic := 42
  const POPAD: Mnemonic := 43
  const CWD: Mnemonic := 44
  const CDQ: Mnemonic := 45
  const CBW: Mnemonic := 46
  const CWDE: Mnemonic := 47
  const CQO: Mnemonic := 48
  const MOVSX: Mnemonic := 49
  const MOVSXD: Mnemonic := 50
  const MOVZX: Mnemonic := 51
  const ADCX: Mnemonic := 52
  const ADOX: Mnemonic := 53
  const ADD: Mnemonic := 54
  const ADC: Mnemonic := 55
  const SUB: Mnemonic := 56
  const SBB: Mnemonic := 57
  const IMUL: Mnemonic := 58
  const MUL: Mnemonic := 59
  const IDIV: Mnemonic := 60
  const DIV: Mnemonic := 61
  const INC: Mnemonic := 62
  const DEC: Mnemonic := 63
  const NEG: Mnemonic := 64
  const CMP: Mnemonic := 65
  const DAA: Mnemonic := 66
  const DAS: Mnemonic := 67
  const AAA: Mnemonic := 68
  const AAS: Mnemonic := 69
  const AAM: Mnemonic := 70
  const AAD: Mnemonic := 71
  const AND: Mnemonic := 72
  const OR: Mnemonic := 73
  const XOR: Mnemonic := 74
  const NOT: Mnemonic := 75
  const SAR: Mnemonic := 76
  const SHR: Mnemonic := 77
  const SAL: Mnemonic := 78
  const SHL: Mnemonic := 79
  const SHRD: Mnemonic := 80
  const SHLD: Mnemonic := 81
  const ROR: Mnemonic := 82
  const ROL: Mnemonic := 83
  const RCR: Mnemonic := 84
  const RCL: Mnemonic := 85
  const BT: Mnemonic := 86
  const BTS: Mnemonic := 87
  const BTR: Mnemonic := 88
  const BTC: Mnemonic := 89
  const BSF: Mnemonic := 90
  const BSR: Mnemonic := 91
  const TEST: Mnemonic := 92
  const CRC32: Mnemonic := 93
  const SETE: Mnemonic := 94
  const SETZ: Mnemonic := 95
  const SETNE: Mnemonic := 96
  const SETNZ: Mnemonic := 97
  const SETA: Mnemonic := 98
  const SETNBE: Mnemonic := 99
  const SETAE: Mnemonic := 100
  const SETNB: Mnemonic := 101
  const SETNC: Mnemonic := 102
  const SETB: Mnemonic := 103
  const SETNAE: Mnemonic := 104
  const SETC: Mnemonic := 105
  const SETBE: Mnemonic := 106
  const SETNA: Mnemonic := 107
  const SETG: Mnemonic := 108
  const SETNLE: Mnemonic := 109
  const SETGE: Mnemonic := 110
  const SETNL: Mnemonic := 111
  const SETL: Mnemonic := 112
  const SETNGE: Mnemonic := 113
  const SETLE: Mnemonic := 114
  const SETNG: Mnemonic := 115
  const SETS: Mnemonic := 116
  const SETNS: Mnemonic := 117
  const SETO: Mnemonic := 118
  const SETNO: Mnemonic := 119
  const SETPE: Mnemonic := 120
  const SETP: Mnemonic := 121
  const SETNP: Mnemonic := 122
  const SETPO: Mnemonic := 123
  const JMP: Mnemonic := 124
  const JE: Mnemonic := 125
  const JZ: Mnemonic := 126
  const JNE: Mnemonic := 127
  const JNZ: Mnemonic := 128
  const JA: Mnemonic := 129
  const JNBE: Mnemonic := 130
  const JAE: Mnemonic := 131
  const JNB: Mnemonic := 132
  const JB: Mnemonic := 133
  const JNAE: Mnemonic := 134
  const JBE: Mnemonic := 135
  const JNA: Mnemonic := 136
  const JG: Mnemonic := 137
  const JNLE: Mnemonic := 138
  const JGE: Mnemonic := 139
  const JNL: Mnemonic := 140
  const JL: Mnemonic := 141
  const JNGE: Mnemonic := 142
  const JLE: Mnemonic := 143
  const JNG: Mnemonic := 144
  const JC: Mnemonic := 145
  const JNC: Mnemonic := 146
  const JO: Mnemonic := 147
  const JNO: Mnemonic := 148
  const JS: Mnemonic := 149
  const JNS: Mnemonic := 150
  const JPO: Mnemonic := 151
  const JNP: Mnemonic := 152
  const JPE: Mnemonic := 153
  const JP: Mnemonic := 154
  const JCXZ: Mnemonic := 155
  const JECXZ: Mnemonic := 156
  const JRCXZ: Mnemonic := 157
  const LOOP: Mnemonic := 158
  const LOOPZ: Mnemonic := 159
  const LOOPE: Mnemonic := 160
  const LOOPNZ: Mnemonic := 161
  const LOOPNE: Mnemonic := 162
  const CALL: Mnemonic := 163
  const RET: Mnemonic := 164
  const IRET: Mnemonic := 165
  const INT: Mnemonic := 166
  const INTO: Mnemonic := 167
  const BOUND: Mnemonic := 168
  const ENTER: Mnemonic := 169
  const LEAVE: Mnemonic := 170
  const MOVS: Mnemonic := 171
  const MOVSB: Mnemonic := 172
  const MOVSW: Mnemonic := 173
  const MOVSD: Mnemonic := 174
  const CMPS: Mnemonic := 175
  const CMPSB: Mnemonic := 176
  const CMPSW: Mnemonic := 177
  const CMPSD: Mnemonic := 178
  const SCAS: Mnemonic := 179
  const SCASB: Mnemonic := 180
  const SCASW: Mnemonic := 181
  const SCASD: Mnemonic := 182
  const LODS: Mnemonic := 183
  const LODSB: Mnemonic := 184
  const LODSW: Mnemonic := 185
  const LODSD: Mnemonic := 186
  const STOS: Mnemonic := 187
  const STOSB: Mnemonic := 188
  const STOSW: Mnemonic := 189
  const STOSD: Mnemonic := 190
  const REP: Mnemonic := 191
  const REPE: Mnemonic := 192
  const REPZ: Mnemonic := 193
  const REPNE: Mnemonic := 194
  const REPNZ: Mnemonic := 195
  const IN: Mnemonic := 196
  const OUT: Mnemonic := 197
  const INS: Mnemonic := 198
  const INSB: Mnemonic := 199
  const INSW: Mnemonic := 200
  const INSD: Mnemonic := 201
  const OUTS: Mnemonic := 202
  const OUTSB: Mnemonic := 203
  const OUTSW: Mnemonic := 204
  const OUTSD: Mnemonic := 205
  const STC: Mnemonic := 206
  const CLC: Mnemonic := 207
  const CMC: Mnemonic := 208
  const CLD: Mnemonic := 209
  const STD: Mnemonic := 210
  const LAHF: Mnemonic := 211
  const SAHF: Mnemonic := 212
  const PUSHF: Mnemonic := 213
  const PUSHFD: Mnemonic := 214
  const POPF: Mnemonic := 215
  const POPFD: Mnemonic := 216
  const STI: Mnemonic := 217
  const CLI: Mnemonic := 218
  const LDS: Mnemonic := 219
  const LES: Mnemonic := 220
  const LFS: Mnemonic := 221
  const LGS: Mnemonic := 222
  const LSS: Mnemonic := 223
  const LEA: Mnemonic := 224
  const NOP: Mnemonic := 225
  const UD2: Mnemonic := 226
  const XLAT: Mnemonic := 227
  const XLATB: Mnemonic := 228
  const CPUID: Mnemonic := 229
  const MOVBE: Mnemonic := 230
  const PREFETCHW: Mnemonic := 231
  const PREFETCHWT1: Mnemonic := 232
  const CLFLUSH: Mnemonic := 233
  const CLFLUSHOPT: Mnemonic := 234
  const XSAVE: Mnemonic := 235
  const XSAVEC: Mnemonic := 236
  const XSAVEOPT: Mnemonic := 237
  const XRSTOR: Mnemonic := 238
  const XGETBV: Mnemonic := 239
  const RDRAND: Mnemonic := 240
  const RDSEED: Mnemonic := 241
  const ANDN: Mnemonic := 242
  const BEXTR: Mnemonic := 243
  const BLSI: Mnemonic := 244
  const BLSMSK: Mnemonic := 245
  const BLSR: Mnemonic := 246
  const BZHI: Mnemonic := 247
  const LZCNT: Mnemonic := 248
  const MULX: Mnemonic := 249
  const PDEP: Mnemonic := 250
  const PEXT: Mnemonic := 251
  const RORX: Mnemonic := 252
  const SARX: Mnemonic := 253
  const SHLX: Mnemonic := 254
  const SHRX: Mnemonic := 255
  const TZCNT: Mnemonic := 256
  const POPCNT: Mnemonic := 257

  /** The number of mnemonics named above. */
  const NamedCount: Mnemonic := 258

  /**
   * The handler kind the dispatch creates. A mnemonic with a handler class of its own
   * (MOV gets the Mov handler, ADD the Add handler, ...) gets Dedicated of that mnemonic.
   */
  datatype OpcodeKind =
    | Ignore(mnemonic: Mnemonic)
    | Dedicated(mnemonic: Mnemonic)
    | Cmovcc(mnemonic: Mnemonic)
    | Setcc(mnemonic: Mnemonic)
    | Jmpcc(mnemonic: Mnemonic)
    | Nop
    | NotImplemented(mnemonic: Mnemonic)

  /** A version key naming one state of the execution graph. */
  type Key = string

  /** The keys a handler is created with: the state before, after the regular and after the branch successor. */
  datatype Keys = Keys(prevKey: Key, nextKey: Key, nextKeyBranch: Key)

  /** A created handler: its kind, the operand strings and the keys. */
  datatype OpcodeBase = OpcodeBase(kind: OpcodeKind, args: seq<string>, keys: Keys)

  /**
   * The change one instruction makes to the state, between two keys. What it asserts
   * about registers, flags and memory is solver formulas, kept here as opaque text.
   */
  datatype StateUpdate = StateUpdate(prevKey: Key, nextKey: Key, constraints: seq<string>)

  /** What executing a handler yields: an update for the fall-through successor and one for the branch target. */
  datatype Updates = Updates(regular: Option<StateUpdate>, branch: Option<StateUpdate>)

  /** The status flags a handler can read or write. */
  datatype Flag = CF | PF | AF | ZF | SF | OF

  /** A register name. */
  datatype Rn = Rn(name: string)

  /** What a handler declares, without executing, about the flags, registers and memory it uses. */
  datatype StaticUsage = StaticUsage(
    flagsRead: set<Flag>, flagsWrite: set<Flag>,
    regsRead: set<Rn>, regsWrite: set<Rn>,
    memReadWrite: bool)

  /**
   * The handler behaviour the runner depends on, as deterministic functions: whether a
   * created handler is halted (it could not make sense of its operands), the updates it
   * produces when executed, its static usage, and the widening of a register to its
   * 64-bit parent.
   */
  datatype Semantics = Semantics(
    isHalted: OpcodeBase -> bool,
    execute: OpcodeBase -> Updates,
    usage: OpcodeBase -> StaticUsage,
    to64: Rn -> Rn)

  /** Mnemonics that are ignored rather than simulated. */
  predicate IsIgnored(m: Mnemonic) {
    m == NONE || m == UNKNOWN
  }

  /** Mnemonics with a handler class of their own. */
  predicate HasOwnHandler(m: Mnemonic) {
    m == MOV || m == XADD || m == PUSH || m == POP || m == CWD || m == CDQ || m == CBW ||
    m == CWDE || m == CQO || m == MOVSX || m == MOVSXD || m == MOVZX || m == ADCX || m == ADOX ||
    m == ADD || m == ADC || m == SUB || m == SBB || m == IMUL || m == MUL || m == IDIV ||
    m == DIV || m == INC || m == DEC || m == NEG || m == CMP || m == AND || m == OR || m == XOR ||
    m == NOT || m == SAR || m == SHR || m == SAL || m == SHL || m == SHRD || m == SHLD ||
    m == ROR || m == ROL || m == RCR || m == RCL || m == BT || m == BTS || m == BTR || m == BTC ||
    m == BSF || m == BSR || m == TEST || m == JMP || m == LOOP || m == LOOPZ || m == LOOPE ||
    m == LOOPNZ || m == LOOPNE || m == IN || m == OUT || m == STC || m == CLC || m == CMC ||
    m == LAHF || m == SAHF || m == LEA || m == RORX || m == SARX || m == SHLX || m == SHRX ||
    m == POPCNT
  }

  /** The conditional moves: one handler that reads its condition from the mnemonic. */
  predicate IsConditionalMove(m: Mnemonic) {
    m == CMOVE || m == CMOVZ || m == CMOVNE || m == CMOVNZ || m == CMOVA || m == CMOVNBE ||
    m == CMOVAE || m == CMOVNB || m == CMOVB || m == CMOVNAE || m == CMOVBE || m == CMOVNA ||
    m == CMOVG || m == CMOVNLE || m == CMOVGE || m == CMOVNL || m == CMOVL || m == CMOVNGE ||
    m == CMOVLE || m == CMOVNG || m == CMOVC || m == CMOVNC || m == CMOVO || m == CMOVNO ||
    m == CMOVS || m == CMOVNS || m == CMOVP || m == CMOVPE || m == CMOVNP || m == CMOVPO
  }

  /** The conditional byte sets, handled like the conditional moves. */
  predicate IsConditionalSet(m: Mnemonic) {
    m == SETE || m == SETZ || m == SETNE || m == SETNZ || m == SETA || m == SETNBE || m == SETAE ||
    m == SETNB || m == SETNC || m == SETB || m == SETNAE || m == SETC || m == SETBE ||
    m == SETNA || m == SETG || m == SETNLE || m == SETGE || m == SETNL || m == SETL ||
    m == SETNGE || m == SETLE || m == SETNG || m == SETS || m == SETNS || m == SETO ||
    m == SETNO || m == SETPE || m == SETP || m == SETNP || m == SETPO
  }

  /** The conditional jumps, handled like the conditional moves. */
  predicate IsConditionalJump(m: Mnemonic) {
    m == JE || m == JZ || m == JNE || m == JNZ || m == JA || m == JNBE || m == JAE || m == JNB ||
    m == JB || m == JNAE || m == JBE || m == JNA || m == JG || m == JNLE || m == JGE || m == JNL ||
    m == JL || m == JNGE || m == JLE || m == JNG || m == JC || m == JNC || m == JO || m == JNO ||
    m == JS || m == JNS || m == JPO || m == JNP || m == JPE || m == JP || m == JCXZ ||
    m == JECXZ || m == JRCXZ
  }

  /** Mnemonics simulated as instructions without effect. */
  predicate HasNoEffect(m: Mnemonic) {
    m == NOP || m == UD2 || m == PREFETCHW || m == PREFETCHWT1 || m == CLFLUSH || m == CLFLUSHOPT
  }

  /** Mnemonics the dispatch names but leaves to the not-implemented handler. */
  predicate IsUnsupported(m: Mnemonic) {
    m == XCHG || m == BSWAP || m == CMPXCHG || m == CMPXCHG8B || m == PUSHA || m == PUSHAD ||
    m == POPA || m == POPAD || m == DAA || m == DAS || m == AAA || m == AAS || m == AAM ||
    m == AAD || m == CRC32 || m == CALL || m == RET || m == IRET || m == INT || m == INTO ||
    m == BOUND || m == ENTER || m == LEAVE || m == MOVS || m == MOVSB || m == MOVSW ||
    m == MOVSD || m == CMPS || m == CMPSB || m == CMPSW || m == CMPSD || m == SCAS || m == SCASB ||
    m == SCASW || m == SCASD || m == LODS || m == LODSB || m == LODSW || m == LODSD || m == STOS ||
    m == STOSB || m == STOSW || m == STOSD || m == REP || m == REPE || m == REPZ || m == REPNE ||
    m == REPNZ || m == INS || m == INSB || m == INSW || m == INSD || m == OUTS || m == OUTSB ||
    m == OUTSW || m == OUTSD || m == CLD || m == STD || m == PUSHF || m == PUSHFD || m == POPF ||
    m == POPFD || m == STI || m == CLI || m == LDS || m == LES || m == LFS || m == LGS ||
    m == LSS || m == XLAT || m == XLATB || m == CPUID || m == MOVBE || m == XSAVE || m == XSAVEC ||
    m == XSAVEOPT || m == XRSTOR || m == XGETBV || m == RDRAND || m == RDSEED || m == ANDN ||
    m == BEXTR || m == BLSI || m == BLSMSK || m == BLSR || m == BZHI || m == LZCNT || m == MULX ||
    m == PDEP || m == PEXT || m == TZCNT
  }

  /**
   * The dispatch: the handler created for a mnemonic, its operands and keys, case by case
   * in the order the source lists them. It always creates one: named but unsupported
   * mnemonics and all unnamed ones get the not-implemented handler.
   */
  function InstantiateOpcode(m: Mnemonic, args: seq<string>, keys: Keys): (r: OpcodeBase)
    ensures r.args == args && r.keys == keys
  {
    var kind :=
      if m == NONE || m == UNKNOWN then Ignore(m)
      else if m == MOV then Dedicated(m)
      else if m == CMOVE || m == CMOVZ || m == CMOVNE || m == CMOVNZ || m == CMOVA || m == CMOVNBE ||
        m == CMOVAE || m == CMOVNB || m == CMOVB || m == CMOVNAE || m == CMOVBE || m == CMOVNA ||
        m == CMOVG || m == CMOVNLE || m == CMOVGE || m == CMOVNL || m == CMOVL || m == CMOVNGE ||
        m == CMOVLE || m == CMOVNG || m == CMOVC || m == CMOVNC || m == CMOVO || m == CMOVNO ||
        m == CMOVS || m == CMOVNS || m == CMOVP || m == CMOVPE || m == CMOVNP || m == CMOVPO then Cmovcc(m)
      else if m == XCHG || m == BSWAP then NotImplemented(m)
      else if m == XADD then Dedicated(m)
      else if m == CMPXCHG || m == CMPXCHG8B then NotImplemented(m)
      else if m == PUSH || m == POP then Dedicated(m)
      else if m == PUSHA || m == PUSHAD || m == POPA || m == POPAD then NotImplemented(m)
      else if m == CWD || m == CDQ || m == CBW || m == CWDE || m == CQO || m == MOVSX || m == MOVSXD ||
        m == MOVZX || m == ADCX || m == ADOX || m == ADD || m == ADC || m == SUB || m == SBB ||
        m == IMUL || m == MUL || m == IDIV || m == DIV || m == INC || m == DEC || m == NEG ||
        m == CMP then Dedicated(m)
      else if m == DAA || m == DAS || m == AAA || m == AAS || m == AAM || m == AAD then NotImplemented(m)
      else if m == AND || m == OR || m == XOR || m == NOT || m == SAR || m == SHR || m == SAL ||
        m == SHL || m == SHRD || m == SHLD || m == ROR || m == ROL || m == RCR || m == RCL ||
        m == BT || m == BTS || m == BTR || m == BTC || m == BSF || m == BSR || m == TEST then Dedicated(m)
      else if m == CRC32 then NotImplemented(m)
      else if m == SETE || m == SETZ || m == SETNE || m == SETNZ || m == SETA || m == SETNBE ||
        m == SETAE || m == SETNB || m == SETNC || m == SETB || m == SETNAE || m == SETC ||
        m == SETBE || m == SETNA || m == SETG || m == SETNLE || m == SETGE || m == SETNL ||
        m == SETL || m == SETNGE || m == SETLE || m == SETNG || m == SETS || m == SETNS ||
        m == SETO || m == SETNO || m == SETPE || m == SETP || m == SETNP || m == SETPO then Setcc(m)
      else if m == JMP then Dedicated(m)
      else if m == JE || m == JZ || m == JNE || m == JNZ || m == JA || m == JNBE || m == JAE ||
        m == JNB || m == JB || m == JNAE || m == JBE || m == JNA || m == JG || m == JNLE ||
        m == JGE || m == JNL || m == JL || m == JNGE || m == JLE || m == JNG || m == JC ||
        m == JNC || m == JO || m == JNO || m == JS || m == JNS || m == JPO || m == JNP ||
        m == JPE || m == JP || m == JCXZ || m == JECXZ || m == JRCXZ then Jmpcc(m)
      else if m == LOOP || m == LOOPZ || m == LOOPE || m == LOOPNZ || m == LOOPNE then Dedicated(m)
      else if m == CALL || m == RET || m == IRET || m == INT || m == INTO || m == BOUND || m == ENTER ||
        m == LEAVE || m == MOVS || m == MOVSB || m == MOVSW || m == MOVSD || m == CMPS ||
        m == CMPSB || m == CMPSW || m == CMPSD || m == SCAS || m == SCASB || m == SCASW ||
        m == SCASD || m == LODS || m == LODSB || m == LODSW || m == LODSD || m == STOS ||
        m == STOSB || m == STOSW || m == STOSD || m == REP || m == REPE || m == REPZ ||
        m == REPNE || m == REPNZ then NotImplemented(m)
      else if m == IN || m == OUT then Dedicated(m)
      else if m == INS || m == INSB || m == INSW || m == INSD || m == OUTS || m == OUTSB || m == OUTSW ||
        m == OUTSD then NotImplemented(m)
      else if m == STC || m == CLC || m == CMC then Dedicated(m)
      else if m == CLD || m == STD then NotImplemented(m)
      else if m == LAHF || m == SAHF then Dedicated(m)
      else if m == PUSHF || m == PUSHFD || m == POPF || m == POPFD || m == STI || m == CLI || m == LDS ||
        m == LES || m == LFS || m == LGS || m == LSS then NotImplemented(m)
      else if m == LEA then Dedicated(m)
      else if m == NOP then Nop
      else if m == UD2 then Nop
      else if m == XLAT || m == XLATB || m == CPUID || m == MOVBE then NotImplemented(m)
      else if m == PREFETCHW then Nop
      else if m == PREFETCHWT1 then Nop
      else if m == CLFLUSH then Nop
      else if m == CLFLUSHOPT then Nop
      else if m == XSAVE || m == XSAVEC || m == XSAVEOPT || m == XRSTOR || m == XGETBV || m == RDRAND ||
        m == RDSEED || m == ANDN || m == BEXTR || m == BLSI || m == BLSMSK || m == BLSR ||
        m == BZHI || m == LZCNT || m == MULX || m == PDEP || m == PEXT then NotImplemented(m)
      else if m == RORX || m == SARX || m == SHLX || m == SHRX then Dedicated(m)
      else if m == TZCNT then NotImplemented(m)
      else if m == POPCNT then Dedicated(m)
      else NotImplemented(m);
    OpcodeBase(kind, args, keys)
  }

  /** Exactly NONE and UNKNOWN get the ignoring handler. */
  lemma {:induction false} DispatchIgnored(m: Mnemonic, args: seq<string>, keys: Keys)
    ensures InstantiateOpcode(m, args, keys).kind.Ignore? <==> IsIgnored(m)
  {
  }

  /** Exactly the mnemonics with a handler class of their own get it. */
  lemma {:induction false} DispatchDedicated(m: Mnemonic, args: seq<string>, keys: Keys)
    ensures InstantiateOpcode(m, args, keys).kind.Dedicated? <==> HasOwnHandler(m)
  {
  }

  /** Exactly the conditional moves, sets and jumps get the matching conditional handler. */
  lemma {:induction false} DispatchConditional(m: Mnemonic, args: seq<string>, keys: Keys)
    ensures var k := InstantiateOpcode(m, args, keys).kind;
            (k.Cmovcc? <==> IsConditionalMove(m)) &&
            (k.Setcc? <==> IsConditionalSet(m)) &&
            (k.Jmpcc? <==> IsConditionalJump(m))
  {
  }

  /** Exactly NOP, UD2, the prefetches and the cache flushes get the no-effect handler. */
  lemma {:induction false} DispatchNoEffect(m: Mnemonic, args: seq<string>, keys: Keys)
    ensures InstantiateOpcode(m, args, keys).kind.Nop? <==> HasNoEffect(m)
  {
  }

  /** The not-implemented handler goes to the unsupported mnemonics and to every unnamed one. */
  lemma {:induction false} DispatchNotImplemented(m: Mnemonic, args: seq<string>, keys: Keys)
    ensures InstantiateOpcode(m, args, keys).kind.NotImplemented? <==> IsUnsupported(m) || m >= NamedCount
  {
  }

  /** Every handler but the shared no-effect one records the mnemonic it was created for. */
  lemma {:induction false} DispatchKeepsMnemonic(m: Mnemonic, args: seq<string>, keys: Keys)
    ensures var k := InstantiateOpcode(m, args, keys).kind;
            !k.Nop? ==> k.mnemonic == m
  {
  }
}
