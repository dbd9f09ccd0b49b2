/** The ICM-20948 driver: the fixed transaction sequence of `imu_init`, the
    decoding of the 12-byte sensor burst in `imu_task`, and the single shared
    sample slot that `imu_task` publishes into and `get_imu_data` copies out.

    The I2C bus is an oracle: `respond(n)` is the `esp_err_t` that the n-th
    transaction of an `imu_init` call returns. Whether the 10 ms
    `xSemaphoreTake` succeeds is an input (`lockTaken`). The sample is kept as
    the six raw signed counts; the conversion to m/s^2 and rad/s is not modelled. */
module Icm20948 {
  import opened Esp
  import Regs = Icm20948Regs

  // The driver's own #defines.
  const RegBankSelAddr: int := 0x7F
  const PwrMgmt1Addr: int := 0x06
  const AccelXoutHAddr: int := 0x2D
  const GyroConfig1Addr: int := 0x01
  const AccelConfigAddr: int := 0x14

  /** Bytes in one acquisition burst: three accelerometer and three gyroscope axes, two bytes each. */
  const BurstLength: nat := 12

  /** The driver's addresses are the register map's. */
  lemma DefinesMatchRegisterMap()
    ensures RegBankSelAddr == Regs.Address(Regs.RegBankSel) && Regs.Home(Regs.RegBankSel) == Regs.AllBanks
    ensures PwrMgmt1Addr == Regs.Address(Regs.PwrMgmt1) && Regs.Home(Regs.PwrMgmt1) == Regs.UserBank(0)
    ensures AccelXoutHAddr == Regs.Address(Regs.AccelXoutH) && Regs.Home(Regs.AccelXoutH) == Regs.UserBank(0)
    ensures GyroConfig1Addr == Regs.Address(Regs.GyroConfig1) && Regs.Home(Regs.GyroConfig1) == Regs.UserBank(2)
    ensures AccelConfigAddr == Regs.Address(Regs.AccelConfig) && Regs.Home(Regs.AccelConfig) == Regs.UserBank(2)
  {
  }

  // ---------------------------------------------------------------------------
  // Bus transactions and imu_init
  // ---------------------------------------------------------------------------

  /** One I2C transaction with the sensor: a register write or a burst read. */
  datatype Txn = Write(addr: int, value: Byte) | Read(addr: int, len: nat)

  /** `select_bank(bank)`: a write of `bank` to `REG_BANK_SEL`. */
  function SelectBank(bank: Byte): (t: Txn)
    ensures IsBankSelect(t) && t.value == bank
    ensures forall b: nat :: Regs.InBank(b, t.addr) == Some(Regs.RegBankSel)
  {
    Write(RegBankSelAddr, bank)
  }

  predicate IsBankSelect(t: Txn) {
    t.Write? && t.addr == RegBankSelAddr
  }

  /** The transactions `imu_init` issues when nothing fails: wake the chip in
      bank 0, configure gyro and accelerometer in bank 2 (USER_BANK field 0x20),
      return to bank 0. */
  const InitPlan: seq<Txn> := [
    SelectBank(0x00),
    Write(PwrMgmt1Addr, 0x01),
    SelectBank(0x20),
    Write(GyroConfig1Addr, 0x00),
    Write(AccelConfigAddr, 0x00),
    SelectBank(0x00)
  ]

  /** How far a run of a plan got: how many transactions were issued, and the result. */
  datatype BusRun = BusRun(issued: nat, ret: ErrCode)

  predicate WriteOk(plan: seq<Txn>, respond: nat -> ErrCode, j: nat)
    requires j < |plan|
  {
    IsBankSelect(plan[j]) || respond(j) == Ok
  }

  /** Issues `plan[i..]` in order as `imu_init` does: a failed register write
      ends the run with its error; the result of a bank select is discarded. */
  function RunPlan(plan: seq<Txn>, respond: nat -> ErrCode, i: nat): (r: BusRun)
    requires i <= |plan|
    ensures i <= r.issued <= |plan|
    ensures r.ret == Ok ==> r.issued == |plan|
    ensures r.ret != Ok ==> r.issued > i && !IsBankSelect(plan[r.issued - 1]) && respond(r.issued - 1) == r.ret
    ensures forall j :: i <= j < r.issued - 1 ==> WriteOk(plan, respond, j)
    ensures r.ret == Ok ==> forall j :: i <= j < |plan| ==> WriteOk(plan, respond, j)
    decreases |plan| - i
  {
    if i == |plan| then BusRun(i, Ok)
    else if !IsBankSelect(plan[i]) && respond(i) != Ok then BusRun(i + 1, respond(i))
    else RunPlan(plan, respond, i + 1)
  }

  /** What one `imu_init` call does: its result, the transactions it put on the
      bus, and whether it got as far as creating the sample mutex (and with what success). */
  datatype InitOutcome = InitOutcome(ret: ErrCode, txns: seq<Txn>, mutexAttempted: bool, mutexCreated: bool)

  /** `imu_init`: I2C parameter setup and driver install (their codes are
      inputs), the plan with fail-fast register writes, then the mutex. */
  function InitSpec(paramRet: ErrCode, installRet: ErrCode, respond: nat -> ErrCode, mutexOk: bool): (o: InitOutcome)
    ensures paramRet != Ok ==> o.ret == paramRet && o.txns == []
    ensures paramRet == Ok && installRet != Ok ==> o.ret == installRet && o.txns == []
    ensures o.txns <= InitPlan
    ensures o.mutexAttempted <==> o.txns == InitPlan
    ensures o.mutexCreated <==> o.mutexAttempted && mutexOk
    ensures o.ret == Ok <==> o.mutexCreated
  {
    if paramRet != Ok then InitOutcome(paramRet, [], false, false)
    else if installRet != Ok then InitOutcome(installRet, [], false, false)
    else
      var r := RunPlan(InitPlan, respond, 0);
      if r.ret != Ok then InitOutcome(r.ret, InitPlan[..r.issued], false, false)
      else if !mutexOk then InitOutcome(NoMem, InitPlan, true, false)
      else InitOutcome(Ok, InitPlan, true, true)
  }

  /** The run of `InitPlan`, written out: only the writes at positions 1, 3 and 4 can stop it. */
  lemma InitPlanRun(respond: nat -> ErrCode)
    ensures RunPlan(InitPlan, respond, 0) ==
      if respond(1) != Ok then BusRun(2, respond(1))
      else if respond(3) != Ok then BusRun(4, respond(3))
      else if respond(4) != Ok then BusRun(5, respond(4))
      else BusRun(6, Ok)
  {
    assert IsBankSelect(InitPlan[0]) && IsBankSelect(InitPlan[2]) && IsBankSelect(InitPlan[5]);
    assert !IsBankSelect(InitPlan[1]) && !IsBankSelect(InitPlan[3]) && !IsBankSelect(InitPlan[4]);
    assert RunPlan(InitPlan, respond, 6) == BusRun(6, Ok);
    assert RunPlan(InitPlan, respond, 5) == RunPlan(InitPlan, respond, 6);
    assert RunPlan(InitPlan, respond, 2) == RunPlan(InitPlan, respond, 3);
    assert RunPlan(InitPlan, respond, 0) == RunPlan(InitPlan, respond, 1);
  }

  /** With every transaction succeeding, `imu_init` issues exactly the six
      transactions in order, creates the mutex and returns ESP_OK. */
  lemma InitAllSucceed(respond: nat -> ErrCode)
    requires forall n :: respond(n) == Ok
    ensures InitSpec(Ok, Ok, respond, true) == InitOutcome(Ok, InitPlan, true, true)
    ensures InitPlan == [Write(0x7F, 0x00), Write(0x06, 0x01), Write(0x7F, 0x20), Write(0x01, 0x00), Write(0x14, 0x00), Write(0x7F, 0x00)]
  {
    InitPlanRun(respond);
  }

  /** A failed register write is returned at once and nothing after it is issued. */
  lemma InitStopsAtFailedWrite(respond: nat -> ErrCode, k: nat)
    requires k < |InitPlan| && !IsBankSelect(InitPlan[k]) && respond(k) != Ok
    requires forall j :: 0 <= j < k && !IsBankSelect(InitPlan[j]) ==> respond(j) == Ok
    ensures InitSpec(Ok, Ok, respond, true) == InitOutcome(respond(k), InitPlan[..k + 1], false, false)
  {
    InitPlanRun(respond);
    assert !IsBankSelect(InitPlan[1]) && !IsBankSelect(InitPlan[3]);
    assert k == 1 || k == 3 || k == 4;
  }

  /** A failed bank select is ignored: when the register writes succeed, all six
      transactions are issued whatever the bank selects return. */
  lemma InitIgnoresBankSelectResults(respond: nat -> ErrCode, mutexOk: bool)
    requires respond(1) == Ok && respond(3) == Ok && respond(4) == Ok
    ensures InitSpec(Ok, Ok, respond, mutexOk).txns == InitPlan
    ensures InitSpec(Ok, Ok, respond, mutexOk).ret == if mutexOk then Ok else NoMem
  {
    InitPlanRun(respond);
  }

  /** The mutex is only attempted once every register write has succeeded, and
      ESP_ERR_NO_MEM means exactly that the attempt failed. */
  lemma InitCreatesMutexLast(paramRet: ErrCode, installRet: ErrCode, respond: nat -> ErrCode, mutexOk: bool)
    ensures var o := InitSpec(paramRet, installRet, respond, mutexOk);
      o.mutexAttempted <==> paramRet == Ok && installRet == Ok && respond(1) == Ok && respond(3) == Ok && respond(4) == Ok
    ensures var o := InitSpec(paramRet, installRet, respond, mutexOk);
      (o.mutexCreated <==> o.mutexAttempted && mutexOk) && (o.ret == Ok <==> o.mutexCreated)
    ensures var o := InitSpec(paramRet, installRet, respond, mutexOk);
      o.mutexAttempted ==> (o.ret == NoMem <==> !mutexOk)
  {
    InitPlanRun(respond);
  }

  // ---------------------------------------------------------------------------
  // What the device does with the writes: the bank each register write lands in
  // ---------------------------------------------------------------------------

  /** The user bank a value written to `REG_BANK_SEL` selects (its USER_BANK field, bits 5:4). */
  function UserBankField(v: Byte): (b: nat)
    ensures b < 4
  {
    (v as int / 16) % 4
  }

  /** A register write as the device receives it: into which bank, at which address, what value. */
  datatype Landing = Landing(bank: nat, addr: int, value: Byte)

  /** The register writes among `plan[i..n]` that the device accepts, starting in
      `bank`: an accepted bank select switches the bank, an accepted write lands
      in the bank selected at that moment, a failed transaction changes nothing. */
  function Landings(bank: nat, plan: seq<Txn>, respond: nat -> ErrCode, i: nat, n: nat): seq<Landing>
    requires i <= n <= |plan|
    decreases n - i
  {
    if i == n then []
    else
      var t := plan[i];
      if respond(i) != Ok || !t.Write? then Landings(bank, plan, respond, i + 1, n)
      else if IsBankSelect(t) then Landings(UserBankField(t.value), plan, respond, i + 1, n)
      else [Landing(bank, t.addr, t.value)] + Landings(bank, plan, respond, i + 1, n)
  }

  /** The three configuration writes `imu_init` means to make, with the register each one targets. */
  const IntendedWrites: seq<(Regs.Reg, Byte)> := [(Regs.PwrMgmt1, 0x01), (Regs.GyroConfig1, 0x00), (Regs.AccelConfig, 0x00)]

  predicate HitsIntendedRegisters(ls: seq<Landing>) {
    |ls| == |IntendedWrites| &&
    forall j :: 0 <= j < |ls| ==>
      Regs.InBank(ls[j].bank, ls[j].addr) == Some(IntendedWrites[j].0) && ls[j].value == IntendedWrites[j].1
  }

  /** With the bus error-free, each configuration write lands on the register it
      is meant for, whatever bank the device was left in. */
  lemma InitPlanHitsIntendedRegisters(startBank: nat, respond: nat -> ErrCode)
    requires forall n: nat :: n < |InitPlan| ==> respond(n) == Ok
    ensures HitsIntendedRegisters(Landings(startBank, InitPlan, respond, 0, |InitPlan|))
  {
    var ls := Landings(startBank, InitPlan, respond, 0, |InitPlan|);
    assert respond(0) == Ok && respond(1) == Ok && respond(2) == Ok && respond(3) == Ok && respond(4) == Ok && respond(5) == Ok;
    assert Landings(0, InitPlan, respond, 6, 6) == [];
    assert Landings(2, InitPlan, respond, 5, 6) == [];
    assert Landings(2, InitPlan, respond, 3, 6) == [Landing(2, 0x01, 0x00), Landing(2, 0x14, 0x00)];
    assert Landings(0, InitPlan, respond, 1, 6) == [Landing(0, 0x06, 0x01), Landing(2, 0x01, 0x00), Landing(2, 0x14, 0x00)];
    assert ls == Landings(0, InitPlan, respond, 1, 6);
  }

  /** As written, `imu_init` reports ESP_OK although the bank select before the
      configuration writes failed: the gyro configuration write then lands at
      address 0x01 of bank 0, where the register map has no register at all. */
  lemma InitSucceedsDespiteFailedBankSelect()
    ensures var respond := (n: nat) => if n == 2 then Fail else Ok;
      && InitSpec(Ok, Ok, respond, true).ret == Ok
      && Landings(0, InitPlan, respond, 0, |InitPlan|)[1] == Landing(0, GyroConfig1Addr, 0x00)
      && Regs.InBank(0, GyroConfig1Addr) == None
      && !HitsIntendedRegisters(Landings(0, InitPlan, respond, 0, |InitPlan|))
  {
    var respond := (n: nat) => if n == 2 then Fail else Ok;
    InitPlanRun(respond);
    assert Landings(0, InitPlan, respond, 6, 6) == [];
    assert Landings(0, InitPlan, respond, 5, 6) == [];
    assert Landings(0, InitPlan, respond, 2, 6) == [Landing(0, 0x01, 0x00), Landing(0, 0x14, 0x00)];
    assert Landings(0, InitPlan, respond, 0, 6) == [Landing(0, 0x06, 0x01), Landing(0, 0x01, 0x00), Landing(0, 0x14, 0x00)];
  }

  /** `imu_init` with `select_bank` returning its write result and every
      result checked: the first failed transaction, bank select or not, is returned. */
  function RunPlanChecked(plan: seq<Txn>, respond: nat -> ErrCode, i: nat): (r: BusRun)
    requires i <= |plan|
    ensures i <= r.issued <= |plan|
    ensures r.ret == Ok <==> r.issued == |plan| && forall j :: i <= j < |plan| ==> respond(j) == Ok
    ensures r.ret != Ok ==> r.issued > i && respond(r.issued - 1) == r.ret
    ensures r.ret != Ok ==> forall j :: i <= j < r.issued - 1 ==> respond(j) == Ok
    decreases |plan| - i
  {
    if i == |plan| then BusRun(i, Ok)
    else if respond(i) != Ok then BusRun(i + 1, respond(i))
    else RunPlanChecked(plan, respond, i + 1)
  }

  function InitSpecChecked(paramRet: ErrCode, installRet: ErrCode, respond: nat -> ErrCode, mutexOk: bool): InitOutcome {
    if paramRet != Ok then InitOutcome(paramRet, [], false, false)
    else if installRet != Ok then InitOutcome(installRet, [], false, false)
    else
      var r := RunPlanChecked(InitPlan, respond, 0);
      if r.ret != Ok then InitOutcome(r.ret, InitPlan[..r.issued], false, false)
      else if !mutexOk then InitOutcome(NoMem, InitPlan, true, false)
      else InitOutcome(Ok, InitPlan, true, true)
  }

  /** With every result checked, ESP_OK guarantees that each configuration write
      reached the register it was meant for. */
  lemma CheckedInitHitsIntendedRegisters(startBank: nat, paramRet: ErrCode, installRet: ErrCode, respond: nat -> ErrCode, mutexOk: bool)
    requires InitSpecChecked(paramRet, installRet, respond, mutexOk).ret == Ok
    ensures HitsIntendedRegisters(Landings(startBank, InitPlan, respond, 0, |InitPlan|))
  {
    var r := RunPlanChecked(InitPlan, respond, 0);
    assert r.ret == Ok;
    InitPlanHitsIntendedRegisters(startBank, respond);
  }

  // ---------------------------------------------------------------------------
  // Decoding the burst
  // ---------------------------------------------------------------------------

  /** A signed 16-bit value (`int16_t`). */
  newtype Int16 = x: int | -0x8000 <= x < 0x8000

  /** `(int16_t)((hi << 8) | lo)`: the 16 bits read as two's complement. */
  function Int16FromBytes(hi: Byte, lo: Byte): (v: Int16)
    ensures (v as int) % 0x1_0000 == hi as int * 256 + lo as int
    ensures v < 0 <==> hi >= 0x80
  {
    var u := hi as int * 256 + lo as int;
    (if u >= 0x8000 then u - 0x1_0000 else u) as Int16
  }

  /** The big-endian bytes of a signed 16-bit value. */
  function BytesOfInt16(v: Int16): (Byte, Byte) {
    var u := if v < 0 then v as int + 0x1_0000 else v as int;
    ((u / 256) as Byte, (u % 256) as Byte)
  }

  lemma Int16RoundTrip(v: Int16)
    ensures Int16FromBytes(BytesOfInt16(v).0, BytesOfInt16(v).1) == v
  {
    var u := if v < 0 then v as int + 0x1_0000 else v as int;
    assert (u / 256) * 256 + u % 256 == u;
  }

  lemma BytesRoundTrip(hi: Byte, lo: Byte)
    ensures BytesOfInt16(Int16FromBytes(hi, lo)) == (hi, lo)
  {
    var u := hi as int * 256 + lo as int;
    assert u / 256 == hi as int && u % 256 == lo as int;
  }

  /** One raw acquisition: the six signed counts, accelerometer then gyroscope. */
  datatype Sample = Sample(ax: Int16, ay: Int16, az: Int16, gx: Int16, gy: Int16, gz: Int16)

  /** `imu_data` before any publish: the zero-initialised static. */
  const ZeroSample := Sample(0, 0, 0, 0, 0, 0)

  /** Axis k of a sample: 0..2 accelerometer X, Y, Z; 3..5 gyroscope X, Y, Z. */
  function Axis(s: Sample, k: nat): Int16
    requires k < 6
  {
    [s.ax, s.ay, s.az, s.gx, s.gy, s.gz][k]
  }

  /** The registers whose bytes make axis k. */
  function AxisRegisters(k: nat): (Regs.Reg, Regs.Reg)
    requires k < 6
  {
    [(Regs.AccelXoutH, Regs.AccelXoutL), (Regs.AccelYoutH, Regs.AccelYoutL), (Regs.AccelZoutH, Regs.AccelZoutL),
     (Regs.GyroXoutH, Regs.GyroXoutL), (Regs.GyroYoutH, Regs.GyroYoutL), (Regs.GyroZoutH, Regs.GyroZoutL)][k]
  }

  /** The 12 bytes of one burst read. */
  type Burst = s: seq<Byte> | |s| == 12 witness [0, 0, 0, 0, 0, 0, 0, 0, 0, 0, 0, 0]

  /** The six counts of a burst: axis k is the big-endian pair at bytes 2k and 2k+1. */
  function DecodeBurst(raw: Burst): (s: Sample)
    ensures forall k :: 0 <= k < 6 ==> Axis(s, k) == Int16FromBytes(raw[2 * k], raw[2 * k + 1])
  {
    Sample(Int16FromBytes(raw[0], raw[1]), Int16FromBytes(raw[2], raw[3]), Int16FromBytes(raw[4], raw[5]),
           Int16FromBytes(raw[6], raw[7]), Int16FromBytes(raw[8], raw[9]), Int16FromBytes(raw[10], raw[11]))
  }

  function EncodeBurst(s: Sample): Burst {
    var a, b, c, d, e, f := BytesOfInt16(s.ax), BytesOfInt16(s.ay), BytesOfInt16(s.az),
                            BytesOfInt16(s.gx), BytesOfInt16(s.gy), BytesOfInt16(s.gz);
    [a.0, a.1, b.0, b.1, c.0, c.1, d.0, d.1, e.0, e.1, f.0, f.1]
  }

  /** Axis k is the big-endian pair at bytes 2k and 2k+1, which the burst from
      ACCEL_XOUT_H reads from that axis's high and low output registers. */
  lemma BurstLayout(raw: Burst, k: nat)
    requires k < 6
    ensures Axis(DecodeBurst(raw), k) == Int16FromBytes(raw[2 * k], raw[2 * k + 1])
    ensures Regs.OutputRegisters[2 * k] == AxisRegisters(k).0 && Regs.OutputRegisters[2 * k + 1] == AxisRegisters(k).1
    ensures Regs.Address(AxisRegisters(k).0) == AccelXoutHAddr + 2 * k
    ensures Regs.Address(AxisRegisters(k).1) == AccelXoutHAddr + 2 * k + 1
  {
    Regs.OutputBlockLayout(2 * k);
    Regs.OutputBlockLayout(2 * k + 1);
  }

  /** Encoding six counts and decoding the burst gives them back. */
  lemma SampleRoundTrip(s: Sample)
    ensures DecodeBurst(EncodeBurst(s)) == s
  {
    Int16RoundTrip(s.ax);
    Int16RoundTrip(s.ay);
    Int16RoundTrip(s.az);
    Int16RoundTrip(s.gx);
    Int16RoundTrip(s.gy);
    Int16RoundTrip(s.gz);
  }

  /** Decoding loses nothing: every burst is the encoding of what it decodes to. */
  lemma BurstRoundTrip(raw: Burst)
    ensures EncodeBurst(DecodeBurst(raw)) == raw
  {
    BytesRoundTrip(raw[0], raw[1]);
    BytesRoundTrip(raw[2], raw[3]);
    BytesRoundTrip(raw[4], raw[5]);
    BytesRoundTrip(raw[6], raw[7]);
    BytesRoundTrip(raw[8], raw[9]);
    BytesRoundTrip(raw[10], raw[11]);
  }

  // ---------------------------------------------------------------------------
  // The latest-sample slot
  // ---------------------------------------------------------------------------

  /** One pass of `imu_task`'s loop as seen by the slot: the read's result,
      the bytes read, and whether the mutex was taken within 10 ms. */
  datatype Cycle = Cycle(readRet: ErrCode, raw: Burst, lockTaken: bool)

  predicate Publishes(c: Cycle) {
    c.readRet == Ok && c.lockTaken
  }

  /** The slot after one cycle: replaced whole by a locked successful read, else untouched. */
  function AfterCycle(slot: Sample, c: Cycle): (r: Sample)
    ensures r == slot || r == DecodeBurst(c.raw)
    ensures c.readRet != Ok || !c.lockTaken ==> r == slot
    ensures Publishes(c) ==> r == DecodeBurst(c.raw)
  {
    if Publishes(c) then DecodeBurst(c.raw) else slot
  }

  /** The slot after a run of cycles, oldest first. */
  function AfterCycles(slot: Sample, cs: seq<Cycle>): Sample
    decreases |cs|
  {
    if cs == [] then slot else AfterCycle(AfterCycles(slot, cs[..|cs| - 1]), cs[|cs| - 1])
  }

  /** The sample of the most recent publishing cycle, if any. */
  function LastPublished(cs: seq<Cycle>): (r: Option<Sample>)
    ensures r.Some? <==> exists j :: 0 <= j < |cs| && Publishes(cs[j])
    decreases |cs|
  {
    if cs == [] then None
    else if Publishes(cs[|cs| - 1]) then Some(DecodeBurst(cs[|cs| - 1].raw))
    else
      var r := LastPublished(cs[..|cs| - 1]);
      assert forall j :: 0 <= j < |cs| - 1 ==> cs[..|cs| - 1][j] == cs[j];
      r
  }

  /** Latest wins: the slot holds the sample of the last cycle that published,
      or what it held before if none did. */
  lemma {:induction false} SlotHoldsLatest(slot: Sample, cs: seq<Cycle>)
    ensures AfterCycles(slot, cs) == match LastPublished(cs) case Some(s) => s case None => slot
  {
    if cs != [] {
      SlotHoldsLatest(slot, cs[..|cs| - 1]);
    }
  }

  /** A read that fails and a read that succeeds: the slot holds only the second sample. */
  lemma FailedReadThenSuccess(slot: Sample, err: ErrCode, raw1: Burst, raw2: Burst)
    requires err != Ok
    ensures AfterCycles(slot, [Cycle(err, raw1, true), Cycle(Ok, raw2, true)]) == DecodeBurst(raw2)
  {
    assert [Cycle(err, raw1, true), Cycle(Ok, raw2, true)][..1] == [Cycle(err, raw1, true)];
  }

  /** `get_imu_data`: with the mutex taken, the copy and `true`; otherwise `false`
      and the caller's struct as it was. */
  function ReadSlot(slot: Sample, lockTaken: bool, out: Sample): (r: (Sample, bool))
    ensures r.1 == lockTaken
    ensures r.0 == if lockTaken then slot else out
  {
    if lockTaken then (slot, true) else (out, false)
  }

  /** A published sample is what the next locked read returns. */
  lemma PublishThenReadReturnsIt(slot: Sample, raw: Burst, out: Sample)
    ensures ReadSlot(AfterCycle(slot, Cycle(Ok, raw, true)), true, out) == (DecodeBurst(raw), true)
  {
  }

  /** The module statics of icm20948.c: the sample slot, whether the mutex
      exists, and (for the model) the bus transactions issued so far. */
  class Device {
    var imuData: Sample
    var mutexCreated: bool
    ghost var bus: seq<Txn>

    constructor ()
      ensures imuData == ZeroSample && !mutexCreated && bus == []
    {
      imuData := ZeroSample;
      mutexCreated := false;
      bus := [];
    }

    /** One I2C transaction: recorded on the bus, its result from the oracle. */
    method Transfer(t: Txn, result: ErrCode) returns (ret: ErrCode)
      modifies this`bus
      ensures bus == old(bus) + [t] && ret == result
    {
      bus := bus + [t];
      ret := result;
    }

    /** `imu_init`, after the I2C parameter setup and driver install. */
    method Init(paramRet: ErrCode, installRet: ErrCode, respond: nat -> ErrCode, mutexOk: bool) returns (ret: ErrCode)
      modifies this
      ensures var o := InitSpec(paramRet, installRet, respond, mutexOk);
        && ret == o.ret
        && bus == old(bus) + o.txns
        && mutexCreated == (if o.mutexAttempted then o.mutexCreated else old(mutexCreated))
      ensures imuData == old(imuData)
    {
      InitPlanRun(respond);
      ret := paramRet;
      if ret != Ok { return; }
      ret := installRet;
      if ret != Ok { return; }
      var ignored := Transfer(SelectBank(0x00), respond(0));
      ret := Transfer(Write(PwrMgmt1Addr, 0x01), respond(1));
      if ret != Ok { return; }
      ignored := Transfer(SelectBank(0x20), respond(2));
      ret := Transfer(Write(GyroConfig1Addr, 0x00), respond(3));
      if ret != Ok { return; }
      ret := Transfer(Write(AccelConfigAddr, 0x00), respond(4));
      if ret != Ok { return; }
      ignored := Transfer(SelectBank(0x00), respond(5));
      mutexCreated := mutexOk;
      if !mutexOk {
        ret := NoMem;
        return;
      }
      ret := Ok;
    }

    /** One pass of `imu_task`'s loop: one 12-byte read from ACCEL_XOUT_H; on
        success the decoded sample replaces the slot if the mutex is taken. */
    method TaskCycle(c: Cycle)
      requires mutexCreated
      modifies this`imuData, this`bus
      ensures bus == old(bus) + [Read(AccelXoutHAddr, BurstLength)]
      ensures imuData == AfterCycle(old(imuData), c)
    {
      var ret := Transfer(Read(AccelXoutHAddr, BurstLength), c.readRet);
      if ret == Ok {
        var temp := DecodeBurst(c.raw);
        if c.lockTaken {
          imuData := temp;
        }
      }
    }

    /** `get_imu_data(out)`: returns the new contents of `*out` and the result. */
    method GetImuData(lockTaken: bool, out: Sample) returns (outAfter: Sample, ok: bool)
      requires mutexCreated
      ensures (outAfter, ok) == ReadSlot(imuData, lockTaken, out)
      ensures ok == lockTaken && (ok ==> outAfter == imuData) && (!ok ==> outAfter == out)
    {
      outAfter, ok := out, false;
      if lockTaken {
        outAfter := imuData;
        ok := true;
      }
    }
  }

  /** The producer/consumer round trip on the object: publish, then read. */
  method PublishThenRead(d: Device, raw: Burst, out: Sample) returns (got: Sample, ok: bool)
    requires d.mutexCreated
    modifies d
    ensures ok && got == DecodeBurst(raw)
  {
    d.TaskCycle(Cycle(Ok, raw, true));
    got, ok := d.GetImuData(true, out);
  }
}
