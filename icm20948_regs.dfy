/** The register map of `icm20948_reg_t`. An address only names a register
    relative to a page: the four user banks of the ICM-20948 (selected through
    `REG_BANK_SEL`, which every bank shows at the same address), or the
    separate address space of the AK09916 magnetometer behind the auxiliary bus. */
module Icm20948Regs {
  import opened Esp

  datatype Reg =
    | RegBankSel
      // bank 0
    | WhoAmI | UserCtrl | LpConfig | PwrMgmt1 | PwrMgmt2 | IntPinConfig
    | AccelXoutH | AccelXoutL | AccelYoutH | AccelYoutL | AccelZoutH | AccelZoutL
    | GyroXoutH | GyroXoutL | GyroYoutH | GyroYoutL | GyroZoutH | GyroZoutL
      // bank 1
    | SelfTestXGyro | SelfTestYGyro | SelfTestZGyro
      // bank 2
    | GyroSmplrtDiv | GyroConfig1 | AccelConfig
      // AK09916
    | Ak09916Wia2 | Ak09916St1 | Ak09916Hxl | Ak09916Hxh | Ak09916Hyl | Ak09916Hyh
    | Ak09916Hzl | Ak09916Hzh | Ak09916St2 | Ak09916Cntl2 | Ak09916Cntl3

  /** Where an address is interpreted. */
  datatype Space = AllBanks | UserBank(bank: nat) | Magnetometer

  /** The enum value of each register. */
  function Address(r: Reg): (a: int)
    ensures 0 <= a < 0x80
    ensures a == 0x7F <==> r == RegBankSel
  {
    match r
    case RegBankSel => 0x7F
    case WhoAmI => 0x00
    case UserCtrl => 0x03
    case LpConfig => 0x05
    case PwrMgmt1 => 0x06
    case PwrMgmt2 => 0x07
    case IntPinConfig => 0x0F
    case AccelXoutH => 0x2D
    case AccelXoutL => 0x2E
    case AccelYoutH => 0x2F
    case AccelYoutL => 0x30
    case AccelZoutH => 0x31
    case AccelZoutL => 0x32
    case GyroXoutH => 0x33
    case GyroXoutL => 0x34
    case GyroYoutH => 0x35
    case GyroYoutL => 0x36
    case GyroZoutH => 0x37
    case GyroZoutL => 0x38
    case SelfTestXGyro => 0x02
    case SelfTestYGyro => 0x03
    case SelfTestZGyro => 0x04
    case GyroSmplrtDiv => 0x00
    case GyroConfig1 => 0x01
    case AccelConfig => 0x14
    case Ak09916Wia2 => 0x01
    case Ak09916St1 => 0x10
    case Ak09916Hxl => 0x11
    case Ak09916Hxh => 0x12
    case Ak09916Hyl => 0x13
    case Ak09916Hyh => 0x14
    case Ak09916Hzl => 0x15
    case Ak09916Hzh => 0x16
    case Ak09916St2 => 0x18
    case Ak09916Cntl2 => 0x31
    case Ak09916Cntl3 => 0x32
  }

  /** The page each register belongs to, as the enum's comments group them. */
  function Home(r: Reg): (s: Space)
    ensures s == AllBanks <==> r == RegBankSel
    ensures s.UserBank? ==> s.bank < 3
  {
    match r
    case RegBankSel => AllBanks
    case WhoAmI | UserCtrl | LpConfig | PwrMgmt1 | PwrMgmt2 | IntPinConfig
      | AccelXoutH | AccelXoutL | AccelYoutH | AccelYoutL | AccelZoutH | AccelZoutL
      | GyroXoutH | GyroXoutL | GyroYoutH | GyroYoutL | GyroZoutH | GyroZoutL => UserBank(0)
    case SelfTestXGyro | SelfTestYGyro | SelfTestZGyro => UserBank(1)
    case GyroSmplrtDiv | GyroConfig1 | AccelConfig => UserBank(2)
    case _ => Magnetometer
  }

  /** The register a user bank shows at an address; `REG_BANK_SEL` is seen from every bank. */
  function InBank(bank: nat, a: int): Option<Reg> {
    if a == 0x7F then Some(RegBankSel)
    else if bank == 0 then
      if a == 0x00 then Some(WhoAmI)
      else if a == 0x03 then Some(UserCtrl)
      else if a == 0x05 then Some(LpConfig)
      else if a == 0x06 then Some(PwrMgmt1)
      else if a == 0x07 then Some(PwrMgmt2)
      else if a == 0x0F then Some(IntPinConfig)
      else if 0x2D <= a <= 0x38 then Some(OutputRegisters[a - 0x2D])
      else None
    else if bank == 1 then
      if a == 0x02 then Some(SelfTestXGyro)
      else if a == 0x03 then Some(SelfTestYGyro)
      else if a == 0x04 then Some(SelfTestZGyro)
      else None
    else if bank == 2 then
      if a == 0x00 then Some(GyroSmplrtDiv)
      else if a == 0x01 then Some(GyroConfig1)
      else if a == 0x14 then Some(AccelConfig)
      else None
    else None
  }

  /** The register the AK09916 shows at an address. */
  function InMagnetometer(a: int): Option<Reg> {
    if a == 0x01 then Some(Ak09916Wia2)
    else if a == 0x10 then Some(Ak09916St1)
    else if a == 0x11 then Some(Ak09916Hxl)
    else if a == 0x12 then Some(Ak09916Hxh)
    else if a == 0x13 then Some(Ak09916Hyl)
    else if a == 0x14 then Some(Ak09916Hyh)
    else if a == 0x15 then Some(Ak09916Hzl)
    else if a == 0x16 then Some(Ak09916Hzh)
    else if a == 0x18 then Some(Ak09916St2)
    else if a == 0x31 then Some(Ak09916Cntl2)
    else if a == 0x32 then Some(Ak09916Cntl3)
    else None
  }

  /** The sensor output block, in address order. */
  const OutputRegisters: seq<Reg> :=
    [AccelXoutH, AccelXoutL, AccelYoutH, AccelYoutL, AccelZoutH, AccelZoutL,
     GyroXoutH, GyroXoutL, GyroYoutH, GyroYoutL, GyroZoutH, GyroZoutL]

  /** Looking a register up at its own page and address finds that register:
      the table gives every register its own place. */
  lemma LookupHome(r: Reg)
    ensures Home(r).UserBank? ==> InBank(Home(r).bank, Address(r)) == Some(r)
    ensures Home(r) == Magnetometer ==> InMagnetometer(Address(r)) == Some(r)
    ensures Home(r) == AllBanks ==> forall b: nat :: InBank(b, Address(r)) == Some(r)
  {
  }

  /** A register is identified by its page together with its address. */
  lemma PlaceIdentifiesRegister(r1: Reg, r2: Reg)
    requires Home(r1) == Home(r2) && Address(r1) == Address(r2)
    ensures r1 == r2
  {
    LookupHome(r1);
    LookupHome(r2);
    if Home(r1) == AllBanks {
      assert InBank(0, Address(r1)) == Some(r1);
    }
  }

  /** One address, several registers: the page decides. */
  lemma SharedAddresses()
    ensures Address(UserCtrl) == Address(SelfTestYGyro) == 0x03
    ensures InBank(0, 0x03) == Some(UserCtrl) && InBank(1, 0x03) == Some(SelfTestYGyro)
    ensures Address(WhoAmI) == Address(GyroSmplrtDiv) == 0x00
    ensures InBank(0, 0x00) == Some(WhoAmI) && InBank(2, 0x00) == Some(GyroSmplrtDiv)
  {
  }

  /** The twelve output registers are consecutive bank-0 addresses from
      `ACCEL_XOUT_H`, high byte before low byte, accel X, Y, Z then gyro X, Y, Z;
      and no other bank-0 register lies in that range. */
  lemma OutputBlockLayout(k: nat)
    requires k < 12
    ensures Address(OutputRegisters[k]) == Address(AccelXoutH) + k
    ensures Home(OutputRegisters[k]) == UserBank(0)
    ensures OutputRegisters[0] == AccelXoutH && OutputRegisters[11] == GyroZoutL
  {
  }

  lemma OutputBlockIsExactlyTheRange(r: Reg)
    ensures (Home(r) == UserBank(0) && 0x2D <= Address(r) < 0x2D + 12) <==> r in OutputRegisters
  {
  }
}
