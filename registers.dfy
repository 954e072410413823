/** The chip's register map and the bit-field layouts of the registers the
    driver touches. A `Field` names one entry of a layout; `Get`, `Set`, `Flag`
    and `SetFlag` are the accessors generated for it. */
module Registers {

  import opened Results

  datatype Register =
    | PuCtrl | Ctrl1 | Ctrl2
    | OCal1B2 | OCal1B1 | OCal1B0 | GCal1B3 | GCal1B2 | GCal1B1 | GCal1B0
    | OCal2B2 | OCal2B1 | OCal2B0 | GCal2B3 | GCal2B2 | GCal2B1 | GCal2B0
    | I2CControl | AdcOB2 | AdcOB1 | AdcOB0 | AdcOtpB2 | OtpB1 | OtpB0
    | Pga | PowerCtrl | DeviceRev

  /** The register's discriminant: consecutive from 0x00 in declaration order,
      except the three with explicit values. */
  function Address(r: Register): (a: bv8)
    ensures a < 0x20
  {
    match r
    case PuCtrl => 0x00
    case Ctrl1 => 0x01
    case Ctrl2 => 0x02
    case OCal1B2 => 0x03
    case OCal1B1 => 0x04
    case OCal1B0 => 0x05
    case GCal1B3 => 0x06
    case GCal1B2 => 0x07
    case GCal1B1 => 0x08
    case GCal1B0 => 0x09
    case OCal2B2 => 0x0A
    case OCal2B1 => 0x0B
    case OCal2B0 => 0x0C
    case GCal2B3 => 0x0D
    case GCal2B2 => 0x0E
    case GCal2B1 => 0x0F
    case GCal2B0 => 0x10
    case I2CControl => 0x11
    case AdcOB2 => 0x12
    case AdcOB1 => 0x13
    case AdcOB0 => 0x14
    case AdcOtpB2 => 0x15
    case OtpB1 => 0x16
    case OtpB0 => 0x17
    case Pga => 0x1B
    case PowerCtrl => 0x1C
    case DeviceRev => 0x1F
  }

  /** The register at an address, if any: the inverse of `Address`. */
  function RegisterAt(a: bv8): Option<Register> {
    if a == 0x00 then Some(PuCtrl)
    else if a == 0x01 then Some(Ctrl1)
    else if a == 0x02 then Some(Ctrl2)
    else if a == 0x03 then Some(OCal1B2)
    else if a == 0x04 then Some(OCal1B1)
    else if a == 0x05 then Some(OCal1B0)
    else if a == 0x06 then Some(GCal1B3)
    else if a == 0x07 then Some(GCal1B2)
    else if a == 0x08 then Some(GCal1B1)
    else if a == 0x09 then Some(GCal1B0)
    else if a == 0x0A then Some(OCal2B2)
    else if a == 0x0B then Some(OCal2B1)
    else if a == 0x0C then Some(OCal2B0)
    else if a == 0x0D then Some(GCal2B3)
    else if a == 0x0E then Some(GCal2B2)
    else if a == 0x0F then Some(GCal2B1)
    else if a == 0x10 then Some(GCal2B0)
    else if a == 0x11 then Some(I2CControl)
    else if a == 0x12 then Some(AdcOB2)
    else if a == 0x13 then Some(AdcOB1)
    else if a == 0x14 then Some(AdcOB0)
    else if a == 0x15 then Some(AdcOtpB2)
    else if a == 0x16 then Some(OtpB1)
    else if a == 0x17 then Some(OtpB0)
    else if a == 0x1B then Some(Pga)
    else if a == 0x1C then Some(PowerCtrl)
    else if a == 0x1F then Some(DeviceRev)
    else None
  }

  /** Decoding an address gives back its register. */
  lemma AddressRoundTrip(r: Register)
    ensures RegisterAt(Address(r)) == Some(r)
  {
  }

  /** No two registers share an address. */
  lemma {:induction false} AddressesDistinct(r: Register, s: Register)
    ensures Address(r) == Address(s) ==> r == s
  {
    AddressRoundTrip(r);
    AddressRoundTrip(s);
  }

  /** One named entry of a `bitfield!` layout. */
  datatype Field =
    // PuCtrl
    | Avdds | Oscs | Cr | Cs | Pur | Pua | Pud | Rr
    // Ctrl1
    | Crp | DrdySel | Vldo | Gains
    // Ctrl2
    | Chs | Crs | CalErr | Cals | Calmod
    // AdcRegister (the AdcOtpB2 register)
    | RegChps1 | RegChps0 | AdcVcm1 | AdcVcm0 | RegChp
    // Pga
    | RdOtpSel | Ldomode | PgaOutputBufferEnable | PgaBypassEnable | Pgainv | Pgachpdis
    // PowerCtrl
    | PgaCapEn | MasterBiasCurrent | AdcCurrent | PgaCurrent
    // DeviceRev
    | RevisionId

  /** The register whose layout declares the field. */
  function Layout(f: Field): Register {
    match f
    case Avdds | Oscs | Cr | Cs | Pur | Pua | Pud | Rr => PuCtrl
    case Crp | DrdySel | Vldo | Gains => Ctrl1
    case Chs | Crs | CalErr | Cals | Calmod => Ctrl2
    case RegChps1 | RegChps0 | AdcVcm1 | AdcVcm0 | RegChp => AdcOtpB2
    case RdOtpSel | Ldomode | PgaOutputBufferEnable | PgaBypassEnable | Pgainv | Pgachpdis => Pga
    case PgaCapEn | MasterBiasCurrent | AdcCurrent | PgaCurrent => PowerCtrl
    case RevisionId => DeviceRev
  }

  /** The field's most significant bit. */
  function Msb(f: Field): (m: bv8)
    ensures m < 8
  {
    match f
    case Avdds => 7
    case Oscs => 6
    case Cr => 5
    case Cs => 4
    case Pur => 3
    case Pua => 2
    case Pud => 1
    case Rr => 0
    case Crp => 7
    case DrdySel => 6
    case Vldo => 5
    case Gains => 2
    case Chs => 7
    case Crs => 6
    case CalErr => 3
    case Cals => 2
    case Calmod => 1
    case RegChps1 => 5
    case RegChps0 => 4
    case AdcVcm1 => 3
    case AdcVcm0 => 2
    case RegChp => 1
    case RdOtpSel => 7
    case Ldomode => 6
    case PgaOutputBufferEnable => 5
    case PgaBypassEnable => 4
    case Pgainv => 3
    case Pgachpdis => 0
    case PgaCapEn => 7
    case MasterBiasCurrent => 6
    case AdcCurrent => 3
    case PgaCurrent => 1
    case RevisionId => 3
  }

  /** The field's least significant bit; a one-bit field has `Lsb == Msb`. */
  function Lsb(f: Field): (l: bv8)
    ensures l <= Msb(f)
  {
    match f
    case Vldo => 3
    case Gains => 0
    case Crs => 4
    case Calmod => 0
    case RegChp => 0
    case MasterBiasCurrent => 4
    case AdcCurrent => 2
    case PgaCurrent => 0
    case RevisionId => 0
    case _ => Msb(f)
  }

  /** A setter is generated for the field: the layouts declare `cr`, `pur`,
      `cal_err` and `revision_id` with `_` in place of a setter name. */
  predicate Writable(f: Field) {
    f !in {Cr, Pur, CalErr, RevisionId}
  }

  predicate IsFlag(f: Field) {
    Msb(f) == Lsb(f)
  }

  /** Bit `i` of a byte. */
  function Bit(b: bv8, i: bv8): bool
    requires i < 8
  {
    (b >> i) & 1 == 1
  }

  /** Bits `lsb` to `msb` set, as the `bitfield` crate computes its mask. */
  function RangeMask(msb: bv8, lsb: bv8): (m: bv8)
    requires lsb <= msb < 8
    ensures forall i: bv8 :: i < 8 ==> (Bit(m, i) <==> lsb <= i <= msb)
  {
    ((0xFF << (7 - msb)) >> (7 - msb + lsb)) << lsb
  }

  function RangeGet(b: bv8, msb: bv8, lsb: bv8): (v: bv8)
    requires lsb <= msb < 8
    ensures forall i: bv8 :: i < 8 ==> (Bit(v, i) <==> i <= msb - lsb && Bit(b, lsb + i))
  {
    (b >> lsb) & (0xFF >> (7 - (msb - lsb)))
  }

  function RangeSet(b: bv8, msb: bv8, lsb: bv8, v: bv8): (r: bv8)
    requires lsb <= msb < 8
    ensures r & !RangeMask(msb, lsb) == b & !RangeMask(msb, lsb)
    ensures RangeGet(r, msb, lsb) == v & (0xFF >> (7 - (msb - lsb)))
  {
    (b & !RangeMask(msb, lsb)) | ((v << lsb) & RangeMask(msb, lsb))
  }

  /** The bits the field occupies, as the datasheet draws them. */
  function Mask(f: Field): bv8 {
    match f
    case Avdds => 0x80
    case Oscs => 0x40
    case Cr => 0x20
    case Cs => 0x10
    case Pur => 0x08
    case Pua => 0x04
    case Pud => 0x02
    case Rr => 0x01
    case Crp => 0x80
    case DrdySel => 0x40
    case Vldo => 0x38
    case Gains => 0x07
    case Chs => 0x80
    case Crs => 0x70
    case CalErr => 0x08
    case Cals => 0x04
    case Calmod => 0x03
    case RegChps1 => 0x20
    case RegChps0 => 0x10
    case AdcVcm1 => 0x08
    case AdcVcm0 => 0x04
    case RegChp => 0x03
    case RdOtpSel => 0x80
    case Ldomode => 0x40
    case PgaOutputBufferEnable => 0x20
    case PgaBypassEnable => 0x10
    case Pgainv => 0x08
    case Pgachpdis => 0x01
    case PgaCapEn => 0x80
    case MasterBiasCurrent => 0x70
    case AdcCurrent => 0x0C
    case PgaCurrent => 0x03
    case RevisionId => 0x0F
  }

  /** The largest value the field holds: its width in ones. */
  function Ones(f: Field): bv8 {
    0xFF >> (7 - (Msb(f) - Lsb(f)))
  }

  /** The getter: the field's bits, shifted down to bit 0. */
  function Get(f: Field, b: bv8): bv8 {
    (b & Mask(f)) >> Lsb(f)
  }

  /** The setter: clears the field and ORs in the value's low bits, which
      truncates a value wider than the field. */
  function Set(f: Field, b: bv8, v: bv8): bv8
    requires Writable(f)
  {
    (b & !Mask(f)) | ((v << Lsb(f)) & Mask(f))
  }

  /** The getter of a one-bit field. */
  function Flag(f: Field, b: bv8): bool
    requires IsFlag(f)
  {
    b & Mask(f) != 0
  }

  /** The setter of a one-bit field. */
  function SetFlag(f: Field, b: bv8, on: bool): bv8
    requires IsFlag(f) && Writable(f)
  {
    if on then b | Mask(f) else b & !Mask(f)
  }

  // ---------------------------------------------------------------------
  // The accessors agree with the `bitfield` crate's bit ranges.

  /** Each mask is the range of bits `Lsb(f)..=Msb(f)`. */
  lemma MaskIsRange(f: Field)
    ensures Mask(f) == RangeMask(Msb(f), Lsb(f))
  {
    match f
    case Avdds | Crp | Chs | RdOtpSel | PgaCapEn => assert RangeMask(7, 7) == 0x80;
    case Oscs | DrdySel | Ldomode => assert RangeMask(6, 6) == 0x40;
    case Cr | RegChps1 | PgaOutputBufferEnable => assert RangeMask(5, 5) == 0x20;
    case Cs | RegChps0 | PgaBypassEnable => assert RangeMask(4, 4) == 0x10;
    case Pur | CalErr | AdcVcm1 | Pgainv => assert RangeMask(3, 3) == 0x08;
    case Pua | Cals | AdcVcm0 => assert RangeMask(2, 2) == 0x04;
    case Pud => assert RangeMask(1, 1) == 0x02;
    case Rr | Pgachpdis => assert RangeMask(0, 0) == 0x01;
    case Vldo => assert RangeMask(5, 3) == 0x38;
    case Gains => assert RangeMask(2, 0) == 0x07;
    case Crs | MasterBiasCurrent => assert RangeMask(6, 4) == 0x70;
    case Calmod | RegChp | PgaCurrent => assert RangeMask(1, 0) == 0x03;
    case AdcCurrent => assert RangeMask(3, 2) == 0x0C;
    case RevisionId => assert RangeMask(3, 0) == 0x0F;
  }

  lemma RangeGetByMask(b: bv8, msb: bv8, lsb: bv8)
    requires lsb <= msb < 8
    ensures (b & RangeMask(msb, lsb)) >> lsb == RangeGet(b, msb, lsb)
  {
  }

  /** The getter reads bits `Lsb(f)..=Msb(f)`. */
  lemma GetIsRange(f: Field, b: bv8)
    ensures Get(f, b) == RangeGet(b, Msb(f), Lsb(f))
  {
    MaskIsRange(f);
    RangeGetByMask(b, Msb(f), Lsb(f));
  }

  /** Bit `i` of a field's value is bit `Lsb(f) + i` of the register. */
  lemma GetBits(f: Field, b: bv8)
    ensures forall i: bv8 :: i < 8 ==> (Bit(Get(f, b), i) <==> i <= Msb(f) - Lsb(f) && Bit(b, Lsb(f) + i))
  {
    GetIsRange(f, b);
  }

  /** The setter writes bits `Lsb(f)..=Msb(f)`. */
  lemma SetIsRange(f: Field, b: bv8, v: bv8)
    requires Writable(f)
    ensures Set(f, b, v) == RangeSet(b, Msb(f), Lsb(f), v)
  {
    MaskIsRange(f);
  }

  /** The setter keeps every bit outside the field. */
  lemma SetKeepsOthers(f: Field, b: bv8, v: bv8)
    requires Writable(f)
    ensures Set(f, b, v) & !Mask(f) == b & !Mask(f)
  {
    SetIsRange(f, b, v);
    MaskIsRange(f);
  }

  /** The getter reads back what the setter wrote, truncated to the field. */
  lemma GetOfSet(f: Field, b: bv8, v: bv8)
    requires Writable(f)
    ensures Get(f, Set(f, b, v)) == v & Ones(f)
  {
    SetIsRange(f, b, v);
    GetIsRange(f, Set(f, b, v));
  }

  /** A one-bit field's mask is its single bit. */
  lemma FlagMask(f: Field)
    requires IsFlag(f)
    ensures Mask(f) == 1 << Msb(f)
  {
  }

  /** A one-bit field is its bit. */
  lemma FlagIsBit(f: Field, b: bv8)
    requires IsFlag(f)
    ensures Flag(f, b) <==> Bit(b, Msb(f))
  {
    FlagMask(f);
  }

  /** Setting a one-bit field changes that bit and no other. */
  lemma SetFlagSets(f: Field, b: bv8, on: bool)
    requires IsFlag(f) && Writable(f)
    ensures Flag(f, SetFlag(f, b, on)) == on
    ensures SetFlag(f, b, on) & !Mask(f) == b & !Mask(f)
  {
    FlagMask(f);
  }

  /** Get-after-set: a value that fits the field reads back unchanged. */
  lemma GetAfterSet(f: Field, b: bv8, v: bv8)
    requires Writable(f) && v <= Ones(f)
    ensures Get(f, Set(f, b, v)) == v
  {
    GetOfSet(f, b, v);
  }

  /** Setting a one-bit field is setting it to 1 or 0. */
  lemma SetFlagIsSet(f: Field, b: bv8, on: bool)
    requires IsFlag(f) && Writable(f)
    ensures SetFlag(f, b, on) == Set(f, b, if on then 1 else 0)
  {
    FlagMask(f);
  }

  /** The fields the driver decodes are 3, 2 and 4 bits wide. */
  lemma FieldBounds(b: bv8)
    ensures Get(Vldo, b) < 8 && Get(Gains, b) < 8 && Get(Crs, b) < 8
    ensures Get(Calmod, b) < 4 && Get(RevisionId, b) < 16
  {
  }

  /** Two fields of one layout do not overlap. */
  predicate Disjoint(f: Field, g: Field) {
    Msb(f) < Lsb(g) || Msb(g) < Lsb(f)
  }

  lemma MasksDisjoint(f: Field, g: Field)
    requires Disjoint(f, g)
    ensures Mask(f) & Mask(g) == 0
  {
    MaskIsRange(f);
    MaskIsRange(g);
  }

  lemma MergeCommutes(b: bv8, k1: bv8, k2: bv8, x1: bv8, x2: bv8)
    requires k1 & k2 == 0
    ensures (((b & !k2) | (x2 & k2)) & !k1) | (x1 & k1) == (((b & !k1) | (x1 & k1)) & !k2) | (x2 & k2)
  {
  }

  /** Setters on disjoint fields commute. */
  lemma SettersCommute(b: bv8, f: Field, v: bv8, g: Field, w: bv8)
    requires Writable(f) && Writable(g) && Disjoint(f, g)
    ensures Set(f, Set(g, b, w), v) == Set(g, Set(f, b, v), w)
  {
    MasksDisjoint(f, g);
    MergeCommutes(b, Mask(f), Mask(g), v << Lsb(f), w << Lsb(g));
  }

  /** REVISION_ID is the low nibble of DEVICE_REV. */
  lemma RevisionNibble(b: bv8)
    ensures Get(RevisionId, b) == b & 0x0F
  {
  }
}
