/** The device's bus address, the driver's error type, and the configuration
    enumerations with their register codes (`as u8`) and fallible decoders
    (`TryFrom<u8>`, whose error is `()`, hence `Option`). */
module Constants {

  import opened Results
  import Hal

  /** The chip's fixed I2C address. */
  const Nau7802Address: bv8 := 0x2A

  datatype Error =
    | I2CError(kind: Hal.ErrorKind)
    | Timeout                       // declared, never produced
    | NotReady
    | InvalidData
    | CalibrationError
    | InvalidRevisionId(id: bv8)

  /** Reference voltage of the internal LDO, or an external reference. */
  datatype Ldo = L4v5 | L4v2 | L3v9 | L3v6 | L3v3 | L3v0 | L2v7 | L2v4 | External

  function LdoCode(l: Ldo): (c: bv8)
    ensures c <= 8 && (c == 8 <==> l == External)
  {
    match l
    case L4v5 => 0
    case L4v2 => 1
    case L3v9 => 2
    case L3v6 => 3
    case L3v3 => 4
    case L3v0 => 5
    case L2v7 => 6
    case L2v4 => 7
    case External => 8
  }

  function LdoFromCode(v: bv8): (r: Option<Ldo>)
    ensures r.Some? <==> v < 8
    ensures r.Some? ==> r.value != External && LdoCode(r.value) == v
  {
    if v == 0 then Some(L4v5)
    else if v == 1 then Some(L4v2)
    else if v == 2 then Some(L3v9)
    else if v == 3 then Some(L3v6)
    else if v == 4 then Some(L3v3)
    else if v == 5 then Some(L3v0)
    else if v == 6 then Some(L2v7)
    else if v == 7 then Some(L2v4)
    else None
  }

  /** The voltage the variant's name gives, in millivolts. */
  function LdoMillivolts(l: Ldo): nat
    requires l != External
  {
    match l
    case L4v5 => 4500
    case L4v2 => 4200
    case L3v9 => 3900
    case L3v6 => 3600
    case L3v3 => 3300
    case L3v0 => 3000
    case L2v7 => 2700
    case L2v4 => 2400
  }

  /** Internal levels round-trip through their code, the code steps the
      voltage down by 0.3 V from 4.5 V, and `External` has no code the
      decoder accepts. */
  lemma LdoCodes(l: Ldo)
    ensures l != External ==> LdoFromCode(LdoCode(l)) == Some(l)
    ensures l != External ==> LdoMillivolts(l) == 4500 - 300 * LdoCode(l) as int
    ensures l == External ==> LdoFromCode(LdoCode(l)) == None
  {
  }

  datatype Gain = G1 | G2 | G4 | G8 | G16 | G32 | G64 | G128

  function GainCode(g: Gain): (c: bv8)
    ensures c < 8
  {
    match g
    case G1 => 0
    case G2 => 1
    case G4 => 2
    case G8 => 3
    case G16 => 4
    case G32 => 5
    case G64 => 6
    case G128 => 7
  }

  function GainFromCode(v: bv8): (r: Option<Gain>)
    ensures r.Some? <==> v < 8
    ensures r.Some? ==> GainCode(r.value) == v
  {
    if v == 0 then Some(G1)
    else if v == 1 then Some(G2)
    else if v == 2 then Some(G4)
    else if v == 3 then Some(G8)
    else if v == 4 then Some(G16)
    else if v == 5 then Some(G32)
    else if v == 6 then Some(G64)
    else if v == 7 then Some(G128)
    else None
  }

  /** The amplification the variant's name gives. */
  function GainFactor(g: Gain): nat {
    match g
    case G1 => 1
    case G2 => 2
    case G4 => 4
    case G8 => 8
    case G16 => 16
    case G32 => 32
    case G64 => 64
    case G128 => 128
  }

  function Pow2(n: nat): nat {
    if n == 0 then 1 else 2 * Pow2(n - 1)
  }

  /** Every gain round-trips through its code, and the code is the base-2
      logarithm of the amplification. */
  lemma GainCodes(g: Gain)
    ensures GainFromCode(GainCode(g)) == Some(g)
    ensures Pow2(GainCode(g) as nat) == GainFactor(g)
  {
    assert Pow2(0) == 1;
    assert Pow2(1) == 2;
    assert Pow2(2) == 4;
    assert Pow2(3) == 8;
    assert Pow2(4) == 16;
    assert Pow2(5) == 32;
    assert Pow2(6) == 64;
    assert Pow2(7) == 128;
  }

  datatype SampleRate = Sps10 | Sps20 | Sps40 | Sps80 | Sps320

  function RateCode(s: SampleRate): (c: bv8)
    ensures c < 4 || c == 7
  {
    match s
    case Sps10 => 0
    case Sps20 => 1
    case Sps40 => 2
    case Sps80 => 3
    case Sps320 => 7
  }

  function RateFromCode(v: bv8): (r: Option<SampleRate>)
    ensures r.Some? <==> v < 4 || v == 7
    ensures r.Some? ==> RateCode(r.value) == v
  {
    if v == 0 then Some(Sps10)
    else if v == 1 then Some(Sps20)
    else if v == 2 then Some(Sps40)
    else if v == 3 then Some(Sps80)
    else if v == 7 then Some(Sps320)
    else None
  }

  lemma RateCodes(s: SampleRate)
    ensures RateFromCode(RateCode(s)) == Some(s)
  {
  }

  datatype CalibrationMode = Internal | Offset | GainCalibration

  function CalibrationCode(m: CalibrationMode): (c: bv8)
    ensures c < 4 && c != 1
  {
    match m
    case Internal => 0
    case Offset => 2
    case GainCalibration => 3
  }

  /** Distinct variants have distinct codes, in every enumeration. */
  lemma CodesInjective()
    ensures forall a: Ldo, b: Ldo :: LdoCode(a) == LdoCode(b) ==> a == b
    ensures forall a: Gain, b: Gain :: GainCode(a) == GainCode(b) ==> a == b
    ensures forall a: SampleRate, b: SampleRate :: RateCode(a) == RateCode(b) ==> a == b
    ensures forall a: CalibrationMode, b: CalibrationMode :: CalibrationCode(a) == CalibrationCode(b) ==> a == b
  {
  }
}
