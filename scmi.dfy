/**
 * The bit-level encodings of the SCMI protocol header used by the shared
 * runtime: the power-state parameter of the power domain management protocol
 * (section 4.3 of Arm SCMI, DEN0056), the update-interval and sensor-config
 * words of the sensor management protocol (section 4.7), and the 32-bit
 * message header (section 4.1.1), laid out as the C bit-field struct
 * `scmi_message_header` is on a little-endian RISC-V target: the first
 * member in the least significant bits.
 *
 * `BIT`, `GENMASK` and `FIELD_GET` have their usual Linux meaning.
 */
module Scmi {
  import opened Bits

  // ---------------------------------------------------------------------------
  // Power state parameter
  // ---------------------------------------------------------------------------

  /** `SCMI_POWER_STATE_ID_MASK`, BIT(28) - 1 */
  const POWER_STATE_ID_MASK: bv32 := 0x0fff_ffff

  /**
   * `SCMI_POWER_STATE_PARAM(type, id)`: bit 30 (`SCMI_POWER_STATE_TYPE_SHIFT`) holds the low bit of `type`,
   * bits 27:0 the masked `id`, and bits 28, 29 and 31 are clear.
   */
  function PowerStateParam(stateType: bv32, id: bv32): (p: bv32)
    ensures (p >> 30) & 1 == stateType & 1
    ensures p & POWER_STATE_ID_MASK == id & POWER_STATE_ID_MASK
    ensures p & 0xb000_0000 == 0
  {
    ((stateType & 1) << 30) | (id & POWER_STATE_ID_MASK)
  }

  /** `SCMI_POWER_STATE_GENERIC_ON` is 0 and `SCMI_POWER_STATE_GENERIC_OFF` is 1 << 30. */
  lemma GenericStates()
    ensures PowerStateParam(0, 0) == 0
    ensures PowerStateParam(1, 0) == 0x4000_0000
  {
  }

  /** Equal parameters carry equal type bits and equal masked ids: the packing loses nothing of either. */
  lemma PowerStateParamInjective(t1: bv32, id1: bv32, t2: bv32, id2: bv32)
    requires PowerStateParam(t1, id1) == PowerStateParam(t2, id2)
    ensures t1 & 1 == t2 & 1 && id1 & POWER_STATE_ID_MASK == id2 & POWER_STATE_ID_MASK
  {
    var p := PowerStateParam(t1, id1);
    assert t1 & 1 == (p >> 30) & 1 == t2 & 1;
  }

  // ---------------------------------------------------------------------------
  // Update intervals
  // ---------------------------------------------------------------------------

  /** GENMASK(20, 5) */
  const INTVL_SECS: Field := Field(5, 0xffff)
  /** GENMASK(4, 0) */
  const INTVL_EXP: Field := Field(0, 0x1f)

  /** `SCMI_SENS_INTVL_GET_SECS(x)`: bits 20:5. */
  function IntervalSecs(x: bv32): (s: bv32)
    ensures s <= 0xffff
    ensures s == (x >> 5) & 0xffff
  {
    Get(x, INTVL_SECS)
  }

  /**
   * `SCMI_SENS_INTVL_GET_EXP(x)`: bits 4:0 as a signed 5-bit power-of-ten
   * exponent: the field when bit 4 is clear, the field minus 32 otherwise.
   */
  function IntervalExp(x: bv32): (e: int)
    ensures var field := x & 0x1f; e == if field < 16 then field as int else field as int - 32
    ensures -16 <= e <= 15
  {
    assert Get(x, INTVL_EXP) == x & 0x1f;
    SignExtend5Value(Get(x, INTVL_EXP));
    SignExtend5(Get(x, INTVL_EXP))
  }

  // ---------------------------------------------------------------------------
  // Sensor configuration
  // ---------------------------------------------------------------------------

  /** `SCMI_SENS_CFG_UPDATE_SECS_MASK`, GENMASK(31, 16) */
  const CFG_UPDATE_SECS: Field := Field(16, 0xffff)
  /** `SCMI_SENS_CFG_UPDATE_EXP_MASK`, GENMASK(15, 11) */
  const CFG_UPDATE_EXP: Field := Field(11, 0x1f)
  /** `SCMI_SENS_CFG_ROUND_MASK`, GENMASK(10, 9) */
  const CFG_ROUND: Field := Field(9, 3)
  /** `SCMI_SENS_CFG_TSTAMP_ENABLED_MASK`, BIT(1) */
  const CFG_TSTAMP: Field := Field(1, 1)
  /** `SCMI_SENS_CFG_SENSOR_ENABLED_MASK`, BIT(0) */
  const CFG_ENABLED: Field := Field(0, 1)

  const ROUND_DOWN: bv32 := 0
  const ROUND_UP: bv32 := 1
  const ROUND_AUTO: bv32 := 2

  predicate ConfigField(f: Field) {
    f == CFG_UPDATE_SECS || f == CFG_UPDATE_EXP || f == CFG_ROUND || f == CFG_TSTAMP || f == CFG_ENABLED
  }

  /** `SCMI_SENS_CFG_GET_UPDATE_SECS(x)`: bits 31:16. */
  function UpdateSecs(x: bv32): (s: bv32)
    ensures s <= 0xffff && s == x >> 16
  {
    Get(x, CFG_UPDATE_SECS)
  }

  /** `SCMI_SENS_CFG_GET_UPDATE_EXP(x)`: bits 15:11, sign-extended like the interval exponent. */
  function UpdateExp(x: bv32): (e: int)
    ensures var field := (x >> 11) & 0x1f; e == if field < 16 then field as int else field as int - 32
    ensures -16 <= e <= 15
  {
    SignExtend5Value(Get(x, CFG_UPDATE_EXP));
    SignExtend5(Get(x, CFG_UPDATE_EXP))
  }

  /** `SCMI_SENS_CFG_IS_TSTAMP_ENABLED(x)` and `SCMI_SENS_CFG_IS_ENABLED(x)`. */
  function TstampEnabled(x: bv32): (b: bv32)
    ensures b <= 1 && (b == 1 <==> x & 2 != 0)
  {
    Get(x, CFG_TSTAMP)
  }

  function SensorEnabled(x: bv32): (b: bv32)
    ensures b <= 1 && (b == 1 <==> x & 1 != 0)
  {
    Get(x, CFG_ENABLED)
  }

  /** The five configuration fields occupy pairwise disjoint bits. */
  lemma ConfigFieldsDisjoint(f: Field, g: Field)
    requires ConfigField(f) && ConfigField(g) && f != g
    ensures Placed(f) & Placed(g) == 0
  {
  }

  /** Setting a configuration field to a value that fits reads back that value. */
  lemma ConfigSetReads(x: bv32, f: Field, v: bv32)
    requires ConfigField(f) && Fits(f, v)
    ensures Get(Put(x, f, v), f) == v
  {
    if f == CFG_UPDATE_SECS {} else if f == CFG_UPDATE_EXP {} else if f == CFG_ROUND {} else if f == CFG_TSTAMP {} else {}
  }

  /** Setting one configuration field leaves the decoded value of every other field unchanged. */
  lemma ConfigSetKeepsOthers(x: bv32, f: Field, v: bv32, g: Field)
    requires ConfigField(f) && ConfigField(g) && f != g && Fits(f, v)
    ensures Get(Put(x, f, v), g) == Get(x, g)
  {
    if f == CFG_UPDATE_SECS {} else if f == CFG_UPDATE_EXP {} else if f == CFG_ROUND {} else if f == CFG_TSTAMP {} else {}
  }

  // ---------------------------------------------------------------------------
  // Message header
  // ---------------------------------------------------------------------------

  /** `struct scmi_message_header`: id:8, type:2, protocol:8, token:10, zero:4. */
  datatype Header = Header(id: bv32, msgType: bv32, protocol: bv32, token: bv32)

  /** The masks of id, type, protocol, token and zero, in place in the word. */
  const HDR_MASKS: seq<bv32> := [0xff, 0x300, 0x3_fc00, 0xffc_0000, 0xf000_0000]

  /** Each member fits its bit-field width. */
  predicate HeaderFits(h: Header) {
    h.id <= 0xff && h.msgType <= 3 && h.protocol <= 0xff && h.token <= 0x3ff
  }

  /**
   * The header as the 32-bit word in memory: id in bits 7:0, type in 9:8,
   * protocol in 17:10, token in 27:18, and the `zero` member (31:28) clear.
   */
  function PackHeader(h: Header): (w: bv32)
    requires HeaderFits(h)
    ensures w >> 28 == 0
  {
    h.id | (h.msgType << 8) | (h.protocol << 10) | (h.token << 18)
  }

  /** The members read from a header word. */
  function UnpackHeader(w: bv32): (h: Header)
    ensures HeaderFits(h)
  {
    Header(w & 0xff, (w >> 8) & 3, (w >> 10) & 0xff, (w >> 18) & 0x3ff)
  }

  /** The widths 8 + 2 + 8 + 10 + 4 fill the word: the masks of the members and of `zero` tile all 32 bits. */
  lemma HeaderFieldsTile()
    ensures HDR_MASKS[0] | HDR_MASKS[1] | HDR_MASKS[2] | HDR_MASKS[3] | HDR_MASKS[4] == 0xffff_ffff
    ensures forall i, j :: 0 <= i < j < |HDR_MASKS| ==> HDR_MASKS[i] & HDR_MASKS[j] == 0
  {
  }

  /** Unpacking a packed header gives back its members. */
  lemma UnpackPack(h: Header)
    requires HeaderFits(h)
    ensures UnpackHeader(PackHeader(h)) == h
  {
  }

  /** Packing the members of a word whose `zero` field is clear gives back the word. */
  lemma PackUnpack(w: bv32)
    requires w >> 28 == 0
    ensures PackHeader(UnpackHeader(w)) == w
  {
  }
}
