/**
 * The strategy record's enums: the open/closed status stored as an integer and the
 * strategy type stored by name.
 */
module StrategyModel {
  import opened Wrappers
  import opened PgInt4

  datatype Status = Open | Closed

  /** The default status of a strategy. */
  const DefaultStatus: Status := Closed

  /** The integer code of a status. */
  function StatusToInt(s: Status): (code: i32)
    ensures code == 1 <==> s == Open
    ensures code == 2 <==> s == Closed
  {
    match s
    case Open => 1
    case Closed => 2
  }

  /** Reading a status from its integer: only 1 is open, every other integer is closed. */
  function StatusFromInt(code: i32): (s: Status)
    ensures s == Open <==> code == 1
  {
    if code == 1 then Open else Closed
  }

  /** The integer round trip holds for both statuses. */
  lemma StatusIntRoundTrip(s: Status)
    ensures StatusFromInt(StatusToInt(s)) == s
  {
  }

  /**
   * The bind encoder as written: a single byte holding the status code, although the
   * column type it declares is `int4`.
   */
  function EncodeStatus(s: Status): (b: seq<byte>)
    ensures |b| == 1 && b[0] as int == StatusToInt(s) as int
  {
    match s
    case Open => [1]
    case Closed => [2]
  }

  /**
   * The column decoder: the value arrives in PostgreSQL's `int4` binary format (four bytes;
   * the framing is PostgreSQL's, read through sqlx's `i32` decoder), then `StatusFromInt` maps it.
   */
  function DecodeStatus(b: seq<byte>): (r: Option<Status>)
    ensures r.Some? <==> |b| == 4
    ensures r.Some? ==> r.value == StatusFromInt(Int4FromWire(b).value)
  {
    match Int4FromWire(b)
    case Some(code) => Some(StatusFromInt(code))
    case None => None
  }

  /**
   * What `EncodeStatus` writes is not a value in PostgreSQL's `int4` binary format, the
   * type it declares, so the server cannot read it as that type.
   */
  lemma EncodeStatusUnreadable(s: Status)
    ensures DecodeStatus(EncodeStatus(s)) == None
  {
  }

  /** The encoder as intended: the status code in the four-byte `int4` format. */
  function EncodeStatusInt4(s: Status): (b: seq<byte>)
    ensures |b| == 4
    ensures Int4FromWire(b) == Some(StatusToInt(s))
  {
    Int4RoundTrip(StatusToInt(s));
    Int4ToWire(StatusToInt(s))
  }

  /** Decoding what the corrected encoder writes gives the status back. */
  lemma StatusWireRoundTrip(s: Status)
    ensures DecodeStatus(EncodeStatusInt4(s)) == Some(s)
  {
  }

  datatype StrategyType = SingleLeg | CreditSpread | IronCondor | CalendarSpread | Other

  /** The default strategy type. */
  const DefaultStrategyType: StrategyType := Other

  /** `Display` for a strategy type. */
  function StrategyTypeName(t: StrategyType): (name: string)
    ensures name == "SingleLeg" <==> t == SingleLeg
    ensures name == "CreditSpread" <==> t == CreditSpread
    ensures name == "IronCondor" <==> t == IronCondor
    ensures name == "CalendarSpread" <==> t == CalendarSpread
    ensures name == "Other" <==> t == Other
  {
    match t
    case SingleLeg => "SingleLeg"
    case CreditSpread => "CreditSpread"
    case IronCondor => "IronCondor"
    case CalendarSpread => "CalendarSpread"
    case Other => "Other"
  }

  /** Reading a strategy type from its text column: any name not recognised is `Other`. */
  function StrategyTypeFromStr(s: string): (t: StrategyType)
    ensures t != Other ==> StrategyTypeName(t) == s
    ensures (forall u: StrategyType :: StrategyTypeName(u) != s) ==> t == Other
    ensures forall u: StrategyType :: StrategyTypeName(u) == s ==> t == u
  {
    match s
    case "SingleLeg" => SingleLeg
    case "CreditSpread" => CreditSpread
    case "IronCondor" => IronCondor
    case "CalendarSpread" => CalendarSpread
    case _ => Other
  }

  /** Reading back what `Display` wrote gives the strategy type back. */
  lemma StrategyTypeRoundTrip(t: StrategyType)
    ensures StrategyTypeFromStr(StrategyTypeName(t)) == t
  {
  }
}
