/**
 * The shared trading enums of the dashboard and their conversions: the option side,
 * the price effect, the asset type, and the futures alias of a symbol.
 */
module Models {
  import opened Wrappers

  /** `get_alias`: a futures symbol (leading `/`) is cut to its first three characters. */
  function GetAlias(symbol: string): (r: Result<string>)
    ensures r.Panic? <==> |symbol| > 0 && symbol[0] == '/' && |symbol| < 3
    ensures r.Ok? ==> r.value <= symbol
    ensures r.Ok? && (|symbol| == 0 || symbol[0] != '/') ==> r.value == symbol
    ensures r.Ok? && |symbol| > 0 && symbol[0] == '/' ==> |r.value| == 3 && r.value[0] == '/'
  {
    if |symbol| > 0 && symbol[0] == '/' then
      if |symbol| < 3 then Panic("byte index 3 is out of range") else Ok(symbol[..3])
    else
      Ok(symbol)
  }

  /** Taking the alias of an alias changes nothing. */
  lemma GetAliasIdempotent(symbol: string)
    requires GetAlias(symbol).Ok?
    ensures GetAlias(GetAlias(symbol).value) == GetAlias(symbol)
  {
    if |symbol| > 0 && symbol[0] == '/' {
      assert symbol[..3][..3] == symbol[..3];
    }
  }

  /** Two symbols share an alias exactly when they agree on their first three characters, if futures. */
  lemma GetAliasFutures(a: string, b: string)
    requires |a| >= 3 && |b| >= 3 && a[0] == '/' && b[0] == '/'
    ensures GetAlias(a) == GetAlias(b) <==> a[..3] == b[..3]
  {
  }

  /** The option side stored as an integer column. */
  datatype Side = Call | Put | Netural

  /** Reading a side from its integer column: 1 and 2 are the two sides, anything else is neutral. */
  function SideFromInt(ty: i32): (s: Side)
    ensures s == Call <==> ty == 1
    ensures s == Put <==> ty == 2
    ensures s == Netural <==> ty != 1 && ty != 2
  {
    match ty
    case 1 => Call
    case 2 => Put
    case _ => Netural
  }

  datatype PriceEffect = Credit | Debit

  /** The default price effect. */
  const DefaultPriceEffect: PriceEffect := Credit

  /** The integer code of a price effect. */
  function PriceEffectToInt(p: PriceEffect): (code: i32)
    ensures code == 1 || code == 2
    ensures code == 1 <==> p == Credit
  {
    match p
    case Credit => 1
    case Debit => 2
  }

  /** Parsing a price effect from the broker's wording; anything unknown panics. */
  function PriceEffectFromStr(s: string): (r: Result<PriceEffect>)
    ensures r.Ok? <==> s in {"Credit", "Short", "Debit", "Long"}
    ensures r == Ok(Credit) <==> s == "Credit" || s == "Short"
    ensures r == Ok(Debit) <==> s == "Debit" || s == "Long"
  {
    if s == "Credit" || s == "Short" then Ok(Credit)
    else if s == "Debit" || s == "Long" then Ok(Debit)
    else Panic("Unknown price effect")
  }

  /** `Display` for a price effect. */
  function PriceEffectName(p: PriceEffect): (name: string)
    ensures name == "Credit" <==> p == Credit
    ensures name == "Debit" <==> p == Debit
  {
    match p
    case Credit => "Credit"
    case Debit => "Debit"
  }

  /** Parsing what `Display` printed gives the price effect back. */
  lemma PriceEffectRoundTrip(p: PriceEffect)
    ensures PriceEffectFromStr(PriceEffectName(p)) == Ok(p)
  {
  }

  /** Distinct price effects have distinct codes and names. */
  lemma PriceEffectCodesDistinct(p: PriceEffect, q: PriceEffect)
    ensures PriceEffectToInt(p) == PriceEffectToInt(q) <==> p == q
    ensures PriceEffectName(p) == PriceEffectName(q) <==> p == q
  {
  }

  datatype AssetType = Equity | EquityOption | Future | FutureOption

  /** The default asset type. */
  const DefaultAssetType: AssetType := Equity

  /** The integer code of an asset type. */
  function AssetTypeToInt(a: AssetType): (code: i32)
    ensures 1 <= code <= 4
    ensures code == 1 <==> a == Equity
    ensures code == 2 <==> a == EquityOption
    ensures code == 3 <==> a == Future
    ensures code == 4 <==> a == FutureOption
  {
    match a
    case Equity => 1
    case EquityOption => 2
    case Future => 3
    case FutureOption => 4
  }

  /** Reading an asset type from its integer column; a code outside 1..4 panics. */
  function AssetTypeFromInt(code: i32): (r: Result<AssetType>)
    ensures r.Ok? <==> 1 <= code <= 4
    ensures r.Ok? ==> AssetTypeToInt(r.value) == code
  {
    match code
    case 1 => Ok(Equity)
    case 2 => Ok(EquityOption)
    case 3 => Ok(Future)
    case 4 => Ok(FutureOption)
    case _ => Panic("Unknown AssetType")
  }

  /** Writing an asset type as its code and reading it back gives it back. */
  lemma AssetTypeIntRoundTrip(a: AssetType)
    ensures AssetTypeFromInt(AssetTypeToInt(a)) == Ok(a)
  {
  }

  /** Parsing an instrument type as the broker spells it; anything else panics. */
  function AssetTypeFromStr(s: string): (r: Result<AssetType>)
    ensures r.Ok? <==> s in {"Equity", "Future", "Equity Option", "Future Option"}
    ensures s == "Equity" ==> r == Ok(Equity)
    ensures s == "Equity Option" ==> r == Ok(EquityOption)
    ensures s == "Future" ==> r == Ok(Future)
    ensures s == "Future Option" ==> r == Ok(FutureOption)
  {
    if s == "Equity" then Ok(Equity)
    else if s == "Future" then Ok(Future)
    else if s == "Equity Option" then Ok(EquityOption)
    else if s == "Future Option" then Ok(FutureOption)
    else Panic("Unsupported Type")
  }

  /** `AssetType::get_asset_type`: a second parser with the same table. */
  function GetAssetType(s: string): (r: Result<AssetType>)
    ensures r == AssetTypeFromStr(s)
  {
    match s
    case "Equity" => Ok(Equity)
    case "Future" => Ok(Future)
    case "Equity Option" => Ok(EquityOption)
    case "Future Option" => Ok(FutureOption)
    case _ => Panic("Unsupported Type")
  }

  /** `Display` for an asset type: the option types are written without a space. */
  function AssetTypeName(a: AssetType): (name: string)
    ensures name == "Equity" <==> a == Equity
    ensures name == "Future" <==> a == Future
    ensures name == "EquityOption" <==> a == EquityOption
    ensures name == "FutureOption" <==> a == FutureOption
  {
    match a
    case Equity => "Equity"
    case Future => "Future"
    case EquityOption => "EquityOption"
    case FutureOption => "FutureOption"
  }

  /**
   * Parsing is not the inverse of `Display`: the printed name of an option type is
   * rejected, and only the two non-option types survive the round trip.
   */
  lemma AssetTypeNameRoundTrip(a: AssetType)
    ensures AssetTypeFromStr(AssetTypeName(a)).Ok? <==> a == Equity || a == Future
    ensures AssetTypeFromStr(AssetTypeName(a)).Ok? ==> AssetTypeFromStr(AssetTypeName(a)) == Ok(a)
  {
    if a == EquityOption {
      assert AssetTypeName(a) != "Equity Option" by { assert AssetTypeName(a)[6] != ' '; }
    }
    if a == FutureOption {
      assert AssetTypeName(a) != "Future Option" by { assert AssetTypeName(a)[6] != ' '; }
    }
  }
}
