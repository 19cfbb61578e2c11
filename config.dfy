/** The constants of lib/pearls/config.ts and the small enumerations the
    tracker uses everywhere. */
module Config {

  // APR_CONFIG
  const BaseApr: real := 12.0
  const BoostPerNft: real := 0.5
  const MaxBoosters: int := 16
  const MaxApr: real := 20.0

  // MIN_PEARL_PRICES: the cheapest pearl on each chain, in that chain's native token
  const MinPearlAmountPolygon: real := 10.0
  const MinPearlAmountBase: real := 0.00075

  /** One native token (POL or ETH) is 10^18 wei. */
  const WeiPerNative: nat := 1_000_000_000_000_000_000

  /** A wei amount in native-token units (`Number(value) / 1e18`). */
  function NativeAmount(wei: nat): (r: real)
    ensures r >= 0.0
    ensures r > 0.0 <==> wei > 0
  {
    wei as real / WeiPerNative as real
  }

  /** Scaling back by 10^18 recovers the wei amount exactly. */
  lemma NativeAmountInverse(wei: nat)
    ensures NativeAmount(wei) * WeiPerNative as real == wei as real
  {
  }

  datatype Chain = Polygon | Base

  /** The chain's name as stored in the contracts table ('polygon' | 'base'). */
  function ChainName(c: Chain): string {
    match c
    case Polygon => "polygon"
    case Base => "base"
  }

  /** The chain's native currency: POL on Polygon, ETH on Base. */
  function NativeCurrency(c: Chain): string {
    match c
    case Polygon => "POL"
    case Base => "ETH"
  }

  datatype ContractType = Pearl | Booster

  /** SUPPORTED_CURRENCIES. */
  datatype Currency = USD | EUR | GBP | CAD

  function CurrencyCode(c: Currency): string {
    match c
    case USD => "USD"
    case EUR => "EUR"
    case GBP => "GBP"
    case CAD => "CAD"
  }
}
