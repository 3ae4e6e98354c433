/** The ABI-stable copy of the market type (`#[repr(C)]`, implicit discriminants)
    and its two conversions to and from the engine's market type. */
module CMarketType {
  import EngineTypes

  /** The C-layout market type, variants in declaration order. */
  datatype MarketType =
    | Spot
    | LinearFuture
    | InverseFuture
    | LinearSwap
    | InverseSwap
    | AmericanOption
    | EuropeanOption
    | QuantoFuture
    | QuantoSwap
    | Move
    | BVOL

  /** The variants as they are declared; with implicit discriminants a variant's
      C code is its position here. */
  const Declared: seq<MarketType> := [
    Spot, LinearFuture, InverseFuture, LinearSwap, InverseSwap,
    AmericanOption, EuropeanOption, QuantoFuture, QuantoSwap, Move, BVOL
  ]

  /** The identifier each variant is declared with. */
  function Name(m: MarketType): string
  {
    match m
    case Spot => "Spot"
    case LinearFuture => "LinearFuture"
    case InverseFuture => "InverseFuture"
    case LinearSwap => "LinearSwap"
    case InverseSwap => "InverseSwap"
    case AmericanOption => "AmericanOption"
    case EuropeanOption => "EuropeanOption"
    case QuantoFuture => "QuantoFuture"
    case QuantoSwap => "QuantoSwap"
    case Move => "Move"
    case BVOL => "BVOL"
  }

  /** The integer a C caller passes for `m`. */
  function Discriminant(m: MarketType): (c: nat)
    ensures c < |Declared| && Declared[c] == m
  {
    match m
    case Spot => 0
    case LinearFuture => 1
    case InverseFuture => 2
    case LinearSwap => 3
    case InverseSwap => 4
    case AmericanOption => 5
    case EuropeanOption => 6
    case QuantoFuture => 7
    case QuantoSwap => 8
    case Move => 9
    case BVOL => 10
  }

  /** Every variant is declared exactly once, so the codes 0..10 and the variants
      are in one-to-one correspondence. */
  lemma DeclaredOnce()
    ensures forall m: MarketType :: m in Declared
    ensures forall i, j :: 0 <= i < j < |Declared| ==> Declared[i] != Declared[j]
    ensures forall i :: 0 <= i < |Declared| ==> Discriminant(Declared[i]) == i
  {
    forall m: MarketType
      ensures m in Declared
    {
      assert Declared[Discriminant(m)] == m;
    }
  }

  /** `to_rust`: the same-named engine variant. */
  function ToRust(m: MarketType): (e: EngineTypes.MarketType)
    ensures EngineTypes.MarketTypeName(e) == Name(m)
  {
    match m
    case Spot => EngineTypes.Spot
    case LinearFuture => EngineTypes.LinearFuture
    case InverseFuture => EngineTypes.InverseFuture
    case LinearSwap => EngineTypes.LinearSwap
    case InverseSwap => EngineTypes.InverseSwap
    case AmericanOption => EngineTypes.AmericanOption
    case EuropeanOption => EngineTypes.EuropeanOption
    case QuantoFuture => EngineTypes.QuantoFuture
    case QuantoSwap => EngineTypes.QuantoSwap
    case Move => EngineTypes.Move
    case BVOL => EngineTypes.BVOL
  }

  /** `from_rust`: the same-named C variant. */
  function FromRust(e: EngineTypes.MarketType): (m: MarketType)
    ensures Name(m) == EngineTypes.MarketTypeName(e)
  {
    match e
    case Spot => Spot
    case LinearFuture => LinearFuture
    case InverseFuture => InverseFuture
    case LinearSwap => LinearSwap
    case InverseSwap => InverseSwap
    case AmericanOption => AmericanOption
    case EuropeanOption => EuropeanOption
    case QuantoFuture => QuantoFuture
    case QuantoSwap => QuantoSwap
    case Move => Move
    case BVOL => BVOL
  }

  /** No two C variants share an identifier. */
  lemma NamesDistinct(a: MarketType, b: MarketType)
    ensures Name(a) == Name(b) ==> a == b
  {
  }

  /** Converting to the engine and back is the identity on C variants. */
  lemma FromRustToRust(m: MarketType)
    ensures FromRust(ToRust(m)) == m
  {
    NamesDistinct(FromRust(ToRust(m)), m);
  }

  /** Converting to C and back is the identity on engine variants. */
  lemma ToRustFromRust(e: EngineTypes.MarketType)
    ensures ToRust(FromRust(e)) == e
  {
    EngineTypes.MarketTypeNamesDistinct(ToRust(FromRust(e)), e);
  }

  /** Distinct C variants never collapse onto one engine variant. */
  lemma ToRustInjective(a: MarketType, b: MarketType)
    ensures ToRust(a) == ToRust(b) ==> a == b
  {
    FromRustToRust(a);
    FromRustToRust(b);
  }

  /** Distinct engine variants never collapse onto one C variant. */
  lemma FromRustInjective(a: EngineTypes.MarketType, b: EngineTypes.MarketType)
    ensures FromRust(a) == FromRust(b) ==> a == b
  {
    ToRustFromRust(a);
    ToRustFromRust(b);
  }
}
