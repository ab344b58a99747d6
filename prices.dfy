/** The fixed price table of the flooring estimator (Kč per m², per metre,
    per piece, or flat), and the twelve cost categories it prices. */
module Prices {

  /** One cost category of the estimate, one per entry of the price table. */
  datatype Item =
    | Removal            // demontaz: removing the old floor, per m²
    | Disposal           // odvoz: haulage and disposal of the old floor, per m²
    | Sanding            // prebrouseni: sanding the subfloor, per m²
    | Vacuuming          // vysati: vacuuming the subfloor, per m²
    | Laying             // pokladka: laying the click vinyl, per m²
    | BaseboardInstall   // listyInstall: fitting baseboards, per running metre
    | TransitionInstall  // prechodInstall: fitting transition strips, per piece
    | Vinyl              // vinyl: the vinyl material, per m²
    | BaseboardMaterial  // listyMaterial: the baseboards themselves, per running metre
    | TransitionMaterial // prechodMaterial: the transition strips themselves, per piece
    | Delivery           // doprava: delivery to the site, flat
    | Handling           // manipulace: handling and carrying in the material, flat

  const RemovalRate: real := 40.0
  const DisposalRate: real := 30.0
  const SandingRate: real := 150.0
  const VacuumingRate: real := 20.0
  const LayingRate: real := 240.0
  const BaseboardInstallRate: real := 120.0
  const TransitionInstallRate: real := 150.0
  const VinylRate: real := 649.0
  const BaseboardMaterialRate: real := 249.0
  const TransitionMaterialRate: real := 160.0
  const DeliveryFee: real := 600.0
  const HandlingFee: real := 900.0

  /** The table lookup `prices.<key>`: every category has an entry. */
  function Price(k: Item): real
  {
    match k
    case Removal => RemovalRate
    case Disposal => DisposalRate
    case Sanding => SandingRate
    case Vacuuming => VacuumingRate
    case Laying => LayingRate
    case BaseboardInstall => BaseboardInstallRate
    case TransitionInstall => TransitionInstallRate
    case Vinyl => VinylRate
    case BaseboardMaterial => BaseboardMaterialRate
    case TransitionMaterial => TransitionMaterialRate
    case Delivery => DeliveryFee
    case Handling => HandlingFee
  }

  /** The label the breakdown shows for a category. */
  function Label(k: Item): string
  {
    match k
    case Removal => "Demontáž staré podlahy (40 Kč/m²)"
    case Disposal => "Odvoz a likvidace (30 Kč/m²)"
    case Sanding => "Přebroušení podkladu (150 Kč/m²)"
    case Vacuuming => "Vysátí podkladu (20 Kč/m²)"
    case Laying => "Pokládka click vinylu (240 Kč/m²)"
    case BaseboardInstall => "Montáž soklových lišt (120 Kč/bm)"
    case TransitionInstall => "Instalace přechodových lišt (150 Kč/ks)"
    case Vinyl => "Vinylový materiál (649 Kč/m²)"
    case BaseboardMaterial => "Soklové lišty (249 Kč/bm)"
    case TransitionMaterial => "Přechodové lišty (160 Kč/ks)"
    case Delivery => "Doprava na místo (600 Kč)"
    case Handling => "Manipulace a výnos materiálu (900 Kč)"
  }

  /** Every price in the table is strictly positive. */
  lemma PricesPositive(k: Item)
    ensures Price(k) > 0.0
  {
  }

  /** Distinct categories carry distinct labels, so a rendered breakdown
      identifies each line's category. */
  lemma LabelsDistinct(j: Item, k: Item)
    requires j != k
    ensures Label(j) != Label(k)
  {
  }
}
