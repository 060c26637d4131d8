/** The rarity table of the generator: a rank is mapped to a colour by fixed thresholds. */
module Rarity {
  /** The four colours, rarest first. */
  datatype Rarity = Purple | Yellow | Blue | Green

  /** The position of a colour in the table: 0 for the rarest. */
  function Tier(r: Rarity): nat
  {
    match r
    case Purple => 0
    case Yellow => 1
    case Blue => 2
    case Green => 3
  }

  /** `computeRarityByRank`: every rank gets exactly one colour, by the band it falls in. */
  function RarityByRank(rank: int): (r: Rarity)
    ensures r == Purple <==> rank < 1000
    ensures r == Yellow <==> 1000 <= rank < 2000
    ensures r == Blue <==> 2000 <= rank < 3000
    ensures r == Green <==> 3000 <= rank
  {
    if rank < 1000 then Purple
    else if rank < 2000 then Yellow
    else if rank < 3000 then Blue
    else Green
  }

  /** The colour string the source stores and shows. */
  function ColourName(r: Rarity): string
  {
    match r
    case Purple => "purple"
    case Yellow => "yellow"
    case Blue => "blue"
    case Green => "green"
  }

  /** A higher rank never gets a rarer colour. */
  lemma RarityMonotone(a: int, b: int)
    requires a <= b
    ensures Tier(RarityByRank(a)) <= Tier(RarityByRank(b))
  {
  }
}
