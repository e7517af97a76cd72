/** Vocabulary shared by every part of the draft engine: optional values, the two
    player keys, per-player records, the usage ledger and the bonus item. */
module Common {

  /** JavaScript `null` / `undefined` versus a present value. */
  datatype Option<T> = None | Some(value: T)

  /** A plant (item) identifier, such as "peashooter". */
  type PlantId = string

  /** The bonus item: picking it grants one extra pick (src/data/plants.js:120). */
  const PUMPKIN: PlantId := "pumpkin"

  /** The two player keys of the store, 'player1' and 'player2'. */
  datatype Player = Player1 | Player2 {
    function Opponent(): (q: Player)
      ensures q != this
    {
      if this == Player1 then Player2 else Player1
    }
  }

  /** An object keyed by player, such as `bans: { player1: [], player2: [] }`. */
  datatype PerPlayer<T> = PerPlayer(player1: T, player2: T) {
    function Get(p: Player): T {
      if p == Player1 then player1 else player2
    }

    function Set(p: Player, v: T): (r: PerPlayer<T>)
      ensures r.Get(p) == v
      ensures r.Get(p.Opponent()) == Get(p.Opponent())
    {
      if p == Player1 then this.(player1 := v) else this.(player2 := v)
    }
  }

  /** The usage ledger: how often a player has used a plant in finished rounds.
      The source keys it by the string `${player}_${plantId}`; the player prefix is
      always 'player1_' or 'player2_', so the key is a faithful pair. */
  type Usage = map<(Player, PlantId), nat>

  /** Ledger lookup with the source's `|| 0` default for a missing key. */
  function UsageOf(u: Usage, p: Player, x: PlantId): nat {
    if (p, x) in u then u[(p, x)] else 0
  }

  /** `list.filter(id => id === x).length`. */
  function Occurrences(s: seq<PlantId>, x: PlantId): nat {
    multiset(s)[x]
  }

  lemma OccurrencesAppend(s: seq<PlantId>, y: PlantId, x: PlantId)
    ensures Occurrences(s + [y], x) == Occurrences(s, x) + (if x == y then 1 else 0)
  {
    assert multiset(s + [y]) == multiset(s) + multiset{y};
  }
}
