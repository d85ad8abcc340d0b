/**
 * The shared `model_error_stats` table of the game loop: a `defaultdict`
 * that gives every key a fresh pair of counters on first use.
 */
module ErrorStats {

  datatype Counters = Counters(conversationErrors: nat, orderDecodingErrors: nat)

  datatype Kind = ConversationError | OrderDecodingError

  /** The counters of a key that was never touched. */
  const Zero := Counters(0, 0)

  /** The counters after `counters[kind] += 1`. */
  function Bumped(c: Counters, kind: Kind): Counters
  {
    match kind
    case ConversationError => c.(conversationErrors := c.conversationErrors + 1)
    case OrderDecodingError => c.(orderDecodingErrors := c.orderDecodingErrors + 1)
  }

  /** The counters a table gives `key`. */
  function CountersOf(counts: map<string, Counters>, key: string): Counters
  {
    if key in counts then counts[key] else Zero
  }

  class Stats {
    var counts: map<string, Counters>

    constructor ()
      ensures counts == map[]
    {
      counts := map[];
    }

    /** `model_error_stats[key]`, which the defaultdict starts at zero. */
    function Get(key: string): Counters
      reads this
    {
      CountersOf(counts, key)
    }

    /** `model_error_stats[key][kind] += 1`. */
    method Bump(key: string, kind: Kind)
      modifies this
      ensures counts == old(counts)[key := Bumped(old(Get(key)), kind)]
      ensures Get(key) == Bumped(old(Get(key)), kind)
      ensures forall k :: k != key ==> Get(k) == old(Get(k))
    {
      counts := counts[key := Bumped(Get(key), kind)];
    }
  }
}
