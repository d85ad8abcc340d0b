/** Names shared by the whole system: the seven great powers and the public channel. */
module Powers {

  /** The recipient of a message addressed to every power. */
  const GLOBAL: string := "GLOBAL"

  /** The great powers in the fixed order the game code lists them. */
  const POWERS: seq<string> := ["AUSTRIA", "ENGLAND", "FRANCE", "GERMANY", "ITALY", "RUSSIA", "TURKEY"]

  /** `ALL_POWERS`, the same seven names as a set. */
  const ALL_POWERS: set<string> := {"AUSTRIA", "ENGLAND", "FRANCE", "GERMANY", "ITALY", "RUSSIA", "TURKEY"}

  lemma PowersListed()
    ensures |POWERS| == 7
    ensures forall p :: p in POWERS <==> p in ALL_POWERS
    ensures forall i, j :: 0 <= i < j < |POWERS| ==> POWERS[i] != POWERS[j]
    ensures GLOBAL !in ALL_POWERS
  {
  }
}
