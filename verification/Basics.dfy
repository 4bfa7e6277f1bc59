/** Shared by the models: optional values, 32-bit words, and counting threads. */
module Basics {

  datatype Option<T> = None | Some(value: T)

  const WORD: nat := 0x1_0000_0000

  type Word = x: nat | x < WORD

  /** Two sets that differ in `t` at most. */
  lemma CountDiffers(before: set<nat>, after: set<nat>, t: nat)
    requires before - {t} == after - {t}
    ensures |after| == |before| + (if t in after then 1 else 0) - (if t in before then 1 else 0)
  {
    var others := before - {t};
    assert before == if t in before then others + {t} else others;
    assert after == if t in after then others + {t} else others;
  }
}
