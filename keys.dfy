/**
 * The keyboard as the demos poll it: the set of keys held down during one
 * frame.  Window creation and the polling itself are not modelled.
 */
module Keys {
  datatype Key =
    | Escape
    | W | A | S | D
    | I | J | K | L | Y | H
    | Q | E
    | Num1 | Num2 | Num3 | Num4 | Num5 | Num6

  /** 1 when `k` is held, 0 otherwise: the factor each movement key contributes. */
  function Held(keys: set<Key>, k: Key): real { if k in keys then 1.0 else 0.0 }
}
