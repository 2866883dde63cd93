/**
 * The three-valued signal type of the simulator (bool3S: TRUE, FALSE, UNDEF)
 * and its operators ~, &, |, ^.
 *
 * The operator bodies live in bool3S.h, which is not part of this model. The
 * tables below are Kleene's strong three-valued logic: a determinate operand
 * that forces the result wins, otherwise UNDEF propagates. Every fact proved
 * elsewhere about gates that applies these operators rests on that assumption.
 */
module TriState {

  datatype Bool3S = TRUE | FALSE | UNDEF

  /** ~x */
  function Not(x: Bool3S): Bool3S
  {
    match x
    case TRUE => FALSE
    case FALSE => TRUE
    case UNDEF => UNDEF
  }

  /** x & y: FALSE dominates, then UNDEF. */
  function And(x: Bool3S, y: Bool3S): Bool3S
  {
    if x == FALSE || y == FALSE then FALSE
    else if x == UNDEF || y == UNDEF then UNDEF
    else TRUE
  }

  /** x | y: TRUE dominates, then UNDEF. */
  function Or(x: Bool3S, y: Bool3S): Bool3S
  {
    if x == TRUE || y == TRUE then TRUE
    else if x == UNDEF || y == UNDEF then UNDEF
    else FALSE
  }

  /** x ^ y: UNDEF if either operand is UNDEF, otherwise inequality. */
  function Xor(x: Bool3S, y: Bool3S): Bool3S
  {
    if x == UNDEF || y == UNDEF then UNDEF
    else if x == y then FALSE
    else TRUE
  }
}
