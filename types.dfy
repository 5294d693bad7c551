/** Types shared by the client modules (client/src/types/index.ts), and the
    one use of `Math.random()` both client and server make. */
module Types {

  datatype Option<+T> = None | Some(value: T)

  /** The two session modes offered on the setup screen. */
  datatype Mode = Rehearsal | Learning

  /** The three difficulty levels of learning mode. */
  datatype Difficulty = Easy | Medium | Hard

  /** A `Math.random()` result: in [0, 1). The model takes these as
      parameters. */
  predicate InUnit(r: real) {
    0.0 <= r < 1.0
  }

  /** `Math.floor(r * n)` for a draw `r` in [0, 1) picks an index below `n`. */
  function PickIndex(r: real, n: nat): (i: nat)
    requires InUnit(r) && n > 0
    ensures i < n
  {
    var x := r * n as real;
    assert 0.0 <= x < n as real;
    x.Floor
  }
}
