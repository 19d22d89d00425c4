/** Types and text facts that several modules share. */
module Prelude {

  datatype Option<+T> = None | Some(value: T)

  /** How a PUT ends for its caller; a request that raises may still have landed. */
  datatype PutReply = Answered | RaisedAfterLanding | RaisedBeforeLanding

  function Max(a: int, b: int): int { if a >= b then a else b }

  function Min(a: int, b: int): int { if a <= b then a else b }

  /** str.isspace, which is also what \s of a Python text pattern and str.strip go by. */
  predicate IsSpace(c: char) {
    var n := c as int;
    || 0x09 <= n <= 0x0D || 0x1C <= n <= 0x20 || n == 0x85 || n == 0xA0 || n == 0x1680
    || 0x2000 <= n <= 0x200A || n == 0x2028 || n == 0x2029 || n == 0x202F || n == 0x205F || n == 0x3000
  }

  /** "".join(parts) */
  function Join(parts: seq<string>): string {
    if parts == [] then "" else Join(parts[..|parts| - 1]) + parts[|parts| - 1]
  }

  lemma JoinPush(parts: seq<string>, piece: string)
    ensures Join(parts + [piece]) == Join(parts) + piece
  {
    assert (parts + [piece])[..|parts|] == parts;
  }

  lemma SliceOfSlice(text: string, base: nat, n: nat, a: nat, b: nat)
    requires base + n <= |text| && a <= b <= n
    ensures text[base..base + n][a..b] == text[base + a..base + b]
  {
    var x, y := text[base..base + n][a..b], text[base + a..base + b];
    forall k | 0 <= k < b - a
      ensures x[k] == y[k]
    {
      assert text[base..base + n][a + k] == text[base + a + k];
    }
  }
}
