/** Python's `''.join(parts)` and `sep.join(lines)` on strings, with the layout facts the board rendering needs. */
module Text {

  /** `''.join(parts)`. */
  function Concat(parts: seq<string>): string
  {
    if parts == [] then "" else parts[0] + Concat(parts[1..])
  }

  /** `sep.join(lines)`: the separator goes between lines, not after the last one. */
  function Join(lines: seq<string>, sep: string): string
  {
    if |lines| == 0 then ""
    else if |lines| == 1 then lines[0]
    else lines[0] + sep + Join(lines[1..], sep)
  }

  /** Joining two-character parts puts character `m` of part `k` at position `2 * k + m`. */
  lemma {:induction false} ConcatPairs(parts: seq<string>)
    requires forall k :: 0 <= k < |parts| ==> |parts[k]| == 2
    ensures |Concat(parts)| == 2 * |parts|
    ensures forall k, m :: 0 <= k < |parts| && 0 <= m < 2 ==> Concat(parts)[2 * k + m] == parts[k][m]
  {
    if parts != [] {
      var rest := parts[1..];
      ConcatPairs(rest);
      assert Concat(parts) == parts[0] + Concat(rest);
      forall k, m | 0 <= k < |parts| && 0 <= m < 2
        ensures Concat(parts)[2 * k + m] == parts[k][m]
      {
        if k > 0 {
          assert parts[k] == rest[k - 1];
        }
      }
    }
  }

  /**
   * Joining `n >= 1` lines of sixteen characters with a one-character
   * separator gives `17 * n - 1` characters: line `k` starts at `17 * k`
   * and every line but the last is followed by the separator.
   */
  lemma {:induction false} JoinLines16(lines: seq<string>, sep: char)
    requires |lines| >= 1
    requires forall k :: 0 <= k < |lines| ==> |lines[k]| == 16
    ensures |Join(lines, [sep])| == 17 * |lines| - 1
    ensures forall k, m :: 0 <= k < |lines| && 0 <= m < 16 ==> Join(lines, [sep])[17 * k + m] == lines[k][m]
    ensures forall k :: 0 <= k < |lines| - 1 ==> Join(lines, [sep])[17 * k + 16] == sep
  {
    if |lines| > 1 {
      var rest := lines[1..];
      JoinLines16(rest, sep);
      var s := Join(lines, [sep]);
      assert s == lines[0] + [sep] + Join(rest, [sep]);
      forall k, m | 0 <= k < |lines| && 0 <= m < 16
        ensures s[17 * k + m] == lines[k][m]
      {
        if k > 0 {
          assert lines[k] == rest[k - 1];
        }
      }
      forall k | 0 <= k < |lines| - 1
        ensures s[17 * k + 16] == sep
      {
        if k > 0 {
          assert s[17 * k + 16] == Join(rest, [sep])[17 * (k - 1) + 16];
        }
      }
    }
  }
}
