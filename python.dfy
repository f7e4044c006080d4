/**
 * The few Python and NumPy built-ins whose exact semantics the modelled code
 * relies on: floor division, list indexing with negative indices,
 * `str.lower`, `str.split(sep)[-1]`, `dict(zip(keys, values))` and `argmax`.
 */
module Python {
  import opened Wrappers

  function Min(a: int, b: int): int { if a <= b then a else b }

  /** `a // b`: the quotient rounded towards minus infinity. */
  function FloorDiv(a: int, b: int): (q: int)
    requires b != 0
    ensures b > 0 ==> b * q <= a < b * q + b
    ensures b < 0 ==> b * q + b < a <= b * q
  {
    if b > 0 then a / b else (-a) / (-b)
  }

  /** `s[i]`: negative indices count from the end; out of range raises IndexError. */
  function Index<T>(s: seq<T>, i: int): (r: Option<T>)
    ensures r.Some? <==> -|s| <= i < |s|
    ensures 0 <= i < |s| ==> r == Some(s[i])
    ensures -|s| <= i < 0 ==> r == Some(s[|s| + i])
  {
    if 0 <= i < |s| then Some(s[i])
    else if -|s| <= i < 0 then Some(s[|s| + i])
    else None
  }

  function LowerChar(c: char): char
  {
    if 'A' <= c <= 'Z' then (c as int + 32) as char else c
  }

  /** `str.lower`, restricted to the ASCII letters. */
  function Lower(s: string): (r: string)
    ensures |r| == |s|
    ensures forall i :: 0 <= i < |s| ==> r[i] == LowerChar(s[i])
  {
    if s == [] then [] else [LowerChar(s[0])] + Lower(s[1..])
  }

  lemma {:induction false} LowerIdempotent(s: string)
    ensures Lower(Lower(s)) == Lower(s)
  {
    var l := Lower(s);
    assert forall i :: 0 <= i < |l| ==> Lower(l)[i] == l[i];
  }

  /**
   * `s.split(sep)[-1]`: the text after the last `sep`, or all of `s` when
   * `sep` does not occur in it.
   */
  function AfterLast(s: string, sep: char): (r: string)
    ensures |r| <= |s| && r == s[|s| - |r|..]
    ensures sep !in r
    ensures |r| < |s| ==> s[|s| - |r| - 1] == sep
  {
    if s == [] then ""
    else if s[|s| - 1] == sep then ""
    else AfterLast(s[..|s| - 1], sep) + [s[|s| - 1]]
  }

  lemma AfterLastNoSeparator(s: string, sep: char)
    requires sep !in s
    ensures AfterLast(s, sep) == s
  {
  }

  /**
   * `dict(zip(keys, values))`: pairs are taken up to the shorter length and a
   * repeated key keeps the value of its last occurrence.
   */
  function DictZip<K, V>(keys: seq<K>, values: seq<V>): (m: map<K, V>)
    ensures m.Keys == set i | 0 <= i < Min(|keys|, |values|) :: keys[i]
    decreases |keys|
  {
    var n := Min(|keys|, |values|);
    if n == 0 then map[]
    else
      var m := DictZip(keys[..n - 1], values[..n - 1]);
      assert forall i :: 0 <= i < n - 1 ==> keys[..n - 1][i] == keys[i];
      m[keys[n - 1] := values[n - 1]]
  }

  /** A key paired at position i and never again maps to the value at position i. */
  lemma {:induction false} DictZipLastOccurrence<K, V>(keys: seq<K>, values: seq<V>, i: nat)
    requires i < Min(|keys|, |values|)
    requires forall j :: i < j < Min(|keys|, |values|) ==> keys[j] != keys[i]
    ensures keys[i] in DictZip(keys, values) && DictZip(keys, values)[keys[i]] == values[i]
    decreases |keys|
  {
    var n := Min(|keys|, |values|);
    if i < n - 1 {
      DictZipLastOccurrence(keys[..n - 1], values[..n - 1], i);
    }
  }

  /** `argmax` of a non-empty vector: the first index holding the largest value. */
  function ArgMax(s: seq<real>): (k: nat)
    requires |s| > 0
    ensures k < |s|
    ensures forall j :: 0 <= j < |s| ==> s[j] <= s[k]
    ensures forall j :: 0 <= j < k ==> s[j] < s[k]
  {
    if |s| == 1 then 0
    else
      var k := ArgMax(s[..|s| - 1]);
      if s[|s| - 1] > s[k] then |s| - 1 else k
  }
}
