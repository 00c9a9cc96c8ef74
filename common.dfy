/** Small value types shared by every part of the model. */
module Common {

  /** A value that may be absent: JavaScript's `undefined`/`null`. */
  datatype Option<+T> = None | Some(value: T) {
    function GetOr(default: T): T {
      if Some? then value else default
    }
  }

  /** The outcome of a remote call: the response it resolved with, or the error it rejected with. */
  datatype Result<+T, +E> = Ok(value: T) | Err(error: E)

  /** JavaScript truthiness of an optional string: present and not empty. */
  function Truthy(s: Option<string>): (b: bool)
    ensures b <==> s != None && s != Some("")
  {
    s.Some? && s.value != ""
  }

  /** JavaScript truthiness of an optional number: present and not zero. */
  function TruthyNumber(n: Option<int>): (b: bool)
    ensures b <==> n != None && n != Some(0)
  {
    n.Some? && n.value != 0
  }

  /** `s.startsWith(prefix)` */
  function StartsWith(s: string, prefix: string): (b: bool)
    ensures b <==> |prefix| <= |s| && s == prefix + s[|prefix|..]
  {
    assert |prefix| <= |s| ==> s == s[..|prefix|] + s[|prefix|..];
    |prefix| <= |s| && s[..|prefix|] == prefix
  }

  /** `haystack.includes(needle)`: some position of `haystack` starts a copy of `needle`. */
  predicate Includes(haystack: string, needle: string)
    decreases |haystack|
  {
    if |haystack| < |needle| then false
    else StartsWith(haystack, needle) || (|haystack| > 0 && Includes(haystack[1..], needle))
  }

  lemma {:induction false} IncludesAt(haystack: string, needle: string, i: nat)
    requires i + |needle| <= |haystack|
    requires haystack[i..i + |needle|] == needle
    ensures Includes(haystack, needle)
    decreases i
  {
    if i > 0 {
      assert haystack[1..][i - 1..i - 1 + |needle|] == haystack[i..i + |needle|];
      IncludesAt(haystack[1..], needle, i - 1);
    }
  }

  /** A copy of `needle` starts at position `i` of `haystack`. */
  predicate OccursAt(haystack: string, needle: string, i: nat) {
    i + |needle| <= |haystack| && haystack[i..i + |needle|] == needle
  }

  /** `includes` holds exactly when some position starts a copy of the needle. */
  lemma {:induction false} IncludesIff(haystack: string, needle: string)
    ensures Includes(haystack, needle) <==> exists i: nat :: OccursAt(haystack, needle, i)
    decreases |haystack|
  {
    if exists i: nat :: OccursAt(haystack, needle, i) {
      var i: nat :| OccursAt(haystack, needle, i);
      IncludesAt(haystack, needle, i);
    }
    if Includes(haystack, needle) {
      if StartsWith(haystack, needle) {
        assert OccursAt(haystack, needle, 0);
      } else {
        IncludesIff(haystack[1..], needle);
        var j: nat :| OccursAt(haystack[1..], needle, j);
        assert haystack[j + 1..j + 1 + |needle|] == haystack[1..][j..j + |needle|];
        assert OccursAt(haystack, needle, j + 1);
      }
    }
  }

  function Min(a: int, b: int): int {
    if a <= b then a else b
  }
}
