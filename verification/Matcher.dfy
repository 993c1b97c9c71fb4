/** The streaming pattern matcher: one byte at a time, against naive search over everything seen. */
module Matcher {
  import opened Bytes

  predicate Suffix(p: Bytes, s: Bytes) {
    |p| <= |s| && s[|s| - |p|..] == p
  }

  /** `k` is the length of the longest proper prefix of `pattern` that ends `s`. */
  ghost predicate Longest(pattern: Bytes, s: Bytes, k: nat) {
    && k < |pattern|
    && Suffix(pattern[..k], s)
    && forall j :: k < j < |pattern| ==> !Suffix(pattern[..j], s)
  }

  /** Every prefix of the pattern that ends `s` and is longer than `k` is not continued by `b`. */
  ghost predicate NoneLonger(pattern: Bytes, s: Bytes, k: nat, b: Byte) {
    forall j :: k < j < |pattern| && Suffix(pattern[..j], s) ==> pattern[j] != b
  }

  /** Entry `i` is the longest proper border of the first `i + 1` bytes. */
  ghost predicate Table(pattern: Bytes, prefix: seq<nat>) {
    && |prefix| <= |pattern|
    && forall i :: 0 <= i < |prefix| ==> Longest(pattern, pattern[1..i + 1], prefix[i])
  }

  lemma SuffixSnoc(p: Bytes, s: Bytes, b: Byte)
    requires p != []
    ensures Suffix(p, s + [b]) <==> p[|p| - 1] == b && Suffix(p[..|p| - 1], s)
  {
  }

  /** Falling back from `m` goes to the next shorter prefix that ends `s`. */
  lemma Fallback(pattern: Bytes, s: Bytes, m: nat, f: nat)
    requires 0 < m < |pattern| && Suffix(pattern[..m], s) && Longest(pattern, pattern[1..m], f)
    ensures f < m && Suffix(pattern[..f], s)
    ensures forall j :: f < j < m ==> !Suffix(pattern[..j], s)
  {
  }

  /** One byte more, from a prefix that cannot be bettered. */
  lemma Extend(pattern: Bytes, s: Bytes, k: nat, b: Byte)
    requires k < |pattern| && Suffix(pattern[..k], s) && NoneLonger(pattern, s, k, b)
    ensures pattern[k] == b ==> Suffix(pattern[..k + 1], s + [b])
    ensures forall j :: k + 1 < j <= |pattern| ==> !Suffix(pattern[..j], s + [b])
    ensures k == 0 && pattern[0] != b ==> forall j :: 0 < j <= |pattern| ==> !Suffix(pattern[..j], s + [b])
  {
    forall j | 0 < j <= |pattern|
      ensures Suffix(pattern[..j], s + [b]) <==> pattern[j - 1] == b && Suffix(pattern[..j - 1], s)
      ensures j > k + 1 ==> !Suffix(pattern[..j], s + [b])
    {
      SuffixSnoc(pattern[..j], s, b);
      assert pattern[..j][..j - 1] == pattern[..j - 1];
    }
  }

  lemma LongestUnique(pattern: Bytes, s: Bytes, k: nat, k': nat)
    requires Longest(pattern, s, k) && Longest(pattern, s, k')
    ensures k == k'
  {
  }

  /**
    Takes in one byte: falls back to shorter and shorter prefixes until one goes on with `b`.  The result
    is the longest prefix, the whole pattern included, that ends the bytes seen; each fallback shortens it.
   */
  method Advance(pattern: Bytes, prefix: seq<nat>, matched: nat, b: Byte, ghost seen: Bytes)
    returns (next: nat, ghost steps: nat)
    requires Table(pattern, prefix) && Longest(pattern, seen, matched) && matched <= |prefix|
    ensures next <= |pattern| && Suffix(pattern[..next], seen + [b])
    ensures forall j :: next < j <= |pattern| ==> !Suffix(pattern[..j], seen + [b])
    ensures next + steps <= matched + 1
  {
    var m: nat := matched;
    steps := 0;
    while m > 0 && b != pattern[m]
      invariant m < |pattern| && Suffix(pattern[..m], seen) && NoneLonger(pattern, seen, m, b)
      invariant m + steps <= matched
    {
      Fallback(pattern, seen, m, prefix[m - 1]);
      m := prefix[m - 1];
      steps := steps + 1;
    }
    Extend(pattern, seen, m, b);
    next := if b == pattern[m] then m + 1 else m;
  }

  lemma TableStart(pattern: Bytes, first: nat)
    requires pattern != [] && first == 0
    ensures Longest(pattern, pattern[1..1], 0) && Table(pattern, [first])
  {
  }

  lemma TableSnoc(pattern: Bytes, prefix: seq<nat>, k: nat, b: Byte)
    requires Table(pattern, prefix) && 0 < |prefix| < |pattern| && b == pattern[|prefix|] && k <= |pattern|
    requires var s := pattern[1..|prefix|] + [b];
             Suffix(pattern[..k], s) && forall j :: k < j <= |pattern| ==> !Suffix(pattern[..j], s)
    ensures Longest(pattern, pattern[1..|prefix| + 1], k) && Table(pattern, prefix + [k])
  {
    hide Suffix, Longest, Table;
    assert pattern[1..|prefix| + 1] == pattern[1..|prefix|] + [b];
    LongestOf(pattern, pattern[1..|prefix| + 1], k);
    TableExtend(pattern, prefix, k);
  }

  lemma LongestOf(pattern: Bytes, s: Bytes, k: nat)
    requires |s| < |pattern| && k <= |pattern| && Suffix(pattern[..k], s)
    requires forall j :: k < j <= |pattern| ==> !Suffix(pattern[..j], s)
    ensures Longest(pattern, s, k)
  {
    assert |pattern[..k]| <= |s|;
    hide Suffix;
  }

  lemma TableExtend(pattern: Bytes, prefix: seq<nat>, k: nat)
    requires Table(pattern, prefix) && |prefix| < |pattern| && Longest(pattern, pattern[1..|prefix| + 1], k)
    ensures Table(pattern, prefix + [k])
  {
    hide Longest;
    var longer := prefix + [k];
    forall i | 0 <= i < |longer|
      ensures Longest(pattern, pattern[1..i + 1], longer[i])
    {
      assert i < |prefix| ==> longer[i] == prefix[i];
    }
  }

  lemma LongestFits(pattern: Bytes, s: Bytes, k: nat)
    requires Longest(pattern, s, k)
    ensures k <= |s|
  {
  }

  /** The prefix table, by matching the pattern against itself. */
  method BuildPrefix(pattern: Bytes) returns (table: seq<nat>)
    requires pattern != []
    ensures |table| == |pattern| && Table(pattern, table)
  {
    hide Table, Longest, Suffix;
    var prefix := new nat[|pattern|](_ => 0);
    var matched: nat := 0;
    TableStart(pattern, prefix[0]);
    assert prefix[..1] == [prefix[0]];
    for index := 1 to |pattern|
      invariant Longest(pattern, pattern[1..index], matched)
      invariant Table(pattern, prefix[..index])
    {
      LongestFits(pattern, pattern[1..index], matched);
      ghost var done := prefix[..index];
      ghost var steps;
      matched, steps := Advance(pattern, prefix[..index], matched, pattern[index], pattern[1..index]);
      TableSnoc(pattern, done, matched, pattern[index]);
      prefix[index] := matched;
      assert prefix[..index + 1] == done + [matched];
    }
    table := prefix[..];
    assert prefix[..|pattern|] == prefix[..];
  }

  class BytePatternMatcher {
    const pattern: Bytes
    const prefix: seq<nat>
    var matched: nat

    /** The bytes since the last match or reset. */
    ghost var seen: Bytes
    ghost var pushes: nat
    ghost var fallbacks: nat

    ghost predicate Valid()
      reads this
    {
      && pattern != []
      && |prefix| == |pattern| && Table(pattern, prefix)
      && Longest(pattern, seen, matched)
      && fallbacks + matched <= pushes
    }

    constructor (pattern: Bytes)
      requires pattern != []
      ensures Valid() && this.pattern == pattern && seen == [] && matched == 0
    {
      var table := BuildPrefix(pattern);
      this.pattern := pattern;
      this.prefix := table;
      matched, seen, pushes, fallbacks := 0, [], 0, 0;
    }

    /** True exactly when the pattern ends the bytes seen; the search then starts afresh. */
    method Push(b: Byte) returns (found: bool)
      requires Valid()
      modifies this
      ensures Valid()
      ensures found <==> Suffix(pattern, old(seen) + [b])
      ensures seen == if found then [] else old(seen) + [b]
      ensures pushes == old(pushes) + 1
    {
      ghost var steps;
      matched, steps := Advance(pattern, prefix, matched, b, seen);
      fallbacks := fallbacks + steps;
      pushes := pushes + 1;
      seen := seen + [b];
      assert pattern[..|pattern|] == pattern;
      if matched == |pattern| {
        matched := 0;
        seen := [];
        assert pattern[..0] == [];
        found := true;
      } else {
        found := false;
      }
    }

    method Matched() returns (k: nat)
      requires Valid()
      ensures Longest(pattern, seen, k)
    {
      k := matched;
    }

    method Reset()
      requires Valid()
      modifies this
      ensures Valid() && seen == [] && matched == 0
    {
      matched := 0;
      seen := [];
      assert pattern[..0] == [];
    }
  }
}
