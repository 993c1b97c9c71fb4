/** Error keywords are looked for in an upstream body as it streams by, in a small rolling window. */
module Keywords {
  import opened Bytes
  import opened Utf8

  const SCAN_LIMIT: nat := 65_536

  /** Lower case of one character; every result holds for every such function. */
  type Fold = char -> string

  function Folded(fold: Fold, s: string): string {
    if s == "" then "" else fold(s[0]) + Folded(fold, s[1..])
  }

  lemma {:induction false} FoldedConcat(fold: Fold, a: string, b: string)
    ensures Folded(fold, a + b) == Folded(fold, a) + Folded(fold, b)
  {
    if a == "" {
      assert a + b == b;
    } else {
      assert (a + b)[1..] == a[1..] + b;
      FoldedConcat(fold, a[1..], b);
    }
  }

  predicate OccursAt(word: string, text: string, at: nat) {
    at + |word| <= |text| && text[at..at + |word|] == word
  }

  predicate Occurs(word: string, text: string) {
    exists at :: 0 <= at <= |text| && OccursAt(word, text, at)
  }

  predicate AnyOccurs(words: seq<string>, text: string) {
    exists i :: 0 <= i < |words| && Occurs(words[i], text)
  }

  predicate Suffix(s: string, text: string) {
    |s| <= |text| && text[|text| - |s|..] == s
  }

  // ------------------------------------------------------------------------------------------------- Window

  lemma {:induction false} SizeConcat(a: string, b: string)
    ensures Size(a + b) == Size(a) + Size(b)
  {
    if a == "" {
      assert a + b == b;
    } else {
      assert (a + b)[1..] == a[1..] + b;
      SizeConcat(a[1..], b);
    }
  }

  function Longest(words: seq<string>): nat {
    if words == [] then 0
    else
      var rest := Longest(words[1..]);
      if Size(words[0]) > rest then Size(words[0]) else rest
  }

  lemma {:induction false} LongestBounds(words: seq<string>, i: nat)
    requires i < |words|
    ensures Size(words[i]) <= Longest(words)
  {
    if i > 0 {
      LongestBounds(words[1..], i - 1);
    }
  }

  /** The window is all of the text, or an end of it that nothing but the last byte of a keyword could exceed. */
  ghost predicate Window(rolling: string, text: string, longest: nat) {
    Suffix(rolling, text) && (rolling == text || Size(rolling) >= longest - 1)
  }

  /** A keyword that is completed by new text is found in the window. */
  lemma WindowSuffices(word: string, rolling: string, text: string, more: string, longest: nat)
    requires Window(rolling, text, longest) && Size(word) <= longest && !Occurs(word, text)
    ensures Occurs(word, rolling + more) <==> Occurs(word, text + more)
  {
    hide Size, OccursAt, Window;
    if Occurs(word, rolling + more) {
      var at :| 0 <= at <= |rolling + more| && OccursAt(word, rolling + more, at);
      Shift(word, rolling, text, more, longest, at);
    }
    if Occurs(word, text + more) {
      var at :| 0 <= at <= |text + more| && OccursAt(word, text + more, at);
      OccurrenceReaches(word, text, more, at);
      StartsInWindow(word, rolling, text, more, at, longest);
      Shift(word, rolling, text, more, longest, at - (|text| - |rolling|));
    }
  }

  lemma Shift(word: string, rolling: string, text: string, more: string, longest: nat, at: nat)
    requires Window(rolling, text, longest)
    ensures |rolling| <= |text|
    ensures OccursAt(word, rolling + more, at) <==> OccursAt(word, text + more, |text| - |rolling| + at)
  {
    hide Size;
  }

  lemma OccurrenceReaches(word: string, text: string, more: string, at: nat)
    requires OccursAt(word, text + more, at) && !Occurs(word, text)
    ensures at + |word| > |text|
  {
    if at + |word| <= |text| {
      assert text[at..at + |word|] == (text + more)[at..at + |word|];
      assert OccursAt(word, text, at);
    }
  }

  /** Starting before the window, the keyword would have more bytes before the new text than it has in all. */
  lemma StartsInWindow(word: string, rolling: string, text: string, more: string, at: nat, longest: nat)
    requires Window(rolling, text, longest) && Size(word) <= longest
    requires OccursAt(word, text + more, at) && at + |word| > |text|
    ensures |rolling| <= |text| && at >= |text| - |rolling|
  {
    hide Size;
    var cut := |text| - |rolling|;
    if at < cut {
      var inside := text[at..];
      assert word[..|text| - at] == (text + more)[at..|text|] == inside;
      assert word == inside + word[|text| - at..];
      assert inside == text[at..cut] + rolling;
      SizeConcat(inside, word[|text| - at..]);
      SizeConcat(text[at..cut], rolling);
    }
  }

  /** Keeps the longest end of the window that is not over the limit. */
  method TrimToSuffix(value: string, maximum: nat) returns (trimmed: string)
    ensures Suffix(trimmed, value)
    ensures trimmed == value || maximum < Size(trimmed) + 4
    ensures Size(trimmed) <= maximum
    ensures forall t :: Suffix(t, value) && |t| > |trimmed| ==> Size(t) > maximum
  {
    var length := Size(value);
    if length <= maximum {
      return value;
    }
    var k := 0;
    var index := 0;
    while index < length - maximum
      invariant 0 <= k <= |value| && index + Size(value[k..]) == length
      invariant index < length - maximum + 4
      invariant k > 0 || index == 0
      invariant forall t :: Suffix(t, value) && |t| > |value| - k ==> Size(t) > maximum
    {
      assert value[k..][1..] == value[k + 1..];
      forall t | Suffix(t, value) && |t| > |value| - (k + 1)
        ensures Size(t) > maximum
      {
        assert |t| == |value| - k ==> t == value[k..];
      }
      index := index + CharSize(value[k]);
      k := k + 1;
    }
    trimmed := value[k..];
  }

  lemma WindowTrimmed(rolling: string, trimmed: string, text: string, longest: nat, limit: nat)
    requires Window(rolling, text, longest) && Suffix(trimmed, rolling)
    requires trimmed == rolling || limit < Size(trimmed) + 4
    requires limit >= 16 && limit >= 4 * longest
    ensures Window(trimmed, text, longest)
  {
  }

  // ------------------------------------------------------------------------------------------------ Matcher

  lemma AnyOccursLonger(words: seq<string>, text: string, more: string)
    requires AnyOccurs(words, text)
    ensures AnyOccurs(words, text + more)
  {
    var i :| 0 <= i < |words| && Occurs(words[i], text);
    var at :| 0 <= at <= |text| && OccursAt(words[i], text, at);
    assert (text + more)[at..at + |words[i]|] == text[at..at + |words[i]|];
    assert OccursAt(words[i], text + more, at);
  }

  datatype Trigger = NoTrigger | Keyword(index: nat)

  class ErrorKeywordMatcher {
    const fold: Fold
    const words: seq<string>
    const limit: nat
    var carry: Bytes
    var rolling: string
    var remaining: nat
    ghost var input: Bytes
    ghost var seen: string

    ghost predicate Configured()
      reads this
    {
      && (forall i :: 0 <= i < |words| ==> words[i] != "")
      && limit >= 16 && limit >= 4 * Longest(words)
    }

    /** Nothing was found in what was seen, and the window and the carry are all that still matters of it. */
    ghost predicate Valid()
      reads this
    {
      && Configured()
      && |input| + remaining == SCAN_LIMIT
      && carry == Rest(input)
      && seen == Folded(fold, Text(input))
      && Window(rolling, seen, Longest(words))
      && !AnyOccurs(words, seen)
    }

    constructor (fold: Fold, words: seq<string>)
      requires forall i :: 0 <= i < |words| ==> words[i] != ""
      ensures Valid() && input == [] && this.fold == fold && this.words == words
    {
      this.fold, this.words := fold, words;
      limit := if 4 * Longest(words) < 16 then 16 else 4 * Longest(words);
      carry, rolling, remaining := [], "", SCAN_LIMIT;
      input, seen := [], "";
    }

    method MatchText(text: string) returns (trigger: Trigger)
      requires Configured() && Window(rolling, seen, Longest(words)) && !AnyOccurs(words, seen)
      modifies this`rolling, this`seen
      ensures seen == old(seen) + Folded(fold, text)
      ensures trigger.NoTrigger? <==> !AnyOccurs(words, seen)
      ensures trigger.Keyword? ==> trigger.index < |words| && Occurs(words[trigger.index], seen)
      ensures Window(rolling, seen, Longest(words))
    {
      hide Window, Occurs, Longest, Folded, Size;
      ghost var before, window := seen, rolling;
      var more := Folded(fold, text);
      rolling := rolling + more;
      seen := seen + more;
      forall i | 0 <= i < |words|
        ensures Occurs(words[i], rolling) <==> Occurs(words[i], seen)
      {
        LongestBounds(words, i);
        assert !Occurs(words[i], before);
        WindowSuffices(words[i], window, before, more, Longest(words));
      }
      WindowGrows(window, before, more, Longest(words));
      trigger := NoTrigger;
      var i := 0;
      while i < |words|
        invariant 0 <= i <= |words| && trigger == NoTrigger
        invariant forall j :: 0 <= j < i ==> !Occurs(words[j], seen)
      {
        if Occurs(words[i], rolling) {
          trigger := Keyword(i);
          break;
        }
        i := i + 1;
      }
      var trimmed := TrimToSuffix(rolling, limit);
      WindowTrimmed(rolling, trimmed, seen, Longest(words), limit);
      rolling := trimmed;
    }

    /** The carry is what remains to be decoded of the input, and nothing was found so far. */
    ghost predicate Decoding()
      reads this
    {
      && Configured()
      && Window(rolling, seen, Longest(words)) && !AnyOccurs(words, seen)
      && Folded(fold, Text(input)) == seen + Folded(fold, Text(carry)) && Rest(input) == Rest(carry)
    }

    ghost predicate Reports(trigger: Trigger)
      reads this
    {
      && (trigger.NoTrigger? <==> !AnyOccurs(words, Folded(fold, Text(input))))
      && (trigger.Keyword? ==> trigger.index < |words| && Occurs(words[trigger.index], Folded(fold, Text(input))))
    }

    /** Decodes up to the first error and drops what is invalid. */
    method Advance() returns (done: bool, trigger: Trigger)
      requires Decoding()
      modifies this`carry, this`rolling, this`seen
      ensures !done ==> Decoding() && |carry| < |old(carry)|
      ensures done ==> Reports(trigger)
      ensures done && trigger.NoTrigger? ==> Decoding() && carry == Rest(input) && seen == Folded(fold, Text(input))
    {
      hide Window, Occurs, AnyOccurs, Longest, Folded, Size, Text, Rest, First;
      var validUpTo := ValidUpTo(carry);
      var text := Text(carry[..validUpTo]);
      ghost var after := Folded(fold, Text(carry[validUpTo..]));
      Regroup(fold, carry, seen);
      trigger := NoTrigger;
      if validUpTo == |carry| {
        AllDecoded(fold, carry);
        carry := [];
        trigger := MatchText(text);
        assert seen + "" == seen;
        return true, trigger;
      }
      if validUpTo > 0 {
        trigger := MatchText(text);
        if trigger != NoTrigger {
          AnyOccursLonger(words, seen, after);
          OccursLonger(words[trigger.index], seen, after);
          carry := [];
          return true, trigger;
        }
      }
      var start := First(carry[validUpTo..]);
      if start.Incomplete? {
        carry := carry[validUpTo..];
        Cut(fold, carry);
        assert seen + "" == seen;
        return true, NoTrigger;
      }
      SkipBad(carry[validUpTo..]);
      assert carry[validUpTo..][start.len..] == carry[validUpTo + start.len..];
      carry := carry[validUpTo + start.len..];
      done := false;
    }

    /** Reports a keyword exactly if one occurs in the folded text of what was accepted so far. */
    method Observe(bytes: Bytes) returns (trigger: Trigger)
      requires Valid()
      modifies this
      ensures input == old(input) + bytes[..if |bytes| < old(remaining) then |bytes| else old(remaining)]
      ensures Reports(trigger)
      ensures trigger.NoTrigger? ==> Valid()
    {
      hide Window, Occurs, AnyOccurs, Longest, Folded, Size, Text, Rest, First;
      if remaining == 0 || bytes == [] {
        assert input + bytes[..0] == input;
        return NoTrigger;
      }
      var accepted := if |bytes| < remaining then |bytes| else remaining;
      remaining := remaining - accepted;
      TextInPieces(input, bytes[..accepted]);
      FoldedConcat(fold, Text(input), Text(carry + bytes[..accepted]));
      carry := carry + bytes[..accepted];
      input := input + bytes[..accepted];
      var done := false;
      trigger := NoTrigger;
      while !done
        invariant input == old(input) + bytes[..accepted] && |input| + remaining == SCAN_LIMIT
        invariant !done ==> Decoding()
        invariant done ==> Reports(trigger)
        invariant done && trigger.NoTrigger? ==> Decoding() && carry == Rest(input) && seen == Folded(fold, Text(input))
        decreases !done, |carry|
      {
        done, trigger := Advance();
      }
    }
  }

  lemma WindowGrows(rolling: string, text: string, more: string, longest: nat)
    requires Window(rolling, text, longest)
    ensures Window(rolling + more, text + more, longest)
  {
    hide Size;
    SizeConcat(rolling, more);
  }

  lemma OccursLonger(word: string, text: string, more: string)
    requires Occurs(word, text)
    ensures Occurs(word, text + more)
  {
    assert Occurs([word][0], text);
    AnyOccursLonger([word], text, more);
  }

  /** The text before the first error comes first. */
  lemma Regroup(fold: Fold, s: Bytes, seen: string)
    ensures var v := ValidUpTo(s);
            && seen + Folded(fold, Text(s)) == seen + Folded(fold, Text(s[..v])) + Folded(fold, Text(s[v..]))
            && (v == 0 ==> seen + Folded(fold, Text(s[..v])) == seen)
            && Rest(s) == Rest(s[v..])
            && (v < |s| ==> !First(s[v..]).Char?)
  {
    hide First, ValidUpTo, Rest;
    var v := ValidUpTo(s);
    TextAtError(s);
    ErrorAtValidUpTo(s);
    FoldedConcat(fold, Text(s[..v]), Text(s[v..]));
  }

  lemma AllDecoded(fold: Fold, s: Bytes)
    requires ValidUpTo(s) == |s|
    ensures Rest(s) == [] && Folded(fold, Text(s[|s|..])) == "" == Folded(fold, Text([])) && Rest([]) == []
  {
    hide First;
  }

  lemma SkipBad(s: Bytes)
    requires s != [] && !First(s).Char?
    ensures First(s).Bad? ==> Text(s) == Text(s[First(s).len..]) && Rest(s) == Rest(s[First(s).len..])
  {
  }

  lemma Cut(fold: Fold, s: Bytes)
    requires s != [] && First(s).Incomplete?
    ensures Folded(fold, Text(s)) == "" && Rest(s) == s
  {
  }

  /** Whatever the chunks, a keyword is reported exactly if one occurs in the folded text of the first 64 KiB. */
  method ScanBody(fold: Fold, words: seq<string>, chunks: seq<Bytes>) returns (found: bool)
    requires forall i :: 0 <= i < |words| ==> words[i] != ""
    ensures found <==> AnyOccurs(words, Folded(fold, Text(Scanned(Concat(chunks)))))
  {
    hide Window, AnyOccurs, Longest, Folded, Size, Text, Rest;
    assert chunks[..0] == [];
    var matcher := new ErrorKeywordMatcher(fold, words);
    var i := 0;
    while i < |chunks|
      invariant 0 <= i <= |chunks|
      invariant matcher.Valid() && matcher.fold == fold && matcher.words == words
      invariant matcher.input == Scanned(Concat(chunks[..i]))
    {
      ConcatSnoc(chunks, i);
      var trigger := matcher.Observe(chunks[i]);
      assert matcher.input == Scanned(Concat(chunks[..i + 1]));
      if trigger != NoTrigger {
        FoundStays(fold, words, chunks, i + 1);
        return true;
      }
      i := i + 1;
    }
    assert chunks[..i] == chunks;
    found := false;
  }

  function Scanned(s: Bytes): Bytes {
    if |s| <= SCAN_LIMIT then s else s[..SCAN_LIMIT]
  }

  lemma FoundStays(fold: Fold, words: seq<string>, chunks: seq<Bytes>, i: nat)
    requires i <= |chunks| && AnyOccurs(words, Folded(fold, Text(Scanned(Concat(chunks[..i])))))
    ensures AnyOccurs(words, Folded(fold, Text(Scanned(Concat(chunks)))))
  {
    hide Folded, Text, Rest, AnyOccurs, Concat;
    ConcatPrefix(chunks, i);
    var a, b := Scanned(Concat(chunks[..i])), Scanned(Concat(chunks));
    assert a <= b;
    var more := b[|a|..];
    assert b == a + more;
    TextInPieces(a, more);
    FoldedConcat(fold, Text(a), Text(Rest(a) + more));
    AnyOccursLonger(words, Folded(fold, Text(a)), Folded(fold, Text(Rest(a) + more)));
  }
}
