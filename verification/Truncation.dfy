/**
 * The token estimate and the middle truncation that compaction relies on
 * (codex-rs/utils/string/src/truncate.rs). Texts are sequences of Unicode
 * scalar values and byte counts are those of their UTF-8 form.
 */
module Truncation {
  import Toml

  const U64_MAX: nat := 0xffff_ffff_ffff_ffff
  const ELLIPSIS: char := '\U{2026}'

  function Width(c: char): (n: nat)
    ensures 1 <= n <= 4
  {
    if c as int < 0x80 then 1 else if c as int < 0x800 then 2 else if c as int < 0x1_0000 then 3 else 4
  }

  // Table 3-6 of the Unicode Standard: how many bytes the UTF-8 form of a character takes.
  lemma WidthTable(c: char)
    ensures Width(c) == 1 <==> c <= '\U{7F}'
    ensures Width(c) == 2 <==> '\U{80}' <= c <= '\U{7FF}'
    ensures Width(c) == 3 <==> '\U{800}' <= c <= '\U{FFFF}'
    ensures Width(c) == 4 <==> '\U{10000}' <= c
  {
  }

  function Bytes(s: string): nat {
    if s == [] then 0 else Width(s[0]) + Bytes(s[1..])
  }

  // Bytes rounded up to whole tokens of four.
  function RoundedUp(bytes: nat): nat { (bytes + 3) / 4 }

  function Tokens(s: string): nat { RoundedUp(Bytes(s)) }

  function MarkerWords(): string { " tokens truncated" }

  function Enclosed(digits: string, words: string): string {
    [ELLIPSIS] + digits + words + [ELLIPSIS]
  }

  function Marker(removedBytes: nat): string {
    Enclosed(Toml.Decimal(RoundedUp(removedBytes)), MarkerWords())
  }

  // How many leading characters fit in `budget` bytes.
  function PrefixChars(s: string, budget: nat): (n: nat)
    ensures n <= |s|
  {
    if s == [] || Width(s[0]) > budget then 0 else 1 + PrefixChars(s[1..], budget - Width(s[0]))
  }

  // How many trailing characters fit in `budget` bytes.
  function SuffixChars(s: string, budget: nat): (n: nat)
    ensures n <= |s|
  {
    if s == [] || Width(s[|s| - 1]) > budget then 0
    else 1 + SuffixChars(s[..|s| - 1], budget - Width(s[|s| - 1]))
  }

  // Where the kept tail begins once the head has taken its characters.
  function TailStart(s: string, left: nat, right: nat): (k: nat)
    ensures PrefixChars(s, left) <= k <= |s|
  {
    |s| - SuffixChars(s[PrefixChars(s, left)..], right)
  }

  function Assembled(s: string, left: nat, right: nat, marker: string): string {
    s[..PrefixChars(s, left)] + marker + s[TailStart(s, left, right)..]
  }

  // `truncate_text` under a token policy: half of the four bytes a token for either end.
  function Truncated(s: string, maxTokens: nat): string {
    if Bytes(s) <= 4 * maxTokens then s
    else if maxTokens == 0 then Marker(Bytes(s))
    else Assembled(s, 2 * maxTokens, 2 * maxTokens, Marker(Bytes(s) - 4 * maxTokens))
  }

  lemma {:induction false} BytesConcat(a: string, b: string)
    ensures Bytes(a + b) == Bytes(a) + Bytes(b)
  {
    if a == [] {
      assert a + b == b;
    } else {
      assert (a + b)[1..] == a[1..] + b;
      BytesConcat(a[1..], b);
    }
  }

  lemma BytesSplit(s: string, k: nat)
    requires k <= |s|
    ensures Bytes(s) == Bytes(s[..k]) + Bytes(s[k..])
  {
    assert s == s[..k] + s[k..];
    BytesConcat(s[..k], s[k..]);
  }

  // The prefix that fits is the longest one.
  lemma {:induction false} PrefixCharsIsLongest(s: string, budget: nat, j: nat)
    requires j <= |s|
    ensures Bytes(s[..j]) <= budget <==> j <= PrefixChars(s, budget)
  {
    if j > 0 {
      assert s[..j][1..] == s[1..][..j - 1];
      if Width(s[0]) <= budget { PrefixCharsIsLongest(s[1..], budget - Width(s[0]), j - 1); }
    }
  }

  // So is the suffix.
  lemma {:induction false} SuffixCharsIsLongest(s: string, budget: nat, j: nat)
    requires j <= |s|
    ensures Bytes(s[|s| - j..]) <= budget <==> j <= SuffixChars(s, budget)
  {
    if j > 0 {
      var init, last := s[..|s| - 1], s[|s| - 1];
      assert s[|s| - j..] == init[|init| - (j - 1)..] + [last];
      BytesConcat(init[|init| - (j - 1)..], [last]);
      assert Bytes([last]) == Width(last) by { assert [last][1..] == []; }
      if Width(last) <= budget { SuffixCharsIsLongest(init, budget - Width(last), j - 1); }
    }
  }

  lemma BytesStep(s: string, i: nat)
    requires i < |s|
    ensures Bytes(s[..i + 1]) == Bytes(s[..i]) + Width(s[i])
  {
    assert s[..i + 1] == s[..i] + [s[i]];
    BytesConcat(s[..i], [s[i]]);
    assert [s[i]][1..] == [];
  }

  // The byte tests of the loop below, said of the two cut points.
  lemma CutTests(s: string, left: nat, right: nat, i: nat)
    requires i < |s|
    ensures Bytes(s[..i + 1]) <= left <==> i < PrefixChars(s, left)
    ensures PrefixChars(s, left) <= i ==> (Bytes(s) - right <= Bytes(s[..i]) <==> TailStart(s, left, right) <= i)
  {
    PrefixCharsIsLongest(s, left, i + 1);
    var p := PrefixChars(s, left);
    if p <= i {
      var rest := s[p..];
      assert rest[|rest| - (|s| - i)..] == s[i..];
      SuffixCharsIsLongest(rest, right, |s| - i);
      BytesSplit(s, i);
    }
  }

  /**
   * One pass over the characters finds both cuts. The last clause is the count
   * the marker of a character policy would print: nothing is counted twice.
   */
  method SplitString(s: string, beginningBytes: nat, endBytes: nat)
    returns (removedChars: nat, before: string, after: string)
    ensures before == s[..PrefixChars(s, beginningBytes)]
    ensures after == s[TailStart(s, beginningBytes, endBytes)..]
    ensures |before| + removedChars + |after| == |s|
  {
    var len := Bytes(s);
    var tailStart := if endBytes < len then len - endBytes else 0;
    ghost var p, k := PrefixChars(s, beginningBytes), TailStart(s, beginningBytes, endBytes);
    var prefixEnd, suffixStart, suffixStarted, idx := 0, |s|, false, 0;
    removedChars := 0;
    for i := 0 to |s|
      invariant idx == Bytes(s[..i])
      invariant prefixEnd == if i < p then i else p
      invariant suffixStarted <==> i > k
      invariant suffixStart == if suffixStarted then k else |s|
      invariant removedChars == if i <= p then 0 else (if i < k then i else k) - p
    {
      BytesStep(s, i);
      CutTests(s, beginningBytes, endBytes, i);
      var charEnd := idx + Width(s[i]);
      if charEnd <= beginningBytes {
        prefixEnd := i + 1;
      } else if idx >= tailStart {
        if !suffixStarted { suffixStart, suffixStarted := i, true; }
      } else {
        removedChars := removedChars + 1;
      }
      idx := charEnd;
    }
    if suffixStart < prefixEnd { suffixStart := prefixEnd; }
    before, after := s[..prefixEnd], s[suffixStart..];
  }

  method CutInTheMiddle(s: string, maxBytes: nat, marker: string) returns (out: string)
    ensures out == Assembled(s, maxBytes / 2, maxBytes - maxBytes / 2, marker)
  {
    var left := maxBytes / 2;
    var _, before, after := SplitString(s, left, maxBytes - left);
    out := before + marker + after;
  }

  method TruncateText(s: string, maxTokens: nat) returns (out: string)
    ensures out == Truncated(s, maxTokens)
  {
    if s == "" { return ""; }
    var maxBytes := 4 * maxTokens;
    if maxTokens > 0 && Bytes(s) <= maxBytes { return s; }
    if maxBytes == 0 { return Marker(Bytes(s)); }
    assert maxBytes / 2 == 2 * maxTokens;
    out := CutInTheMiddle(s, maxBytes, Marker(Bytes(s) - maxBytes));
  }

  // ---------------------------------------------------------------------------
  // What a truncated text costs and looks like
  // ---------------------------------------------------------------------------

  function Power10(k: nat): nat { if k == 0 then 1 else 10 * Power10(k - 1) }

  lemma {:induction false} DecimalWidth(n: nat, k: nat)
    requires 0 < k && n < Power10(k)
    ensures |Toml.Decimal(n)| <= k
  {
    if n >= 10 {
      assert Power10(1) == 10;
      DecimalWidth(n / 10, k - 1);
    }
  }

  lemma {:induction false} AsciiBytes(s: string)
    requires forall i :: 0 <= i < |s| ==> s[i] as int < 0x80
    ensures Bytes(s) == |s|
  {
    if s != [] { AsciiBytes(s[1..]); }
  }

  lemma MarkerWordsBytes()
    ensures Bytes(MarkerWords()) == 17
  {
    var words := MarkerWords();
    assert forall i :: 0 <= i < |words| ==> words[i] as int < 0x80;
    AsciiBytes(words);
  }

  lemma EnclosedBytes(digits: string, words: string)
    ensures Bytes(Enclosed(digits, words)) == Bytes(digits) + Bytes(words) + 6
  {
    BytesConcat([ELLIPSIS] + digits + words, [ELLIPSIS]);
    ThreePieces([ELLIPSIS], digits, words);
    assert Bytes([ELLIPSIS]) == 3 by { assert [ELLIPSIS][1..] == []; }
  }

  lemma Power10Values()
    ensures Power10(20) == 1_0000_0000_0000_0000_0000
  {
    assert Power10(5) == 10_0000;
    assert Power10(10) == 100_0000_0000;
    assert Power10(15) == 1000_0000_0000_0000;
  }

  // Two ellipses of three bytes, seventeen letters and blanks, at most twenty digits.
  lemma MarkerBytes(removed: nat)
    requires removed <= U64_MAX
    ensures Bytes(Marker(removed)) <= 43
  {
    var digits := Toml.Decimal(RoundedUp(removed));
    Power10Values();
    DecimalWidth(RoundedUp(removed), 20);
    assert forall i :: 0 <= i < |digits| ==> Toml.IsDigit(digits[i]);
    AsciiBytes(digits);
    MarkerWordsBytes();
    EnclosedBytes(digits, MarkerWords());
  }

  lemma ThreePieces(head: string, marker: string, tail: string)
    ensures Bytes(head + marker + tail) == Bytes(head) + Bytes(marker) + Bytes(tail)
  {
    BytesConcat(head + marker, tail);
    BytesConcat(head, marker);
  }

  lemma HeadFits(s: string, left: nat)
    ensures Bytes(s[..PrefixChars(s, left)]) <= left
  {
    PrefixCharsIsLongest(s, left, PrefixChars(s, left));
  }

  lemma TailFits(s: string, left: nat, right: nat)
    ensures Bytes(s[TailStart(s, left, right)..]) <= right
  {
    var rest := s[PrefixChars(s, left)..];
    var n := SuffixChars(rest, right);
    SuffixCharsIsLongest(rest, right, n);
    assert rest[|rest| - n..] == s[TailStart(s, left, right)..];
  }

  lemma AssembledBytes(s: string, left: nat, right: nat, marker: string)
    ensures Bytes(Assembled(s, left, right, marker)) <= left + Bytes(marker) + right
  {
    HeadFits(s, left);
    TailFits(s, left, right);
    ThreePieces(s[..PrefixChars(s, left)], marker, s[TailStart(s, left, right)..]);
  }

  lemma CutBytes(s: string, maxTokens: nat)
    requires 0 < maxTokens && 4 * maxTokens < Bytes(s) <= U64_MAX
    ensures Bytes(Truncated(s, maxTokens)) <= 4 * maxTokens + 43
  {
    var removed := Bytes(s) - 4 * maxTokens;
    MarkerBytes(removed);
    AssembledBytes(s, 2 * maxTokens, 2 * maxTokens, Marker(removed));
  }

  lemma TruncatedBytes(s: string, maxTokens: nat)
    requires Bytes(s) <= U64_MAX
    ensures Bytes(Truncated(s, maxTokens)) <= 4 * maxTokens + 43
  {
    if maxTokens == 0 {
      MarkerBytes(Bytes(s));
    } else if Bytes(s) > 4 * maxTokens {
      CutBytes(s, maxTokens);
    }
  }

  // A cut text costs at most its budget plus the marker's eleven tokens.
  lemma TruncatedCost(s: string, maxTokens: nat)
    requires Bytes(s) <= U64_MAX
    ensures Tokens(Truncated(s, maxTokens)) <= maxTokens + 11
  {
    TruncatedBytes(s, maxTokens);
  }

  lemma TruncatedNonEmpty(s: string, maxTokens: nat)
    ensures Truncated(s, maxTokens) == "" <==> s == ""
  {
    if s != "" { assert Bytes(s) > 0; }
  }

  // A text without the marker's ellipsis begins a cut text only if it began the whole.
  lemma TruncatedKeepsPrefix(s: string, maxTokens: nat, prefix: string)
    requires ELLIPSIS !in prefix
    requires prefix <= Truncated(s, maxTokens)
    ensures prefix <= s
  {
    if Bytes(s) > 4 * maxTokens {
      var head := if maxTokens == 0 then [] else s[..PrefixChars(s, 2 * maxTokens)];
      var t := Truncated(s, maxTokens);
      assert t[|head|] == ELLIPSIS;
      assert |prefix| <= |head|;
      assert prefix == t[..|prefix|] == head[..|prefix|] == s[..|prefix|];
    }
  }

  // The longest prefix within so many bytes.
  ghost predicate LongestHead(s: string, bytes: nat, head: string) {
    head <= s && Bytes(head) <= bytes && (|head| < |s| ==> Bytes(s[..|head| + 1]) > bytes)
  }

  ghost predicate LongestTail(s: string, bytes: nat, tail: string) {
    && |tail| <= |s| && tail == s[|s| - |tail|..] && Bytes(tail) <= bytes
    && (|tail| < |s| ==> Bytes(s[|s| - |tail| - 1..]) > bytes)
  }

  lemma HeadIsLongest(s: string, bytes: nat)
    ensures LongestHead(s, bytes, HeadOf(s, bytes))
  {
    var n := PrefixChars(s, bytes);
    PrefixCharsIsLongest(s, bytes, n);
    if n < |s| { PrefixCharsIsLongest(s, bytes, n + 1); }
  }

  lemma TailIsLongest(s: string, bytes: nat)
    ensures LongestTail(s, bytes, TailOf(s, bytes))
  {
    var n := SuffixChars(s, bytes);
    SuffixCharsIsLongest(s, bytes, n);
    if n < |s| { SuffixCharsIsLongest(s, bytes, n + 1); }
  }

  function Spelled(digits: string): string { "\U{2026}" + digits + " tokens truncated" + "\U{2026}" }

  // The decimal text of the tokens, rounded up, that so many bytes would cost.
  ghost predicate Counts(digits: string, removed: nat) {
    && (forall i :: 0 <= i < |digits| ==> Toml.IsDigit(digits[i]))
    && removed <= 4 * Toml.Digits(digits) < removed + 4
  }

  lemma MarkerPrints(removed: nat) returns (digits: string)
    ensures Marker(removed) == Spelled(digits) && Counts(digits, removed)
  {
    digits := Toml.Decimal(RoundedUp(removed));
    Toml.DigitsOfDecimal(RoundedUp(removed));
    assert forall i :: 0 <= i < |digits| ==> Toml.IsDigit(digits[i]);
  }

  function HeadOf(s: string, bytes: nat): string { s[..PrefixChars(s, bytes)] }

  function TailOf(s: string, bytes: nat): string { s[|s| - SuffixChars(s, bytes)..] }

  lemma SliceOfSlice(s: string, p: nat, k: nat)
    requires p <= k <= |s|
    ensures s[p..][k - p..] == s[k..]
  {
  }

  lemma TailStartsThere(s: string, bytes: nat)
    ensures TailOf(s[PrefixChars(s, bytes)..], bytes) == s[TailStart(s, bytes, bytes)..]
  {
    SliceOfSlice(s, PrefixChars(s, bytes), TailStart(s, bytes, bytes));
  }

  lemma AssembledEnds(s: string, bytes: nat, middle: string)
    ensures Assembled(s, bytes, bytes, middle) ==
            HeadOf(s, bytes) + middle + TailOf(s[|HeadOf(s, bytes)|..], bytes)
  {
    TailStartsThere(s, bytes);
    assert |HeadOf(s, bytes)| == PrefixChars(s, bytes);
  }

  lemma NoBytesNoEnds(s: string)
    ensures HeadOf(s, 0) == [] && TailOf(s, 0) == []
  {
  }

  lemma TruncatedForm(s: string, maxTokens: nat, marker: string)
    requires Bytes(s) > 4 * maxTokens && marker == Marker(Bytes(s) - 4 * maxTokens)
    ensures Truncated(s, maxTokens) ==
            if maxTokens == 0 then marker else Assembled(s, 2 * maxTokens, 2 * maxTokens, marker)
  {
  }

  // A text within its token budget stays as it is.
  lemma TruncatedFits(s: string, maxTokens: nat)
    ensures Bytes(s) <= 4 * maxTokens <==> Tokens(s) <= maxTokens
    ensures Bytes(s) <= 4 * maxTokens ==> Truncated(s, maxTokens) == s
  {
  }

  /** What is left of a longer text: the longest head and, of what remains, the longest tail within two bytes a token
      each, around a marker that prints how many tokens the bytes beyond the budget would have cost. */
  lemma TruncatedExactly(s: string, maxTokens: nat) returns (head: string, digits: string, tail: string)
    requires Bytes(s) > 4 * maxTokens
    ensures Truncated(s, maxTokens) == head + Spelled(digits) + tail && Counts(digits, Bytes(s) - 4 * maxTokens)
    ensures LongestHead(s, 2 * maxTokens, head) && LongestTail(s[|head|..], 2 * maxTokens, tail)
  {
    digits := MarkerPrints(Bytes(s) - 4 * maxTokens);
    var marker := Marker(Bytes(s) - 4 * maxTokens);
    head := HeadOf(s, 2 * maxTokens);
    tail := TailOf(s[|head|..], 2 * maxTokens);
    TruncatedForm(s, maxTokens, marker);
    if maxTokens == 0 {
      NoBytesNoEnds(s);
      NoBytesNoEnds(s[|head|..]);
    } else {
      AssembledEnds(s, 2 * maxTokens, marker);
    }
    HeadIsLongest(s, 2 * maxTokens);
    TailIsLongest(s[|head|..], 2 * maxTokens);
    JoinPieces(Truncated(s, maxTokens), head, marker, tail, Spelled(digits));
  }

  lemma JoinPieces(whole: string, head: string, marker: string, tail: string, spelled: string)
    requires marker == spelled && (whole == head + marker + tail || (head == [] && tail == [] && whole == marker))
    ensures whole == head + spelled + tail
  {
  }
}
