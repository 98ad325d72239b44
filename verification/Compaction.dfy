/**
 * Building the history that replaces a compacted one
 * (codex-rs/core/src/compact.rs, compact_remote.rs, compact_remote_v2.rs).
 */
module Compaction {
  import opened Prelude
  import opened Truncation
  import opened Budget

  datatype ContentItem =
    | InputText(text: string)
    | OutputText(text: string)
    | InputImage(imageUrl: string)

  // `Activity` stands for reasoning, calls, call outputs, searches and unknown
  // items: every function here treats them alike.
  datatype Item =
    | Message(id: Option<string>, role: string, content: seq<ContentItem>, phase: Option<string>)
    | Compaction(encrypted: string)
    | ContextCompaction(encryptedContext: Option<string>)
    | CompactionTrigger
    | Activity(payload: string)

  const RETAINED_MESSAGE_TOKEN_BUDGET: nat := 64_000
  const COMPACT_USER_MESSAGE_MAX_TOKENS: nat := 20_000
  const MARKER_TOKENS: nat := 11

  // `parse_user_message`: the text of a user message, or nothing when its content
  // is context that the program wrote itself.
  type Reader = seq<ContentItem> -> Option<string>

  function UserText(item: Item, read: Reader): Option<string> {
    if item.Message? && item.role == "user" then read(item.content) else None
  }

  predicate IsCompaction(item: Item) { item.Compaction? || item.ContextCompaction? }

  predicate IsUser(item: Item, read: Reader) { UserText(item, read).Some? }

  predicate IsSummary(message: string, prefix: string) { prefix + "\n" <= message }

  predicate IsRealUser(item: Item, read: Reader, prefix: string) {
    IsUser(item, read) && !IsSummary(UserText(item, read).value, prefix)
  }

  // ---------------------------------------------------------------------------
  // Cutting one message
  // ---------------------------------------------------------------------------

  function ContentTokens(content: seq<ContentItem>): nat {
    if content == [] then 0
    else (if content[0].InputImage? then 0 else Tokens(content[0].text)) + ContentTokens(content[1..])
  }

  function ItemTokens(item: Item): nat { if item.Message? then ContentTokens(item.content) else 0 }

  // What an item counts for: an image or an empty text is not free.
  function Charge(item: Item): nat { if ItemTokens(item) < 1 then 1 else ItemTokens(item) }

  function CutText(c: ContentItem, budget: nat): ContentItem {
    if c.InputImage? then c else c.(text := Truncated(c.text, budget))
  }

  function TextTokens(c: ContentItem): nat { if c.InputImage? then 0 else Tokens(c.text) }

  predicate IsWord(c: ContentItem) { !c.InputImage? && c.text != "" }

  predicate IsImage(c: ContentItem) { c.InputImage? }

  // What is kept of one content item, and the budget left after it.
  function Piece(c: ContentItem, remaining: nat): seq<ContentItem> {
    if c.InputImage? then [c]
    else if remaining == 0 || c.text == "" then []
    else if Tokens(c.text) <= remaining then [c]
    else [CutText(c, remaining)]
  }

  function Left(c: ContentItem, remaining: nat): nat {
    if TextTokens(c) <= remaining then remaining - TextTokens(c) else 0
  }

  function CutContent(content: seq<ContentItem>, remaining: nat): seq<ContentItem> {
    if content == [] then []
    else Piece(content[0], remaining) + CutContent(content[1..], Left(content[0], remaining))
  }

  function CutMessage(item: Item, budget: nat): Option<Item> {
    if !item.Message? then Some(item)
    else
      var content := CutContent(item.content, budget);
      if content == [] then None else Some(item.(content := content))
  }

  function Cut(item: Item, budget: nat): Item {
    var r := CutMessage(item, budget);
    if r.Some? then r.value else item
  }

  method TruncateContent(content: seq<ContentItem>, maxTokens: nat) returns (truncated: seq<ContentItem>)
    ensures truncated == CutContent(content, maxTokens)
  {
    var remaining: nat := maxTokens;
    truncated := [];
    for i := 0 to |content|
      invariant truncated + CutContent(content[i..], remaining) == CutContent(content, maxTokens)
    {
      var c := content[i];
      ghost var before, left := truncated, remaining;
      CutContentStep(before, content, i, left);
      if c.InputImage? {
        truncated := truncated + [c];
      } else if remaining > 0 {
        if Tokens(c.text) <= remaining {
          remaining := remaining - Tokens(c.text);
        } else {
          TruncatedNonEmpty(c.text, remaining);
          EmptyIsFree(c.text);
          var text := TruncateText(c.text, remaining);
          c := c.(text := text);
          remaining := 0;
        }
        if c.text != "" { truncated := truncated + [c]; }
      }
      assert remaining == Left(content[i], left);
      assert truncated == before + Piece(content[i], left);
    }
    assert content[|content|..] == [];
  }

  lemma CutContentStep(before: seq<ContentItem>, content: seq<ContentItem>, i: nat, left: nat)
    requires i < |content|
    ensures before + CutContent(content[i..], left) ==
            before + Piece(content[i], left) + CutContent(content[i + 1..], Left(content[i], left))
  {
    assert content[i..][1..] == content[i + 1..];
  }

  method TruncateMessageText(item: Item, maxTokens: nat) returns (out: Option<Item>)
    ensures out == CutMessage(item, maxTokens)
  {
    if !item.Message? { return Some(item); }
    var truncated := TruncateContent(item.content, maxTokens);
    if truncated == [] { return None; }
    return Some(item.(content := truncated));
  }

  lemma EmptyIsFree(s: string)
    ensures Tokens(s) == 0 <==> s == ""
  {
    if s != "" { assert Bytes(s) > 0; }
  }

  // A message too long for a positive budget never vanishes: the source's `None`
  // branch, which would leave the budget as it was, is not taken.
  lemma {:induction false} CutLeavesSomething(content: seq<ContentItem>, remaining: nat)
    requires 0 < remaining < ContentTokens(content)
    ensures CutContent(content, remaining) != []
  {
    var c, rest := content[0], content[1..];
    if !c.InputImage? {
      EmptyIsFree(c.text);
      if c.text == "" { CutLeavesSomething(rest, remaining); }
    }
  }

  // Images all stay, in order.
  lemma {:induction false} CutKeepsImages(content: seq<ContentItem>, remaining: nat)
    ensures Filter(CutContent(content, remaining), IsImage) == Filter(content, IsImage)
  {
    if content != [] {
      var c, rest := content[0], content[1..];
      var left := Left(c, remaining);
      CutKeepsImages(rest, left);
      var out, tail := CutContent(content, remaining), CutContent(rest, left);
      if out != tail { assert out[1..] == tail; }
    }
  }

  // With nothing left only images survive.
  lemma {:induction false} CutToNothing(content: seq<ContentItem>)
    ensures Filter(CutContent(content, 0), IsWord) == []
    ensures ContentTokens(CutContent(content, 0)) == 0
  {
    if content != [] {
      CutToNothing(content[1..]);
      var tail := CutContent(content[1..], 0);
      if content[0].InputImage? {
        assert CutContent(content, 0) == [content[0]] + tail;
        assert ([content[0]] + tail)[1..] == tail;
      } else {
        assert CutContent(content, 0) == tail;
      }
    }
  }

  lemma FilterCons(c: ContentItem, rest: seq<ContentItem>)
    ensures Filter([c] + rest, IsWord) == (if IsWord(c) then [c] else []) + Filter(rest, IsWord)
  {
    assert ([c] + rest)[1..] == rest;
  }

  lemma CutCons(c: ContentItem, rest: seq<ContentItem>, remaining: nat)
    ensures CutContent([c] + rest, remaining) == Piece(c, remaining) + CutContent(rest, Left(c, remaining))
  {
    assert ([c] + rest)[1..] == rest;
  }

  lemma NonWordIsFree(c: ContentItem, remaining: nat)
    requires !IsWord(c)
    ensures Left(c, remaining) == remaining && Filter(Piece(c, remaining), IsWord) == []
  {
    if !c.InputImage? { EmptyIsFree(c.text); }
  }

  lemma NonWordPassedOver(c: ContentItem, rest: seq<ContentItem>, remaining: nat)
    requires !IsWord(c)
    ensures Filter(CutContent([c] + rest, remaining), IsWord) == Filter(CutContent(rest, remaining), IsWord)
  {
    NonWordIsFree(c, remaining);
    CutCons(c, rest, remaining);
    FilterConcat(Piece(c, remaining), CutContent(rest, remaining), IsWord);
  }

  lemma WordTaken(c: ContentItem, rest: seq<ContentItem>, remaining: nat)
    requires IsWord(c)
    ensures Filter(CutContent([c] + rest, remaining), IsWord) ==
            if remaining == 0 then []
            else if Tokens(c.text) > remaining then [CutText(c, remaining)]
            else [c] + Filter(CutContent(rest, remaining - Tokens(c.text)), IsWord)
  {
    assert ([c] + rest)[1..] == rest;
    if remaining == 0 {
      CutToNothing([c] + rest);
    } else if Tokens(c.text) > remaining {
      CutToNothing(rest);
      TruncatedNonEmpty(c.text, remaining);
      FilterCons(CutText(c, remaining), CutContent(rest, 0));
    } else {
      FilterCons(c, CutContent(rest, remaining - Tokens(c.text)));
    }
  }

  // Within a message the oldest texts win, by the mirror image of the rule that
  // picks the newest messages.
  lemma {:induction false} CutMirrorsSelection(content: seq<ContentItem>, remaining: nat)
    ensures Reversed(Filter(CutContent(content, remaining), IsWord)) ==
            Selected(Reversed(Filter(content, IsWord)), remaining, TextTokens, CutText)
  {
    if content == [] {
      SelectedFromNothing(remaining, TextTokens, CutText);
    } else {
      var c, rest := content[0], content[1..];
      assert content == [c] + rest;
      FilterCons(c, rest);
      if IsWord(c) {
        var left := Left(c, remaining);
        CutMirrorsSelection(rest, left);
        WordTaken(c, rest, remaining);
        ReversedCons(c, Filter(rest, IsWord));
        WordIsNewest(c, Reversed(Filter(rest, IsWord)), remaining);
        ReversedCons(c, Filter(CutContent(rest, left), IsWord));
        assert Reversed([CutText(c, remaining)]) == [CutText(c, remaining)];
      } else {
        CutMirrorsSelection(rest, remaining);
        NonWordPassedOver(c, rest, remaining);
      }
    }
  }

  lemma WordIsNewest(c: ContentItem, words: seq<ContentItem>, remaining: nat)
    requires IsWord(c)
    ensures Selected(words + [c], remaining, TextTokens, CutText) ==
            if remaining == 0 then []
            else if Tokens(c.text) > remaining then [CutText(c, remaining)]
            else Selected(words, remaining - Tokens(c.text), TextTokens, CutText) + [c]
  {
    var all := words + [c];
    assert all[..|all| - 1] == words;
    SelectedFromNewest(all, remaining, TextTokens, CutText);
  }

  // Cutting a message changes its content alone; one with nothing left is none, and other items are not cut.
  lemma CutMessageExactly(item: Item, budget: nat)
    ensures !item.Message? ==> CutMessage(item, budget) == Some(item)
    ensures item.Message? && CutContent(item.content, budget) == [] ==> CutMessage(item, budget) == None
    ensures item.Message? && CutContent(item.content, budget) != [] ==>
      CutMessage(item, budget) == Some(Message(item.id, item.role, CutContent(item.content, budget), item.phase))
  {
  }

  // What one part of a message costs: a text its bytes over four, rounded up, an image nothing.
  lemma PartCost(text: string, url: string)
    ensures ContentTokens([InputText(text)]) == ContentTokens([OutputText(text)])
    ensures Bytes(text) <= 4 * ContentTokens([InputText(text)]) < Bytes(text) + 4
    ensures ContentTokens([InputImage(url)]) == 0
  {
    assert [InputText(text)][1..] == [] && [OutputText(text)][1..] == [] && [InputImage(url)][1..] == [];
  }

  // What an item is charged: its texts, at least one.
  lemma ChargeExactly(item: Item)
    ensures Charge(item) ==
            if item.Message? && ContentTokens(item.content) > 1 then ContentTokens(item.content) else 1
  {
  }

  // What is left of one part: an image stays, a text is kept, cut or dropped.
  lemma CutOnePart(text: string, url: string, remaining: nat)
    ensures CutContent([InputImage(url)], remaining) == [InputImage(url)]
    ensures text == "" || remaining == 0 ==>
      CutContent([InputText(text)], remaining) == CutContent([OutputText(text)], remaining) == []
    ensures text != "" && remaining > 0 ==>
      && CutContent([InputText(text)], remaining) == [InputText(Truncated(text, remaining))]
      && CutContent([OutputText(text)], remaining) == [OutputText(Truncated(text, remaining))]
  {
    TruncatedFits(text, remaining);
    assert [InputText(text)][1..] == [] && [OutputText(text)][1..] == [] && [InputImage(url)][1..] == [];
  }

  // The budget after some parts.
  function Remaining(content: seq<ContentItem>, budget: nat): nat {
    if ContentTokens(content) <= budget then budget - ContentTokens(content) else 0
  }

  lemma RemainingStep(c: ContentItem, rest: seq<ContentItem>, budget: nat)
    ensures Remaining([c] + rest, budget) == Remaining(rest, Left(c, budget))
  {
    assert ([c] + rest)[1..] == rest;
  }

  /** Parts are cut in turn, each with the budget that those before it leave; with `CutOnePart` this says what is
      left of any message. */
  lemma {:induction false} CutInTurn(a: seq<ContentItem>, b: seq<ContentItem>, budget: nat)
    ensures CutContent(a + b, budget) == CutContent(a, budget) + CutContent(b, Remaining(a, budget))
  {
    if a == [] {
      assert a + b == b;
    } else {
      var c, rest := a[0], a[1..];
      assert a == [c] + rest && a + b == [c] + (rest + b);
      CutCons(c, rest + b, budget);
      CutCons(c, rest, budget);
      RemainingStep(c, rest, budget);
      CutInTurn(rest, b, Left(c, budget));
    }
  }

  // A string's byte length fits the counter the marker prints.
  predicate Countable(c: ContentItem) { c.InputImage? || Bytes(c.text) <= U64_MAX }

  lemma {:induction false} ContentTokensConcat(a: seq<ContentItem>, b: seq<ContentItem>)
    ensures ContentTokens(a + b) == ContentTokens(a) + ContentTokens(b)
  {
    if a == [] {
      assert a + b == b;
    } else {
      assert (a + b)[1..] == a[1..] + b;
      ContentTokensConcat(a[1..], b);
    }
  }

  // What one content item leaves behind never costs more than the budget it used,
  // but for the marker of the one that was cut.
  lemma PieceCost(c: ContentItem, remaining: nat)
    requires Countable(c)
    ensures ContentTokens(Piece(c, remaining)) <=
            remaining - Left(c, remaining) + (if TextTokens(c) > remaining > 0 then MARKER_TOKENS else 0)
  {
    if IsWord(c) && Tokens(c.text) > remaining > 0 {
      TruncatedCost(c.text, remaining);
      assert Piece(c, remaining)[1..] == [];
    } else if Piece(c, remaining) != [] {
      assert Piece(c, remaining)[1..] == [];
    }
  }

  lemma {:induction false} CutCost(content: seq<ContentItem>, remaining: nat)
    requires forall c :: c in content ==> Countable(c)
    ensures ContentTokens(CutContent(content, remaining)) <= remaining + MARKER_TOKENS
  {
    if content != [] {
      var c, rest := content[0], content[1..];
      assert content == [c] + rest;
      CutCons(c, rest, remaining);
      ContentTokensConcat(Piece(c, remaining), CutContent(rest, Left(c, remaining)));
      PieceCost(c, remaining);
      if Left(c, remaining) == 0 { CutToNothing(rest); } else { CutCost(rest, Left(c, remaining)); }
    }
  }

  // ---------------------------------------------------------------------------
  // The messages that remote compaction retains
  // ---------------------------------------------------------------------------

  lemma TooLongIsCut(item: Item, remaining: nat)
    requires 0 < remaining < Charge(item)
    ensures item.Message? && CutMessage(item, remaining) == Some(Cut(item, remaining))
    ensures Cut(item, remaining) == item.(content := CutContent(item.content, remaining))
  {
    CutLeavesSomething(item.content, remaining);
  }

  // One turn of the loop below, on values: `more` is what it pushes, if anything.
  ghost predicate Turn(item: Item, remaining: nat, more: seq<Item>, left: nat) {
    if remaining == 0 then more == [] && left == 0
    else if Charge(item) <= remaining then more == [item] && left == remaining - Charge(item)
    else more == [Cut(item, remaining)] && left == 0
  }

  // What is still to be retained of the first `i` items, followed by what was chosen newest first.
  ghost function Prospect(items: seq<Item>, i: nat, remaining: nat, chosen: seq<Item>): seq<Item>
    requires i <= |items|
  {
    Selected(items[..i], remaining, Charge, Cut) + Reversed(chosen)
  }

  lemma TurnKeepsProspect(items: seq<Item>, i: nat, remaining: nat, chosen: seq<Item>, more: seq<Item>, left: nat)
    requires i < |items| && Turn(items[i], remaining, more, left)
    ensures Prospect(items, i, left, chosen + more) == Prospect(items, i + 1, remaining, chosen)
  {
    StepNothing(items[..i], Charge, Cut);
    if remaining == 0 {
      StepNothing(items[..i + 1], Charge, Cut);
      assert chosen + more == chosen;
    } else if Charge(items[i]) <= remaining {
      StepWhole(items, i, remaining, chosen, Charge, Cut);
    } else {
      StepPart(items, i, remaining, chosen, Charge, Cut);
    }
  }

  lemma ProspectStarts(items: seq<Item>, maxTokens: nat)
    ensures Prospect(items, |items|, maxTokens, []) == Selected(items, maxTokens, Charge, Cut)
  {
    assert items[..|items|] == items;
  }

  lemma ProspectEnds(items: seq<Item>, remaining: nat, chosen: seq<Item>)
    ensures Prospect(items, 0, remaining, chosen) == Reversed(chosen)
  {
    assert items[..0] == [];
    SelectedFromNothing(remaining, Charge, Cut);
  }

  method TruncateRetainedMessages(items: seq<Item>, maxTokens: nat) returns (out: seq<Item>)
    ensures out == Selected(items, maxTokens, Charge, Cut)
  {
    var remaining: nat := maxTokens;
    var reversed: seq<Item> := [];
    ghost var goal := Selected(items, maxTokens, Charge, Cut);
    ProspectStarts(items, maxTokens);
    for i := |items| downto 0
      invariant Prospect(items, i, remaining, reversed) == goal
    {
      ghost var before, more, was := reversed, [], remaining;
      if remaining > 0 {
        var item := items[i];
        var tokenCount := Charge(item);
        if tokenCount <= remaining {
          reversed, more := reversed + [item], [item];
          remaining := remaining - tokenCount;
        } else {
          TooLongIsCut(item, remaining);
          var truncated := TruncateMessageText(item, remaining);
          if truncated.Some? {
            reversed, more := reversed + [truncated.value], [truncated.value];
            remaining := 0;
          }
        }
      }
      assert reversed == before + more;
      TurnKeepsProspect(items, i, was, before, more, remaining);
    }
    ProspectEnds(items, remaining, reversed);
    out := Reversed(reversed);
  }

  /**
   * What retention promises, without saying how it is found: the newest `m`
   * messages stay as they are and their charges fit the budget. If there are older
   * ones the budget is used up, or else the next one was too long for the rest of
   * it and stands in front, cut to exactly that rest.
   */
  ghost predicate Retention(items: seq<Item>, budget: nat, m: nat, kept: seq<Item>) {
    m <= |items| &&
    var left := budget - Charges(Newest(items, m), Charge);
    left >= 0 &&
    if m == |items| || left == 0 then kept == Newest(items, m)
    else
      var next := items[|items| - m - 1];
      next.Message? && left < Charge(next) && CutContent(next.content, left) != [] &&
      kept == [next.(content := CutContent(next.content, left))] + Newest(items, m)
  }

  lemma ChargesOfOneMore(items: seq<Item>, m: nat)
    requires m < |items|
    ensures Charges(Newest(items, m + 1), Charge) ==
            Charge(items[|items| - m - 1]) + Charges(Newest(items, m), Charge)
  {
    var next := items[|items| - m - 1];
    assert Newest(items, m + 1) == [next] + Newest(items, m);
    ChargesConcat([next], Newest(items, m), Charge);
  }

  lemma RetentionNext(items: seq<Item>, budget: nat, m: nat)
    requires m == Kept(items, budget, Charge) < |items|
    ensures Retention(items, budget, m, Selected(items, budget, Charge, Cut))
  {
    DroppedMeansSpent(items, budget, Charge, Cut);
    var left := budget - Charges(Newest(items, m), Charge);
    if left > 0 {
      var next := items[|items| - m - 1];
      TooLongIsCut(next, left);
      CutLeavesSomething(next.content, left);
    }
  }

  lemma RetentionCount(items: seq<Item>, budget: nat, m: nat, kept: seq<Item>)
    requires Retention(items, budget, m, kept)
    ensures m == Kept(items, budget, Charge)
  {
    if m > 0 {
      KeptExactly(items, budget, Charge, m);
      ChargesOfOneMore(items, m - 1);
    }
    if m < |items| {
      KeptExactly(items, budget, Charge, m + 1);
      ChargesOfOneMore(items, m);
    }
  }

  // The promise has exactly one outcome, and it is what the loop computes.
  lemma RetainedShape(items: seq<Item>, budget: nat, m: nat, kept: seq<Item>)
    ensures Retention(items, budget, m, kept) <==>
            m == Kept(items, budget, Charge) && kept == Selected(items, budget, Charge, Cut)
  {
    var n := Kept(items, budget, Charge);
    if n < |items| {
      RetentionNext(items, budget, n);
    } else {
      KeptWithinBudget(items, budget, Charge);
      assert Retention(items, budget, n, Selected(items, budget, Charge, Cut));
    }
    if Retention(items, budget, m, kept) { RetentionCount(items, budget, m, kept); }
  }

  ghost predicate AllCountable(item: Item) {
    item.Message? ==> forall c :: c in item.content ==> Countable(c)
  }

  // At most `budget` messages, and at most one marker more than `budget` tokens.
  lemma RetainedCost(items: seq<Item>, budget: nat)
    requires forall x :: x in items ==> AllCountable(x)
    ensures |Selected(items, budget, Charge, Cut)| <= budget
    ensures Charges(Selected(items, budget, Charge, Cut), ItemTokens) <= budget + MARKER_TOKENS
  {
    SelectedCount(items, budget, Charge, Cut);
    forall x, left: nat | x in items && 0 < left < Charge(x) ensures ItemTokens(Cut(x, left)) <= left + MARKER_TOKENS {
      assert AllCountable(x);
      CutItemCost(x, left);
    }
    SelectedCost(items, budget, Charge, Cut, ItemTokens, MARKER_TOKENS);
  }

  lemma CutItemCost(item: Item, left: nat)
    requires AllCountable(item) && 0 < left < Charge(item)
    ensures ItemTokens(Cut(item, left)) <= left + MARKER_TOKENS
  {
    TooLongIsCut(item, left);
    CutCost(item.content, left);
  }
}
