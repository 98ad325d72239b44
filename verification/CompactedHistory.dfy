/**
 * Installing a compacted history: which items survive, where fresh context goes,
 * and what the next compaction will find
 * (codex-rs/core/src/compact.rs, compact_remote.rs, compact_remote_v2.rs).
 */
module CompactedHistory {
  import opened Prelude
  import opened Truncation
  import opened Budget
  import opened Compaction

  // ---------------------------------------------------------------------------
  // Where initial context is inserted
  // ---------------------------------------------------------------------------

  ghost predicate LastAt<T>(xs: seq<T>, test: T -> bool, found: Option<nat>) {
    match found
    case Some(i) => i < |xs| && test(xs[i]) && forall j :: i < j < |xs| ==> !test(xs[j])
    case None => forall j :: 0 <= j < |xs| ==> !test(xs[j])
  }

  function LastIndex<T>(xs: seq<T>, test: T -> bool): (found: Option<nat>)
    ensures LastAt(xs, test, found)
  {
    if xs == [] then None
    else if test(xs[|xs| - 1]) then Some(|xs| - 1)
    else LastIndex(xs[..|xs| - 1], test)
  }

  lemma LastAtUnique<T>(xs: seq<T>, test: T -> bool, found: Option<nat>)
    requires LastAt(xs, test, found)
    ensures found == LastIndex(xs, test)
  {
    var other := LastIndex(xs, test);
    if found.Some? { assert test(xs[found.value]); }
    if other.Some? { assert test(xs[other.value]); }
  }

  function RealUserTest(read: Reader, prefix: string): Item -> bool { x => IsRealUser(x, read, prefix) }

  function UserTest(read: Reader): Item -> bool { x => IsUser(x, read) }

  // Before the last real user message, else before the last summary, else before
  // the last compaction item, else at the end.
  function InsertionPoint(history: seq<Item>, read: Reader, prefix: string): (at: nat)
    ensures at <= |history|
  {
    var genuine := LastIndex(history, RealUserTest(read, prefix));
    var any := LastIndex(history, UserTest(read));
    var compaction := LastIndex(history, IsCompaction);
    if genuine.Some? then genuine.value
    else if any.Some? then any.value
    else if compaction.Some? then compaction.value
    else |history|
  }

  function Inserted(history: seq<Item>, context: seq<Item>, read: Reader, prefix: string): seq<Item> {
    var at := InsertionPoint(history, read, prefix);
    history[..at] + context + history[at..]
  }

  method LastUsers(history: seq<Item>, read: Reader, prefix: string)
    returns (genuine: Option<nat>, any: Option<nat>)
    ensures genuine == LastIndex(history, RealUserTest(read, prefix))
    ensures genuine.None? ==> any == LastIndex(history, UserTest(read))
  {
    genuine, any := None, None;
    var isReal, isUser := RealUserTest(read, prefix), UserTest(read);
    for i := |history| downto 0
      invariant genuine == None
      invariant forall j :: i <= j < |history| ==> !isReal(history[j])
      invariant any.None? ==> forall j :: i <= j < |history| ==> !isUser(history[j])
      invariant any.Some? ==> i <= any.value && LastAt(history, isUser, any)
    {
      var text := UserText(history[i], read);
      if text.Some? {
        if any.None? { any := Some(i); }
        if !IsSummary(text.value, prefix) {
          genuine := Some(i);
          LastAtUnique(history, isReal, genuine);
          return;
        }
      }
    }
    LastAtUnique(history, isReal, genuine);
    LastAtUnique(history, isUser, any);
  }

  method LastCompaction(history: seq<Item>) returns (last: Option<nat>)
    ensures last == LastIndex(history, IsCompaction)
  {
    last := None;
    for i := |history| downto 0
      invariant last == None
      invariant forall j :: i <= j < |history| ==> !IsCompaction(history[j])
    {
      if IsCompaction(history[i]) {
        last := Some(i);
        LastAtUnique(history, IsCompaction, last);
        return;
      }
    }
    LastAtUnique(history, IsCompaction, last);
  }

  method InsertInitialContext(history: seq<Item>, context: seq<Item>, read: Reader, prefix: string)
    returns (out: seq<Item>)
    ensures out == Inserted(history, context, read, prefix)
  {
    var genuine, any := LastUsers(history, read, prefix);
    var compaction := LastCompaction(history);
    var chosen := if genuine.Some? then genuine else if any.Some? then any else compaction;
    if chosen.Some? {
      out := history[..chosen.value] + context + history[chosen.value..];
    } else {
      out := history + context;
    }
  }

  // ---------------------------------------------------------------------------
  // Remote compaction
  // ---------------------------------------------------------------------------

  predicate IsRetainedV2(item: Item) {
    item.Message? && (item.role == "user" || item.role == "developer" || item.role == "system")
  }

  predicate ShouldKeep(item: Item, read: Reader) {
    match item
    case Message(_, role, _, _) =>
      if role == "developer" then false
      else if role == "user" then UserText(item, read).Some?
      else role == "assistant"
    case Compaction(_) => true
    case ContextCompaction(_) => true
    case CompactionTrigger => false
    case Activity(_) => false
  }

  // What survives in a compacted history: compaction items, the assistant's messages and what users wrote.
  lemma ShouldKeepExactly(item: Item, read: Reader)
    ensures ShouldKeep(item, read) <==>
            || item.Compaction? || item.ContextCompaction?
            || (item.Message? && item.role == "assistant")
            || (item.Message? && item.role == "user" && read(item.content).Some?)
  {
  }

  function KeepTest(read: Reader): Item -> bool { x => ShouldKeep(x, read) }

  // Of the three roles the first filter lets through the second leaves only what
  // users wrote.
  lemma {:induction false} OnlyUsersRetained(prompt: seq<Item>, read: Reader)
    ensures Filter(Filter(prompt, IsRetainedV2), KeepTest(read)) == Filter(prompt, UserTest(read))
  {
    if prompt != [] {
      OnlyUsersRetained(prompt[1..], read);
      var x, rest := prompt[0], Filter(prompt[1..], IsRetainedV2);
      if IsRetainedV2(x) { assert ([x] + rest)[1..] == rest; }
    }
  }

  function UserMessages(prompt: seq<Item>, read: Reader): seq<Item> { Filter(prompt, UserTest(read)) }

  function Retained(prompt: seq<Item>, read: Reader): seq<Item> {
    Selected(UserMessages(prompt, read), RETAINED_MESSAGE_TOKEN_BUDGET, Charge, Cut)
  }

  method BuildV2CompactedHistory(prompt: seq<Item>, output: Item, read: Reader) returns (out: seq<Item>)
    ensures out == Retained(prompt, read) + [output]
    ensures out == Selected(Filter(prompt, UserTest(read)), 64_000, Charge, Cut) + [output]
  {
    OnlyUsersRetained(prompt, read);
    var retained := Filter(Filter(prompt, IsRetainedV2), KeepTest(read));
    out := TruncateRetainedMessages(retained, RETAINED_MESSAGE_TOKEN_BUDGET);
    out := out + [output];
  }

  method ProcessCompactedHistory(history: seq<Item>, context: seq<Item>, read: Reader, prefix: string)
    returns (out: seq<Item>)
    ensures out == Inserted(Filter(history, KeepTest(read)), context, read, prefix)
  {
    var kept: seq<Item> := [];
    for i := 0 to |history|
      invariant kept == Filter(history[..i], KeepTest(read))
    {
      FilterSnoc(history, i, KeepTest(read));
      if ShouldKeep(history[i], read) { kept := kept + [history[i]]; }
    }
    assert history[..|history|] == history;
    out := InsertInitialContext(kept, context, read, prefix);
  }

  // The whole of a remote compaction: choose what to retain, add the new item,
  // filter once more, insert the context.
  function Installed(prompt: seq<Item>, output: Item, context: seq<Item>, read: Reader, prefix: string): seq<Item> {
    Inserted(Filter(Retained(prompt, read) + [output], KeepTest(read)), context, read, prefix)
  }

  method CompactRemotely(prompt: seq<Item>, output: Item, context: seq<Item>, read: Reader, prefix: string)
    returns (out: seq<Item>)
    ensures out == Installed(prompt, output, context, read, prefix)
  {
    var built := BuildV2CompactedHistory(prompt, output, read);
    out := ProcessCompactedHistory(built, context, read, prefix);
  }

  lemma UserMessagesAreUsers(prompt: seq<Item>, read: Reader)
    ensures forall x :: x in UserMessages(prompt, read) ==> IsUser(x, read)
  {
    FilterMembers(prompt, UserTest(read));
    forall x | x in UserMessages(prompt, read) ensures IsUser(x, read) { assert UserTest(read)(x); }
  }

  // Messages kept whole, and at most a cut user message before them.
  ghost predicate WholeButFirst(kept: seq<Item>, whole: seq<Item>) {
    kept == whole || (kept != [] && kept[0].Message? && kept[0].role == "user" && kept == [kept[0]] + whole)
  }

  lemma RetentionForm(users: seq<Item>, budget: nat, m: nat, kept: seq<Item>)
    requires Retention(users, budget, m, kept)
    requires forall x :: x in users ==> x.Message? && x.role == "user"
    ensures WholeButFirst(kept, Newest(users, m))
  {
    if m < |users| { assert users[|users| - m - 1] in users; }
  }

  lemma RetainedForm(prompt: seq<Item>, read: Reader)
    ensures var users := UserMessages(prompt, read);
            var whole := Newest(users, Kept(users, RETAINED_MESSAGE_TOKEN_BUDGET, Charge));
            (forall x :: x in whole ==> IsUser(x, read)) && WholeButFirst(Retained(prompt, read), whole)
  {
    var users := UserMessages(prompt, read);
    var m, kept := Kept(users, RETAINED_MESSAGE_TOKEN_BUDGET, Charge), Retained(prompt, read);
    RetainedShape(users, RETAINED_MESSAGE_TOKEN_BUDGET, m, kept);
    UserMessagesAreUsers(prompt, read);
    RetentionForm(users, RETAINED_MESSAGE_TOKEN_BUDGET, m, kept);
  }

  // A user message that was kept whole passes the second filter too; the cut one
  // passes if what is left of it still reads as a user's.
  lemma SecondFilter(prompt: seq<Item>, output: Item, read: Reader)
    requires IsCompaction(output)
    ensures var users := UserMessages(prompt, read);
            var whole := Newest(users, Kept(users, RETAINED_MESSAGE_TOKEN_BUDGET, Charge));
            var kept := Retained(prompt, read);
            Filter(kept + [output], KeepTest(read)) ==
            (if kept == whole || IsUser(kept[0], read) then kept else whole) + [output]
  {
    var users := UserMessages(prompt, read);
    var whole := Newest(users, Kept(users, RETAINED_MESSAGE_TOKEN_BUDGET, Charge));
    var kept := Retained(prompt, read);
    RetainedForm(prompt, read);
    FilterRetained(kept, whole, output, read);
  }

  lemma FilterRetained(kept: seq<Item>, whole: seq<Item>, output: Item, read: Reader)
    requires IsCompaction(output)
    requires forall x :: x in whole ==> IsUser(x, read)
    requires WholeButFirst(kept, whole)
    ensures Filter(kept + [output], KeepTest(read)) ==
            (if kept == whole || IsUser(kept[0], read) then kept else whole) + [output]
  {
    var keep := KeepTest(read);
    FilterAll(whole, keep);
    FilterConcat(kept, [output], keep);
    if kept != whole {
      FilterConcat([kept[0]], whole, keep);
    }
  }

  // Where the context lands, for any history.
  lemma ContextPlacement(history: seq<Item>, read: Reader, prefix: string)
    ensures var at := InsertionPoint(history, read, prefix);
            if exists x :: x in history && IsRealUser(x, read, prefix) then
              at < |history| && IsRealUser(history[at], read, prefix) &&
              forall x :: x in history[at + 1..] ==> !IsRealUser(x, read, prefix)
            else if exists x :: x in history && IsUser(x, read) then
              at < |history| && IsUser(history[at], read) && forall x :: x in history[at + 1..] ==> !IsUser(x, read)
            else if exists x :: x in history && IsCompaction(x) then
              at < |history| && IsCompaction(history[at]) && forall x :: x in history[at + 1..] ==> !IsCompaction(x)
            else at == |history|
  {
    LastMeans(history, RealUserTest(read, prefix));
    LastMeans(history, UserTest(read));
    LastMeans(history, IsCompaction);
  }

  lemma LastMeans<T>(xs: seq<T>, test: T -> bool)
    ensures var found := LastIndex(xs, test);
            if exists x :: x in xs && test(x) then
              found.Some? && test(xs[found.value]) && forall x :: x in xs[found.value + 1..] ==> !test(x)
            else found.None?
  {
    var found := LastIndex(xs, test);
    if found.Some? { assert xs[found.value] in xs; }
  }

  lemma CompactionHasPlace(history: seq<Item>, read: Reader, prefix: string)
    requires history != [] && IsCompaction(history[|history| - 1])
    ensures InsertionPoint(history, read, prefix) < |history|
  {
  }

  // The compaction item `output` is last, and there is no other.
  predicate EndsInOnly(history: seq<Item>, output: Item) {
    history != [] && history[|history| - 1] == output && Filter(history, IsCompaction) == [output]
  }

  /**
   * After remote compaction, for any earlier history and any injected context
   * without compaction items: the new compaction item is last and is the only one.
   */
  lemma CompactionIsLastAndOnly(prompt: seq<Item>, output: Item, context: seq<Item>, read: Reader, prefix: string)
    requires IsCompaction(output)
    requires forall x :: x in context ==> !IsCompaction(x)
    ensures EndsInOnly(Installed(prompt, output, context, read, prefix), output)
  {
    SurvivorsAreMessages(prompt, output, read);
    var older := Filter(Retained(prompt, read), KeepTest(read));
    InsertedKeepsCompaction(older, output, context, read, prefix);
    assert Installed(prompt, output, context, read, prefix) == Inserted(older + [output], context, read, prefix);
  }

  lemma SurvivorsAreMessages(prompt: seq<Item>, output: Item, read: Reader)
    requires IsCompaction(output)
    ensures Filter(Retained(prompt, read) + [output], KeepTest(read)) ==
            Filter(Retained(prompt, read), KeepTest(read)) + [output]
    ensures forall x :: x in Filter(Retained(prompt, read), KeepTest(read)) ==> x.Message?
  {
    RetainedForm(prompt, read);
    FilterOfMessages(Retained(prompt, read), output, read);
  }

  lemma FilterOfMessages(kept: seq<Item>, output: Item, read: Reader)
    requires IsCompaction(output) && forall x :: x in kept ==> x.Message?
    ensures Filter(kept + [output], KeepTest(read)) == Filter(kept, KeepTest(read)) + [output]
    ensures forall x :: x in Filter(kept, KeepTest(read)) ==> x.Message?
  {
    FilterConcat(kept, [output], KeepTest(read));
    FilterMembers(kept, KeepTest(read));
  }

  lemma InsertedKeepsCompaction(older: seq<Item>, output: Item, context: seq<Item>, read: Reader, prefix: string)
    requires IsCompaction(output)
    requires forall x :: x in older ==> x.Message?
    requires forall x :: x in context ==> !IsCompaction(x)
    ensures EndsInOnly(Inserted(older + [output], context, read, prefix), output)
  {
    var history := older + [output];
    CompactionHasPlace(history, read, prefix);
    var at := InsertionPoint(history, read, prefix);
    FilterNothing(older, IsCompaction);
    FilterConcat(older, [output], IsCompaction);
    FilterNothing(context, IsCompaction);
    FilterAround(history, context, at);
  }

  lemma FilterAround(history: seq<Item>, context: seq<Item>, at: nat)
    requires at <= |history| && Filter(context, IsCompaction) == []
    ensures Filter(history[..at] + context + history[at..], IsCompaction) == Filter(history, IsCompaction)
  {
    assert history == history[..at] + history[at..];
    FilterConcat(history[..at], history[at..], IsCompaction);
    FilterConcat(history[..at] + context, history[at..], IsCompaction);
    FilterConcat(history[..at], context, IsCompaction);
  }

  lemma {:induction false} FilterCostsNoMore(items: seq<Item>, test: Item -> bool)
    ensures Charges(Filter(items, test), ItemTokens) <= Charges(items, ItemTokens)
  {
    if items != [] {
      assert items == [items[0]] + items[1..];
      ChargesConcat([items[0]], items[1..], ItemTokens);
      ChargesConcat([items[0]], Filter(items[1..], test), ItemTokens);
      FilterCostsNoMore(items[1..], test);
    }
  }

  lemma InsertedCost(history: seq<Item>, context: seq<Item>, read: Reader, prefix: string)
    ensures Charges(Inserted(history, context, read, prefix), ItemTokens) ==
            Charges(history, ItemTokens) + Charges(context, ItemTokens)
  {
    var at := InsertionPoint(history, read, prefix);
    assert history == history[..at] + history[at..];
    ChargesConcat(history[..at], history[at..], ItemTokens);
    ChargesConcat(history[..at] + context, history[at..], ItemTokens);
    ChargesConcat(history[..at], context, ItemTokens);
  }

  // However long the history was, the text of its replacement costs at most the
  // retention budget, one marker and the injected context.
  lemma InstalledCost(prompt: seq<Item>, output: Item, context: seq<Item>, read: Reader, prefix: string)
    requires IsCompaction(output)
    requires forall x :: x in prompt ==> AllCountable(x)
    ensures Charges(Installed(prompt, output, context, read, prefix), ItemTokens) <=
            64_000 + 11 + Charges(context, ItemTokens)
  {
    var kept := Retained(prompt, read);
    FilterMembers(prompt, UserTest(read));
    RetainedCost(UserMessages(prompt, read), RETAINED_MESSAGE_TOKEN_BUDGET);
    InstalledCostFrom(kept, output, context, read, prefix);
  }

  lemma InstalledCostFrom(kept: seq<Item>, output: Item, context: seq<Item>, read: Reader, prefix: string)
    requires IsCompaction(output)
    ensures Charges(Inserted(Filter(kept + [output], KeepTest(read)), context, read, prefix), ItemTokens) <=
            Charges(kept, ItemTokens) + Charges(context, ItemTokens)
  {
    FilterCostsNoMore(kept + [output], KeepTest(read));
    ChargesConcat(kept, [output], ItemTokens);
    assert Charges([output], ItemTokens) == ItemTokens(output);
    InsertedCost(Filter(kept + [output], KeepTest(read)), context, read, prefix);
  }

  // ---------------------------------------------------------------------------
  // Local compaction
  // ---------------------------------------------------------------------------

  function AsUser(text: string): Item { Message(None, "user", [InputText(text)], None) }

  function AsUsers(texts: seq<string>): seq<Item> { seq(|texts|, i requires 0 <= i < |texts| => AsUser(texts[i])) }

  function SummaryOrDefault(summary: string): string {
    if summary == "" then "(no summary available)" else summary
  }

  function CutString(s: string, budget: nat): string { Truncated(s, budget) }

  function LocalHistory(history: seq<Item>, messages: seq<string>, summary: string, maxTokens: nat): seq<Item> {
    history + AsUsers(Selected(messages, maxTokens, Tokens, CutString)) + [AsUser(SummaryOrDefault(summary))]
  }

  // What is still to be selected from the first `i` messages, followed by what was chosen newest first.
  ghost function Outlook(messages: seq<string>, i: nat, remaining: nat, chosen: seq<string>): seq<string>
    requires i <= |messages|
  {
    Selected(messages[..i], remaining, Tokens, CutString) + Reversed(chosen)
  }

  lemma WholeKeepsOutlook(messages: seq<string>, i: nat, remaining: nat, chosen: seq<string>)
    requires i < |messages| && 0 < remaining && Tokens(messages[i]) <= remaining
    ensures Outlook(messages, i, remaining - Tokens(messages[i]), chosen + [messages[i]]) ==
            Outlook(messages, i + 1, remaining, chosen)
  {
    StepWhole(messages, i, remaining, chosen, Tokens, CutString);
  }

  lemma PartEndsOutlook(messages: seq<string>, i: nat, remaining: nat, chosen: seq<string>, cut: string)
    requires i < |messages| && 0 < remaining < Tokens(messages[i]) && cut == Truncated(messages[i], remaining)
    ensures Reversed(chosen + [cut]) == Outlook(messages, i + 1, remaining, chosen)
  {
    StepPart(messages, i, remaining, chosen, Tokens, CutString);
  }

  lemma OutlookEnds(messages: seq<string>, i: nat, remaining: nat, chosen: seq<string>)
    requires i <= |messages| && (i == 0 || remaining == 0)
    ensures Outlook(messages, i, remaining, chosen) == Reversed(chosen)
  {
    NothingMore(messages, i, remaining);
  }

  lemma OutlookStarts(messages: seq<string>, maxTokens: nat)
    ensures Outlook(messages, |messages|, maxTokens, []) == Selected(messages, maxTokens, Tokens, CutString)
  {
    assert messages[..|messages|] == messages;
  }

  method SelectUserMessages(messages: seq<string>, maxTokens: nat) returns (selected: seq<string>)
    ensures selected == Selected(messages, maxTokens, Tokens, CutString)
  {
    var remaining: nat := maxTokens;
    var chosen: seq<string> := [];
    var i := |messages|;
    ghost var goal := Selected(messages, maxTokens, Tokens, CutString);
    OutlookStarts(messages, maxTokens);
    while i > 0 && remaining > 0
      invariant 0 <= i <= |messages|
      invariant Outlook(messages, i, remaining, chosen) == goal
    {
      i := i - 1;
      var tokens := Tokens(messages[i]);
      if tokens <= remaining {
        WholeKeepsOutlook(messages, i, remaining, chosen);
        chosen := chosen + [messages[i]];
        remaining := remaining - tokens;
      } else {
        var truncated := TruncateText(messages[i], remaining);
        PartEndsOutlook(messages, i, remaining, chosen, truncated);
        return Reversed(chosen + [truncated]);
      }
    }
    OutlookEnds(messages, i, remaining, chosen);
    return Reversed(chosen);
  }

  lemma NothingMore(messages: seq<string>, i: nat, remaining: nat)
    requires i <= |messages| && (i == 0 || remaining == 0)
    ensures Selected(messages[..i], remaining, Tokens, CutString) == []
  {
    if i == 0 {
      SelectedFromNothing(remaining, Tokens, CutString);
    } else {
      StepNothing(messages[..i], Tokens, CutString);
    }
  }

  method PushUserMessages(history: seq<Item>, texts: seq<string>) returns (out: seq<Item>)
    ensures out == history + AsUsers(texts)
  {
    out := history;
    for i := 0 to |texts|
      invariant out == history + AsUsers(texts[..i])
    {
      assert AsUsers(texts[..i + 1]) == AsUsers(texts[..i]) + [AsUser(texts[i])];
      out := out + [AsUser(texts[i])];
    }
    assert texts[..|texts|] == texts;
  }

  method BuildCompactedHistoryWithLimit(history: seq<Item>, messages: seq<string>, summary: string, maxTokens: nat)
    returns (out: seq<Item>)
    ensures out == LocalHistory(history, messages, summary, maxTokens)
    ensures var texts := Selected(messages, maxTokens, Tokens, CutString);
            && |out| == |history| + |texts| + 1 && out[..|history|] == history
            && (forall i :: 0 <= i < |texts| ==>
                  out[|history| + i] == Message(None, "user", [InputText(texts[i])], None))
            && out[|out| - 1] ==
               Message(None, "user", [InputText(if summary == "" then "(no summary available)" else summary)], None)
  {
    var selected: seq<string> := [];
    if maxTokens > 0 {
      selected := SelectUserMessages(messages, maxTokens);
    } else {
      StepNothing(messages, Tokens, CutString);
    }
    out := PushUserMessages(history, selected);
    out := out + [AsUser(SummaryOrDefault(summary))];
  }

  method BuildCompactedHistory(history: seq<Item>, messages: seq<string>, summary: string) returns (out: seq<Item>)
    ensures out == LocalHistory(history, messages, summary, 20_000)
  {
    out := BuildCompactedHistoryWithLimit(history, messages, summary, COMPACT_USER_MESSAGE_MAX_TOKENS);
  }

  // A local compaction spends at most its budget and one marker on user text.
  lemma LocalCost(messages: seq<string>, maxTokens: nat)
    requires forall t :: t in messages ==> Bytes(t) <= U64_MAX
    ensures Charges(Selected(messages, maxTokens, Tokens, CutString), Tokens) <= maxTokens + MARKER_TOKENS
  {
    forall t, left: nat | t in messages && 0 < left < Tokens(t)
      ensures Tokens(CutString(t, left)) <= left + MARKER_TOKENS
    {
      TruncatedCost(t, left);
    }
    SelectedCost(messages, maxTokens, Tokens, CutString, Tokens, MARKER_TOKENS);
  }

  const IMAGE_OPEN_TAG: string := "<image>"
  const IMAGE_CLOSE_TAG: string := "</image>"
  const LOCAL_IMAGE_OPEN_TAG_PREFIX: string := "<image name="

  predicate OpensImage(text: string) {
    text == IMAGE_OPEN_TAG ||
    (LOCAL_IMAGE_OPEN_TAG_PREFIX <= text && |text| > |LOCAL_IMAGE_OPEN_TAG_PREFIX| && text[|text| - 1] == '>')
  }

  predicate ClosesImage(text: string) { text == IMAGE_CLOSE_TAG }

  // The part at `i` is a text tag next to the image it belongs to.
  predicate IsImageTag(message: seq<ContentItem>, i: nat)
    requires i < |message| && message[i].InputText?
  {
    || (OpensImage(message[i].text) && i + 1 < |message| && message[i + 1].InputImage?)
    || (i > 0 && ClosesImage(message[i].text) && message[i - 1].InputImage?)
  }

  // The texts of the first `n` parts, image tags aside, run together.
  function VisibleText(message: seq<ContentItem>, n: nat): string
    requires n <= |message|
  {
    if n == 0 then ""
    else VisibleText(message, n - 1) +
         (if message[n - 1].InputText? && !IsImageTag(message, n - 1) then message[n - 1].text else "")
  }

  // `parse_user_message` and the text of its result; `contextual` tells the program's own context.
  function ReadUserMessage(message: seq<ContentItem>, contextual: string -> bool): Option<string> {
    if exists i :: 0 <= i < |message| && message[i].InputText? && contextual(message[i].text) then None
    else Some(VisibleText(message, |message|))
  }

  method ParseUserMessage(message: seq<ContentItem>, contextual: string -> bool) returns (text: Option<string>)
    ensures text == ReadUserMessage(message, contextual)
  {
    for i := 0 to |message|
      invariant forall j :: 0 <= j < i && message[j].InputText? ==> !contextual(message[j].text)
    {
      if message[i].InputText? && contextual(message[i].text) { return None; }
    }
    var visible := "";
    for i := 0 to |message|
      invariant visible == VisibleText(message, i)
    {
      if message[i].InputText? && !IsImageTag(message, i) { visible := visible + message[i].text; }
    }
    return Some(visible);
  }

  function Reading(contextual: string -> bool): Reader { m => ReadUserMessage(m, contextual) }

  // A text on its own is read back as itself, unless it is context.
  lemma SingleTextRead(text: string, contextual: string -> bool)
    ensures ReadUserMessage([InputText(text)], contextual) == if contextual(text) then None else Some(text)
  {
    var message := [InputText(text)];
    assert forall i :: 0 <= i < |message| ==> message[i] == InputText(text);
    if contextual(text) {
      assert message[0].InputText? && contextual(message[0].text);
    } else {
      assert VisibleText(message, 0) == "";
      assert VisibleText(message, |message|) == VisibleText(message, 0) + text == text;
    }
  }

  // The texts of the parts run together.
  function AllText(message: seq<ContentItem>): string {
    if message == [] then ""
    else AllText(message[..|message| - 1]) +
         (if message[|message| - 1].InputText? then message[|message| - 1].text else "")
  }

  // Without images nothing is hidden.
  lemma {:induction false} PlainMessageRead(message: seq<ContentItem>, n: nat)
    requires n <= |message| && forall i :: 0 <= i < |message| ==> !message[i].InputImage?
    ensures VisibleText(message, n) == AllText(message[..n])
  {
    if n > 0 {
      PlainMessageRead(message, n - 1);
      assert message[..n][..n - 1] == message[..n - 1];
    }
  }

  // The tags around an image are hidden, named or not, and so is the image.
  lemma TaggedImageRead(title: string, named: bool, url: string, contextual: string -> bool)
    requires !contextual("</image>")
    requires !contextual(if named then "<image name=" + title + ">" else "<image>")
    ensures var tag := if named then "<image name=" + title + ">" else "<image>";
            ReadUserMessage([InputText(tag), InputImage(url), InputText("</image>")], contextual) == Some("")
  {
    var tag := if named then "<image name=" + title + ">" else "<image>";
    var message := [InputText(tag), InputImage(url), InputText("</image>")];
    if named { assert OpensImage(tag) by { assert "<image name=" <= tag; } }
    assert IsImageTag(message, 0) && IsImageTag(message, 2);
    assert VisibleText(message, 0) == "" && VisibleText(message, 1) == "" && VisibleText(message, 2) == "";
    assert VisibleText(message, 3) == "";
  }

  lemma SummaryExactly(message: string, prefix: string)
    ensures IsSummary(message, prefix) <==> exists rest :: message == prefix + "\n" + rest
  {
    if IsSummary(message, prefix) {
      var n := |prefix + "\n"|;
      assert message == prefix + "\n" + message[n..];
    }
  }

  // `collect_user_messages`: the texts of real user messages, oldest first.
  function CollectUserMessages(items: seq<Item>, read: Reader, prefix: string): seq<string> {
    if items == [] then [] else Collected(items[0], read, prefix) + CollectUserMessages(items[1..], read, prefix)
  }

  function Collected(item: Item, read: Reader, prefix: string): seq<string> {
    if IsRealUser(item, read, prefix) then [UserText(item, read).value] else []
  }

  lemma {:induction false} CollectConcat(a: seq<Item>, b: seq<Item>, read: Reader, prefix: string)
    ensures CollectUserMessages(a + b, read, prefix) ==
            CollectUserMessages(a, read, prefix) + CollectUserMessages(b, read, prefix)
  {
    if a == [] {
      assert a + b == b;
    } else {
      var rest := CollectUserMessages(a[1..], read, prefix);
      assert (a + b)[1..] == a[1..] + b && (a + b)[0] == a[0];
      CollectConcat(a[1..], b, read, prefix);
      assert CollectUserMessages(a + b, read, prefix)
          == Collected(a[0], read, prefix) + (rest + CollectUserMessages(b, read, prefix));
    }
  }

  // Texts that are not the program's own context.
  function Genuine(contextual: string -> bool): string -> bool { t => !contextual(t) }

  lemma {:induction false} CollectAsUsers(texts: seq<string>, contextual: string -> bool, prefix: string)
    requires forall t :: t in texts ==> !IsSummary(t, prefix)
    ensures CollectUserMessages(AsUsers(texts), Reading(contextual), prefix) == Filter(texts, Genuine(contextual))
  {
    if texts != [] {
      assert texts[0] in texts;
      assert AsUsers(texts)[1..] == AsUsers(texts[1..]);
      CollectAsUsers(texts[1..], contextual, prefix);
      SingleTextRead(texts[0], contextual);
    }
  }

  // What is collected is never a summary.
  lemma {:induction false} CollectedAreNotSummaries(items: seq<Item>, read: Reader, prefix: string)
    ensures forall t :: t in CollectUserMessages(items, read, prefix) ==> !IsSummary(t, prefix)
  {
    if items != [] { CollectedAreNotSummaries(items[1..], read, prefix); }
  }

  // Cutting a user's text never makes it look like a summary.
  lemma SelectedAreNotSummaries(messages: seq<string>, maxTokens: nat, prefix: string)
    requires ELLIPSIS !in prefix
    requires forall t :: t in messages ==> !IsSummary(t, prefix)
    ensures forall t :: t in Selected(messages, maxTokens, Tokens, CutString) ==> !IsSummary(t, prefix)
  {
    forall t | t in Selected(messages, maxTokens, Tokens, CutString) ensures !IsSummary(t, prefix) {
      if t !in messages && IsSummary(t, prefix) {
        var m := Kept(messages, maxTokens, Tokens);
        var next := messages[|messages| - m - 1];
        assert t == Truncated(next, LeftOver(messages, maxTokens, Tokens));
        assert next in messages;
        TruncatedKeepsPrefix(next, LeftOver(messages, maxTokens, Tokens), prefix + "\n");
      }
    }
  }

  lemma SummaryNotCollected(suffix: string, contextual: string -> bool, prefix: string)
    ensures CollectUserMessages([AsUser(SummaryOrDefault(prefix + "\n" + suffix))], Reading(contextual), prefix) == []
  {
    var summary := prefix + "\n" + suffix;
    assert prefix + "\n" <= summary;
    assert [AsUser(summary)][1..] == [];
    SingleTextRead(summary, contextual);
  }

  lemma {:induction false} NothingToCollect(items: seq<Item>, read: Reader, prefix: string)
    requires forall x :: x in items ==> !IsRealUser(x, read, prefix)
    ensures CollectUserMessages(items, read, prefix) == []
  {
    if items != [] { NothingToCollect(items[1..], read, prefix); }
  }

  // The texts with the context's own put before the last one, which is where the context went.
  function Around(texts: seq<string>, added: seq<string>): seq<string> {
    if texts == [] then added else texts[..|texts| - 1] + added + [texts[|texts| - 1]]
  }

  lemma CollectFromPoint(history: seq<Item>, read: Reader, prefix: string)
    ensures var at := InsertionPoint(history, read, prefix);
            var before := CollectUserMessages(history[..at], read, prefix);
            var after := CollectUserMessages(history[at..], read, prefix);
            before + after == [] || |after| == 1
  {
    var at := InsertionPoint(history, read, prefix);
    ContextPlacement(history, read, prefix);
    if exists x :: x in history && IsRealUser(x, read, prefix) {
      NothingToCollect(history[at + 1..], read, prefix);
      assert history[at..][1..] == history[at + 1..];
    } else {
      NothingToCollect(history[..at], read, prefix);
      NothingToCollect(history[at..], read, prefix);
    }
  }

  lemma AroundSplit(before: seq<string>, added: seq<string>, after: seq<string>)
    requires before + after == [] || |after| == 1
    ensures before + added + after == Around(before + after, added)
  {
    if before + after != [] {
      assert (before + after)[..|before|] == before && after == [after[0]];
    }
  }

  lemma CollectInserted(history: seq<Item>, context: seq<Item>, read: Reader, prefix: string)
    ensures CollectUserMessages(Inserted(history, context, read, prefix), read, prefix) ==
            Around(CollectUserMessages(history, read, prefix), CollectUserMessages(context, read, prefix))
  {
    var at := InsertionPoint(history, read, prefix);
    assert history == history[..at] + history[at..];
    CollectConcat(history[..at], history[at..], read, prefix);
    CollectConcat(history[..at] + context, history[at..], read, prefix);
    CollectConcat(history[..at], context, read, prefix);
    CollectFromPoint(history, read, prefix);
    AroundSplit(CollectUserMessages(history[..at], read, prefix), CollectUserMessages(context, read, prefix),
                CollectUserMessages(history[at..], read, prefix));
  }

  /**
   * Summaries never pile up: for any history, the compaction that follows a local one collects exactly the user texts
   * the local one selected, but for those that read as the program's own context, with the texts of the injected
   * context before the last of them; never the summary.
   */
  lemma SummariesNeverAccumulate(
    items: seq<Item>, suffix: string, context: seq<Item>, maxTokens: nat, contextual: string -> bool, prefix: string)
    requires ELLIPSIS !in prefix
    ensures var read := Reading(contextual);
            var messages := CollectUserMessages(items, read, prefix);
            var texts := Selected(messages, maxTokens, Tokens, CutString);
            var history := LocalHistory([], messages, prefix + "\n" + suffix, maxTokens);
            CollectUserMessages(Inserted(history, context, read, prefix), read, prefix) ==
            Around(Filter(texts, Genuine(contextual)), CollectUserMessages(context, read, prefix))
  {
    var read := Reading(contextual);
    var messages := CollectUserMessages(items, read, prefix);
    CollectedAreNotSummaries(items, read, prefix);
    LocalCollected(messages, suffix, maxTokens, contextual, prefix);
    CollectInserted(LocalHistory([], messages, prefix + "\n" + suffix, maxTokens), context, read, prefix);
  }

  lemma LocalCollected(
    messages: seq<string>, suffix: string, maxTokens: nat, contextual: string -> bool, prefix: string)
    requires ELLIPSIS !in prefix && forall t :: t in messages ==> !IsSummary(t, prefix)
    ensures var history := LocalHistory([], messages, prefix + "\n" + suffix, maxTokens);
            CollectUserMessages(history, Reading(contextual), prefix) ==
            Filter(Selected(messages, maxTokens, Tokens, CutString), Genuine(contextual))
  {
    var texts := Selected(messages, maxTokens, Tokens, CutString);
    SelectedAreNotSummaries(messages, maxTokens, prefix);
    CollectAsUsers(texts, contextual, prefix);
    SummaryNotCollected(suffix, contextual, prefix);
    var last := [AsUser(SummaryOrDefault(prefix + "\n" + suffix))];
    assert LocalHistory([], messages, prefix + "\n" + suffix, maxTokens) == AsUsers(texts) + last;
    CollectConcat(AsUsers(texts), last, Reading(contextual), prefix);
  }
}
