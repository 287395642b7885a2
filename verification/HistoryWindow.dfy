/** The history a run is given: the newest messages that fit the budget, paired up for the model. */
module HistoryWindow {
  import opened Options
  import opened Text

  /** A stored message; `visible` is its text without reasoning, empty when only reasoning or tool links remain. */
  datatype Row = Row(id: string, fromUser: bool, text: string, visible: string)

  datatype Policy = Policy(maxMessages: int, maxTokens: int, maxTotalChars: int, maxMessageChars: int)

  datatype Totals = Totals(chars: nat, tokens: nat)

  datatype Selection = Selection(history: seq<Row>, includedSummary: bool, totals: Totals)

  const OVERHEAD: nat := 4

  // ---------------------------------------------------------------- bounding one text

  /** The first `n` characters, or all but the last `-n`. */
  function Head(text: string, n: int): string {
    if n >= |text| then text else if n >= 0 then text[..n] else if -n >= |text| then "" else text[..|text| + n]
  }

  function Marker(length: nat): string {
    "\n[conversation message truncated: original_chars=" + Digits(length) + "]"
  }

  function BoundText(text: string, max: int): string {
    if |text| <= max then text else Head(text, max) + Marker(|text|)
  }

  /** A long text keeps its first characters. Bounding it again changes it, unless its length was exactly that of
    * the bounded text: bounded texts are longer than the bound, and the second marker counts the first. */
  lemma BoundTwice(text: string, max: int)
    ensures |text| > max >= 0 ==> BoundText(text, max)[..max] == text[..max] && |BoundText(text, max)| > max
    ensures BoundText(BoundText(text, max), max) == BoundText(text, max)
            <==> |text| <= max || |BoundText(text, max)| == |text|
  {
    if |text| > max {
      var once := BoundText(text, max);
      var twice := BoundText(once, max);
      assert once == Head(text, max) + Marker(|text|) && twice == Head(once, max) + Marker(|once|);
      if twice == once { MarkersDiffer(Head(once, max), |once|, Head(text, max), |text|); }
      if |once| == |text| { assert Head(once, max) == Head(text, max); }
    }
  }

  lemma MarkersDiffer(a: string, m: nat, b: string, n: nat)
    requires a + Marker(m) == b + Marker(n)
    ensures m == n
  {
    var start := "\n[conversation message truncated: original_chars";
    assert a + Marker(m) == (a + start) + ['='] + (Digits(m) + "]") && b + Marker(n) == (b + start) + ['='] + (Digits(n) + "]");
    DigitsHaveNoColon(m);
    DigitsHaveNoColon(n);
    SplitAtLast('=', a + start, Digits(m) + "]", b + start, Digits(n) + "]");
    assert (Digits(m) + "]")[..|Digits(m)|] == Digits(m) && (Digits(n) + "]")[..|Digits(n)|] == Digits(n);
    DigitsDiffer(m, n);
  }

  // ---------------------------------------------------------------- selecting within the budget

  /** `history.slice(-k)`. */
  function Window(history: seq<Row>, k: int): seq<Row> {
    if k > 0 then (if k >= |history| then history else history[|history| - k..])
    else if -k >= |history| then [] else history[-k..]
  }

  function Reverse<T>(list: seq<T>): seq<T> {
    if list == [] then [] else Reverse(list[1..]) + [list[0]]
  }

  function Size(row: Row, max: int, count: string -> nat): Totals {
    Totals(|BoundText(row.text, max)|, count(BoundText(row.text, max)) + OVERHEAD)
  }

  function Plus(a: Totals, b: Totals): Totals { Totals(a.chars + b.chars, a.tokens + b.tokens) }

  predicate Fits(t: Totals, policy: Policy) { t.chars <= policy.maxTotalChars && t.tokens <= policy.maxTokens }

  /** Newest first: take each row that still fits. */
  function Choose(recent: seq<Row>, at: Totals, policy: Policy, count: string -> nat): (seq<Row>, Totals) {
    if recent == [] then ([], at)
    else
      var next := Plus(at, Size(recent[0], policy.maxMessageChars, count));
      if !Fits(next, policy) then Choose(recent[1..], at, policy, count)
      else
        var (rows, totals) := Choose(recent[1..], next, policy, count);
        ([recent[0]] + rows, totals)
  }

  function Current(text: string, policy: Policy, count: string -> nat): Totals {
    Totals(|BoundText(text, policy.maxMessageChars)|, count(text) + OVERHEAD)
  }

  function SummarySize(summary: string, count: string -> nat): Totals { Totals(|summary|, count(summary) + OVERHEAD) }

  /** Whether the summary is included, and what is then used up. */
  function Opening(text: string, summary: Option<string>, policy: Policy, count: string -> nat): (bool, Totals) {
    var current := Current(text, policy, count);
    if summary.Some? && Fits(Plus(current, SummarySize(summary.value, count)), policy)
    then (true, Plus(current, SummarySize(summary.value, count))) else (false, current)
  }

  function Selected(text: string, history: seq<Row>, summary: Option<string>, policy: Policy, count: string -> nat): Selection {
    var (included, base) := Opening(text, summary, policy, count);
    var (rows, totals) := Choose(Reverse(Window(history, policy.maxMessages)), base, policy, count);
    Selection(Reverse(rows), included, totals)
  }

  /** `summary` is the summary's text as it would be shown. */
  method SelectBudgetedHistory(text: string, history: seq<Row>, summary: Option<string>, policy: Policy, count: string -> nat)
    returns (r: Selection)
    ensures r == Selected(text, history, summary, policy, count)
  {
    hide BoundText, Window, Reverse, Choose;
    var totalChars: nat := |BoundText(text, policy.maxMessageChars)|;
    var totalTokens: nat := count(text) + OVERHEAD;
    var includedSummary := false;
    if summary.Some? {
      var nextChars: nat, nextTokens: nat := totalChars + |summary.value|, totalTokens + (count(summary.value) + OVERHEAD);
      if nextChars <= policy.maxTotalChars && nextTokens <= policy.maxTokens {
        totalChars, totalTokens, includedSummary := nextChars, nextTokens, true;
      }
    }
    var recent := Reverse(Window(history, policy.maxMessages));
    var selected, totals := ChooseRecent(recent, Totals(totalChars, totalTokens), policy, count);
    r := Selection(Reverse(selected), includedSummary, totals);
  }

  method ChooseRecent(recent: seq<Row>, base: Totals, policy: Policy, count: string -> nat)
    returns (selected: seq<Row>, totals: Totals)
    ensures (selected, totals) == Choose(recent, base, policy, count)
  {
    selected, totals := [], base;
    assert recent[0..] == recent && recent[|recent|..] == [];
    NothingOnTop(Choose(recent, base, policy, count));
    hide *;
    for i := 0 to |recent|
      invariant Choose(recent, base, policy, count) == OnTop(selected, Choose(recent[i..], totals, policy, count))
    {
      ChooseStep(recent, i, totals, policy, count, selected);
      var next := Plus(totals, Size(recent[i], policy.maxMessageChars, count));
      if !Fits(next, policy) {
        continue;
      }
      totals := next;
      selected := selected + [recent[i]];
    }
    NothingLeft(selected, totals, policy, count);
  }

  /** Rows already taken, before those still to be chosen. */
  function OnTop(taken: seq<Row>, rest: (seq<Row>, Totals)): (seq<Row>, Totals) { (taken + rest.0, rest.1) }

  lemma NothingOnTop(rest: (seq<Row>, Totals))
    ensures OnTop([], rest) == rest
  {
    assert [] + rest.0 == rest.0;
  }

  lemma NothingLeft(taken: seq<Row>, totals: Totals, policy: Policy, count: string -> nat)
    ensures OnTop(taken, Choose([], totals, policy, count)) == (taken, totals)
  {
    assert taken + [] == taken;
  }

  lemma ChooseStep(all: seq<Row>, i: nat, at: Totals, policy: Policy, count: string -> nat, taken: seq<Row>)
    requires i < |all|
    ensures var next := Plus(at, Size(all[i], policy.maxMessageChars, count));
            OnTop(taken, Choose(all[i..], at, policy, count))
            == if Fits(next, policy) then OnTop(taken + [all[i]], Choose(all[i + 1..], next, policy, count))
               else OnTop(taken, Choose(all[i + 1..], at, policy, count))
  {
    var recent := all[i..];
    assert recent[1..] == all[i + 1..] && recent[0] == all[i];
    var next := Plus(at, Size(recent[0], policy.maxMessageChars, count));
    var rest := Choose(recent[1..], next, policy, count).0;
    assert taken + ([recent[0]] + rest) == taken + [recent[0]] + rest;
  }

  // ---------------------------------------------------------------- what is selected

  function Pick<T>(list: seq<T>, mask: seq<bool>): seq<T>
    requires |mask| == |list|
  {
    if list == [] then [] else (if mask[0] then [list[0]] else []) + Pick(list[1..], mask[1..])
  }

  function Sum(rows: seq<Row>, policy: Policy, count: string -> nat): Totals {
    if rows == [] then Totals(0, 0) else Plus(Size(rows[0], policy.maxMessageChars, count), Sum(rows[1..], policy, count))
  }

  /** Read newest first: a row is taken exactly when it fits on top of the newer rows taken. */
  ghost predicate Greedy(recent: seq<Row>, mask: seq<bool>, at: Totals, policy: Policy, count: string -> nat) {
    |mask| == |recent| && forall i :: 0 <= i < |recent| ==> GreedyAt(recent, mask, i, at, policy, count)
  }

  ghost predicate GreedyAt(recent: seq<Row>, mask: seq<bool>, i: nat, at: Totals, policy: Policy, count: string -> nat)
    requires i < |recent| && |mask| == |recent|
  {
    var newer := Sum(Pick(recent[..i], mask[..i]), policy, count);
    mask[i] <==> Fits(Plus(Plus(at, newer), Size(recent[i], policy.maxMessageChars, count)), policy)
  }

  /** No row left out would still fit. */
  ghost predicate NothingElseFits(recent: seq<Row>, mask: seq<bool>, totals: Totals, policy: Policy, count: string -> nat)
    requires |mask| == |recent|
  {
    forall i :: 0 <= i < |recent| && !mask[i] ==> !Fits(Plus(totals, Size(recent[i], policy.maxMessageChars, count)), policy)
  }

  lemma {:induction false} Chosen(recent: seq<Row>, at: Totals, policy: Policy, count: string -> nat)
    returns (mask: seq<bool>)
    ensures var (rows, totals) := Choose(recent, at, policy, count);
            && |mask| == |recent| && rows == Pick(recent, mask)
            && totals == Plus(at, Sum(rows, policy, count))
            && Greedy(recent, mask, at, policy, count)
            && NothingElseFits(recent, mask, totals, policy, count)
            && (Fits(totals, policy) <==> Fits(at, policy))
            && (!Fits(at, policy) ==> rows == [])
  {
    if recent == [] {
      mask := [];
    } else {
      var size := Size(recent[0], policy.maxMessageChars, count);
      var take := Fits(Plus(at, size), policy);
      var from := if take then Plus(at, size) else at;
      var (tail, totals) := Choose(recent[1..], from, policy, count);
      var rest := Chosen(recent[1..], from, policy, count);
      mask := [take] + rest;
      assert mask[1..] == rest && [] + tail == tail && ([recent[0]] + tail)[1..] == tail;
      NothingStep(recent, rest, take, at, totals, policy, count);
      GreedyStep(recent, rest, at, policy, count);
      hide Greedy, NothingElseFits, Size;
    }
  }

  lemma NothingStep(recent: seq<Row>, rest: seq<bool>, take: bool, at: Totals, totals: Totals, policy: Policy,
                    count: string -> nat)
    requires recent != [] && |rest| == |recent| - 1
    requires NothingElseFits(recent[1..], rest, totals, policy, count)
    requires at.chars <= totals.chars && at.tokens <= totals.tokens
    requires !take ==> !Fits(Plus(at, Size(recent[0], policy.maxMessageChars, count)), policy)
    ensures NothingElseFits(recent, [take] + rest, totals, policy, count)
  {
  }

  lemma GreedyStep(recent: seq<Row>, rest: seq<bool>, at: Totals, policy: Policy, count: string -> nat)
    requires recent != [] && |rest| == |recent| - 1
    requires var size := Size(recent[0], policy.maxMessageChars, count);
             Greedy(recent[1..], rest, if Fits(Plus(at, size), policy) then Plus(at, size) else at, policy, count)
    ensures var size := Size(recent[0], policy.maxMessageChars, count);
            Greedy(recent, [Fits(Plus(at, size), policy)] + rest, at, policy, count)
  {
    var size := Size(recent[0], policy.maxMessageChars, count);
    var take := Fits(Plus(at, size), policy);
    hide Fits, Size;
    forall i | 0 <= i < |recent| ensures GreedyAt(recent, [take] + rest, i, at, policy, count) {
      if i == 0 {
        assert Plus(at, Totals(0, 0)) == at;
      } else {
        var k: nat := i - 1;
        var from := if take then Plus(at, size) else at;
        assert GreedyAt(recent[1..], rest, k, from, policy, count);
        NewerShift(recent, rest, take, k, at, policy, count);
      }
    }
  }

  lemma NewerShift(recent: seq<Row>, rest: seq<bool>, take: bool, k: nat, at: Totals, policy: Policy, count: string -> nat)
    requires recent != [] && |rest| == |recent| - 1 && k < |rest|
    ensures var size := Size(recent[0], policy.maxMessageChars, count);
            Plus(at, Sum(Pick(recent[..k + 1], ([take] + rest)[..k + 1]), policy, count))
            == Plus(if take then Plus(at, size) else at, Sum(Pick(recent[1..][..k], rest[..k]), policy, count))
    ensures recent[1..][k] == recent[k + 1] && rest[k] == ([take] + rest)[k + 1]
  {
    var tail := Pick(recent[1..][..k], rest[..k]);
    assert recent[..k + 1][1..] == recent[1..][..k] && ([take] + rest)[..k + 1][1..] == rest[..k];
    assert ([recent[0]] + tail)[1..] == tail && [] + tail == tail;
    hide Size;
  }

  // ---------------------------------------------------------------- back in time order

  lemma {:induction false} ReverseAppend<T>(a: seq<T>, b: seq<T>)
    ensures Reverse(a + b) == Reverse(b) + Reverse(a)
  {
    if a == [] {
      assert a + b == b && Reverse(b) + [] == Reverse(b);
    } else {
      assert (a + b)[1..] == a[1..] + b;
      ReverseAppend(a[1..], b);
    }
  }

  lemma {:induction false} ReverseTwice<T>(list: seq<T>)
    ensures |Reverse(list)| == |list| && Reverse(Reverse(list)) == list
  {
    if list != [] {
      ReverseTwice(list[1..]);
      ReverseAppend(Reverse(list[1..]), [list[0]]);
      assert Reverse([list[0]]) == [list[0]];
    }
  }

  lemma {:induction false} PickAppend<T>(a: seq<T>, b: seq<T>, m: seq<bool>, n: seq<bool>)
    requires |m| == |a| && |n| == |b|
    ensures Pick(a + b, m + n) == Pick(a, m) + Pick(b, n)
  {
    if a == [] {
      assert a + b == b && m + n == n;
    } else {
      PickAppend(a[1..], b, m[1..], n);
      PickFirst(a + b, m + n);
      PickFirst(a, m);
      hide Pick;
      assert (a + b)[1..] == a[1..] + b && (m + n)[1..] == m[1..] + n;
      assert (a + b)[0] == a[0] && (m + n)[0] == m[0];
    }
  }

  lemma PickFirst<T>(list: seq<T>, mask: seq<bool>)
    requires |mask| == |list| && list != []
    ensures Pick(list, mask) == (if mask[0] then [list[0]] else []) + Pick(list[1..], mask[1..])
  {
  }

  lemma {:induction false} PickReversed<T>(list: seq<T>, mask: seq<bool>)
    requires |mask| == |list|
    ensures |Reverse(mask)| == |Reverse(list)| && Reverse(Pick(list, mask)) == Pick(Reverse(list), Reverse(mask))
  {
    ReverseTwice(list);
    ReverseTwice(mask);
    if list != [] {
      ReverseTwice(list[1..]);
      ReverseTwice(mask[1..]);
      PickReversed(list[1..], mask[1..]);
      PickAppend(Reverse(list[1..]), [list[0]], Reverse(mask[1..]), [mask[0]]);
      var head := if mask[0] then [list[0]] else [];
      assert Pick([list[0]], [mask[0]]) == head;
      ReverseAppend(head, Pick(list[1..], mask[1..]));
      assert Reverse(head) == head;
    }
  }

  /** The history given to a run is an order-preserving selection of the newest messages, its totals are the sums
    * of what it holds, it stays within both limits exactly when the current message alone does, and no message of
    * the window left out would still fit. */
  lemma BudgetedHistory(text: string, history: seq<Row>, summary: Option<string>, policy: Policy, count: string -> nat)
    returns (mask: seq<bool>)
    ensures var window, r := Window(history, policy.maxMessages), Selected(text, history, summary, policy, count);
            var (included, base) := Opening(text, summary, policy, count);
            && |mask| == |window| && r.history == Pick(window, mask)
            && r.totals == Plus(base, Sum(Reverse(r.history), policy, count)) && r.includedSummary == included
            && (Fits(r.totals, policy) <==> Fits(Current(text, policy, count), policy))
            && (!Fits(Current(text, policy, count), policy) ==> r.history == [] && !r.includedSummary)
            && Greedy(Reverse(window), Reverse(mask), base, policy, count)
            && NothingElseFits(window, mask, r.totals, policy, count)
  {
    var window := Window(history, policy.maxMessages);
    var (included, base) := Opening(text, summary, policy, count);
    var (rows, totals) := Choose(Reverse(window), base, policy, count);
    OpeningFits(text, summary, policy, count);
    var newestFirst := Chosen(Reverse(window), base, policy, count);
    assert Selected(text, history, summary, policy, count) == Selection(Reverse(rows), included, totals);
    hide *;
    mask := Reverse(newestFirst);
    ReverseTwice(window);
    ReverseTwice(newestFirst);
    ReverseTwice(rows);
    PickReversed(Reverse(window), newestFirst);
    NothingReversed(window, newestFirst, totals, policy, count);
    NothingReversedEmpty(rows);
  }

  lemma NothingReversedEmpty<T>(list: seq<T>)
    ensures list == [] ==> Reverse(list) == []
  {
  }

  /** The summary is only included when it fits. */
  lemma OpeningFits(text: string, summary: Option<string>, policy: Policy, count: string -> nat)
    ensures var (included, base) := Opening(text, summary, policy, count);
            && (Fits(base, policy) <==> Fits(Current(text, policy, count), policy))
            && (!Fits(Current(text, policy, count), policy) ==> !included)
  {
  }

  lemma NothingReversed(window: seq<Row>, newestFirst: seq<bool>, totals: Totals, policy: Policy, count: string -> nat)
    requires |newestFirst| == |Reverse(window)| && NothingElseFits(Reverse(window), newestFirst, totals, policy, count)
    ensures |Reverse(newestFirst)| == |window|
    ensures NothingElseFits(window, Reverse(newestFirst), totals, policy, count)
  {
    ReverseTwice(window);
    ReverseTwice(newestFirst);
    forall i | 0 <= i < |window| && !Reverse(newestFirst)[i]
      ensures !Fits(Plus(totals, Size(window[i], policy.maxMessageChars, count)), policy)
    {
      NothingReversedAt(window, newestFirst, totals, policy, count, i);
    }
    hide Fits, Size, Plus, Reverse;
  }

  lemma NothingReversedAt(window: seq<Row>, newestFirst: seq<bool>, totals: Totals, policy: Policy, count: string -> nat,
                          i: nat)
    requires |newestFirst| == |Reverse(window)| == |window| == |Reverse(newestFirst)| && i < |window|
    requires NothingElseFits(Reverse(window), newestFirst, totals, policy, count)
    ensures !Reverse(newestFirst)[i] ==> !Fits(Plus(totals, Size(window[i], policy.maxMessageChars, count)), policy)
  {
    hide Fits, Size, Plus, Reverse;
    var j := |window| - 1 - i;
    ReverseAt(window, i);
    ReverseAt(Reverse(newestFirst), i);
    ReverseTwice(newestFirst);
    assert newestFirst[j] == Reverse(newestFirst)[i] && Reverse(window)[j] == window[i];
  }

  lemma {:induction false} ReverseAt<T>(list: seq<T>, i: nat)
    requires i < |list|
    ensures |Reverse(list)| == |list| && Reverse(list)[|list| - 1 - i] == list[i]
  {
    ReverseTwice(list);
    if i > 0 {
      ReverseAt(list[1..], i - 1);
    } else {
      ReverseTwice(list[1..]);
    }
  }

  /** The window holds at most the configured number of messages exactly when that number is positive, or the
    * history is too short to matter: slicing from minus zero takes the whole history. */
  lemma WindowBound(history: seq<Row>, k: int)
    ensures |Window(history, k)| <= (if k > 0 then k else 0) <==> k > 0 || |history| <= -k
  {
  }

  // ---------------------------------------------------------------- when everything fits

  lemma {:induction false} AllFit(recent: seq<Row>, at: Totals, policy: Policy, count: string -> nat)
    requires Fits(Plus(at, Sum(recent, policy, count)), policy)
    ensures Choose(recent, at, policy, count) == (recent, Plus(at, Sum(recent, policy, count)))
  {
    if recent != [] {
      var next := Plus(at, Size(recent[0], policy.maxMessageChars, count));
      assert Plus(next, Sum(recent[1..], policy, count)) == Plus(at, Sum(recent, policy, count));
      AllFit(recent[1..], next, policy, count);
      assert [recent[0]] + recent[1..] == recent;
    } else {
      assert Plus(at, Totals(0, 0)) == at;
    }
  }

  /** When the whole window fits, all of it is given to the run. */
  lemma WholeWindow(text: string, history: seq<Row>, summary: Option<string>, policy: Policy, count: string -> nat)
    requires var window, base := Window(history, policy.maxMessages), Opening(text, summary, policy, count).1;
             Fits(Plus(base, Sum(Reverse(window), policy, count)), policy)
    ensures Selected(text, history, summary, policy, count).history == Window(history, policy.maxMessages)
  {
    var window, base := Window(history, policy.maxMessages), Opening(text, summary, policy, count).1;
    AllFit(Reverse(window), base, policy, count);
    ReverseTwice(window);
    hide Choose, Reverse, Sum;
  }

  // ---------------------------------------------------------------- pairing up

  /** A message for the model; `synthetic` marks the placeholder answer to an orphaned user message. */
  datatype Shown = Shown(id: string, fromUser: bool, synthetic: bool, content: string)

  function Placeholder(): string { "Previous request failed before the assistant produced a response." }

  predicate IsSkipped(row: Row) { !row.fromUser && row.visible == "" }

  function ShownRow(row: Row, max: int): Shown {
    Shown(row.id, row.fromUser, false, BoundText(if row.visible != "" then row.visible else row.text, max))
  }

  function Answer(row: Row, max: int): Shown { Shown(row.id, false, true, BoundText(Placeholder(), max)) }

  predicate IsOrphan(row: Row, later: seq<Row>) { row.fromUser && (later == [] || later[0].fromUser) }

  function Paired(rows: seq<Row>, max: int): seq<Shown> {
    if rows == [] then []
    else if IsSkipped(rows[0]) then Paired(rows[1..], max)
    else [ShownRow(rows[0], max)] + (if IsOrphan(rows[0], rows[1..]) then [Answer(rows[0], max)] else []) + Paired(rows[1..], max)
  }

  method NormalizeHistoryMessagePairs(rows: seq<Row>, max: int) returns (result: seq<Shown>)
    ensures result == Paired(rows, max)
  {
    result := [];
    assert rows[0..] == rows && rows[|rows|..] == [] && [] + Paired(rows, max) == Paired(rows, max);
    hide Paired, ShownRow, Answer;
    for i := 0 to |rows|
      invariant result + Paired(rows[i..], max) == Paired(rows, max)
    {
      PairedStep(rows, i, max, result);
      var cur := rows[i];
      if !cur.fromUser && cur.visible == "" {
        continue;
      }
      result := result + [ShownRow(cur, max)];
      if cur.fromUser && (i + 1 == |rows| || rows[i + 1].fromUser) {
        result := result + [Answer(cur, max)];
      }
    }
    NothingPaired(result, max);
  }

  lemma NothingPaired(before: seq<Shown>, max: int)
    ensures before + Paired([], max) == before
  {
  }

  lemma PairedStep(rows: seq<Row>, i: nat, max: int, before: seq<Shown>)
    requires i < |rows|
    ensures var rest := Paired(rows[i + 1..], max);
            before + Paired(rows[i..], max)
            == if IsSkipped(rows[i]) then before + rest
               else if IsOrphan(rows[i], rows[i + 1..]) then before + [ShownRow(rows[i], max)] + [Answer(rows[i], max)] + rest
               else before + [ShownRow(rows[i], max)] + rest
  {
    hide ShownRow, Answer;
    assert rows[i..][1..] == rows[i + 1..] && rows[i..][0] == rows[i];
  }

  function FirstShown(rows: seq<Row>): Option<Row> {
    if rows == [] then None else if IsSkipped(rows[0]) then FirstShown(rows[1..]) else Some(rows[0])
  }

  /** Roles alternate and the assistant speaks last. */
  ghost predicate Alternates(messages: seq<Shown>) {
    && (forall i, j :: 0 <= i && j == i + 1 && j < |messages| ==> messages[i].fromUser != messages[j].fromUser)
    && (messages != [] ==> !messages[|messages| - 1].fromUser)
  }

  /** What may follow a row that is shown: after a user message another one, nothing, or an assistant row that is
    * shown; after an assistant row no other one that is shown. */
  predicate FitsBefore(row: Row, later: seq<Row>) {
    if row.fromUser then IsOrphan(row, later) || (FirstShown(later).Some? && !FirstShown(later).value.fromUser)
    else FirstShown(later).None? || FirstShown(later).value.fromUser
  }

  ghost predicate Regular(rows: seq<Row>) {
    forall i :: 0 <= i < |rows| && !IsSkipped(rows[i]) ==> FitsBefore(rows[i], rows[i + 1..])
  }

  lemma RegularStep(rows: seq<Row>)
    requires rows != []
    ensures Regular(rows) <==> (IsSkipped(rows[0]) || FitsBefore(rows[0], rows[1..])) && Regular(rows[1..])
  {
  }

  lemma AlternatesStep(first: Shown, rest: seq<Shown>)
    ensures Alternates([first] + rest) <==>
            (if rest == [] then !first.fromUser else first.fromUser != rest[0].fromUser) && Alternates(rest)
  {
    var all := [first] + rest;
    if Alternates(all) {
      forall i, j | 0 <= i && j == i + 1 && j < |rest| ensures rest[i].fromUser != rest[j].fromUser {
        var k, l := i + 1, j + 1;
        assert all[k].fromUser != all[l].fromUser;
      }
      if rest != [] {
        var a, b := 0, 1;
        assert all[a].fromUser != all[b].fromUser;
      }
    }
    if Alternates(rest) && (if rest == [] then !first.fromUser else first.fromUser != rest[0].fromUser) {
      forall i, j | 0 <= i && j == i + 1 && j < |all| ensures all[i].fromUser != all[j].fromUser {
        if i > 0 {
          var k, l := i - 1, j - 1;
          assert rest[k].fromUser != rest[l].fromUser;
        }
      }
    }
  }

  lemma {:induction false} FirstOfPaired(rows: seq<Row>, max: int)
    ensures FirstShown(rows).None? <==> Paired(rows, max) == []
    ensures FirstShown(rows).Some? ==> Paired(rows, max)[0] == ShownRow(FirstShown(rows).value, max)
  {
    if rows != [] && IsSkipped(rows[0]) { FirstOfPaired(rows[1..], max); }
  }

  /** The model sees strictly alternating roles, the assistant last, exactly when every user row is followed by
    * another user row, by nothing, or (over skipped rows) by a shown assistant row, and no two shown assistant rows
    * meet. */
  lemma {:induction false} AlternatesIffRegular(rows: seq<Row>, max: int)
    ensures Alternates(Paired(rows, max)) <==> Regular(rows)
  {
    hide BoundText, Placeholder;
    if rows != [] {
      AlternatesIffRegular(rows[1..], max);
      RegularStep(rows);
      FirstOfPaired(rows[1..], max);
      PairedFirst(rows, max);
      hide Alternates, Regular, Paired, FirstShown;
      var first, answer, rest := ShownRow(rows[0], max), Answer(rows[0], max), Paired(rows[1..], max);
      if !IsSkipped(rows[0]) {
        if IsOrphan(rows[0], rows[1..]) {
          AlternatesStep(first, [answer] + rest);
          AlternatesStep(answer, rest);
        } else {
          AlternatesStep(first, rest);
        }
      }
    }
  }

  function Genuine(messages: seq<Shown>): seq<Shown> {
    if messages == [] then [] else (if messages[0].synthetic then [] else [messages[0]]) + Genuine(messages[1..])
  }

  function ShownRows(rows: seq<Row>, max: int): seq<Shown> {
    if rows == [] then [] else (if IsSkipped(rows[0]) then [] else [ShownRow(rows[0], max)]) + ShownRows(rows[1..], max)
  }

  /** Apart from the placeholders, the messages are the shown rows, each once and in order. */
  lemma {:induction false} PairingKeepsRows(rows: seq<Row>, max: int)
    ensures Genuine(Paired(rows, max)) == ShownRows(rows, max)
  {
    if rows != [] {
      hide *;
      PairingKeepsRows(rows[1..], max);
      PairedFirst(rows, max);
      ShownRowsFirst(rows, max);
      var first, answer, rest := ShownRow(rows[0], max), Answer(rows[0], max), Paired(rows[1..], max);
      GenuineStep(first, rest);
      GenuineStep(first, [answer] + rest);
      GenuineStep(answer, rest);
      SyntheticOnly(rows[0], max);
    }
  }

  lemma PairedFirst(rows: seq<Row>, max: int)
    requires rows != []
    ensures var first, answer, rest := ShownRow(rows[0], max), Answer(rows[0], max), Paired(rows[1..], max);
            Paired(rows, max) == if IsSkipped(rows[0]) then rest
                                 else if IsOrphan(rows[0], rows[1..]) then [first] + ([answer] + rest) else [first] + rest
  {
  }

  lemma ShownRowsFirst(rows: seq<Row>, max: int)
    requires rows != []
    ensures ShownRows(rows, max)
            == if IsSkipped(rows[0]) then ShownRows(rows[1..], max) else [ShownRow(rows[0], max)] + ShownRows(rows[1..], max)
  {
  }

  lemma SyntheticOnly(row: Row, max: int)
    ensures !ShownRow(row, max).synthetic && Answer(row, max).synthetic
  {
  }

  lemma GenuineStep(first: Shown, rest: seq<Shown>)
    ensures Genuine([first] + rest) == if first.synthetic then Genuine(rest) else [first] + Genuine(rest)
  {
  }

  // ---------------------------------------------------------------- in numbers

  /** The window is the newest messages of the history: as many as a positive limit says; without one, all but as many
    * of the oldest as the limit is below zero. */
  lemma WindowIsNewest(history: seq<Row>, k: int)
    ensures k >= |history| > 0 || k == 0 ==> Window(history, k) == history
    ensures 0 < k <= |history| ==> Window(history, k) == history[|history| - k..]
    ensures k < 0 && -k <= |history| ==> Window(history, k) == history[-k..]
    ensures k < -|history| ==> Window(history, k) == []
  {
  }

  /** A text over the bound is its first characters and a note of its length. */
  lemma BoundedForm(text: string, max: int)
    ensures |text| <= max ==> BoundText(text, max) == text
    ensures |text| > max >= 0 ==>
              BoundText(text, max)
              == text[..max] + ("\n[conversation message truncated: original_chars=" + Digits(|text|) + "]")
  {
  }

  /** Four tokens are added for each text. The summary is included exactly when it fits with the current message, and
    * the totals are those of the texts given to the run. */
  lemma CountedTexts(text: string, history: seq<Row>, summary: Option<string>, policy: Policy, count: string -> nat)
    ensures var r := Selected(text, history, summary, policy, count);
            var (chars, tokens) := (|BoundText(text, policy.maxMessageChars)|, count(text) + 4);
            && (r.includedSummary <==>
                  summary.Some? && chars + |summary.value| <= policy.maxTotalChars
                  && tokens + (count(summary.value) + 4) <= policy.maxTokens)
            && r.totals.chars == chars + (if r.includedSummary then |summary.value| else 0) + CharsOf(r.history, policy)
            && r.totals.tokens == tokens + (if r.includedSummary then count(summary.value) + 4 else 0)
                                  + TokensOf(r.history, policy, count)
  {
    var mask := BudgetedHistory(text, history, summary, policy, count);
    var r := Selected(text, history, summary, policy, count);
    hide Selected, Greedy, NothingElseFits, Pick, Window, BoundText;
    SumIs(Reverse(r.history), policy, count);
    CountReversed(r.history, policy, count);
  }

  function CharsOf(rows: seq<Row>, policy: Policy): nat {
    if rows == [] then 0 else |BoundText(rows[0].text, policy.maxMessageChars)| + CharsOf(rows[1..], policy)
  }

  function TokensOf(rows: seq<Row>, policy: Policy, count: string -> nat): nat {
    if rows == [] then 0
    else count(BoundText(rows[0].text, policy.maxMessageChars)) + 4 + TokensOf(rows[1..], policy, count)
  }

  lemma {:induction false} SumIs(rows: seq<Row>, policy: Policy, count: string -> nat)
    ensures Sum(rows, policy, count) == Totals(CharsOf(rows, policy), TokensOf(rows, policy, count))
  {
    if rows != [] { SumIs(rows[1..], policy, count); }
  }

  lemma {:induction false} CountAppend(a: seq<Row>, b: seq<Row>, policy: Policy, count: string -> nat)
    ensures CharsOf(a + b, policy) == CharsOf(a, policy) + CharsOf(b, policy)
    ensures TokensOf(a + b, policy, count) == TokensOf(a, policy, count) + TokensOf(b, policy, count)
  {
    if a == [] {
      assert a + b == b;
    } else {
      assert (a + b)[1..] == a[1..] + b;
      CountAppend(a[1..], b, policy, count);
    }
  }

  lemma {:induction false} CountReversed(rows: seq<Row>, policy: Policy, count: string -> nat)
    ensures CharsOf(Reverse(rows), policy) == CharsOf(rows, policy)
    ensures TokensOf(Reverse(rows), policy, count) == TokensOf(rows, policy, count)
  {
    if rows != [] {
      CountReversed(rows[1..], policy, count);
      CountAppend(Reverse(rows[1..]), [rows[0]], policy, count);
      assert [rows[0]][1..] == [];
    }
  }

  // ---------------------------------------------------------------- message by message

  /** The message of a row that is shown. */
  ghost predicate IsMessageOf(row: Row, max: int, m: Shown) {
    && (row.fromUser || row.visible != "")
    && m == Shown(row.id, row.fromUser, false, BoundText(if row.visible == "" then row.text else row.visible, max))
  }

  /** The placeholder that answers a user message. */
  ghost predicate IsPlaceholderFor(row: Row, max: int, m: Shown) {
    m == Shown(row.id, false, true,
               BoundText("Previous request failed before the assistant produced a response.", max))
  }

  /** A message is of a shown row, or it is the placeholder right after the message of a user row that another user row
    * or nothing follows; and such a row's message always has one. */
  ghost predicate ExplainedBy(rows: seq<Row>, i: nat, max: int, messages: seq<Shown>, k: nat)
    requires i < |rows| && k < |messages|
  {
    var orphan := rows[i].fromUser && (i == |rows| - 1 || rows[i + 1].fromUser);
    if messages[k].synthetic then
      orphan && k > 0 && IsMessageOf(rows[i], max, messages[k - 1]) && IsPlaceholderFor(rows[i], max, messages[k])
    else
      && IsMessageOf(rows[i], max, messages[k])
      && (orphan ==> k + 1 < |messages| && IsPlaceholderFor(rows[i], max, messages[k + 1]))
  }

  ghost predicate Explained(rows: seq<Row>, max: int, messages: seq<Shown>, k: nat)
    requires k < |messages|
  {
    exists i: nat :: i < |rows| && ExplainedBy(rows, i, max, messages, k)
  }

  lemma ExplainedShifts(rows: seq<Row>, i: nat, max: int, before: seq<Shown>, rest: seq<Shown>, k: nat)
    requires i + 1 < |rows| && k < |rest| && ExplainedBy(rows[1..], i, max, rest, k)
    ensures ExplainedBy(rows, i + 1, max, before + rest, |before| + k)
  {
    hide IsMessageOf, IsPlaceholderFor;
    var messages := before + rest;
    assert messages[|before| + k] == rest[k];
    assert k > 0 ==> messages[|before| + k - 1] == rest[k - 1];
    assert k + 1 < |rest| ==> messages[|before| + k + 1] == rest[k + 1];
  }

  lemma ExplainedFirst(rows: seq<Row>, max: int, rest: seq<Shown>, k: nat)
    requires rows != [] && !IsSkipped(rows[0])
    requires k < if IsOrphan(rows[0], rows[1..]) then 2 else 1
    ensures var first, answer := ShownRow(rows[0], max), Answer(rows[0], max);
            var messages := if IsOrphan(rows[0], rows[1..]) then [first] + ([answer] + rest) else [first] + rest;
            ExplainedBy(rows, 0, max, messages, k)
  {
    hide BoundText;
  }

  lemma ExplainedLater(rows: seq<Row>, max: int, before: seq<Shown>, rest: seq<Shown>, k: nat)
    requires rows != [] && k < |rest| && Explained(rows[1..], max, rest, k)
    ensures Explained(rows, max, before + rest, |before| + k)
  {
    hide ExplainedBy;
    var i: nat :| i < |rows[1..]| && ExplainedBy(rows[1..], i, max, rest, k);
    ExplainedShifts(rows, i, max, before, rest, k);
  }

  ghost predicate AllExplained(rows: seq<Row>, max: int, messages: seq<Shown>) {
    forall k: nat :: k < |messages| ==> Explained(rows, max, messages, k)
  }

  lemma AllExplainedMore(rows: seq<Row>, max: int, before: seq<Shown>, rest: seq<Shown>)
    requires rows != [] && AllExplained(rows[1..], max, rest)
    requires forall k: nat :: k < |before| ==> Explained(rows, max, before + rest, k)
    ensures AllExplained(rows, max, before + rest)
  {
    hide Explained;
    forall k: nat | |before| <= k < |before + rest| ensures Explained(rows, max, before + rest, k) {
      ExplainedLater(rows, max, before, rest, k - |before|);
    }
  }

  lemma FirstExplained(rows: seq<Row>, max: int, rest: seq<Shown>)
    requires rows != [] && !IsSkipped(rows[0])
    ensures var first, answer := ShownRow(rows[0], max), Answer(rows[0], max);
            if IsOrphan(rows[0], rows[1..]) then
              Explained(rows, max, [first] + ([answer] + rest), 0) && Explained(rows, max, [first] + ([answer] + rest), 1)
            else Explained(rows, max, [first] + rest, 0)
  {
    ExplainedFirst(rows, max, rest, 0);
    if IsOrphan(rows[0], rows[1..]) { ExplainedFirst(rows, max, rest, 1); }
    hide ExplainedBy, ShownRow, Answer, IsOrphan;
  }

  lemma OneExplained(rows: seq<Row>, max: int, first: Shown, rest: seq<Shown>)
    requires rows != [] && AllExplained(rows[1..], max, rest) && Explained(rows, max, [first] + rest, 0)
    ensures AllExplained(rows, max, [first] + rest)
  {
    hide *;
    AllExplainedMore(rows, max, [first], rest);
  }

  lemma TwoExplained(rows: seq<Row>, max: int, first: Shown, answer: Shown, rest: seq<Shown>)
    requires rows != [] && AllExplained(rows[1..], max, rest)
    requires Explained(rows, max, [first] + ([answer] + rest), 0) && Explained(rows, max, [first] + ([answer] + rest), 1)
    ensures AllExplained(rows, max, [first] + ([answer] + rest))
  {
    hide *;
    assert [first] + ([answer] + rest) == [first, answer] + rest;
    AllExplainedMore(rows, max, [first, answer], rest);
  }

  lemma NoneExplained(rows: seq<Row>, max: int, rest: seq<Shown>)
    requires rows != [] && AllExplained(rows[1..], max, rest)
    ensures AllExplained(rows, max, rest)
  {
    hide *;
    assert [] + rest == rest;
    AllExplainedMore(rows, max, [], rest);
  }

  lemma {:induction false} AllMessages(rows: seq<Row>, max: int)
    ensures AllExplained(rows, max, Paired(rows, max))
  {
    if rows != [] {
      AllMessages(rows[1..], max);
      PairedFirst(rows, max);
      hide *;
      var first, answer, rest := ShownRow(rows[0], max), Answer(rows[0], max), Paired(rows[1..], max);
      if IsSkipped(rows[0]) {
        NoneExplained(rows, max, rest);
      } else {
        FirstExplained(rows, max, rest);
        if IsOrphan(rows[0], rows[1..]) {
          TwoExplained(rows, max, first, answer, rest);
        } else {
          OneExplained(rows, max, first, rest);
        }
      }
    }
  }

  /** Every message for the model, one by one. */
  lemma EveryMessage(rows: seq<Row>, max: int, k: nat)
    requires k < |Paired(rows, max)|
    ensures Explained(rows, max, Paired(rows, max), k)
  {
    AllMessages(rows, max);
  }
}
