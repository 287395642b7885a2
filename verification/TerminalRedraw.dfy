/** The rewriting of bottom-up line erasing into a top-down pass, on a terminal that obeys the control
  * functions CUU, CUD, CHA and EL of ECMA-48 (sections 8.3.22, 8.3.19, 8.3.9 and 8.3.41).
  *
  * Everything else a terminal does with a character or a control sequence is a parameter, so what is
  * proved holds whatever else the output holds. */
module TerminalRedraw {
  import opened Options

  const ESC := '\U{001B}'

  // ---------------------------------------------------------------- the terminal

  datatype RawScreen = RawScreen(lines: seq<string>, row: nat, column: nat)

  /** A screen whose cursor is on one of its lines; an erased line is the empty text. */
  type Screen = s: RawScreen | s.row < |s.lines| witness RawScreen([""], 0, 0)

  /** What the terminal does with everything the rewriter does not touch. */
  datatype Device = Device(
    glyph: (Screen, char) -> Screen, escape: (Screen, char) -> Screen, control: (Screen, string, char) -> Screen)

  datatype Parser = Ground | Escaped | Csi(parameters: string)

  datatype Terminal = Terminal(parser: Parser, screen: Screen)

  function Up(s: Screen, n: nat): Screen { s.(row := if s.row < n then 0 else s.row - n) }

  function Down(s: Screen, n: nat): Screen {
    s.(row := if s.row + n < |s.lines| then s.row + n else |s.lines| - 1)
  }

  function EraseLine(s: Screen): Screen { s.(lines := s.lines[s.row := ""]) }

  function ToColumn(s: Screen, column: nat): Screen { s.(column := column) }

  predicate IsDigit(c: char) { '0' <= c <= '9' }

  predicate AllDigits(s: string) { forall i :: 0 <= i < |s| ==> IsDigit(s[i]) }

  function Value(digits: string): nat
    requires AllDigits(digits)
  {
    if digits == "" then 0 else 10 * Value(digits[..|digits| - 1]) + (digits[|digits| - 1] as int - '0' as int)
  }

  /** A count: an absent or zero parameter means one. */
  function Count(parameters: string): nat
    requires AllDigits(parameters)
  {
    if Value(parameters) == 0 then 1 else Value(parameters)
  }

  function Execute(d: Device, s: Screen, parameters: string, final: char): Screen {
    if final == 'K' && parameters == "2" then EraseLine(s)
    else if final == 'A' && AllDigits(parameters) then Up(s, Count(parameters))
    else if final == 'B' && AllDigits(parameters) then Down(s, Count(parameters))
    else if final == 'G' && AllDigits(parameters) then ToColumn(s, Count(parameters) - 1)
    else d.control(s, parameters, final)
  }

  /** An escape character always begins a new sequence, whatever was being read. */
  function Feed(d: Device, t: Terminal, c: char): Terminal {
    if c == ESC then t.(parser := Escaped)
    else match t.parser
      case Ground => t.(screen := d.glyph(t.screen, c))
      case Escaped => if c == '[' then t.(parser := Csi("")) else Terminal(Ground, d.escape(t.screen, c))
      case Csi(parameters) =>
        if '\U{0020}' <= c <= '\U{003F}' then t.(parser := Csi(parameters + [c]))
        else Terminal(Ground, Execute(d, t.screen, parameters, c))
  }

  function Show(d: Device, t: Terminal, output: string): Terminal
    decreases |output|
  {
    if output == "" then t else Show(d, Feed(d, t, output[0]), output[1..])
  }

  // ---------------------------------------------------------------- the rewriter

  const ERASE_LINE: string := [ESC, '[', '2', 'K']
  const CURSOR_UP_ONE: string := [ESC, '[', '1', 'A']
  const CURSOR_DOWN_ONE: string := [ESC, '[', '1', 'B']
  const CURSOR_LEFT: string := [ESC, '[', 'G']
  const UNIT: string := [ESC, '[', '2', 'K', ESC, '[', '1', 'A']
  const TAIL: string := [ESC, '[', '2', 'K', ESC, '[', 'G']

  function Repeat(s: string, n: nat): string {
    if n == 0 then "" else s + Repeat(s, n - 1)
  }

  /** A match of the pattern with `k` repetitions. */
  function Sequence(k: nat): string { Repeat(UNIT, k) + TAIL }

  function Units(s: string): nat {
    if UNIT <= s then 1 + Units(s[|UNIT|..]) else 0
  }

  /** The number of repetitions of the pattern's match at the start of `s`, if there is one. */
  function MatchAt(s: string): (k: Option<nat>)
  {
    var k := Units(s);
    if k >= 1 && Sequence(k) <= s then Some(k) else None
  }

  function Decimal(n: nat): string {
    if n < 10 then [('0' as int + n) as char] else Decimal(n / 10) + [('0' as int + n % 10) as char]
  }

  /** Up to the topmost line, erase each line going down, and back up. */
  function Bounded(k: nat): string {
    [ESC, '['] + Decimal(k) + "A" + Repeat(ERASE_LINE + CURSOR_DOWN_ONE, k) + ERASE_LINE
    + [ESC, '['] + Decimal(k) + "A" + CURSOR_LEFT
  }

  function Rewritten(k: nat): string { if k <= 1 then Sequence(k) else Bounded(k) }

  /** Replace every match, from left to right. */
  function Optimize(output: string): string
    decreases |output|
  {
    if output == "" then ""
    else
      match MatchAt(output)
      case Some(k) =>
        SequenceLength(k);
        Rewritten(k) + Optimize(output[|Sequence(k)|..])
      case None => [output[0]] + Optimize(output[1..])
  }

  lemma {:induction false} SequenceLength(k: nat)
    ensures |Sequence(k)| == 8 * k + 7 && |Repeat(UNIT, k)| == 8 * k
  {
    if k > 0 { SequenceLength(k - 1); }
  }

  // ---------------------------------------------------------------- the methods

  function Occurrences(value: string, search: string): nat
    requires search != ""
    decreases |value|
  {
    if value == "" then 0
    else if search <= value then 1 + Occurrences(value[|search|..], search)
    else Occurrences(value[1..], search)
  }

  method IndexOf(value: string, search: string, from: nat) returns (found: Option<nat>)
    requires search != "" && from <= |value|
    ensures found.Some? ==> from <= found.value && found.value + |search| <= |value|
                            && Occurrences(value[from..], search) == 1 + Occurrences(value[found.value + |search|..], search)
    ensures found.None? ==> Occurrences(value[from..], search) == 0
  {
    var index := from;
    while index < |value|
      invariant from <= index <= |value|
      invariant Occurrences(value[from..], search) == Occurrences(value[index..], search)
    {
      if search <= value[index..] {
        assert value[index..][|search|..] == value[index + |search|..];
        return Some(index);
      }
      assert value[index..][1..] == value[index + 1..];
      index := index + 1;
    }
    found := None;
  }

  method CountOccurrences(value: string, search: string) returns (count: nat)
    requires search != ""
    ensures count == Occurrences(value, search)
  {
    count := 0;
    var index := 0;
    assert value[0..] == value;
    while true
      invariant index <= |value| && count + Occurrences(value[index..], search) == Occurrences(value, search)
      decreases |value| - index
    {
      var found := IndexOf(value, search, index);
      if found.None? {
        return;
      }
      count := count + 1;
      index := found.value + |search|;
    }
  }

  /** The replacement for one match of the pattern. */
  method RewriteSequence(sequence: string, ghost k: nat) returns (bounded: string)
    requires sequence == Sequence(k)
    ensures bounded == Rewritten(k)
  {
    OccurrencesInSequence(k);
    var lineCount := CountOccurrences(sequence, ERASE_LINE);
    var cursorUpCount := lineCount - 1;
    if cursorUpCount <= 1 {
      return sequence;
    }
    var erase := [ESC, '['] + Decimal(cursorUpCount) + "A";
    ghost var start := erase;
    for line := 0 to lineCount
      invariant erase == start + Repeat(ERASE_LINE + CURSOR_DOWN_ONE, if line < lineCount then line else line - 1)
                         + (if line < lineCount then "" else ERASE_LINE)
    {
      RepeatMore(ERASE_LINE + CURSOR_DOWN_ONE, line);
      erase := erase + ERASE_LINE;
      if line < lineCount - 1 {
        erase := erase + CURSOR_DOWN_ONE;
      }
    }
    bounded := erase + [ESC, '['] + Decimal(cursorUpCount) + "A" + CURSOR_LEFT;
  }

  lemma {:induction false} RepeatMore(s: string, n: nat)
    ensures Repeat(s, n + 1) == Repeat(s, n) + s
  {
    if n > 0 { RepeatMore(s, n - 1); }
  }

  lemma {:induction false} OccurrencesInSequence(k: nat)
    ensures Occurrences(Sequence(k), ERASE_LINE) == k + 1
  {
    if k == 0 {
      assert Sequence(0) == TAIL;
      SkipsTo(TAIL, 3);
    } else {
      OccurrencesInSequence(k - 1);
      var s := Sequence(k);
      assert s == UNIT + Sequence(k - 1);
      forall i | 4 <= i < 8 ensures !(ERASE_LINE <= s[i..]) {
        assert s[i..][0] == s[i] && s[i..][2] == s[i + 2];
      }
      SkipsTo(Sequence(k), 4);
      assert Sequence(k)[8..] == Sequence(k - 1);
    }
  }

  /** An erase at the start, then `n` characters at which no erase begins. */
  lemma SkipsTo(s: string, n: nat)
    requires n <= 4 && |s| >= 4 + n && ERASE_LINE <= s
    requires forall i :: 4 <= i < 4 + n ==> !(ERASE_LINE <= s[i..])
    ensures Occurrences(s, ERASE_LINE) == 1 + Occurrences(s[4 + n..], ERASE_LINE)
  {
    Drops(s, 4, n);
  }

  lemma {:induction false} Drops(s: string, from: nat, n: nat)
    requires from + n <= |s|
    requires forall i :: from <= i < from + n ==> !(ERASE_LINE <= s[i..])
    ensures Occurrences(s[from..], ERASE_LINE) == Occurrences(s[from + n..], ERASE_LINE)
    decreases n
  {
    if n > 0 {
      assert s[from..][1..] == s[from + 1..];
      Drops(s, from + 1, n - 1);
    }
  }

  // ---------------------------------------------------------------- decimal parameters

  lemma {:induction false} DecimalReads(n: nat)
    ensures Decimal(n) != "" && AllDigits(Decimal(n)) && Value(Decimal(n)) == n
  {
    if n >= 10 {
      DecimalReads(n / 10);
      var high, low := Decimal(n / 10), ('0' as int + n % 10) as char;
      assert Decimal(n) == high + [low];
      assert (high + [low])[..|high|] == high;
    } else {
      assert Value(Decimal(n)[..0]) == 0;
    }
  }

  // ---------------------------------------------------------------- what sequences do

  lemma {:induction false} ShowAppend(d: Device, t: Terminal, a: string, b: string)
    ensures Show(d, t, a + b) == Show(d, Show(d, t, a), b)
    decreases |a|
  {
    if a == "" {
      assert a + b == b;
    } else {
      assert (a + b)[1..] == a[1..] + b;
      ShowAppend(d, Feed(d, t, a[0]), a[1..], b);
    }
  }

  lemma {:induction false} ShowParameters(d: Device, screen: Screen, read: string, digits: string)
    requires AllDigits(digits)
    ensures Show(d, Terminal(Csi(read), screen), digits) == Terminal(Csi(read + digits), screen)
    decreases |digits|
  {
    if digits == "" {
      assert read + digits == read;
    } else {
      ShowParameters(d, screen, read + [digits[0]], digits[1..]);
      assert read + [digits[0]] + digits[1..] == read + digits;
    }
  }

  function Control(parameters: string, final: char): string { [ESC, '['] + parameters + [final] }

  /** A control sequence does the same from every parser state. */
  lemma ShowControl(d: Device, t: Terminal, parameters: string, final: char)
    requires AllDigits(parameters) && 'A' <= final <= 'Z'
    ensures Show(d, t, Control(parameters, final)) == Terminal(Ground, Execute(d, t.screen, parameters, final))
  {
    var csi := Terminal(Csi(""), t.screen);
    assert [ESC, '['][1..] == ['['] && ['['][1..] == "";
    assert Show(d, t, [ESC, '[']) == Show(d, t.(parser := Escaped), ['[']) == Show(d, csi, "") == csi;
    ShowAppend(d, t, [ESC, '['], parameters + [final]);
    assert [ESC, '['] + (parameters + [final]) == Control(parameters, final);
    ShowAppend(d, csi, parameters, [final]);
    ShowParameters(d, t.screen, "", parameters);
    assert "" + parameters == parameters;
    assert [final][1..] == "";
  }

  lemma ShowErase(d: Device, t: Terminal)
    ensures Show(d, t, ERASE_LINE) == Terminal(Ground, EraseLine(t.screen))
  {
    ShowControl(d, t, "2", 'K');
    assert Control("2", 'K') == ERASE_LINE;
  }

  lemma ShowUp(d: Device, t: Terminal, n: nat)
    requires n > 0
    ensures Show(d, t, Control(Decimal(n), 'A')) == Terminal(Ground, Up(t.screen, n))
  {
    DecimalReads(n);
    ShowControl(d, t, Decimal(n), 'A');
  }

  lemma ShowDownOne(d: Device, t: Terminal)
    ensures Show(d, t, CURSOR_DOWN_ONE) == Terminal(Ground, Down(t.screen, 1))
  {
    DecimalReads(1);
    ShowControl(d, t, Decimal(1), 'B');
    assert Control(Decimal(1), 'B') == CURSOR_DOWN_ONE;
  }

  lemma ShowLeft(d: Device, t: Terminal)
    ensures Show(d, t, CURSOR_LEFT) == Terminal(Ground, ToColumn(t.screen, 0))
  {
    ShowControl(d, t, "", 'G');
    assert Control("", 'G') == CURSOR_LEFT;
  }

  /** The lines from `lo` to `hi` erased. */
  function Erased(lines: seq<string>, lo: int, hi: int): seq<string> {
    seq(|lines|, i requires 0 <= i < |lines| => if lo <= i <= hi then "" else lines[i])
  }

  function Highest(s: Screen, k: nat): nat { if s.row < k then 0 else s.row - k }

  function Lowest(s: Screen, n: nat): nat { if s.row + n < |s.lines| then s.row + n else |s.lines| - 1 }

  /** Erasing going up: every line up to `k` above is erased, and the cursor is on the topmost of them. */
  lemma {:induction false} EraseGoingUp(d: Device, t: Terminal, k: nat)
    ensures Show(d, t, Sequence(k))
            == Terminal(Ground, RawScreen(Erased(t.screen.lines, Highest(t.screen, k), t.screen.row), Highest(t.screen, k), 0))
    decreases k
  {
    var s := t.screen;
    if k == 0 {
      assert Sequence(0) == ERASE_LINE + CURSOR_LEFT;
      ShowAppend(d, t, ERASE_LINE, CURSOR_LEFT);
      ShowErase(d, t);
      ShowLeft(d, Terminal(Ground, EraseLine(s)));
      assert EraseLine(s).lines == Erased(s.lines, s.row, s.row);
    } else {
      assert Sequence(k) == ERASE_LINE + (CURSOR_UP_ONE + Sequence(k - 1));
      ShowAppend(d, t, ERASE_LINE, CURSOR_UP_ONE + Sequence(k - 1));
      ShowErase(d, t);
      var t1 := Terminal(Ground, EraseLine(s));
      ShowAppend(d, t1, CURSOR_UP_ONE, Sequence(k - 1));
      ShowUp(d, t1, 1);
      assert Control(Decimal(1), 'A') == CURSOR_UP_ONE;
      var t2 := Terminal(Ground, Up(t1.screen, 1));
      hide Show, Sequence;
      EraseGoingUp(d, t2, k - 1);
      assert Highest(t2.screen, k - 1) == Highest(s, k);
      assert Erased(t2.screen.lines, Highest(s, k), t2.screen.row) == Erased(s.lines, Highest(s, k), s.row);
    }
  }

  /** Erasing going down: every line up to `n` below is erased, and the cursor is on the lowest of them. */
  lemma {:induction false} EraseGoingDown(d: Device, t: Terminal, n: nat)
    ensures Show(d, t, Repeat(ERASE_LINE + CURSOR_DOWN_ONE, n) + ERASE_LINE)
            == Terminal(Ground, RawScreen(Erased(t.screen.lines, t.screen.row, t.screen.row + n), Lowest(t.screen, n), t.screen.column))
    decreases n
  {
    var s := t.screen;
    var unit := ERASE_LINE + CURSOR_DOWN_ONE;
    if n == 0 {
      assert Repeat(unit, 0) + ERASE_LINE == ERASE_LINE;
      ShowErase(d, t);
      assert EraseLine(s).lines == Erased(s.lines, s.row, s.row);
    } else {
      var rest := Repeat(unit, n - 1) + ERASE_LINE;
      assert Repeat(unit, n) + ERASE_LINE == ERASE_LINE + (CURSOR_DOWN_ONE + rest);
      ShowAppend(d, t, ERASE_LINE, CURSOR_DOWN_ONE + rest);
      ShowErase(d, t);
      var t1 := Terminal(Ground, EraseLine(s));
      ShowAppend(d, t1, CURSOR_DOWN_ONE, rest);
      ShowDownOne(d, t1);
      var t2 := Terminal(Ground, Down(t1.screen, 1));
      hide Show, Repeat;
      EraseGoingDown(d, t2, n - 1);
      assert Lowest(t2.screen, n - 1) == Lowest(s, n);
      assert Erased(t2.screen.lines, t2.screen.row, t2.screen.row + (n - 1)) == Erased(s.lines, s.row, s.row + n);
    }
  }

  /** The bounded form: it erases as many lines going down from the highest it can reach. */
  lemma ShowBounded(d: Device, t: Terminal, k: nat)
    requires k > 0
    ensures Show(d, t, Bounded(k))
            == Terminal(Ground, RawScreen(Erased(t.screen.lines, Highest(t.screen, k), Highest(t.screen, k) + k), Highest(t.screen, k), 0))
  {
    var s := t.screen;
    var up := Control(Decimal(k), 'A');
    var down := Repeat(ERASE_LINE + CURSOR_DOWN_ONE, k) + ERASE_LINE;
    assert Bounded(k) == up + (down + (up + CURSOR_LEFT));
    ShowAppend(d, t, up, down + (up + CURSOR_LEFT));
    ShowUp(d, t, k);
    var t1 := Terminal(Ground, Up(s, k));
    hide Show, Repeat, Bounded, Erased;
    ShowAppend(d, t1, down, up + CURSOR_LEFT);
    EraseGoingDown(d, t1, k);
    var t2 := Show(d, t1, down);
    ShowAppend(d, t2, up, CURSOR_LEFT);
    ShowUp(d, t2, k);
    ShowLeft(d, Terminal(Ground, Up(t2.screen, k)));
    LowestBack(s, k);
  }

  /** Going up from the lowest line reached ends on the highest again. */
  lemma LowestBack(s: Screen, k: nat)
    ensures var high := Up(s, k);
            Highest(s, k) == high.row
            && Highest(RawScreen(s.lines, Lowest(high, k), 0), k) == Highest(s, k)
  {
  }

  // ---------------------------------------------------------------- the pattern

  /** The greedy reading of the pattern finds its only match: `k` repetitions are matched at the start of
    * `s` exactly when `s` begins with the sequence for `k >= 1`. */
  lemma {:induction false} MatchIsUnique(s: string, k: nat)
    ensures MatchAt(s) == Some(k) <==> k >= 1 && Sequence(k) <= s
  {
    if k >= 1 && Sequence(k) <= s { UnitsOf(s, k); }
  }

  lemma {:induction false} UnitsOf(s: string, k: nat)
    requires Sequence(k) <= s
    ensures Units(s) == k
  {
    if k == 0 {
      assert TAIL <= s;
      assert s[6] == TAIL[6] && UNIT[6] != TAIL[6];
    } else {
      assert Sequence(k) == UNIT + Sequence(k - 1);
      assert UNIT <= s;
      assert s[|UNIT|..] == s[8..];
      assert Sequence(k)[8..] == Sequence(k - 1);
      assert Sequence(k)[8..] <= s[8..];
      UnitsOf(s[8..], k - 1);
    }
  }

  // ---------------------------------------------------------------- when the rewriting is harmless

  /** There is room to go up, or the lines the bounded form erases in addition are blank already. */
  predicate Harmless(s: Screen, k: nat) {
    k <= 1 || k <= s.row || forall i :: s.row < i <= k && i < |s.lines| ==> s.lines[i] == ""
  }

  /** One rewritten sequence leaves the same screen and cursor as the original, from any parser state,
    * exactly when it is harmless: always if the cursor has at least `k` lines above it. */
  lemma RewriteIsHarmless(d: Device, t: Terminal, k: nat)
    requires k >= 1
    ensures Show(d, t, Rewritten(k)) == Show(d, t, Sequence(k)) <==> Harmless(t.screen, k)
  {
    if k > 1 {
      EraseGoingUp(d, t, k);
      ShowBounded(d, t, k);
      var s := t.screen;
      var high := Highest(s, k);
      hide Show, Sequence, Bounded;
      var a, b := Erased(s.lines, high, s.row), Erased(s.lines, high, high + k);
      if Harmless(s, k) {
        assert a == b;
      } else {
        var i :| s.row < i <= k && i < |s.lines| && s.lines[i] != "";
        assert a[i] == s.lines[i] && b[i] == "";
      }
    }
  }

  /** At every match the output reaches, the rewriting is harmless there. */
  ghost predicate AllHarmless(d: Device, t: Terminal, output: string)
    decreases |output|
  {
    if output == "" then true
    else
      match MatchAt(output)
      case Some(k) =>
        SequenceLength(k);
        Harmless(t.screen, k) && AllHarmless(d, Show(d, t, Sequence(k)), output[|Sequence(k)|..])
      case None => AllHarmless(d, Feed(d, t, output[0]), output[1..])
  }

  /** How far the rewriter moves on in one turn: past a match, or past one character. */
  function Turn(output: string): (n: nat)
    requires output != ""
    ensures 1 <= n <= |output|
  {
    match MatchAt(output)
    case Some(k) =>
      SequenceLength(k);
      |Sequence(k)|
    case None => 1
  }

  /** The rewriter comes to position `n`: it does not lie within a match. */
  predicate Boundary(output: string, n: nat)
    decreases |output|
  {
    n == 0 || (output != "" && n >= Turn(output) && Boundary(output[Turn(output)..], n - Turn(output)))
  }

  /** What one turn writes. */
  function Written(output: string): string
    requires output != ""
  {
    match MatchAt(output) case Some(k) => Rewritten(k) case None => [output[0]]
  }

  /** Cutting the output at a boundary leaves its first turn alone. */
  lemma PrefixTurn(output: string, n: nat)
    requires output != "" && Turn(output) <= n <= |output|
    ensures var turn := Turn(output);
            && output[..n] == output[..turn] + output[turn..][..n - turn]
            && Optimize(output[..n]) == Written(output) + Optimize(output[turn..][..n - turn])
  {
    var prefix, turn := output[..n], Turn(output);
    assert prefix[turn..] == output[turn..][..n - turn];
    match MatchAt(output)
    case Some(k) =>
      SequenceLength(k);
      assert Sequence(k) == output[..turn] && Sequence(k) == prefix[..turn];
      MatchIsUnique(prefix, k);
    case None =>
      if MatchAt(prefix).Some? {
        var k := MatchAt(prefix).value;
        MatchIsUnique(prefix, k);
        assert Sequence(k) <= output;
        MatchIsUnique(output, k);
      }
  }

  /** A turn shows the same rewritten and not exactly when it is harmless. */
  lemma TurnIsHarmless(d: Device, t: Terminal, output: string)
    requires output != ""
    ensures var turn := Turn(output);
            && (Show(d, t, Written(output)) == Show(d, t, output[..turn])
                <==> (MatchAt(output).Some? ==> Harmless(t.screen, MatchAt(output).value)))
            && (AllHarmless(d, t, output)
                <==> (MatchAt(output).Some? ==> Harmless(t.screen, MatchAt(output).value))
                     && AllHarmless(d, Show(d, t, output[..turn]), output[turn..]))
  {
    match MatchAt(output)
    case Some(k) =>
      SequenceLength(k);
      assert output[..Turn(output)] == Sequence(k);
      hide Show, Sequence, Rewritten, Harmless;
      RewriteIsHarmless(d, t, k);
    case None =>
      assert output[..1] == [output[0]] && [output[0]][1..] == "";
      assert Show(d, t, [output[0]]) == Show(d, Feed(d, t, output[0]), "");
  }

  /** Rewritten and not, the prefix up to `n` shows the same. */
  ghost predicate SameUpTo(d: Device, t: Terminal, output: string, n: nat)
    requires n <= |output|
  {
    Show(d, t, Optimize(output[..n])) == Show(d, t, output[..n])
  }

  /** After a first turn that shows the same, the rest decides. */
  lemma SameAfterTurn(d: Device, t: Terminal, output: string, n: nat)
    requires output != "" && Turn(output) <= n <= |output|
    requires Show(d, t, Written(output)) == Show(d, t, output[..Turn(output)])
    ensures var turn := Turn(output);
            SameUpTo(d, t, output, n) <==> SameUpTo(d, Show(d, t, output[..turn]), output[turn..], n - turn)
  {
    PrefixTurn(output, n);
    var turn := Turn(output);
    hide Show, Optimize, Turn, Written;
    ShowAppend(d, t, Written(output), Optimize(output[turn..][..n - turn]));
    ShowAppend(d, t, output[..turn], output[turn..][..n - turn]);
  }

  lemma NothingShown(d: Device, t: Terminal, output: string)
    ensures SameUpTo(d, t, output, 0)
  {
    assert output[..0] == "";
  }

  lemma FirstTurn(d: Device, t: Terminal, output: string, n: nat)
    requires AllHarmless(d, t, output) && Boundary(output, n) && 0 < n <= |output|
    ensures output != "" && var turn := Turn(output);
            && turn <= n && Boundary(output[turn..], n - turn)
            && Show(d, t, Written(output)) == Show(d, t, output[..turn])
            && AllHarmless(d, Show(d, t, output[..turn]), output[turn..])
  {
    assert output != "" && Turn(output) <= n && Boundary(output[Turn(output)..], n - Turn(output));
    TurnIsHarmless(d, t, output);
    hide *;
  }

  lemma {:induction false} HarmlessShowsSame(d: Device, t: Terminal, output: string, n: nat)
    requires AllHarmless(d, t, output) && Boundary(output, n) && n <= |output|
    ensures SameUpTo(d, t, output, n)
    decreases |output|
  {
    hide *;
    if n > 0 {
      FirstTurn(d, t, output, n);
      var turn := Turn(output);
      HarmlessShowsSame(d, Show(d, t, output[..turn]), output[turn..], n - turn);
      SameAfterTurn(d, t, output, n);
    } else {
      NothingShown(d, t, output);
    }
  }

  /** The end of the first harmful match. */
  lemma {:induction false} HarmShows(d: Device, t: Terminal, output: string) returns (n: nat)
    requires !AllHarmless(d, t, output)
    ensures n <= |output| && Boundary(output, n) && !SameUpTo(d, t, output, n)
    decreases |output|
  {
    var turn := Turn(output);
    TurnIsHarmless(d, t, output);
    if Show(d, t, Written(output)) != Show(d, t, output[..turn]) {
      n := turn;
      PrefixTurn(output, n);
      assert output[turn..][..0] == "" && Written(output) + "" == Written(output);
      assert Optimize("") == "";
      hide Show, Optimize, Turn, Written;
    } else {
      hide AllHarmless, Show, SameUpTo, Optimize, Written, Turn;
      var rest := HarmShows(d, Show(d, t, output[..turn]), output[turn..]);
      n := turn + rest;
      SameAfterTurn(d, t, output, n);
    }
  }

  /** The rewriting is harmless at every match exactly when each prefix of the output that ends between matches shows
    * the same rewritten and not: the terminal never differs while the output arrives. */
  lemma HarmlessIffNeverDiffers(d: Device, t: Terminal, output: string)
    ensures AllHarmless(d, t, output)
            <==> forall n: nat :: n <= |output| && Boundary(output, n) ==> SameUpTo(d, t, output, n)
  {
    if AllHarmless(d, t, output) {
      forall n: nat | n <= |output| && Boundary(output, n) ensures SameUpTo(d, t, output, n) {
        HarmlessShowsSame(d, t, output, n);
      }
    } else {
      var n := HarmShows(d, t, output);
    }
  }

  lemma {:induction false} EndIsBoundary(output: string)
    ensures Boundary(output, |output|)
    decreases |output|
  {
    if output != "" { EndIsBoundary(output[Turn(output)..]); }
  }

  /** Rewriting a whole output leaves the final screen, cursor and parser state unchanged, whatever else
    * the output holds, if each rewritten sequence is harmless where it occurs. */
  lemma OptimizeKeepsScreen(d: Device, t: Terminal, output: string)
    requires AllHarmless(d, t, output)
    ensures Show(d, t, Optimize(output)) == Show(d, t, output)
  {
    EndIsBoundary(output);
    HarmlessShowsSame(d, t, output, |output|);
    assert output[..|output|] == output;
  }

  /** With the cursor on the top line of a screen whose second line has text, rewriting the sequence for two
    * lines up erases that text, which the original leaves alone. */
  lemma NearTheTopItErasesMore(d: Device)
    ensures var t := Terminal(Ground, RawScreen(["a", "b"], 0, 0));
            && Show(d, t, Sequence(2)).screen.lines == ["", "b"]
            && Show(d, t, Rewritten(2)).screen.lines == ["", ""]
  {
    var t := Terminal(Ground, RawScreen(["a", "b"], 0, 0));
    EraseGoingUp(d, t, 2);
    ShowBounded(d, t, 2);
  }
}
