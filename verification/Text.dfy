/** Trimming, decimal numbers and colon-joined keys: what the models below share about text. */
module Text {
  /** The characters trimming removes: the Unicode space separators, the line ends and the byte-order mark. */
  predicate IsBlank(c: char) {
    || '\U{0009}' <= c <= '\U{000D}'
    || c == ' ' || c == '\U{00A0}' || c == '\U{1680}'
    || '\U{2000}' <= c <= '\U{200A}'
    || c == '\U{2028}' || c == '\U{2029}' || c == '\U{202F}' || c == '\U{205F}' || c == '\U{3000}' || c == '\U{FEFF}'
  }

  function TrimStart(s: string): string {
    if s != "" && IsBlank(s[0]) then TrimStart(s[1..]) else s
  }

  function TrimEnd(s: string): string {
    if s != "" && IsBlank(s[|s| - 1]) then TrimEnd(s[..|s| - 1]) else s
  }

  function Trim(s: string): string { TrimEnd(TrimStart(s)) }

  /** No blank at either end. */
  predicate IsTrimmed(s: string) {
    s == "" || (!IsBlank(s[0]) && !IsBlank(s[|s| - 1]))
  }

  lemma {:induction false} TrimEndKeepsStart(s: string)
    requires s == "" || !IsBlank(s[0])
    ensures IsTrimmed(TrimEnd(s))
  {
    if s != "" && IsBlank(s[|s| - 1]) { TrimEndKeepsStart(s[..|s| - 1]); }
  }

  lemma {:induction false} TrimStartStrips(s: string)
    ensures var t := TrimStart(s); t == "" || !IsBlank(t[0])
  {
    if s != "" && IsBlank(s[0]) { TrimStartStrips(s[1..]); }
  }

  /** Trimming leaves no blank at the ends, and leaves alone exactly the texts that have none. */
  lemma TrimTrims(s: string)
    ensures IsTrimmed(Trim(s))
    ensures IsTrimmed(s) <==> Trim(s) == s
  {
    TrimStartStrips(s);
    TrimEndKeepsStart(TrimStart(s));
  }

  /** Nothing is left of a text exactly when it is all blank. */
  lemma {:induction false} TrimEmpty(s: string)
    ensures Trim(s) == "" <==> forall i :: 0 <= i < |s| ==> IsBlank(s[i])
  {
    if s == "" {
    } else if IsBlank(s[0]) {
      TrimEmpty(s[1..]);
      assert Trim(s) == Trim(s[1..]);
      if forall i :: 0 <= i < |s[1..]| ==> IsBlank(s[1..][i]) {
        assert forall i :: 0 < i < |s| ==> s[i] == s[1..][i - 1];
      }
    } else {
      TrimEndKeepsStart(s);
      TrimEndNonEmpty(s);
    }
  }

  lemma {:induction false} TrimEndNonEmpty(s: string)
    requires s != "" && !IsBlank(s[0])
    ensures TrimEnd(s) != ""
  {
    if IsBlank(s[|s| - 1]) { TrimEndNonEmpty(s[..|s| - 1]); }
  }

  /** A number in decimal. */
  function Digits(n: nat): string {
    (if n < 10 then "" else Digits(n / 10)) + [(n % 10) as char + '0']
  }

  /** The text before and after the first of a character determines both. */
  lemma SplitAtFirst(c: char, a: string, b: string, a': string, b': string)
    requires c !in a && c !in a' && a + [c] + b == a' + [c] + b'
    ensures a == a' && b == b'
  {
    var whole, whole' := a + [c] + b, a' + [c] + b';
    assert whole[|a|] == c && whole'[|a'|] == c;
    assert forall i :: 0 <= i < |a| ==> whole[i] == a[i];
    assert forall i :: 0 <= i < |a'| ==> whole'[i] == a'[i];
    assert |a| == |a'|;
    assert a == whole[..|a|] && a' == whole'[..|a|] && b == whole[|a| + 1..] && b' == whole'[|a| + 1..];
  }

  /** The text before and after the last of a character determines both. */
  lemma SplitAtLast(c: char, a: string, b: string, a': string, b': string)
    requires c !in b && c !in b' && a + [c] + b == a' + [c] + b'
    ensures a == a' && b == b'
  {
    var whole, whole' := a + [c] + b, a' + [c] + b';
    assert whole[|a|] == c && whole'[|a'|] == c;
    assert forall i :: |a| < i < |whole| ==> whole[i] == b[i - |a| - 1];
    assert forall i :: |a'| < i < |whole| ==> whole'[i] == b'[i - |a'| - 1];
    assert |a| == |a'|;
    assert a == whole[..|a|] && a' == whole'[..|a|] && b == whole[|a| + 1..] && b' == whole'[|a| + 1..];
  }

  lemma {:induction false} DigitsHaveNoColon(n: nat)
    ensures Digits(n) != "" && forall c :: c in Digits(n) ==> '0' <= c <= '9'
    ensures ':' !in Digits(n)
  {
    if n >= 10 { DigitsHaveNoColon(n / 10); }
  }

  lemma {:induction false} DigitsDiffer(m: nat, n: nat)
    requires Digits(m) == Digits(n)
    ensures m == n
  {
    var a, b := Digits(m), Digits(n);
    assert a[|a| - 1] == (m % 10) as char + '0' && b[|b| - 1] == (n % 10) as char + '0';
    assert m % 10 == n % 10;
    DigitsHaveNoColon(m / 10);
    DigitsHaveNoColon(n / 10);
    if m >= 10 && n >= 10 {
      assert Digits(m / 10) == a[..|a| - 1] && Digits(n / 10) == b[..|b| - 1];
      DigitsDiffer(m / 10, n / 10);
    }
  }
}
