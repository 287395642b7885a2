/** The comment stripper and the statement counter of the read-only SQL guard: two scanners, written
  * separately, that must agree on what is inside quotes. */
module SqlScanners {
  import opened Options
  import opened Text

  datatype Quote = Outside | InSingle | InDouble

  /** What the stripper makes of its input, piece by piece: a character copied in some quote state, or a
    * comment, for which one space is written. */
  datatype Piece = Kept(c: char, quote: Quote) | Comment(text: string)

  function Mark(q: Quote): char
    requires q != Outside
  {
    if q == InSingle then '\'' else '"'
  }

  function Entered(c: char): Quote {
    if c == '\'' then InSingle else if c == '"' then InDouble else Outside
  }

  predicate Opens(s: string) {
    |s| >= 2 && ((s[0] == '-' && s[1] == '-') || (s[0] == '/' && s[1] == '*'))
  }

  /** The length of what a line comment swallows after its dashes: up to the line end, which stays. */
  function LineLength(s: string): (n: nat)
    ensures n <= |s|
  {
    if s == "" || s[0] == '\n' || s[0] == '\r' then 0 else 1 + LineLength(s[1..])
  }

  /** The length of what a block comment swallows after its opener: up to and with the first closer. */
  function BlockLength(s: string): (n: nat)
    ensures n <= |s|
  {
    if s == "" then 0 else if |s| >= 2 && s[0] == '*' && s[1] == '/' then 2 else 1 + BlockLength(s[1..])
  }

  function CommentLength(s: string): (n: nat)
    requires Opens(s)
    ensures 2 <= n <= |s|
  {
    2 + if s[0] == '-' then LineLength(s[2..]) else BlockLength(s[2..])
  }

  /** The stripper's reading of `s` from quote state `q`. */
  function Pieces(q: Quote, s: string): seq<Piece>
    decreases |s|
  {
    if s == "" then []
    else if q != Outside then
      if s[0] == Mark(q) && |s| >= 2 && s[1] == Mark(q) then [Kept(s[0], q), Kept(s[1], q)] + Pieces(q, s[2..])
      else [Kept(s[0], q)] + Pieces(if s[0] == Mark(q) then Outside else q, s[1..])
    else if Opens(s) then [Comment(s[..CommentLength(s)])] + Pieces(Outside, s[CommentLength(s)..])
    else [Kept(s[0], Outside)] + Pieces(Entered(s[0]), s[1..])
  }

  function Written(p: Piece): char { if p.Kept? then p.c else ' ' }

  function WrittenIn(p: Piece): Quote { if p.Kept? then p.quote else Outside }

  function Write(pieces: seq<Piece>): string {
    if pieces == [] then "" else [Written(pieces[0])] + Write(pieces[1..])
  }

  function Strip(s: string): string { Write(Pieces(Outside, s)) }

  /** The text the pieces were read from. */
  function Read(pieces: seq<Piece>): string {
    if pieces == [] then ""
    else (if pieces[0].Kept? then [pieces[0].c] else pieces[0].text) + Read(pieces[1..])
  }

  // ---------------------------------------------------------------- the statement counter

  /** The counter's quote flags when it meets each character of `s`. */
  function Flags(q: Quote, s: string): seq<Quote>
    decreases |s|
  {
    if s == "" then []
    else if q != Outside && s[0] == Mark(q) && |s| >= 2 && s[1] == Mark(q) then [q, q] + Flags(q, s[2..])
    else [q] + Flags(NextFlag(q, s[0]), s[1..])
  }

  function NextFlag(q: Quote, c: char): Quote {
    if q == Outside then Entered(c) else if c == Mark(q) then Outside else q
  }

  predicate AllBlank(s: string) {
    forall i :: 0 <= i < |s| ==> IsBlank(s[i])
  }

  /** Some unquoted semicolon is followed by text that is not blank. */
  ghost predicate SecondStatement(q: Quote, s: string) {
    exists i :: 0 <= i < |s| && i < |Flags(q, s)| && s[i] == ';' && Flags(q, s)[i] == Outside && !AllBlank(s[i + 1..])
  }

  // ---------------------------------------------------------------- the methods

  /** The loop's promise: what is written so far, and what is still to come from here. */
  ghost predicate OnTrack(sql: string, result: string, q: Quote, index: nat) {
    index <= |sql| && result + Write(Pieces(q, sql[index..])) == Strip(sql)
  }

  predicate DoubledAt(q: Quote, sql: string, index: nat) {
    q != Outside && index + 1 < |sql| && sql[index] == Mark(q) && sql[index + 1] == Mark(q)
  }

  predicate OpensAt(sql: string, index: nat) {
    && index + 1 < |sql|
    && ((sql[index] == '-' && sql[index + 1] == '-') || (sql[index] == '/' && sql[index + 1] == '*'))
  }

  /** The length of the comment that opens at `index`. */
  function CommentLengthAt(sql: string, index: nat): nat
    requires OpensAt(sql, index)
  {
    2 + if sql[index] == '-' then LineLength(sql[index + 2..]) else BlockLength(sql[index + 2..])
  }

  lemma KeepOne(sql: string, result: string, q: Quote, index: nat)
    requires OnTrack(sql, result, q, index) && index < |sql|
    requires !DoubledAt(q, sql, index) && !(q == Outside && OpensAt(sql, index))
    ensures OnTrack(sql, result + [sql[index]], NextFlag(q, sql[index]), index + 1)
  {
  }

  lemma KeepTwo(sql: string, result: string, q: Quote, index: nat)
    requires OnTrack(sql, result, q, index) && index < |sql| && DoubledAt(q, sql, index)
    ensures OnTrack(sql, result + [sql[index]] + [sql[index + 1]], q, index + 2)
  {
    StripDoubled(q, sql[index..]);
    hide Write, Pieces, Strip;
    assert sql[index..][2..] == sql[index + 2..];
    var left := Write(Pieces(q, sql[index + 2..]));
    assert result + ([sql[index], sql[index + 1]] + left) == result + [sql[index]] + [sql[index + 1]] + left;
  }

  lemma SkipOne(sql: string, result: string, index: nat, next: nat)
    requires OnTrack(sql, result, Outside, index) && index < |sql| && OpensAt(sql, index)
    requires next == index + CommentLengthAt(sql, index)
    ensures OnTrack(sql, result + " ", Outside, next)
  {
  }

  lemma OnTrackEnds(sql: string, q: Quote)
    ensures OnTrack(sql, "", Outside, 0)
    ensures forall result, index :: index >= |sql| && OnTrack(sql, result, q, index) ==> result == Strip(sql)
  {
    assert sql[0..] == sql && sql[|sql|..] == "" && Write(Pieces(q, "")) == "";
    hide Write, Pieces, Strip;
    assert "" + Strip(sql) == Strip(sql);
  }

  method StripSqlComments(sql: string) returns (result: string)
    ensures result == Strip(sql)
  {
    result := "";
    var inSingleQuote, inDoubleQuote := false, false;
    var index := 0;
    assert sql[0..] == sql;
    OnTrackEnds(sql, Outside);
    OnTrackEnds(sql, InSingle);
    OnTrackEnds(sql, InDouble);
    hide Write, Pieces, Strip, OnTrack, LineLength, BlockLength;
    while index < |sql|
      invariant !(inSingleQuote && inDoubleQuote)
      invariant OnTrack(sql, result, QuoteOf(inSingleQuote, inDoubleQuote), index)
    {
      var ch := sql[index];
      var doubled := index + 1 < |sql| && sql[index + 1] == ch;
      if inSingleQuote {
        if ch == '\'' && doubled {
          KeepTwo(sql, result, InSingle, index);
          result := result + [ch];
          result := result + [ch];
          index := index + 2;
          continue;
        }
        KeepOne(sql, result, InSingle, index);
        result := result + [ch];
        if ch == '\'' {
          inSingleQuote := false;
        }
        index := index + 1;
        continue;
      }
      if inDoubleQuote {
        if ch == '"' && doubled {
          KeepTwo(sql, result, InDouble, index);
          result := result + [ch];
          result := result + [ch];
          index := index + 2;
          continue;
        }
        KeepOne(sql, result, InDouble, index);
        result := result + [ch];
        if ch == '"' {
          inDoubleQuote := false;
        }
        index := index + 1;
        continue;
      }
      if (ch == '-' && doubled) || (ch == '/' && index + 1 < |sql| && sql[index + 1] == '*') {
        ghost var start := index;
        if ch == '-' {
          index := SkipLine(sql, index + 1);
        } else {
          index := SkipBlock(sql, index + 1);
        }
        SkipOne(sql, result, start, index + 1);
        result := result + " ";
        index := index + 1;
        continue;
      }
      KeepOne(sql, result, Outside, index);
      if ch == '\'' {
        inSingleQuote := true;
      } else if ch == '"' {
        inDoubleQuote := true;
      }
      result := result + [ch];
      index := index + 1;
    }
  }

  function QuoteOf(inSingleQuote: bool, inDoubleQuote: bool): Quote {
    if inSingleQuote then InSingle else if inDoubleQuote then InDouble else Outside
  }

  /** From the second dash of a line comment to its last character. */
  method SkipLine(sql: string, start: nat) returns (index: nat)
    requires start < |sql|
    ensures index == start + LineLength(sql[start + 1..])
  {
    index := start;
    while index + 1 < |sql| && sql[index + 1] != '\n' && sql[index + 1] != '\r'
      invariant start <= index < |sql|
      invariant index + LineLength(sql[index + 1..]) == start + LineLength(sql[start + 1..])
    {
      assert sql[index + 1..][1..] == sql[index + 2..];
      index := index + 1;
    }
  }

  /** From the star of a block comment's opener to its last character. */
  method SkipBlock(sql: string, start: nat) returns (index: nat)
    requires start < |sql|
    ensures index == start + BlockLength(sql[start + 1..])
  {
    index := start;
    while index + 1 < |sql|
      invariant start <= index < |sql|
      invariant index + BlockLength(sql[index + 1..]) == start + BlockLength(sql[start + 1..])
    {
      var rest := sql[index + 1..];
      assert rest[1..] == sql[index + 2..];
      if sql[index + 1] == '*' && index + 2 < |sql| && sql[index + 2] == '/' {
        index := index + 2;
        return;
      }
      index := index + 1;
    }
  }

  method HasMultipleStatements(sql: string) returns (multiple: bool)
    ensures multiple <==> SecondStatement(Outside, sql)
  {
    var inSingleQuote, inDoubleQuote := false, false;
    var index := 0;
    FlagsLength(Outside, sql);
    while index < |sql|
      invariant 0 <= index <= |sql| && !(inSingleQuote && inDoubleQuote)
      invariant Flags(Outside, sql)[index..] == Flags(QuoteOf(inSingleQuote, inDoubleQuote), sql[index..])
      invariant forall i :: 0 <= i < index && sql[i] == ';' && Flags(Outside, sql)[i] == Outside ==> AllBlank(sql[i + 1..])
    {
      var ch := sql[index];
      var rest := sql[index..];
      var doubled := index + 1 < |sql| && sql[index + 1] == ch;
      ghost var q := QuoteOf(inSingleQuote, inDoubleQuote);
      ghost var flags := Flags(Outside, sql);
      assert rest[1..] == sql[index + 1..];
      assert |rest| >= 2 ==> rest[1] == sql[index + 1] && rest[2..] == sql[index + 2..];
      assert flags[index] == flags[index..][0] == q;
      FlagsStep(q, rest);
      assert flags[index + 1..] == flags[index..][1..];
      assert |rest| >= 2 ==> flags[index + 2..] == flags[index..][2..];
      if ch == '\'' && !inDoubleQuote {
        if inSingleQuote && doubled {
          index := index + 2;
          continue;
        }
        inSingleQuote := !inSingleQuote;
        index := index + 1;
        continue;
      }
      if ch == '"' && !inSingleQuote {
        if inDoubleQuote && doubled {
          index := index + 2;
          continue;
        }
        inDoubleQuote := !inDoubleQuote;
        index := index + 1;
        continue;
      }
      TrimEmpty(sql[index + 1..]);
      if ch == ';' && !inSingleQuote && !inDoubleQuote && |Trim(sql[index + 1..])| > 0 {
        return true;
      }
      index := index + 1;
    }
    multiple := false;
  }

  // ---------------------------------------------------------------- one step of each scanner

  predicate Doubled(q: Quote, s: string) {
    q != Outside && |s| >= 2 && s[0] == Mark(q) && s[1] == Mark(q)
  }

  lemma StripDoubled(q: Quote, s: string)
    requires Doubled(q, s)
    ensures Write(Pieces(q, s)) == [s[0], s[1]] + Write(Pieces(q, s[2..]))
  {
  }

  lemma StripComment(s: string)
    requires Opens(s)
    ensures Write(Pieces(Outside, s)) == " " + Write(Pieces(Outside, s[CommentLength(s)..]))
  {
  }

  lemma StripPlain(q: Quote, s: string)
    requires s != "" && !Doubled(q, s) && !(q == Outside && Opens(s))
    ensures Write(Pieces(q, s)) == [s[0]] + Write(Pieces(NextFlag(q, s[0]), s[1..]))
  {
  }

  /** One turn of the stripper's loop. */
  lemma StripStep(q: Quote, s: string)
    requires s != ""
    ensures Doubled(q, s) ==> Write(Pieces(q, s)) == [s[0], s[1]] + Write(Pieces(q, s[2..]))
    ensures !Doubled(q, s) && !(q == Outside && Opens(s)) ==>
              Write(Pieces(q, s)) == [s[0]] + Write(Pieces(NextFlag(q, s[0]), s[1..]))
    ensures q == Outside && Opens(s) ==>
              Write(Pieces(q, s)) == " " + Write(Pieces(Outside, s[CommentLength(s)..]))
  {
    hide Write, Pieces;
    if Doubled(q, s) { StripDoubled(q, s); }
    else if q == Outside && Opens(s) { StripComment(s); }
    else { StripPlain(q, s); }
  }

  lemma FlagsStep(q: Quote, s: string)
    requires s != ""
    ensures var doubled := q != Outside && s[0] == Mark(q) && |s| >= 2 && s[1] == Mark(q);
            && |Flags(q, s)| >= 1
            && (doubled ==> |Flags(q, s)| >= 2 && Flags(q, s)[2..] == Flags(q, s[2..]) && Flags(q, s)[1] == q)
            && (!doubled ==> Flags(q, s)[1..] == Flags(NextFlag(q, s[0]), s[1..]))
            && Flags(q, s)[0] == q
  {
  }

  lemma {:induction false} FlagsLength(q: Quote, s: string)
    ensures |Flags(q, s)| == |s|
    decreases |s|
  {
    if s != "" {
      if q != Outside && s[0] == Mark(q) && |s| >= 2 && s[1] == Mark(q) {
        FlagsLength(q, s[2..]);
      } else {
        FlagsLength(NextFlag(q, s[0]), s[1..]);
      }
    }
  }

  // ---------------------------------------------------------------- what a comment is

  /** A line comment stops before the first line end, or at the end of the text. */
  lemma {:induction false} LineCommentEnds(s: string)
    ensures var n := LineLength(s);
            && (forall i :: 0 <= i < n ==> s[i] != '\n' && s[i] != '\r')
            && (n < |s| ==> s[n] == '\n' || s[n] == '\r')
  {
    if s != "" && s[0] != '\n' && s[0] != '\r' { LineCommentEnds(s[1..]); }
  }

  /** A block comment stops after the first closer, or at the end of the text when there is none. */
  lemma {:induction false} BlockCommentEnds(s: string)
    ensures var n := BlockLength(s);
            && (forall i :: 0 <= i && i + 2 < n ==> !(s[i] == '*' && s[i + 1] == '/'))
            && ((n >= 2 && s[n - 2] == '*' && s[n - 1] == '/')
                || (n == |s| && forall i :: 0 <= i && i + 1 < n ==> !(s[i] == '*' && s[i + 1] == '/')))
  {
    if s != "" && !(|s| >= 2 && s[0] == '*' && s[1] == '/') {
      BlockCommentEnds(s[1..]);
      var n := BlockLength(s);
      forall i | 0 <= i && i + 1 < n && s[i] == '*' && s[i + 1] == '/' ensures i + 2 == n {
        if i > 0 { assert s[1..][i - 1] == '*' && s[1..][i] == '/'; }
      }
    }
  }

  // ---------------------------------------------------------------- what the stripper does to the text

  /** The pieces are the input cut up: kept characters stay in order, and what is dropped is in comments. */
  lemma {:induction false} PiecesRead(q: Quote, s: string)
    ensures Read(Pieces(q, s)) == s
    decreases |s|
  {
    if s != "" {
      var pieces := Pieces(q, s);
      if Doubled(q, s) {
        PiecesRead(q, s[2..]);
        DoubledPieces(q, s);
      } else if q == Outside && Opens(s) {
        PiecesRead(Outside, s[CommentLength(s)..]);
        assert pieces[1..] == Pieces(Outside, s[CommentLength(s)..]);
      } else {
        PiecesRead(NextFlag(q, s[0]), s[1..]);
        assert pieces[1..] == Pieces(NextFlag(q, s[0]), s[1..]);
      }
    }
  }

  lemma DoubledPieces(q: Quote, s: string)
    requires Doubled(q, s) && Read(Pieces(q, s[2..])) == s[2..]
    ensures Read(Pieces(q, s)) == s
  {
  }

  lemma {:induction false} CommentsOpen(q: Quote, s: string)
    ensures forall i :: 0 <= i < |Pieces(q, s)| && Pieces(q, s)[i].Comment? ==> Opens(Pieces(q, s)[i].text)
    decreases |s|
  {
    if s != "" {
      if Doubled(q, s) { CommentsOpen(q, s[2..]); }
      else if q == Outside && Opens(s) { CommentsOpen(Outside, s[CommentLength(s)..]); }
      else { CommentsOpen(NextFlag(q, s[0]), s[1..]); }
    }
  }

  lemma {:induction false} WriteAt(pieces: seq<Piece>)
    ensures |Write(pieces)| == |pieces|
    ensures forall i :: 0 <= i < |pieces| ==> Write(pieces)[i] == Written(pieces[i])
  {
    if pieces != [] { WriteAt(pieces[1..]); }
  }

  lemma {:induction false} ReadIsLonger(pieces: seq<Piece>)
    requires forall i :: 0 <= i < |pieces| && pieces[i].Comment? ==> |pieces[i].text| >= 2
    ensures |pieces| <= |Read(pieces)|
  {
    if pieces != [] { ReadIsLonger(pieces[1..]); }
  }

  /** Stripping never lengthens the text. */
  lemma StripShortens(s: string)
    ensures |Strip(s)| <= |s|
  {
    PiecesRead(Outside, s);
    CommentsOpen(Outside, s);
    WriteAt(Pieces(Outside, s));
    ReadIsLonger(Pieces(Outside, s));
  }

  lemma FirstWritten(q: Quote, s: string)
    ensures var w := Write(Pieces(q, s));
            (s == "" ==> w == "") && (s != "" ==> w != "" && (w[0] == s[0] || w[0] == ' '))
  {
  }

  function Quotes(pieces: seq<Piece>): seq<Quote> {
    if pieces == [] then [] else [WrittenIn(pieces[0])] + Quotes(pieces[1..])
  }

  lemma {:induction false} QuotesAt(pieces: seq<Piece>)
    ensures |Quotes(pieces)| == |pieces|
    ensures forall i :: 0 <= i < |pieces| ==> Quotes(pieces)[i] == WrittenIn(pieces[i])
  {
    if pieces != [] { QuotesAt(pieces[1..]); }
  }

  lemma QuotesDoubled(q: Quote, s: string)
    requires Doubled(q, s)
    ensures Quotes(Pieces(q, s)) == [q, q] + Quotes(Pieces(q, s[2..]))
  {
  }

  lemma QuotesStep(q: Quote, s: string)
    requires s != ""
    ensures Doubled(q, s) ==> Quotes(Pieces(q, s)) == [q, q] + Quotes(Pieces(q, s[2..]))
    ensures q == Outside && Opens(s) ==> Quotes(Pieces(q, s)) == [q] + Quotes(Pieces(q, s[CommentLength(s)..]))
    ensures !Doubled(q, s) && !(q == Outside && Opens(s)) ==>
              Quotes(Pieces(q, s)) == [q] + Quotes(Pieces(NextFlag(q, s[0]), s[1..]))
  {
    var pieces := Pieces(q, s);
    hide CommentLength;
    if Doubled(q, s) {
      QuotesDoubled(q, s);
    } else if q == Outside && Opens(s) {
      assert pieces[1..] == Pieces(Outside, s[CommentLength(s)..]);
    } else {
      assert pieces[1..] == Pieces(NextFlag(q, s[0]), s[1..]);
    }
  }

  /** What the output shows from the state the stripper was in: the counter meets each written character in
    * the quote state it was written in, no comment opens outside quotes, and stripping again changes nothing. */
  ghost predicate Agrees(q: Quote, out: string, quotes: seq<Quote>) {
    && Flags(q, out) == quotes && |quotes| == |out|
    && (forall i :: 0 <= i < |out| && quotes[i] == Outside ==> !Opens(out[i..]))
    && Write(Pieces(q, out)) == out
  }

  lemma AgreesPlain(q: Quote, c: char, out: string, quotes: seq<Quote>)
    requires Agrees(NextFlag(q, c), out, quotes)
    requires !(q != Outside && c == Mark(q) && out != "" && out[0] == Mark(q))
    requires q == Outside && out != "" ==> !(c == '-' && out[0] == '-') && !(c == '/' && out[0] == '*')
    ensures Agrees(q, [c] + out, [q] + quotes)
  {
  }

  lemma AgreesDoubled(q: Quote, out: string, quotes: seq<Quote>)
    requires q != Outside && Agrees(q, out, quotes)
    ensures Agrees(q, [Mark(q), Mark(q)] + out, [q, q] + quotes)
  {
  }

  lemma {:induction false} ScannersAgreeFrom(q: Quote, s: string)
    ensures Agrees(q, Write(Pieces(q, s)), Quotes(Pieces(q, s)))
    decreases |s|
  {
    if s == "" {
      assert Pieces(q, s) == [];
    } else {
      StripStep(q, s);
      QuotesStep(q, s);
      if Doubled(q, s) {
        ScannersAgreeFrom(q, s[2..]);
        hide Write, Pieces, Quotes, Flags;
        AgreesDoubled(q, Write(Pieces(q, s[2..])), Quotes(Pieces(q, s[2..])));
      } else if q == Outside && Opens(s) {
        var rest := s[CommentLength(s)..];
        ScannersAgreeFrom(q, rest);
        hide Write, Pieces, Quotes, Flags, Agrees;
        AgreesPlain(q, ' ', Write(Pieces(q, rest)), Quotes(Pieces(q, rest)));
      } else {
        var q' := NextFlag(q, s[0]);
        ScannersAgreeFrom(q', s[1..]);
        FirstWritten(q', s[1..]);
        hide Write, Pieces, Quotes, Flags, Agrees;
        AgreesPlain(q, s[0], Write(Pieces(q', s[1..])), Quotes(Pieces(q', s[1..])));
      }
    }
  }

  /** Stripping twice is stripping once. */
  lemma StripIsIdempotent(s: string)
    ensures Strip(Strip(s)) == Strip(s)
  {
    ScannersAgreeFrom(Outside, s);
  }

  /** On the stripper's output the two scanners agree about quotes at every character, and no comment
    * opener is left outside them. */
  lemma ScannersAgree(s: string)
    ensures var pieces := Pieces(Outside, s);
            && |Strip(s)| == |pieces| && |Flags(Outside, Strip(s))| == |pieces|
            && (forall i :: 0 <= i < |pieces| ==>
                  Strip(s)[i] == Written(pieces[i]) && Flags(Outside, Strip(s))[i] == WrittenIn(pieces[i]))
            && (forall i :: 0 <= i < |pieces| && Flags(Outside, Strip(s))[i] == Outside ==> !Opens(Strip(s)[i..]))
  {
    var pieces := Pieces(Outside, s);
    ScannersAgreeFrom(Outside, s);
    WriteAt(pieces);
    QuotesAt(pieces);
    hide Write, Pieces, Quotes, Flags;
  }

  /** The counter, run on the stripped text, reports a second statement exactly when the original text has
    * a semicolon outside quotes and comments with non-blank text, not in a comment, after it. */
  lemma SecondStatementSeen(s: string)
    ensures SecondStatement(Outside, Strip(s)) <==>
            exists i, j :: 0 <= i < j < |Pieces(Outside, s)|
              && Pieces(Outside, s)[i] == Kept(';', Outside)
              && Pieces(Outside, s)[j].Kept? && !IsBlank(Pieces(Outside, s)[j].c)
  {
    ScannersAgree(s);
    var pieces, out := Pieces(Outside, s), Strip(s);
    hide Pieces, Strip, Flags, Write;
    if SecondStatement(Outside, out) {
      var i :| 0 <= i < |out| && i < |Flags(Outside, out)| && out[i] == ';' && Flags(Outside, out)[i] == Outside
               && !AllBlank(out[i + 1..]);
      var k :| 0 <= k < |out[i + 1..]| && !IsBlank(out[i + 1..][k]);
      assert out[i + 1 + k] == Written(pieces[i + 1 + k]);
      assert pieces[i] == Kept(';', Outside);
      assert pieces[i + 1 + k].Kept? && !IsBlank(pieces[i + 1 + k].c);
    }
    if i, j :| 0 <= i < j < |pieces| && pieces[i] == Kept(';', Outside) && pieces[j].Kept? && !IsBlank(pieces[j].c) {
      assert out[i] == ';' && Flags(Outside, out)[i] == Outside;
      assert out[i + 1..][j - i - 1] == out[j] == pieces[j].c;
    }
  }

  // ---------------------------------------------------------------- any text, token by token

  /** SQL text as it is written: characters outside quotes, literals with their marks, and comments. A literal or a
    * block comment may be left open by the end of the text. */
  datatype Token =
    | Plain(c: char)
    | Literal(mark: char, content: string) | OpenLiteral(mark: char, content: string)
    | LineComment(text: string)
    | BlockComment(text: string) | OpenBlock(text: string)

  function DoubleMarks(mark: char, content: string): string {
    if content == "" then ""
    else (if content[0] == mark then [mark, mark] else [content[0]]) + DoubleMarks(mark, content[1..])
  }

  function Source(t: Token): string {
    match t
    case Plain(c) => [c]
    case Literal(mark, content) => [mark] + (DoubleMarks(mark, content) + [mark])
    case OpenLiteral(mark, content) => [mark] + DoubleMarks(mark, content)
    case LineComment(text) => "--" + text
    case BlockComment(text) => "/*" + (text + "*/")
    case OpenBlock(text) => "/*" + text
  }

  predicate IsComment(t: Token) { t.LineComment? || t.BlockComment? || t.OpenBlock? }

  function SourceOf(tokens: seq<Token>): string {
    if tokens == [] then "" else Source(tokens[0]) + SourceOf(tokens[1..])
  }

  /** The text with one space for each comment. */
  function WithoutComments(tokens: seq<Token>): string {
    if tokens == [] then ""
    else (if IsComment(tokens[0]) then " " else Source(tokens[0])) + WithoutComments(tokens[1..])
  }

  predicate Starts(text: string, c: char) { text != "" && text[0] == c }

  ghost predicate NoCloser(text: string) {
    forall i :: 0 <= i < |text| - 1 ==> !(text[i] == '*' && text[i + 1] == '/')
  }

  /** The token can stand before `rest`: it is read as that token and no further. */
  ghost predicate Fits(t: Token, rest: string) {
    match t
    case Plain(c) =>
      c != '\'' && c != '"' && !(c == '-' && Starts(rest, '-')) && !(c == '/' && Starts(rest, '*'))
    case Literal(mark, _) => (mark == '\'' || mark == '"') && !Starts(rest, mark)
    case OpenLiteral(mark, _) => (mark == '\'' || mark == '"') && rest == ""
    case LineComment(text) =>
      '\n' !in text && '\r' !in text && (rest == "" || Starts(rest, '\n') || Starts(rest, '\r'))
    case BlockComment(text) => NoCloser(text)
    case OpenBlock(text) => NoCloser(text) && rest == ""
  }

  ghost predicate WellFormed(tokens: seq<Token>) {
    tokens == [] || (Fits(tokens[0], SourceOf(tokens[1..])) && WellFormed(tokens[1..]))
  }

  function KeptAll(text: string, q: Quote): seq<Piece> {
    if text == "" then [] else [Kept(text[0], q)] + KeptAll(text[1..], q)
  }

  function QuoteFor(mark: char): Quote { if mark == '\'' then InSingle else InDouble }

  /** What the stripper makes of a token. */
  function PiecesOf(t: Token): seq<Piece> {
    match t
    case Plain(c) => [Kept(c, Outside)]
    case Literal(mark, content) => [Kept(mark, Outside)] + KeptAll(DoubleMarks(mark, content) + [mark], QuoteFor(mark))
    case OpenLiteral(mark, content) => [Kept(mark, Outside)] + KeptAll(DoubleMarks(mark, content), QuoteFor(mark))
    case LineComment(_) => [Comment(Source(t))]
    case BlockComment(_) => [Comment(Source(t))]
    case OpenBlock(_) => [Comment(Source(t))]
  }

  lemma {:induction false} LineLengthIs(text: string, rest: string)
    requires '\n' !in text && '\r' !in text && (rest == "" || Starts(rest, '\n') || Starts(rest, '\r'))
    ensures LineLength(text + rest) == |text|
  {
    if text == "" {
      assert text + rest == rest;
    } else {
      assert text[0] in text && forall c :: c in text[1..] ==> c in text;
      assert (text + rest)[1..] == text[1..] + rest;
      LineLengthIs(text[1..], rest);
    }
  }

  lemma {:induction false} BlockLengthIs(text: string, rest: string)
    requires NoCloser(text)
    ensures BlockLength(text + ("*/" + rest)) == |text| + 2 && BlockLength(text) == |text|
  {
    if text == "" {
      assert text + ("*/" + rest) == "*/" + rest;
    } else {
      var s := text + ("*/" + rest);
      assert s[1..] == text[1..] + ("*/" + rest);
      assert |text| == 1 ==> s[1] == '*';
      assert |text| > 1 ==> s[1] == text[1] && !(text[0] == '*' && text[1] == '/');
      assert NoCloser(text[1..]);
      BlockLengthIs(text[1..], rest);
    }
  }

  lemma InLiteral(mark: char, c: char, tail: string)
    requires mark == '\'' || mark == '"'
    ensures var q := QuoteFor(mark);
            Pieces(q, (if c == mark then [mark, mark] else [c]) + tail)
            == (if c == mark then [Kept(mark, q), Kept(mark, q)] else [Kept(c, q)]) + Pieces(q, tail)
  {
    var s := (if c == mark then [mark, mark] else [c]) + tail;
    assert if c == mark then s[2..] == tail else s[1..] == tail;
  }

  lemma KeptAllAppend(a: string, b: string, q: Quote)
    ensures KeptAll(a + b, q) == KeptAll(a, q) + KeptAll(b, q)
  {
    if a == "" { assert a + b == b; } else { assert (a + b)[1..] == a[1..] + b; }
  }

  lemma MarksFirst(mark: char, content: string, tail: string)
    requires content != ""
    ensures DoubleMarks(mark, content) + tail
            == (if content[0] == mark then [mark, mark] else [content[0]]) + (DoubleMarks(mark, content[1..]) + tail)
    ensures KeptAll(DoubleMarks(mark, content), QuoteFor(mark))
            == (if content[0] == mark then [Kept(mark, QuoteFor(mark)), Kept(mark, QuoteFor(mark))]
                else [Kept(content[0], QuoteFor(mark))])
               + KeptAll(DoubleMarks(mark, content[1..]), QuoteFor(mark))
  {
    var first, rest := if content[0] == mark then [mark, mark] else [content[0]], DoubleMarks(mark, content[1..]);
    KeptAllAppend(first, rest, QuoteFor(mark));
  }

  /** Inside a literal, its content is kept up to what follows. */
  lemma {:induction false} LiteralContent(mark: char, content: string, tail: string)
    requires mark == '\'' || mark == '"'
    ensures Pieces(QuoteFor(mark), DoubleMarks(mark, content) + tail)
            == KeptAll(DoubleMarks(mark, content), QuoteFor(mark)) + Pieces(QuoteFor(mark), tail)
    decreases |content|
  {
    hide *;
    if content == "" {
      NoContent(mark, tail);
    } else {
      MarksFirst(mark, content, tail);
      InLiteral(mark, content[0], DoubleMarks(mark, content[1..]) + tail);
      LiteralContent(mark, content[1..], tail);
    }
  }

  lemma NoContent(mark: char, tail: string)
    ensures DoubleMarks(mark, "") + tail == tail && KeptAll(DoubleMarks(mark, ""), QuoteFor(mark)) == []
  {
  }

  lemma LiteralOpens(mark: char, rest: string)
    requires mark == '\'' || mark == '"'
    ensures Pieces(Outside, [mark] + rest) == [Kept(mark, Outside)] + Pieces(QuoteFor(mark), rest)
  {
    assert ([mark] + rest)[1..] == rest;
  }

  lemma LiteralCloses(mark: char, rest: string)
    requires (mark == '\'' || mark == '"') && !Starts(rest, mark)
    ensures Pieces(QuoteFor(mark), [mark] + rest) == [Kept(mark, QuoteFor(mark))] + Pieces(Outside, rest)
  {
    assert ([mark] + rest)[1..] == rest;
  }

  /** A token is read as itself before anything it fits. */
  lemma TokenPieces(t: Token, rest: string)
    requires Fits(t, rest)
    ensures Pieces(Outside, Source(t) + rest) == PiecesOf(t) + Pieces(Outside, rest)
  {
    match t
    case Plain(c) => assert ([c] + rest)[1..] == rest;
    case Literal(mark, content) => LiteralPieces(mark, content, rest);
    case OpenLiteral(mark, content) => OpenLiteralPieces(mark, content);
    case LineComment(text) =>
      LineLengthIs(text, rest);
      assert ("--" + text + rest)[2..] == text + rest;
      CommentPieces("--" + text, rest);
    case BlockComment(text) =>
      BlockLengthIs(text, rest);
      assert (Source(t) + rest)[2..] == text + ("*/" + rest);
      CommentPieces(Source(t), rest);
    case OpenBlock(text) =>
      BlockLengthIs(text, rest);
      assert (Source(t) + rest)[2..] == text;
      CommentPieces(Source(t), rest);
  }

  lemma CommentPieces(text: string, rest: string)
    requires Opens(text + rest) && CommentLength(text + rest) == |text|
    ensures Pieces(Outside, text + rest) == [Comment(text)] + Pieces(Outside, rest)
  {
    hide CommentLength;
    assert (text + rest)[..|text|] == text && (text + rest)[|text|..] == rest;
  }

  lemma LiteralPieces(mark: char, content: string, rest: string)
    requires (mark == '\'' || mark == '"') && !Starts(rest, mark)
    ensures Pieces(Outside, [mark] + (DoubleMarks(mark, content) + [mark]) + rest)
            == [Kept(mark, Outside)] + KeptAll(DoubleMarks(mark, content) + [mark], QuoteFor(mark)) + Pieces(Outside, rest)
  {
    hide Pieces, DoubleMarks, Starts;
    var inner := DoubleMarks(mark, content);
    assert [mark] + (inner + [mark]) + rest == [mark] + (inner + ([mark] + rest));
    LiteralOpens(mark, inner + ([mark] + rest));
    LiteralContent(mark, content, [mark] + rest);
    LiteralCloses(mark, rest);
    KeptAllAppend(inner, [mark], QuoteFor(mark));
    assert KeptAll([mark], QuoteFor(mark)) == [Kept(mark, QuoteFor(mark))];
  }

  lemma OpenLiteralPieces(mark: char, content: string)
    requires mark == '\'' || mark == '"'
    ensures Pieces(Outside, [mark] + DoubleMarks(mark, content) + "")
            == [Kept(mark, Outside)] + KeptAll(DoubleMarks(mark, content), QuoteFor(mark)) + Pieces(Outside, "")
  {
    assert Pieces(QuoteFor(mark), "") == Pieces(Outside, "") == [];
    hide Pieces, DoubleMarks;
    var inner := DoubleMarks(mark, content);
    assert [mark] + inner + "" == [mark] + (inner + "");
    LiteralOpens(mark, inner + "");
    LiteralContent(mark, content, "");
  }

  function PiecesOfAll(tokens: seq<Token>): seq<Piece> {
    if tokens == [] then [] else PiecesOf(tokens[0]) + PiecesOfAll(tokens[1..])
  }

  lemma {:induction false} TokensPieces(tokens: seq<Token>)
    requires WellFormed(tokens)
    ensures Pieces(Outside, SourceOf(tokens)) == PiecesOfAll(tokens)
  {
    hide Pieces, PiecesOf, Source, Fits;
    if tokens == [] {
      NoText();
    } else {
      TokenPieces(tokens[0], SourceOf(tokens[1..]));
      TokensPieces(tokens[1..]);
    }
  }

  lemma NoText()
    ensures Pieces(Outside, "") == []
  {
  }

  lemma {:induction false} WriteAppend(a: seq<Piece>, b: seq<Piece>)
    ensures Write(a + b) == Write(a) + Write(b)
  {
    WriteAt(a);
    WriteAt(b);
    WriteAt(a + b);
  }

  lemma {:induction false} WriteKept(text: string, q: Quote)
    ensures Write(KeptAll(text, q)) == text
  {
    if text != "" {
      WriteKept(text[1..], q);
      assert KeptAll(text, q)[1..] == KeptAll(text[1..], q);
    }
  }

  lemma WriteOne(piece: Piece)
    ensures Write([piece]) == [Written(piece)]
  {
    assert [piece][1..] == [];
  }

  lemma TokenWritten(t: Token)
    ensures Write(PiecesOf(t)) == if IsComment(t) then " " else Source(t)
  {
    WriteOne(PiecesOf(t)[0]);
    if t.Literal? || t.OpenLiteral? {
      var inner := DoubleMarks(t.mark, t.content) + if t.Literal? then [t.mark] else "";
      WriteKept(inner, QuoteFor(t.mark));
      assert DoubleMarks(t.mark, t.content) + "" == DoubleMarks(t.mark, t.content);
      hide Write, KeptAll, DoubleMarks;
      WriteAppend([Kept(t.mark, Outside)], KeptAll(inner, QuoteFor(t.mark)));
    }
  }

  /** What the stripper makes of a text: every literal and every character outside is kept as it is, and each comment
    * becomes one space. */
  lemma {:induction false} StripTokens(tokens: seq<Token>)
    requires WellFormed(tokens)
    ensures Strip(SourceOf(tokens)) == WithoutComments(tokens)
  {
    TokensPieces(tokens);
    WriteTokens(tokens);
  }

  lemma {:induction false} WriteTokens(tokens: seq<Token>)
    ensures Write(PiecesOfAll(tokens)) == WithoutComments(tokens)
  {
    if tokens != [] {
      hide Write, PiecesOf, Source;
      TokenWritten(tokens[0]);
      WriteTokens(tokens[1..]);
      WriteAppend(PiecesOf(tokens[0]), PiecesOfAll(tokens[1..]));
    } else {
      assert Write([]) == "";
    }
  }

  /** A literal's text, from after its opening mark. */
  lemma {:induction false} LiteralEnds(mark: char, s: string) returns (content: string, closed: bool, rest: string)
    ensures s == DoubleMarks(mark, content) + (if closed then [mark] + rest else "")
    ensures if closed then !Starts(rest, mark) else rest == ""
    decreases |s|
  {
    if s == "" {
      content, closed, rest := "", false, "";
    } else if s[0] != mark {
      var c, d, r := LiteralEnds(mark, s[1..]);
      content, closed, rest := [s[0]] + c, d, r;
      MarksFirst(mark, content, if closed then [mark] + rest else "");
      assert content[1..] == c && s == [s[0]] + s[1..];
    } else if |s| > 1 && s[1] == mark {
      var c, d, r := LiteralEnds(mark, s[2..]);
      content, closed, rest := [mark] + c, d, r;
      MarksFirst(mark, content, if closed then [mark] + rest else "");
      assert content[1..] == c && s == [mark, mark] + s[2..];
    } else {
      content, closed, rest := "", true, s[1..];
      assert s == [mark] + s[1..] && DoubleMarks(mark, "") + s == s;
    }
  }

  /** The first token of a text, and the rest. */
  lemma FirstToken(s: string) returns (t: Token, rest: string)
    requires s != ""
    ensures s == Source(t) + rest && Fits(t, rest) && |rest| < |s|
  {
    if s[0] == '\'' || s[0] == '"' {
      var mark := s[0];
      var content, closed, r := LiteralEnds(mark, s[1..]);
      rest := r;
      t := if closed then Literal(mark, content) else OpenLiteral(mark, content);
      hide DoubleMarks;
      assert s == [mark] + s[1..];
      assert closed ==> [mark] + (DoubleMarks(mark, content) + ([mark] + rest)) == Source(t) + rest;
    } else if Opens(s) && s[0] == '-' {
      t, rest := FirstLine(s);
    } else if Opens(s) {
      t, rest := FirstBlock(s);
    } else {
      t, rest := Plain(s[0]), s[1..];
      assert s == [s[0]] + s[1..];
    }
  }

  lemma FirstLine(s: string) returns (t: Token, rest: string)
    requires |s| >= 2 && s[0] == '-' && s[1] == '-'
    ensures s == Source(t) + rest && Fits(t, rest) && |rest| < |s|
  {
    var inner := s[2..];
    var n := LineLength(inner);
    LineCommentEnds(inner);
    hide LineLength;
    t, rest := LineComment(inner[..n]), inner[n..];
    CutLine(s, n);
    assert forall c :: c in inner[..n] ==> c != '\n' && c != '\r';
  }

  lemma CutLine(s: string, n: nat)
    requires 2 + n <= |s| && s[0] == '-' && s[1] == '-'
    ensures s == "--" + s[2..][..n] + s[2..][n..]
  {
    assert s == "--" + s[2..];
  }

  lemma FirstBlock(s: string) returns (t: Token, rest: string)
    requires |s| >= 2 && s[0] == '/' && s[1] == '*'
    ensures s == Source(t) + rest && Fits(t, rest) && |rest| < |s|
  {
    var inner := s[2..];
    var n := BlockLength(inner);
    BlockCommentEnds(inner);
    assert s == "/*" + inner;
    hide BlockLength;
    if n >= 2 && inner[n - 2] == '*' && inner[n - 1] == '/' {
      t, rest := BlockComment(inner[..n - 2]), inner[n..];
      ClosedBlock(inner, n);
    } else {
      t, rest := OpenBlock(inner), "";
    }
  }

  lemma ClosedBlock(inner: string, n: nat)
    requires 2 <= n <= |inner| && inner[n - 2] == '*' && inner[n - 1] == '/'
    ensures "/*" + inner == "/*" + (inner[..n - 2] + "*/") + inner[n..]
  {
    assert inner == inner[..n - 2] + "*/" + inner[n..];
  }

  /** Every text is tokens. */
  lemma {:induction false} EveryText(s: string) returns (tokens: seq<Token>)
    ensures WellFormed(tokens) && SourceOf(tokens) == s
    decreases |s|
  {
    if s == "" {
      tokens := [];
    } else {
      var t, rest := FirstToken(s);
      var later := EveryText(rest);
      hide Source, Fits;
      tokens := [t] + later;
      assert tokens[1..] == later;
    }
  }

  // ---------------------------------------------------------------- the second statement, token by token

  /** Text that is not blank. */
  predicate Solid(t: Token) {
    match t
    case Plain(c) => !IsBlank(c)
    case Literal(_, _) => true
    case OpenLiteral(_, _) => true
    case _ => false
  }

  predicate SolidPiece(p: Piece) { p.Kept? && !IsBlank(p.c) }

  ghost predicate SomeSolid(pieces: seq<Piece>) {
    exists j :: 0 <= j < |pieces| && SolidPiece(pieces[j])
  }

  ghost predicate SolidAfterEnd(pieces: seq<Piece>) {
    exists i, j :: 0 <= i < j < |pieces| && pieces[i] == Kept(';', Outside) && SolidPiece(pieces[j])
  }

  ghost predicate SomeSolidToken(tokens: seq<Token>) {
    exists j :: 0 <= j < |tokens| && Solid(tokens[j])
  }

  ghost predicate SecondToken(tokens: seq<Token>) {
    exists i, j :: 0 <= i < j < |tokens| && tokens[i] == Plain(';') && Solid(tokens[j])
  }

  lemma SomeSolidAppend(a: seq<Piece>, b: seq<Piece>)
    ensures SomeSolid(a + b) <==> SomeSolid(a) || SomeSolid(b)
  {
    if j :| 0 <= j < |a| && SolidPiece(a[j]) { assert (a + b)[j] == a[j]; }
    if j :| 0 <= j < |b| && SolidPiece(b[j]) { assert (a + b)[|a| + j] == b[j]; }
  }

  lemma SolidAfterAppend(a: seq<Piece>, b: seq<Piece>)
    requires a == [Kept(';', Outside)] || forall i :: 0 <= i < |a| ==> a[i] != Kept(';', Outside)
    ensures SolidAfterEnd(a + b) <==> SolidAfterEnd(b) || (a == [Kept(';', Outside)] && SomeSolid(b))
  {
    var ab := a + b;
    if i, j :| 0 <= i < j < |b| && b[i] == Kept(';', Outside) && SolidPiece(b[j]) {
      assert ab[|a| + i] == b[i] && ab[|a| + j] == b[j];
    }
    if a == [Kept(';', Outside)] {
      if j :| 0 <= j < |b| && SolidPiece(b[j]) { assert ab[0] == a[0] && ab[1 + j] == b[j]; }
    }
    if i, j :| 0 <= i < j < |ab| && ab[i] == Kept(';', Outside) && SolidPiece(ab[j]) {
      assert ab[j] == b[j - |a|];
      if i >= |a| { assert ab[i] == b[i - |a|]; }
    }
  }

  lemma {:induction false} KeptAllAt(text: string, q: Quote)
    ensures |KeptAll(text, q)| == |text| && forall i :: 0 <= i < |text| ==> KeptAll(text, q)[i] == Kept(text[i], q)
  {
    if text != "" { KeptAllAt(text[1..], q); }
  }

  lemma TokenPiecesShow(t: Token, rest: string)
    requires Fits(t, rest)
    ensures SomeSolid(PiecesOf(t)) <==> Solid(t)
    ensures PiecesOf(t) == [Kept(';', Outside)] <==> t == Plain(';')
    ensures t != Plain(';') ==> forall i :: 0 <= i < |PiecesOf(t)| ==> PiecesOf(t)[i] != Kept(';', Outside)
  {
    if t.Literal? || t.OpenLiteral? {
      KeptAllAt(DoubleMarks(t.mark, t.content) + if t.Literal? then [t.mark] else "", QuoteFor(t.mark));
      assert DoubleMarks(t.mark, t.content) + "" == DoubleMarks(t.mark, t.content);
      assert SolidPiece(PiecesOf(t)[0]);
      hide KeptAll, DoubleMarks;
    } else if t.Plain? {
      assert PiecesOf(t)[0] == Kept(t.c, Outside);
    }
  }

  lemma SecondTokenStep(tokens: seq<Token>)
    requires tokens != []
    ensures SomeSolidToken(tokens) <==> Solid(tokens[0]) || SomeSolidToken(tokens[1..])
    ensures SecondToken(tokens) <==> SecondToken(tokens[1..]) || (tokens[0] == Plain(';') && SomeSolidToken(tokens[1..]))
  {
    var rest := tokens[1..];
    if j :| 0 <= j < |rest| && Solid(rest[j]) { assert tokens[j + 1] == rest[j]; }
    if i, j :| 0 <= i < j < |rest| && rest[i] == Plain(';') && Solid(rest[j]) {
      assert tokens[i + 1] == rest[i] && tokens[j + 1] == rest[j];
    }
    if i, j :| 0 <= i < j < |tokens| && tokens[i] == Plain(';') && Solid(tokens[j]) {
      assert rest[j - 1] == tokens[j];
      if i > 0 { assert rest[i - 1] == tokens[i]; }
    }
    if j :| 0 <= j < |tokens| && Solid(tokens[j]) { if j > 0 { assert rest[j - 1] == tokens[j]; } }
  }

  lemma {:induction false} SecondInTokens(tokens: seq<Token>)
    requires WellFormed(tokens)
    ensures SomeSolid(PiecesOfAll(tokens)) <==> SomeSolidToken(tokens)
    ensures SolidAfterEnd(PiecesOfAll(tokens)) <==> SecondToken(tokens)
  {
    if tokens != [] {
      SecondInTokens(tokens[1..]);
      SecondTokenStep(tokens);
      TokenPiecesShow(tokens[0], SourceOf(tokens[1..]));
      SomeSolidAppend(PiecesOf(tokens[0]), PiecesOfAll(tokens[1..]));
      SolidAfterAppend(PiecesOf(tokens[0]), PiecesOfAll(tokens[1..]));
      hide PiecesOf, SomeSolid, SolidAfterEnd, SecondToken, SomeSolidToken, Solid, Fits;
    }
  }

  /** The guard's answer for a text, comments stripped: whether some semicolon outside literals and comments is followed
    * by a literal or by a character outside comments that is not blank. */
  lemma GuardSeesTokens(tokens: seq<Token>)
    requires WellFormed(tokens)
    ensures SecondStatement(Outside, Strip(SourceOf(tokens))) <==>
            exists i, j :: 0 <= i < j < |tokens| && tokens[i] == Plain(';') && Solid(tokens[j])
  {
    SecondStatementSeen(SourceOf(tokens));
    TokensPieces(tokens);
    SecondInTokens(tokens);
    hide Strip, SecondStatement, PiecesOfAll, Pieces, SourceOf, WellFormed, Solid;
  }
}
