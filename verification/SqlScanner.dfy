/** The SQL preflight scanner: a character-at-a-time lexer as the reference, and the index-jumping scanner that
    blanks comments and quoted spans. */
module SqlScanner {
  import opened Wrappers

  const PUNCTUATION: string := "$'\"-/*\\ \n"

  /** What counts as alphanumeric, whatever the alphabet; the characters the scanner looks for are not. */
  type AlnumTest = f: char -> bool |
    (forall i :: 0 <= i < |PUNCTUATION| ==> !f(PUNCTUATION[i])) witness (c: char) => false

  predicate IsIdentChar(alnum: AlnumTest, c: char) {
    alnum(c) || c == '_'
  }

  lemma PunctuationIsNotIdent(alnum: AlnumTest)
    ensures forall c :: c in {'$', '\'', '\"', '-', '/', '*', '\\', ' ', '\n'} ==> !IsIdentChar(alnum, c)
  {
    assert PUNCTUATION[0] == '$' && PUNCTUATION[1] == '\'' && PUNCTUATION[2] == '\"' && PUNCTUATION[3] == '-';
    assert PUNCTUATION[4] == '/' && PUNCTUATION[5] == '*' && PUNCTUATION[6] == '\\' && PUNCTUATION[7] == ' ';
    assert PUNCTUATION[8] == '\n';
  }

  // ---------------------------------------------------------------- the reference lexer

  /** Where the lexer is before a character. A `Second` mode is inside a two-character unit already recognized. */
  datatype Mode =
    | Code
    | LineComment
    | BlockComment(depth: nat)
    | BlockSecond(after: nat)
    | EscapeString
    | EscapeSecond
    | Quoted(quote: char)
    | QuotedSecond(quote: char)
    | DollarOpener(tag: string, left: nat)
    | DollarBody(tag: string)
    | DollarCloser(left: nat)

  predicate At(text: string, i: nat, c: char) {
    i < |text| && text[i] == c
  }

  predicate StartsWith(text: string, i: nat, p: string) {
    i + |p| <= |text| && forall k :: 0 <= k < |p| ==> text[i + k] == p[k]
  }

  /** The first position from `j` on that is not an identifier character. */
  function TagEnd(alnum: AlnumTest, text: string, j: nat): (e: nat)
    requires j <= |text|
    ensures j <= e <= |text|
    ensures forall k :: j <= k < e ==> IsIdentChar(alnum, text[k])
    ensures e < |text| ==> !IsIdentChar(alnum, text[e])
    decreases |text| - j
  {
    if j < |text| && IsIdentChar(alnum, text[j]) then TagEnd(alnum, text, j + 1) else j
  }

  function DollarTagAt(alnum: AlnumTest, text: string, i: nat): Option<string> {
    if !At(text, i, '$') then None
    else
      var j := TagEnd(alnum, text, i + 1);
      if At(text, j, '$') then Some(text[i + 1..j]) else None
  }

  function Closer(tag: string): string {
    "$" + tag + "$"
  }

  predicate OpensEscape(alnum: AlnumTest, text: string, i: nat) {
    && (At(text, i, 'E') || At(text, i, 'e')) && At(text, i + 1, '\'')
    && (i == 0 || !IsIdentChar(alnum, text[i - 1]))
  }

  /** What the character at `i` opens when it is met in code, as the mode after it. */
  function Opens(alnum: AlnumTest, text: string, i: nat): Option<Mode>
    requires i < |text|
  {
    if At(text, i, '-') && At(text, i + 1, '-') then Some(LineComment)
    else if At(text, i, '/') && At(text, i + 1, '*') then Some(BlockSecond(1))
    else if OpensEscape(alnum, text, i) then Some(EscapeSecond)
    else if text[i] == '\'' || text[i] == '\"' then Some(Quoted(text[i]))
    else
      var tag := DollarTagAt(alnum, text, i);
      if tag.Some? then Some(DollarOpener(tag.value, |tag.value| + 1)) else None
  }

  /** The mode after the character at `i`, read in mode `m`. */
  function Step(alnum: AlnumTest, text: string, i: nat, m: Mode): Mode
    requires i < |text|
  {
    match m
    case Code => Opens(alnum, text, i).GetOr(Code)
    case LineComment => if At(text, i + 1, '\n') then Code else LineComment
    case BlockComment(d) =>
      if At(text, i, '/') && At(text, i + 1, '*') then BlockSecond(d + 1)
      else if At(text, i, '*') && At(text, i + 1, '/') && d > 0 then BlockSecond(d - 1)
      else m
    case BlockSecond(d) => if d == 0 then Code else BlockComment(d)
    case EscapeString =>
      if text[i] == '\\' && i + 1 < |text| then EscapeSecond
      else if text[i] != '\'' then m
      else if At(text, i + 1, '\'') then EscapeSecond else Code
    case EscapeSecond => EscapeString
    case Quoted(q) => if text[i] != q then m else if At(text, i + 1, q) then QuotedSecond(q) else Code
    case QuotedSecond(q) => Quoted(q)
    case DollarOpener(tag, left) => if left <= 1 then DollarBody(tag) else DollarOpener(tag, left - 1)
    case DollarBody(tag) => if StartsWith(text, i, Closer(tag)) then DollarCloser(|tag| + 1) else m
    case DollarCloser(left) => if left <= 1 then Code else DollarCloser(left - 1)
  }

  function ModeAt(alnum: AlnumTest, text: string, i: nat): Mode
    requires i <= |text|
  {
    if i == 0 then Code else Step(alnum, text, i - 1, ModeAt(alnum, text, i - 1))
  }

  predicate IsCode(alnum: AlnumTest, text: string, i: nat)
    requires i < |text|
  {
    ModeAt(alnum, text, i) == Code && Opens(alnum, text, i).None?
  }

  function Blank(c: char): char {
    if c == '\n' then c else ' '
  }

  function Blanked(s: string): string {
    seq(|s|, i requires 0 <= i < |s| => Blank(s[i]))
  }

  function Emit(alnum: AlnumTest, text: string, i: nat): char
    requires i < |text|
  {
    if IsCode(alnum, text, i) then text[i] else Blank(text[i])
  }

  /** Code as it is, everything else blank. */
  function Scan(alnum: AlnumTest, text: string): (out: string)
    ensures |out| == |text|
  {
    seq(|text|, i requires 0 <= i < |text| => Emit(alnum, text, i))
  }

  predicate EndsInCode(alnum: AlnumTest, text: string) {
    ModeAt(alnum, text, |text|) == Code
  }

  // ---------------------------------------------------------------- the scanner

  /** From an opener in code at `i`, everything up to `j` is blanked and `m` is the mode there. */
  ghost predicate Spans(alnum: AlnumTest, text: string, i: nat, j: nat, m: Mode) {
    && i <= j <= |text| && ModeAt(alnum, text, j) == m
    && (forall k :: i <= k < j ==> !IsCode(alnum, text, k))
  }

  lemma Advance(alnum: AlnumTest, text: string, i: nat, j: nat, m: Mode)
    requires Spans(alnum, text, i, j, m) && j < |text| && (m == Code ==> Opens(alnum, text, j).Some?)
    ensures Spans(alnum, text, i, j + 1, Step(alnum, text, j, m))
  {
  }

  lemma {:induction false} AdvanceOpener(alnum: AlnumTest, text: string, i: nat, j: nat, tag: string, left: nat)
    requires Spans(alnum, text, i, j, DollarOpener(tag, left)) && j + left <= |text| && left >= 1
    ensures Spans(alnum, text, i, j + left, DollarBody(tag))
    decreases left
  {
    Advance(alnum, text, i, j, DollarOpener(tag, left));
    if left > 1 {
      AdvanceOpener(alnum, text, i, j + 1, tag, left - 1);
    }
  }

  lemma {:induction false} AdvanceCloser(alnum: AlnumTest, text: string, i: nat, j: nat, left: nat)
    requires Spans(alnum, text, i, j, DollarCloser(left)) && j + left <= |text| && left >= 1
    ensures Spans(alnum, text, i, j + left, Code)
    decreases left
  {
    Advance(alnum, text, i, j, DollarCloser(left));
    if left > 1 {
      AdvanceCloser(alnum, text, i, j + 1, left - 1);
    }
  }

  lemma {:induction false} AdvanceBody(alnum: AlnumTest, text: string, i: nat, j: nat, end: nat, tag: string)
    requires Spans(alnum, text, i, j, DollarBody(tag)) && j <= end <= |text|
    requires forall k :: j <= k < end ==> !StartsWith(text, k, Closer(tag))
    ensures Spans(alnum, text, i, end, DollarBody(tag))
    decreases end - j
  {
    if j < end {
      Advance(alnum, text, i, j, DollarBody(tag));
      AdvanceBody(alnum, text, i, j + 1, end, tag);
    }
  }

  lemma EnterDollarQuote(alnum: AlnumTest, text: string, i: nat, tag: string)
    requires i < |text| && Spans(alnum, text, i, i, Code)
    requires Opens(alnum, text, i) == Some(DollarOpener(tag, |tag| + 1)) && i + |tag| + 2 <= |text|
    ensures Spans(alnum, text, i, i + |Closer(tag)|, DollarBody(tag))
  {
    Advance(alnum, text, i, i, Code);
    AdvanceOpener(alnum, text, i, i + 1, tag, |tag| + 1);
  }

  lemma LeaveDollarQuote(alnum: AlnumTest, text: string, i: nat, k: nat, tag: string)
    requires Spans(alnum, text, i, k, DollarBody(tag)) && StartsWith(text, k, Closer(tag))
    ensures Spans(alnum, text, i, k + |Closer(tag)|, Code)
  {
    Advance(alnum, text, i, k, DollarBody(tag));
    AdvanceCloser(alnum, text, i, k + 1, |tag| + 1);
  }

  method BlankSpan(text: string, start: nat, end: nat) returns (s: string)
    requires start <= end <= |text|
    ensures |s| == end - start && forall k :: 0 <= k < |s| ==> s[k] == Blank(text[start + k])
  {
    s := seq(end - start, k requires 0 <= k < end - start => Blank(text[start + k]));
  }

  /** The first occurrence at or after `from`, or -1. */
  method Find(text: string, p: string, from: nat) returns (k: int)
    ensures k == -1 || (from <= k && StartsWith(text, k, p))
    ensures k == -1 ==> forall j: nat :: from <= j ==> !StartsWith(text, j, p)
    ensures k >= 0 ==> forall j: nat :: from <= j < k ==> !StartsWith(text, j, p)
  {
    k := from;
    while k + |p| <= |text|
      invariant from <= k
      invariant forall j: nat :: from <= j < k ==> !StartsWith(text, j, p)
      decreases |text| - k
    {
      if text[k..k + |p|] == p { return; }
      k := k + 1;
    }
    k := -1;
  }

  method ReadDollarTag(alnum: AlnumTest, text: string, i: nat) returns (tag: Option<string>)
    ensures tag == DollarTagAt(alnum, text, i)
  {
    if i >= |text| || text[i] != '$' { return None; }
    var j := i + 1;
    while j < |text| && IsIdentChar(alnum, text[j])
      invariant i + 1 <= j <= |text| && TagEnd(alnum, text, j) == TagEnd(alnum, text, i + 1)
    {
      j := j + 1;
    }
    return if j < |text| && text[j] == '$' then Some(text[i + 1..j]) else None;
  }

  method SkipLineComment(alnum: AlnumTest, text: string, i: nat) returns (j: nat)
    requires i < |text| && Spans(alnum, text, i, i, Code) && Opens(alnum, text, i) == Some(LineComment)
    ensures i < j <= |text| && (j < |text| ==> Spans(alnum, text, i, j, Code))
    ensures exists m :: Spans(alnum, text, i, j, m)
  {
    PunctuationIsNotIdent(alnum);
    j := i;
    ghost var m := Code;
    while j < |text| && text[j] != '\n'
      invariant i <= j <= |text| && (i == j ==> text[j] == '-')
      invariant Spans(alnum, text, i, j, m)
      invariant m == if j == i then Code else if At(text, j, '\n') then Code else LineComment
    {
      Advance(alnum, text, i, j, m);
      m := Step(alnum, text, j, m);
      j := j + 1;
    }
  }

  method SkipBlockComment(alnum: AlnumTest, text: string, i: nat) returns (j: nat)
    requires i < |text| && Spans(alnum, text, i, i, Code) && Opens(alnum, text, i) == Some(BlockSecond(1))
    ensures i < j <= |text| && (j < |text| ==> Spans(alnum, text, i, j, Code))
    ensures exists m :: Spans(alnum, text, i, j, m)
  {
    var depth := 1;
    Advance(alnum, text, i, i, Code);
    Advance(alnum, text, i, i + 1, BlockSecond(1));
    j := i + 2;
    while j < |text| && depth > 0
      invariant i + 2 <= j <= |text| && depth >= 0
      invariant Spans(alnum, text, i, j, if depth == 0 then Code else BlockComment(depth))
      decreases |text| - j
    {
      Advance(alnum, text, i, j, BlockComment(depth));
      if text[j] == '/' && j + 1 < |text| && text[j + 1] == '*' {
        Advance(alnum, text, i, j + 1, BlockSecond(depth + 1));
        depth, j := depth + 1, j + 2;
      } else if text[j] == '*' && j + 1 < |text| && text[j + 1] == '/' {
        Advance(alnum, text, i, j + 1, BlockSecond(depth - 1));
        depth, j := depth - 1, j + 2;
      } else {
        j := j + 1;
      }
    }
  }

  method SkipEscapeString(alnum: AlnumTest, text: string, i: nat) returns (j: nat)
    requires i < |text| && Spans(alnum, text, i, i, Code) && Opens(alnum, text, i) == Some(EscapeSecond)
    ensures i < j <= |text| && (j < |text| ==> Spans(alnum, text, i, j, Code))
    ensures exists m :: Spans(alnum, text, i, j, m)
  {
    Advance(alnum, text, i, i, Code);
    Advance(alnum, text, i, i + 1, EscapeSecond);
    j := i + 2;
    while j < |text|
      invariant i + 2 <= j <= |text| && Spans(alnum, text, i, j, EscapeString)
    {
      Advance(alnum, text, i, j, EscapeString);
      if text[j] == '\\' && j + 1 < |text| {
        Advance(alnum, text, i, j + 1, EscapeSecond);
        j := j + 2;
      } else if text[j] == '\'' {
        if j + 1 < |text| && text[j + 1] == '\'' {
          Advance(alnum, text, i, j + 1, EscapeSecond);
          j := j + 2;
        } else {
          j := j + 1;
          return;
        }
      } else {
        j := j + 1;
      }
    }
  }

  method SkipQuoted(alnum: AlnumTest, text: string, i: nat) returns (j: nat)
    requires i < |text| && Spans(alnum, text, i, i, Code) && Opens(alnum, text, i) == Some(Quoted(text[i]))
    ensures i < j <= |text| && (j < |text| ==> Spans(alnum, text, i, j, Code))
    ensures exists m :: Spans(alnum, text, i, j, m)
  {
    var q := text[i];
    Advance(alnum, text, i, i, Code);
    j := i + 1;
    while j < |text|
      invariant i + 1 <= j <= |text| && Spans(alnum, text, i, j, Quoted(q))
    {
      Advance(alnum, text, i, j, Quoted(q));
      if text[j] == q {
        if j + 1 < |text| && text[j + 1] == q {
          Advance(alnum, text, i, j + 1, QuotedSecond(q));
          j := j + 2;
        } else {
          j := j + 1;
          return;
        }
      } else {
        j := j + 1;
      }
    }
  }

  method SkipDollarQuote(alnum: AlnumTest, text: string, i: nat, tag: string) returns (j: nat)
    requires i < |text| && Spans(alnum, text, i, i, Code)
    requires Opens(alnum, text, i) == Some(DollarOpener(tag, |tag| + 1)) && DollarTagAt(alnum, text, i) == Some(tag)
    ensures i < j <= |text| && (j < |text| ==> Spans(alnum, text, i, j, Code))
    ensures exists m :: Spans(alnum, text, i, j, m)
  {
    var closer := Closer(tag);
    EnterDollarQuote(alnum, text, i, tag);
    var body := i + |closer|;
    var k := Find(text, closer, body);
    if k == -1 {
      AdvanceBody(alnum, text, i, body, |text|, tag);
      return |text|;
    }
    AdvanceBody(alnum, text, i, body, k, tag);
    LeaveDollarQuote(alnum, text, i, k, tag);
    j := k + |closer|;
  }

  /** The jump over whatever opens at `i`. */
  method SkipSpan(alnum: AlnumTest, text: string, i: nat) returns (j: nat)
    requires i < |text| && ModeAt(alnum, text, i) == Code
    ensures Opens(alnum, text, i).None? ==> j == i
    ensures Opens(alnum, text, i).Some? ==> i < j <= |text| && (j < |text| ==> ModeAt(alnum, text, j) == Code)
    ensures forall k :: i <= k < j ==> !IsCode(alnum, text, k)
  {
    var ch := text[i];
    var nxt := if i + 1 < |text| then [text[i + 1]] else "";
    if ch == '-' && nxt == "-" {
      j := SkipLineComment(alnum, text, i);
    } else if ch == '/' && nxt == "*" {
      j := SkipBlockComment(alnum, text, i);
    } else if (ch == 'E' || ch == 'e') && nxt == "'" && (i == 0 || !IsIdentChar(alnum, text[i - 1])) {
      j := SkipEscapeString(alnum, text, i);
    } else if ch == '\'' || ch == '\"' {
      j := SkipQuoted(alnum, text, i);
    } else {
      var tag := ReadDollarTag(alnum, text, i);
      if tag.Some? {
        j := SkipDollarQuote(alnum, text, i, tag.value);
      } else {
        j := i;
      }
    }
  }

  /** The index-jumping scanner is the character-at-a-time lexer. */
  method SanitizeSqlForPreflight(alnum: AlnumTest, text: string) returns (out: string)
    ensures out == Scan(alnum, text)
  {
    out := "";
    var i := 0;
    while i < |text|
      invariant 0 <= i <= |text| && (i < |text| ==> ModeAt(alnum, text, i) == Code)
      invariant out == Scan(alnum, text)[..i]
      decreases |text| - i
    {
      var j := SkipSpan(alnum, text, i);
      if i < j {
        var blanks := BlankSpan(text, i, j);
        out, i := out + blanks, j;
      } else {
        assert IsCode(alnum, text, i);
        out, i := out + [text[i]], i + 1;
      }
    }
  }
}
