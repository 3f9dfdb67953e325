/**
 * cpplint's two bracket scanners, forward from an opening bracket and backward from a closing one,
 * with all they do about angle brackets. A line is a string without its newline.
 */
module BracketMatch {
  import opened AngleBrackets
  import opened Brackets
  import opened CharClasses

  // ---------- what the regular expressions accept ----------

  function StripRight(s: string): string {
    if s != [] && IsSpace(s[|s| - 1]) then StripRight(s[..|s| - 1]) else s
  }

  /** The word `operator` and white space up to the end: `\boperator\s*$`. */
  predicate EndsWithOperator(s: string) {
    var t := StripRight(s);
    |t| >= 8 && t[|t| - 8..] == "operator" && (|t| == 8 || !IsWord(t[|t| - 9]))
  }

  /** `\s>=\s` at `i - 1`. */
  predicate SpacedGreaterEqual(line: string, i: nat)
    requires 0 < i < |line|
  {
    IsSpace(line[i - 1]) && line[i] == '>' && i + 2 < |line| && line[i + 1] == '=' && IsSpace(line[i + 2])
  }

  /** `<[<=]` at `i`. */
  predicate ShiftOrLessEqual(line: string, i: nat)
    requires i < |line|
  {
    line[i] == '<' && i + 1 < |line| && (line[i + 1] == '<' || line[i + 1] == '=')
  }

  // ---------- one line ----------

  /** Go on with a stack, `back` further characters skipped, or return a position. */
  datatype Act = Go(stack: string, back: nat) | Return(pos: int)

  function ReturnIfEmpty(stack: string, pos: int): Act {
    if stack == [] then Return(pos) else Go(stack, 0)
  }

  function ForwardStep(line: string, i: nat, stack: string): Act
    requires i < |line|
  {
    var c := line[i];
    if IsOpen(c) then Go(stack + [c], 0)
    else if c == '<' then
      if i > 0 && line[i - 1] == '<' then
        if TopIs(stack, '<') then ReturnIfEmpty(Pop(stack), -1) else Go(stack, 0)
      else if i > 0 && EndsWithOperator(line[..i]) then Go(stack, 0)
      else Go(stack + [c], 0)
    else if IsClose(c) then
      var rest := DropPending(stack, '<');
      if rest != [] && Pair(rest[|rest| - 1], c) then ReturnIfEmpty(Pop(rest), i + 1) else Return(-1)
    else if c == '>' then
      if i > 0 && (line[i - 1] == '-' || EndsWithOperator(line[..i - 1])) then Go(stack, 0)
      else if TopIs(stack, '<') then ReturnIfEmpty(Pop(stack), i + 1)
      else Go(stack, 0)
    else if c == ';' then ReturnIfEmpty(DropPending(stack, '<'), -1)
    else Go(stack, 0)
  }

  function BackwardStep(line: string, i: nat, stack: string): Act
    requires i < |line|
  {
    var c := line[i];
    if IsClose(c) then Go(stack + [c], 0)
    else if c == '>' then
      if i > 0 && (line[i - 1] == '-' || SpacedGreaterEqual(line, i) || EndsWithOperator(line[..i])) then Go(stack, 1)
      else Go(stack + [c], 0)
    else if c == '<' then
      if i > 0 && line[i - 1] == '<' then Go(stack, 1)
      else if TopIs(stack, '>') then ReturnIfEmpty(Pop(stack), i)
      else Go(stack, 0)
    else if IsOpen(c) then
      var rest := DropPending(stack, '>');
      if rest != [] && Pair(c, rest[|rest| - 1]) then ReturnIfEmpty(Pop(rest), i) else Return(-1)
    else if c == ';' then ReturnIfEmpty(DropPending(stack, '>'), -1)
    else Go(stack, 0)
  }

  /** A position, or the stack at the end of the line. */
  datatype LineResult = At(pos: int) | Rest(stack: string)

  function FindEnd(line: string, i: nat, stack: string): LineResult
    requires i <= |line|
    decreases |line| - i
  {
    if i == |line| then Rest(stack)
    else
      match ForwardStep(line, i, stack)
      case Return(pos) => At(pos)
      case Go(stack', _) => FindEnd(line, i + 1, stack')
  }

  function FindStart(line: string, i: int, stack: string): LineResult
    requires i < |line|
    decreases i
  {
    if i < 0 then Rest(stack)
    else
      match BackwardStep(line, i, stack)
      case Return(pos) => At(pos)
      case Go(stack', back) => FindStart(line, i - back - 1, stack')
  }

  method FindEndOfExpressionInLine(line: string, startpos: nat, stack: string) returns (r: LineResult)
    requires startpos <= |line|
    ensures r == FindEnd(line, startpos, stack)
  {
    var s := stack;
    for i := startpos to |line|
      invariant FindEnd(line, i, s) == FindEnd(line, startpos, stack)
    {
      var c := line[i];
      if IsOpen(c) {
        s := s + [c];
      } else if c == '<' {
        if i > 0 && line[i - 1] == '<' {
          if TopIs(s, '<') {
            s := Pop(s);
            if s == [] {
              return At(-1);
            }
          }
        } else if i > 0 && EndsWithOperator(line[..i]) {
          continue;
        } else {
          s := s + [c];
        }
      } else if IsClose(c) {
        s := PopPending(s, '<');
        if s == [] {
          return At(-1);
        }
        if Pair(s[|s| - 1], c) {
          s := Pop(s);
          if s == [] {
            return At(i + 1);
          }
        } else {
          return At(-1);
        }
      } else if c == '>' {
        if i > 0 && (line[i - 1] == '-' || EndsWithOperator(line[..i - 1])) {
          continue;
        }
        if TopIs(s, '<') {
          s := Pop(s);
          if s == [] {
            return At(i + 1);
          }
        }
      } else if c == ';' {
        s := PopPending(s, '<');
        if s == [] {
          return At(-1);
        }
      }
    }
    r := Rest(s);
  }

  method PopPending(stack: string, c: char) returns (s: string)
    ensures s == DropPending(stack, c)
  {
    s := stack;
    while TopIs(s, c)
      invariant DropPending(s, c) == DropPending(stack, c)
      decreases |s|
    {
      s := Pop(s);
    }
  }

  method FindStartOfExpressionInLine(line: string, endpos: int, stack: string) returns (r: LineResult)
    requires endpos < |line|
    ensures r == FindStart(line, endpos, stack)
  {
    var i, s := endpos, stack;
    while i >= 0
      invariant i < |line|
      invariant FindStart(line, i, s) == FindStart(line, endpos, stack)
    {
      var c := line[i];
      ghost var i0, s0 := i, s;
      if IsClose(c) {
        s := s + [c];
      } else if c == '>' {
        if i > 0 && (line[i - 1] == '-' || SpacedGreaterEqual(line, i) || EndsWithOperator(line[..i])) {
          i := i - 1;
        } else {
          s := s + [c];
        }
      } else if c == '<' {
        if i > 0 && line[i - 1] == '<' {
          i := i - 1;
        } else if TopIs(s, '>') {
          s := Pop(s);
          if s == [] {
            return At(i);
          }
        }
      } else if IsOpen(c) {
        s := PopPending(s, '>');
        if s == [] {
          return At(-1);
        }
        if Pair(c, s[|s| - 1]) {
          s := Pop(s);
          if s == [] {
            return At(i);
          }
        } else {
          return At(-1);
        }
      } else if c == ';' {
        s := PopPending(s, '>');
        if s == [] {
          return At(-1);
        }
      }
      i := i - 1;
    }
    r := Rest(s);
  }

  // ---------- many lines ----------

  /** What the program returns: a line, its number and a position, -1 for none. */
  datatype Hit = Hit(line: string, linenum: nat, pos: int)

  function CloseFrom(lines: seq<string>, l: nat, i: nat, stack: string): Hit
    requires l < |lines| && i <= |lines[l]|
    decreases |lines| - l
  {
    match FindEnd(lines[l], i, stack)
    case At(pos) => if pos > -1 then Hit(lines[l], l, pos) else Hit(lines[l], |lines|, -1)
    case Rest(rest) =>
      if rest != [] && l < |lines| - 1 then CloseFrom(lines, l + 1, 0, rest) else Hit(lines[l], |lines|, -1)
  }

  function Close(lines: seq<string>, l: nat, pos: nat): Hit
    requires l < |lines| && pos < |lines[l]|
  {
    var c := lines[l][pos];
    if !(IsOpen(c) || c == '<') || ShiftOrLessEqual(lines[l], pos) then Hit(lines[l], |lines|, -1)
    else CloseFrom(lines, l, pos, [])
  }

  function ReverseFrom(lines: seq<string>, l: nat, i: int, stack: string): Hit
    requires l < |lines| && i < |lines[l]|
    decreases l
  {
    match FindStart(lines[l], i, stack)
    case At(pos) => if pos > -1 then Hit(lines[l], l, pos) else Hit(lines[l], 0, -1)
    case Rest(rest) =>
      if rest != [] && l > 0 then ReverseFrom(lines, l - 1, |lines[l - 1]| - 1, rest) else Hit(lines[l], 0, -1)
  }

  function ReverseClose(lines: seq<string>, l: nat, pos: nat): Hit
    requires l < |lines| && pos < |lines[l]|
  {
    var c := lines[l][pos];
    if !(IsClose(c) || c == '>') then Hit(lines[l], 0, -1) else ReverseFrom(lines, l, pos, [])
  }

  method CloseExpression(lines: seq<string>, start: nat, pos: nat) returns (hit: Hit)
    requires start < |lines| && pos < |lines[start]|
    ensures hit == Close(lines, start, pos)
  {
    var linenum: nat, line := start, lines[start];
    if !(IsOpen(line[pos]) || line[pos] == '<') || ShiftOrLessEqual(line, pos) {
      return Hit(line, |lines|, -1);
    }
    var r := FindEndOfExpressionInLine(line, pos, []);
    if r.At? && r.pos > -1 {
      return Hit(line, linenum, r.pos);
    }
    while r.Rest? && r.stack != [] && linenum < |lines| - 1
      invariant linenum < |lines| && line == lines[linenum] && (r.At? ==> r.pos <= -1)
      invariant Close(lines, start, pos) ==
        if r.Rest? && r.stack != [] && linenum < |lines| - 1 then CloseFrom(lines, linenum + 1, 0, r.stack)
        else Hit(line, |lines|, -1)
      decreases |lines| - linenum
    {
      linenum := linenum + 1;
      line := lines[linenum];
      r := FindEndOfExpressionInLine(line, 0, r.stack);
      if r.At? && r.pos > -1 {
        return Hit(line, linenum, r.pos);
      }
    }
    hit := Hit(line, |lines|, -1);
  }

  method ReverseCloseExpression(lines: seq<string>, start: nat, pos: nat) returns (hit: Hit)
    requires start < |lines| && pos < |lines[start]|
    ensures hit == ReverseClose(lines, start, pos)
  {
    var linenum: nat, line := start, lines[start];
    if !(IsClose(line[pos]) || line[pos] == '>') {
      return Hit(line, 0, -1);
    }
    var r := FindStartOfExpressionInLine(line, pos, []);
    if r.At? && r.pos > -1 {
      return Hit(line, linenum, r.pos);
    }
    while r.Rest? && r.stack != [] && linenum > 0
      invariant linenum < |lines| && line == lines[linenum] && (r.At? ==> r.pos <= -1)
      invariant ReverseClose(lines, start, pos) ==
        if r.Rest? && r.stack != [] && linenum > 0 then
          ReverseFrom(lines, linenum - 1, |lines[linenum - 1]| - 1, r.stack)
        else Hit(line, 0, -1)
      decreases linenum
    {
      linenum := linenum - 1;
      line := lines[linenum];
      r := FindStartOfExpressionInLine(line, |line| - 1, r.stack);
      if r.At? && r.pos > -1 {
        return Hit(line, linenum, r.pos);
      }
    }
    hit := Hit(line, 0, -1);
  }

  // ---------- what the signs of a line are ----------

  /** The word `operator` ends at `n`. */
  predicate OperatorAt(s: string, n: nat) {
    8 <= n <= |s| && s[n - 8..n] == "operator" && (n == 8 || !IsWord(s[n - 9]))
  }

  lemma {:induction false} OperatorEndsInR(s: string, n: nat)
    requires OperatorAt(s, n)
    ensures 8 <= n <= |s| && s[n - 1] == 'r'
  {
    assert s[n - 8..n][7] == 'r';
  }

  /** The text ends with the word and white space. */
  ghost predicate AfterOperator(s: string) {
    exists n :: 0 <= n <= |s| && OperatorAt(s, n) && forall k :: n <= k < |s| ==> IsSpace(s[k])
  }

  lemma {:induction false} StripsSpace(s: string)
    ensures var n := |StripRight(s)|;
      && n <= |s| && StripRight(s) == s[..n] && (n > 0 ==> !IsSpace(s[n - 1]))
      && forall k :: n <= k < |s| ==> IsSpace(s[k])
    decreases |s|
  {
    if s != [] && IsSpace(s[|s| - 1]) {
      StripsSpace(s[..|s| - 1]);
    }
  }

  /** The regular expression accepts what it should. */
  lemma {:induction false} OperatorIff(s: string)
    ensures EndsWithOperator(s) <==> AfterOperator(s)
  {
    hide StripRight;
    var n := |StripRight(s)|;
    StripsSpace(s);
    if EndsWithOperator(s) {
      assert OperatorAt(s, n);
    }
    if AfterOperator(s) {
      var m :| 0 <= m <= |s| && OperatorAt(s, m) && forall k :: m <= k < |s| ==> IsSpace(s[k]);
      OperatorEndsInR(s, m);
      assert n == m;
    }
  }

  /** What the forward scanner takes a character for: `<` opens template arguments unless it is the second
      one of a shift or the name of an operator function, `>` closes some unless it ends an arrow or an
      operator function's name. */
  ghost function ForwardToken(line: string, i: nat): Token
    requires i < |line|
  {
    var c := line[i];
    if c == '<' then
      if i > 0 && line[i - 1] == '<' then Undo else if AfterOperator(line[..i]) then Plain(c) else Less
    else if c == '>' then
      if i > 0 && (line[i - 1] == '-' || AfterOperator(line[..i - 1])) then Plain(c) else Greater
    else if c == ';' then Semicolon
    else Plain(c)
  }

  ghost function LineTokens(line: string, i: nat, m: nat): (ts: seq<Token>)
    requires i <= m <= |line|
    ensures |ts| == m - i
  {
    seq(m - i, k requires 0 <= k < m - i => ForwardToken(line, i + k))
  }

  lemma {:induction false} NothingAfter(s: string)
    requires s == []
    ensures !AfterOperator(s)
  {
  }

  /** One step of the forward scanner, in terms of tokens. */
  lemma {:induction false} ForwardStepIsRead(line: string, i: nat, stack: string)
    requires i < |line| && stack != []
    ensures ForwardStep(line, i, stack) ==
      match Read(ForwardToken(line, i), stack)
      case Reads(stack') => Go(stack', 0)
      case Ends => Return(i + 1)
      case Fails => Return(-1)
  {
    hide AfterOperator, EndsWithOperator, DropPending;
    OperatorIff(line[..i]);
    NothingAfter(line[..0]);
    if i > 0 {
      OperatorIff(line[..i - 1]);
    }
  }

  lemma {:induction false} FirstToken(line: string, i: nat, m: nat)
    requires i < m <= |line|
    ensures var ts := LineTokens(line, i, m);
      ts != [] && ts[0] == ForwardToken(line, i) && ts[1..] == LineTokens(line, i + 1, m)
  {
    hide ForwardToken;
    var ts, rest := LineTokens(line, i, m), LineTokens(line, i + 1, m);
    assert forall k :: 0 <= k < |rest| ==> rest[k] == ForwardToken(line, i + 1 + k) == ts[k + 1];
  }

  /** On the part of a line from `i` to `m`, whatever comes before and after it. */
  lemma {:induction false} ForwardIsScan(line: string, i: nat, m: nat, stack: string)
    requires i <= m <= |line| && stack != []
    ensures match ScanTokens(LineTokens(line, i, m), stack)
      case Found(k) => k < m - i && FindEnd(line, i, stack) == At(i + k + 1)
      case Mismatch => FindEnd(line, i, stack) == At(-1)
      case Unclosed(rest) => rest != [] && FindEnd(line, i, stack) == FindEnd(line, m, rest)
    decreases m - i
  {
    hide ForwardToken, LineTokens, ScanTokens, Read, ForwardStep;
    var ts := LineTokens(line, i, m);
    if i == m {
      EmptyScan(ts, stack);
    } else {
      FirstToken(line, i, m);
      TokenStep(ts, stack);
      ForwardStepIsRead(line, i, stack);
      if Read(ts[0], stack).Reads? {
        ForwardIsScan(line, i + 1, m, Read(ts[0], stack).stack);
      }
    }
  }

  lemma {:induction false} EmptyScan(ts: seq<Token>, stack: string)
    requires ts == [] && stack != []
    ensures ScanTokens(ts, stack) == Unclosed(stack)
  {
  }

  // ---------- positions ----------

  predicate Before(lines: seq<string>, l: nat, i: nat, l2: nat, i2: nat) {
    l <= l2 < |lines| && i2 <= |lines[l2]| && i <= |lines[l]| && (l == l2 ==> i <= i2)
  }

  /** The text between two positions. */
  function Text(lines: seq<string>, l: nat, i: nat, l2: nat, i2: nat): string
    requires Before(lines, l, i, l2, i2)
    decreases l2 - l
  {
    if l == l2 then lines[l][i..i2] else lines[l][i..] + Text(lines, l + 1, 0, l2, i2)
  }

  /** And what the forward scanner takes its characters for. */
  ghost function Tokens(lines: seq<string>, l: nat, i: nat, l2: nat, i2: nat): seq<Token>
    requires Before(lines, l, i, l2, i2)
    decreases l2 - l
  {
    if l == l2 then LineTokens(lines[l], i, i2)
    else LineTokens(lines[l], i, |lines[l]|) + Tokens(lines, l + 1, 0, l2, i2)
  }

  lemma {:induction false} TokenChar(line: string, i: nat)
    requires i < |line|
    ensures CharOf(ForwardToken(line, i)) == line[i]
  {
    hide AfterOperator;
  }

  lemma {:induction false} LineChars(line: string, i: nat, m: nat)
    requires i <= m <= |line|
    ensures Chars(LineTokens(line, i, m)) == line[i..m]
  {
    hide ForwardToken;
    forall k | i <= k < m
      ensures CharOf(ForwardToken(line, k)) == line[k]
    {
      TokenChar(line, k);
    }
    var ts, text := Chars(LineTokens(line, i, m)), line[i..m];
    assert forall k :: 0 <= k < m - i ==> ts[k] == CharOf(ForwardToken(line, i + k)) == text[k];
  }

  lemma {:induction false} TokensChars(lines: seq<string>, l: nat, i: nat, l2: nat, i2: nat)
    requires Before(lines, l, i, l2, i2)
    ensures Chars(Tokens(lines, l, i, l2, i2)) == Text(lines, l, i, l2, i2)
    ensures |Tokens(lines, l, i, l2, i2)| == |Text(lines, l, i, l2, i2)|
    decreases l2 - l
  {
    hide Chars, LineTokens;
    if l == l2 {
      LineChars(lines[l], i, i2);
    } else {
      var here, later := LineTokens(lines[l], i, |lines[l]|), Tokens(lines, l + 1, 0, l2, i2);
      LineChars(lines[l], i, |lines[l]|);
      TokensChars(lines, l + 1, 0, l2, i2);
      CharsAppend(here, later);
    }
  }

  predicate IsPlace(lines: seq<string>, hit: Hit) {
    hit.linenum < |lines| && 0 < hit.pos <= |lines[hit.linenum]| && hit.line == lines[hit.linenum]
  }

  /** A place after the position. */
  predicate After(lines: seq<string>, l: nat, i: nat, hit: Hit) {
    IsPlace(lines, hit) && Before(lines, l, i, hit.linenum, hit.pos) && (l == hit.linenum ==> i < hit.pos)
  }

  lemma {:induction false} FindEndGoesOn(line: string, i: nat, stack: string)
    requires i <= |line|
    ensures FindEnd(line, i, stack).At? ==>
      FindEnd(line, i, stack).pos == -1 || i < FindEnd(line, i, stack).pos <= |line|
    decreases |line| - i
  {
    hide EndsWithOperator, DropPending;
    if i < |line| && ForwardStep(line, i, stack).Go? {
      FindEndGoesOn(line, i + 1, ForwardStep(line, i, stack).stack);
    }
  }

  /** Whatever the text, the outcome is a later place or none. */
  lemma {:induction false} CloseFromGoesOn(lines: seq<string>, l: nat, i: nat, stack: string)
    requires l < |lines| && i <= |lines[l]|
    ensures var hit := CloseFrom(lines, l, i, stack);
      After(lines, l, i, hit) || (hit.linenum == |lines| && hit.pos == -1)
    decreases |lines| - l
  {
    FindEndGoesOn(lines[l], i, stack);
    var r := FindEnd(lines[l], i, stack);
    if r.Rest? && r.stack != [] && l < |lines| - 1 {
      CloseFromGoesOn(lines, l + 1, 0, r.stack);
    }
  }

  /** `CloseExpression` on the text up to `(l2, i2)`, in terms of the scanner for tokens. */
  lemma {:induction false} CloseFromIsScan(lines: seq<string>, l: nat, i: nat, l2: nat, i2: nat, stack: string)
    requires Before(lines, l, i, l2, i2) && stack != []
    ensures var hit := CloseFrom(lines, l, i, stack);
      match ScanTokens(Tokens(lines, l, i, l2, i2), stack)
      case Found(k) =>
        && After(lines, l, i, hit) && Before(lines, hit.linenum, hit.pos, l2, i2)
        && k + 1 == |Text(lines, l, i, hit.linenum, hit.pos)|
      case Mismatch => hit.pos == -1
      case Unclosed(rest) => rest != [] && hit == CloseFrom(lines, l2, i2, rest)
    decreases l2 - l
  {
    hide ScanTokens, FindEnd, LineTokens;
    if l == l2 {
      ForwardIsScan(lines[l], i, i2, stack);
    } else {
      var line, here, later := lines[l], LineTokens(lines[l], i, |lines[l]|), Tokens(lines, l + 1, 0, l2, i2);
      ForwardIsScan(line, i, |line|, stack);
      TokensAppend(here, later, stack);
      if ScanTokens(here, stack).Unclosed? {
        EndOfLine(line, ScanTokens(here, stack).stack);
        CloseFromIsScan(lines, l + 1, 0, l2, i2, ScanTokens(here, stack).stack);
      }
    }
  }

  lemma {:induction false} EndOfLine(line: string, stack: string)
    ensures FindEnd(line, |line|, stack) == Rest(stack)
  {
  }

  lemma {:induction false} LineTokensButLast(line: string, i: nat, m: nat)
    requires i <= m < |line|
    ensures LineTokens(line, i, m + 1) == LineTokens(line, i, m) + [ForwardToken(line, m)]
  {
    hide ForwardToken;
  }

  lemma {:induction false} Associate<T>(a: seq<T>, b: seq<T>, c: seq<T>)
    ensures a + (b + c) == (a + b) + c
  {
  }

  lemma {:induction false} TokensButLast(lines: seq<string>, l: nat, i: nat, l2: nat, i2: nat)
    requires Before(lines, l, i, l2, i2) && i2 < |lines[l2]|
    ensures Tokens(lines, l, i, l2, i2 + 1) == Tokens(lines, l, i, l2, i2) + [ForwardToken(lines[l2], i2)]
    ensures Text(lines, l, i, l2, i2 + 1) == Text(lines, l, i, l2, i2) + [lines[l2][i2]]
    decreases l2 - l
  {
    hide LineTokens, ForwardToken;
    if l == l2 {
      LineTokensButLast(lines[l], i, i2);
    } else {
      TokensButLast(lines, l + 1, 0, l2, i2);
      Associate(LineTokens(lines[l], i, |lines[l]|), Tokens(lines, l + 1, 0, l2, i2), [ForwardToken(lines[l2], i2)]);
      Associate(lines[l][i..], Text(lines, l + 1, 0, l2, i2), [lines[l2][i2]]);
    }
  }

  lemma {:induction false} TextIsLong(lines: seq<string>, l: nat, i: nat, l2: nat, i2: nat)
    requires Before(lines, l, i, l2, i2) && l < l2
    ensures |Text(lines, l, i, l2, i2)| >= |lines[l]| - i + i2
    decreases l2 - l
  {
    if l + 1 < l2 {
      TextIsLong(lines, l + 1, 0, l2, i2);
    }
  }

  /** Texts of one length from one position end at one place. */
  lemma {:induction false} SamePlace(lines: seq<string>, l: nat, i: nat, a: nat, b: nat, c: nat, d: nat)
    requires Before(lines, l, i, a, b) && Before(lines, l, i, c, d) && b > 0 && d > 0
    requires |Text(lines, l, i, a, b)| == |Text(lines, l, i, c, d)|
    ensures a == c && b == d
    decreases |lines| - l
  {
    if l < a && l < c {
      SamePlace(lines, l + 1, 0, a, b, c, d);
    } else if l < a {
      TextIsLong(lines, l, i, a, b);
    } else if l < c {
      TextIsLong(lines, l, i, c, d);
    }
  }

  // ---------- what the forward scanner finds ----------

  /** A character from which the search can start: a bracket, or a `<` that is not an operator. */
  ghost predicate Opens(line: string, pos: nat)
    requires pos < |line|
  {
    IsOpen(line[pos]) || (ForwardToken(line, pos).Less? && !ShiftOrLessEqual(line, pos))
  }

  lemma {:induction false} CloseStarts(lines: seq<string>, l: nat, pos: nat)
    requires l < |lines| && pos < |lines[l]| && Opens(lines[l], pos)
    ensures Close(lines, l, pos) == CloseFrom(lines, l, pos + 1, [lines[l][pos]])
    ensures var hit := Close(lines, l, pos); After(lines, l, pos + 1, hit) || (hit.linenum == |lines| && hit.pos == -1)
  {
    hide AfterOperator, EndsWithOperator;
    var line := lines[l];
    OperatorIff(line[..pos]);
    assert [] + [line[pos]] == [line[pos]];
    assert ForwardStep(line, pos, []) == Go([line[pos]], 0);
    CloseFromGoesOn(lines, l, pos + 1, [line[pos]]);
  }

  /** A place is found exactly where the scanner for tokens finds the end. */
  lemma {:induction false} CloseIffScan(lines: seq<string>, l: nat, pos: nat, l2: nat, i2: nat)
    requires l < |lines| && pos < |lines[l]| && Opens(lines[l], pos)
    requires Before(lines, l, pos + 1, l2, i2) && i2 < |lines[l2]|
    ensures Close(lines, l, pos) == Hit(lines[l2], l2, i2 + 1) <==>
      ScanTokens(Tokens(lines, l, pos + 1, l2, i2 + 1), [lines[l][pos]]) ==
        Found(|Tokens(lines, l, pos + 1, l2, i2)|)
  {
    hide Close, CloseFrom, Tokens, ScanTokens, Opens, Text, ForwardToken;
    var c, hit := lines[l][pos], Close(lines, l, pos);
    var r := ScanTokens(Tokens(lines, l, pos + 1, l2, i2 + 1), [c]);
    CloseStarts(lines, l, pos);
    TokensButLast(lines, l, pos + 1, l2, i2);
    TokensChars(lines, l, pos + 1, l2, i2 + 1);
    CloseFromIsScan(lines, l, pos + 1, l2, i2 + 1, [c]);
    if r.Unclosed? {
      CloseFromGoesOn(lines, l2, i2 + 1, r.stack);
    }
    if r == Found(|Tokens(lines, l, pos + 1, l2, i2)|) {
      SamePlace(lines, l, pos + 1, hit.linenum, hit.pos, l2, i2 + 1);
    }
  }

  lemma {:induction false} FoundInside(s: string, c: char, d: char)
    requires IsOpen(c)
    ensures Scan(s + [d], [c]) == Found(|s|) <==> Pair(c, d) && Balanced(s)
  {
    hide Balanced, Scan;
    assert (s + [d])[|s|] == d && (s + [d])[..|s|] == s;
    if Scan(s + [d], [c]) == Found(|s|) {
      FoundBalanced(s + [d], c);
    }
    if Pair(c, d) && Balanced(s) {
      ScanBalanced(s, [d], [c]);
      ScanStep([d], [c]);
    }
  }

  lemma {:induction false} BracketScan(ts: seq<Token>, c: char, k: nat)
    requires IsOpen(c)
    ensures ScanTokens(ts, [c]) == Found(k) <==> Scan(Chars(ts), [c]) == Found(k)
  {
    hide ScanTokens, Scan, Chars;
    HardMore([], c);
    HardEmpty();
    assert [] + [c] == [c];
    var rest := TokensAreScan(ts, [], [c]);
  }

  /** From `(`, `[` or `{`, whatever the text: a place is found exactly if it is after the partner and the
      text between the two is well bracketed. What stands for comparisons, shifts, arrows or template
      arguments makes no difference. */
  lemma {:induction false} CloseIff(lines: seq<string>, l: nat, pos: nat, l2: nat, i2: nat)
    requires l < |lines| && pos < |lines[l]| && IsOpen(lines[l][pos])
    requires Before(lines, l, pos + 1, l2, i2) && i2 < |lines[l2]|
    ensures Close(lines, l, pos) == Hit(lines[l2], l2, i2 + 1) <==>
      Pair(lines[l][pos], lines[l2][i2]) && Balanced(Text(lines, l, pos + 1, l2, i2))
  {
    hide Close, Tokens, ScanTokens, Scan, Text, ForwardToken, Balanced;
    var c, d, ts := lines[l][pos], lines[l2][i2], Tokens(lines, l, pos + 1, l2, i2 + 1);
    CloseIffScan(lines, l, pos, l2, i2);
    TokensChars(lines, l, pos + 1, l2, i2);
    TokensChars(lines, l, pos + 1, l2, i2 + 1);
    TokensButLast(lines, l, pos + 1, l2, i2);
    BracketScan(ts, c, |ts| - 1);
    FoundInside(Text(lines, l, pos + 1, l2, i2), c, d);
  }

  /** From a `<` that may open template arguments: a place is found exactly if it is after a `>` that may
      close some and the text between the two is nested. */
  lemma {:induction false} CloseAnglesIff(lines: seq<string>, l: nat, pos: nat, l2: nat, i2: nat)
    requires l < |lines| && pos < |lines[l]| && ForwardToken(lines[l], pos).Less? && !ShiftOrLessEqual(lines[l], pos)
    requires Before(lines, l, pos + 1, l2, i2) && i2 < |lines[l2]|
    ensures Close(lines, l, pos) == Hit(lines[l2], l2, i2 + 1) <==>
      ForwardToken(lines[l2], i2).Greater? && Nested(Tokens(lines, l, pos + 1, l2, i2))
  {
    hide Close, Tokens, ScanTokens, Text, Nested, AfterOperator, ShiftOrLessEqual;
    var inner, ts := Tokens(lines, l, pos + 1, l2, i2), Tokens(lines, l, pos + 1, l2, i2 + 1);
    CloseIffScan(lines, l, pos, l2, i2);
    TokensButLast(lines, l, pos + 1, l2, i2);
    FoundIffNested(ts, |inner|);
    assert ts[|inner|] == ForwardToken(lines[l2], i2) && ts[..|inner|] == inner;
  }

  /** With `<` and `>` as a fourth pair: if the text between a bracket and its partner is well bracketed
      and none of its signs is an operator, the place after the partner is found. */
  lemma {:induction false} CloseFindsPartnerOfFour(lines: seq<string>, l: nat, pos: nat, l2: nat, i2: nat)
    requires l < |lines| && pos < |lines[l]| && Opens(lines[l], pos)
    requires Before(lines, l, pos + 1, l2, i2) && i2 < |lines[l2]|
    requires Partners(ForwardToken(lines[l], pos), ForwardToken(lines[l2], i2))
    requires Bracketed(Tokens(lines, l, pos + 1, l2, i2))
    ensures Close(lines, l, pos) == Hit(lines[l2], l2, i2 + 1)
  {
    hide Close, Tokens, Text, Nested, Balanced, AfterOperator, ShiftOrLessEqual, Bracketed;
    TokenChar(lines[l], pos);
    TokenChar(lines[l2], i2);
    BracketedIsBalanced(Tokens(lines, l, pos + 1, l2, i2));
    BracketedIsNested(Tokens(lines, l, pos + 1, l2, i2));
    TokensChars(lines, l, pos + 1, l2, i2);
    if IsOpen(lines[l][pos]) {
      CloseIff(lines, l, pos, l2, i2);
    } else {
      CloseAnglesIff(lines, l, pos, l2, i2);
    }
  }

  /** The character before the place that is found is the partner of the bracket, with well-bracketed text
      between them; a failure is reported as the number of lines and -1. */
  lemma {:induction false} CloseFindsPartner(lines: seq<string>, l: nat, pos: nat)
    requires l < |lines| && pos < |lines[l]| && IsOpen(lines[l][pos])
    ensures var hit := Close(lines, l, pos);
      if hit.pos > -1 then
        && After(lines, l, pos + 1, hit)
        && Pair(lines[l][pos], lines[hit.linenum][hit.pos - 1])
        && Balanced(Text(lines, l, pos + 1, hit.linenum, hit.pos - 1))
      else hit.linenum == |lines| && hit.pos == -1
  {
    hide Close, CloseFrom, Balanced, Text;
    var hit := Close(lines, l, pos);
    CloseStarts(lines, l, pos);
    if hit.pos > -1 {
      CloseIff(lines, l, pos, hit.linenum, hit.pos - 1);
    }
  }

  lemma {:induction false} TextStarts(lines: seq<string>, l: nat, i: nat, l2: nat, i2: nat)
    requires l < |lines| && i < |lines[l]| && Before(lines, l, i + 1, l2, i2)
    ensures Text(lines, l, i, l2, i2) == [lines[l][i]] + Text(lines, l, i + 1, l2, i2)
  {
  }

  /** The text up to the place that is found is well bracketed. */
  lemma {:induction false} CloseIsBalanced(lines: seq<string>, l: nat, pos: nat)
    requires l < |lines| && pos < |lines[l]| && IsOpen(lines[l][pos]) && Close(lines, l, pos).pos > -1
    ensures var hit := Close(lines, l, pos);
      After(lines, l, pos + 1, hit) && Balanced(Text(lines, l, pos, hit.linenum, hit.pos))
  {
    hide Close, Balanced, Text;
    var hit := Close(lines, l, pos);
    CloseFindsPartner(lines, l, pos);
    var l2, i2 := hit.linenum, hit.pos - 1;
    TokensButLast(lines, l, pos + 1, l2, i2);
    TextStarts(lines, l, pos, l2, i2 + 1);
    EmptyBalanced([]);
    var inner, d := Text(lines, l, pos + 1, l2, i2), lines[l2][i2];
    Assemble(lines[l][pos], inner, d, []);
    assert inner + ([d] + []) == inner + [d];
  }

  /** And a place is found no later than any place up to which the text is well bracketed: the shortest
      well-bracketed text from the bracket on, if there is any. */
  lemma {:induction false} CloseIsShortest(lines: seq<string>, l: nat, pos: nat, l2: nat, i2: nat)
    requires l < |lines| && pos < |lines[l]| && IsOpen(lines[l][pos]) && Before(lines, l, pos + 1, l2, i2)
    requires Balanced(Text(lines, l, pos, l2, i2))
    ensures var hit := Close(lines, l, pos);
      hit.pos > -1 && hit.linenum <= l2 && (hit.linenum == l2 ==> hit.pos <= i2)
  {
    hide Close, CloseFrom, Balanced, Scan, ScanTokens, Text, Tokens;
    var c, x, ts := lines[l][pos], Text(lines, l, pos + 1, l2, i2), Tokens(lines, l, pos + 1, l2, i2);
    TextStarts(lines, l, pos, l2, i2);
    assert ([c] + x)[1..] == x && ([c] + x)[..|x| + 1] == [c] + x;
    PrefixFound([c] + x, |x| + 1);
    CloseStarts(lines, l, pos);
    TokensChars(lines, l, pos + 1, l2, i2);
    BracketScan(ts, c, Scan(x, [c]).at);
    CloseFromIsScan(lines, l, pos + 1, l2, i2, [c]);
  }

  /** A search begins only at an opening bracket or at a `<` that is not followed by `<` or `=`. */
  lemma {:induction false} CloseBeginsAt(lines: seq<string>, l: nat, pos: nat)
    requires l < |lines| && pos < |lines[l]| && Close(lines, l, pos).pos > -1
    ensures var line := lines[l];
      || line[pos] == '(' || line[pos] == '[' || line[pos] == '{'
      || (line[pos] == '<' && !(pos + 1 < |line| && (line[pos + 1] == '<' || line[pos + 1] == '=')))
  {
    hide CloseFrom;
  }

  /** Neither opens nor ends anything while nothing is open. */
  ghost predicate Idles(t: Token) {
    IsPlain(t) || t.Greater? || t.Undo?
  }

  lemma {:induction false} IdleStep(line: string, i: nat)
    requires i < |line| && Idles(ForwardToken(line, i))
    ensures FindEnd(line, i, []) == FindEnd(line, i + 1, [])
  {
    hide AfterOperator, EndsWithOperator;
    OperatorIff(line[..i]);
    NothingAfter(line[..0]);
    if i > 0 {
      OperatorIff(line[..i - 1]);
    }
  }

  /** But a `<` that is an operator opens nothing, and the search goes on all the same: what it finds is the
      end of the first expression after it on the line. */
  lemma {:induction false} CloseFromOperator(lines: seq<string>, l: nat, pos: nat, j: nat)
    requires l < |lines| && pos < j < |lines[l]| && lines[l][pos] == '<' && !ShiftOrLessEqual(lines[l], pos)
    requires forall i :: pos <= i < j ==> Idles(ForwardToken(lines[l], i))
    requires Opens(lines[l], j)
    ensures Close(lines, l, pos) == Close(lines, l, j)
  {
    hide ForwardToken, FindEnd, Opens, Idles, ShiftOrLessEqual;
    var line, i := lines[l], j;
    while i > pos
      invariant pos <= i <= j && FindEnd(line, i, []) == FindEnd(line, j, [])
    {
      i := i - 1;
      IdleStep(line, i);
    }
    CloseIsCloseFrom(lines, l, pos);
    CloseIsCloseFrom(lines, l, j);
  }

  lemma {:induction false} CloseIsCloseFrom(lines: seq<string>, l: nat, pos: nat)
    requires l < |lines| && pos < |lines[l]|
    requires Opens(lines[l], pos) || (lines[l][pos] == '<' && !ShiftOrLessEqual(lines[l], pos))
    ensures Close(lines, l, pos) == CloseFrom(lines, l, pos, [])
  {
    hide CloseFrom, AfterOperator;
  }

  // ---------- backwards ----------

  /** The backward scanner passes over this character and the one before it: the sign of an arrow, of `>=`
      between spaces, of an operator function's name or of a shift. */
  ghost predicate Skips(line: string, i: nat)
    requires i < |line|
  {
    && i > 0
    && (|| (line[i] == '<' && line[i - 1] == '<')
        || (line[i] == '>' &&
            (line[i - 1] == '-' || SpacedGreaterEqual(line, i) || AfterOperator(line[..i]))))
  }

  /** What it takes another character for, as seen from the end of the text. */
  function BackwardToken(c: char): Token {
    if c == '>' then Less else if c == '<' then Greater else if c == ';' then Semicolon else Plain(Flip(c))
  }

  /** The characters from `i` down to `m`. */
  ghost function BackTokens(line: string, m: nat, i: int): (ts: seq<Token>)
    requires m <= i + 1 <= |line|
    ensures |ts| == i + 1 - m
    decreases i + 1 - m
  {
    if i < m then []
    else if !Skips(line, i) then [BackwardToken(line[i])] + BackTokens(line, m, i - 1)
    else if i == m then [Plain(Flip(line[i]))]
    else [Plain(Flip(line[i])), Plain(Flip(line[i - 1]))] + BackTokens(line, m, i - 2)
  }

  function FlipAll(stack: string): string {
    seq(|stack|, i requires 0 <= i < |stack| => Flip(stack[i]))
  }

  lemma {:induction false} FlipAllTwice(stack: string)
    ensures |FlipAll(stack)| == |stack| && FlipAll(FlipAll(stack)) == stack
  {
  }

  lemma {:induction false} FlipPush(stack: string, c: char)
    ensures FlipAll(stack + [c]) == FlipAll(stack) + [Flip(c)]
  {
  }

  lemma {:induction false} FlipPop(stack: string)
    requires stack != []
    ensures var flipped := FlipAll(stack);
      flipped != [] && Pop(flipped) == FlipAll(Pop(stack)) && flipped[|flipped| - 1] == Flip(stack[|stack| - 1])
  {
  }

  lemma {:induction false} FlipDrop(stack: string)
    ensures DropPending(FlipAll(stack), '<') == FlipAll(DropPending(stack, '>'))
    decreases |stack|
  {
    hide FlipAll;
    if stack != [] {
      FlipPop(stack);
      if TopIs(stack, '>') {
        FlipDrop(Pop(stack));
      }
    } else {
      FlipAllTwice(stack);
    }
  }

  lemma {:induction false} FlipPair(open: char, close: char)
    ensures Pair(open, close) <==> IsOpen(Flip(close)) && Flip(open) == Flip(Flip(close))
    ensures Pair(open, close) <==> Pair(Flip(close), Flip(open))
  {
  }

  /** One step of the backward scanner, in terms of tokens. */
  lemma {:induction false} BackwardStepIsRead(line: string, i: nat, stack: string)
    requires i < |line| && stack != [] && !Skips(line, i)
    ensures FlipAll(stack) != []
    ensures match Read(BackwardToken(line[i]), FlipAll(stack))
      case Reads(stack') => BackwardStep(line, i, stack) == Go(FlipAll(stack'), 0)
      case Ends => BackwardStep(line, i, stack) == Return(i)
      case Fails => BackwardStep(line, i, stack) == Return(-1)
  {
    hide AfterOperator, EndsWithOperator, DropPending, FlipAll, SpacedGreaterEqual;
    var c, rest := line[i], DropPending(stack, '>');
    OperatorIff(line[..i]);
    FlipAllTwice(stack);
    FlipAllTwice(rest);
    FlipDrop(stack);
    FlipPush(stack, c);
    FlipAllTwice(stack + [c]);
    FlipPop(stack);
    FlipAllTwice(Pop(stack));
    if rest != [] {
      FlipPop(rest);
      FlipAllTwice(Pop(rest));
      FlipPair(c, rest[|rest| - 1]);
    }
  }

  lemma {:induction false} BackwardSkips(line: string, i: nat, stack: string)
    requires i < |line| && Skips(line, i)
    ensures i > 0 && BackwardStep(line, i, stack) == Go(stack, 1)
    ensures IsPlain(Plain(Flip(line[i]))) && IsPlain(Plain(Flip(line[i - 1])))
  {
    hide AfterOperator, EndsWithOperator;
    OperatorIff(line[..i]);
    if AfterOperator(line[..i]) {
      OperatorLast(line[..i]);
    }
  }

  lemma {:induction false} OperatorLast(s: string)
    requires AfterOperator(s)
    ensures s != [] && (s[|s| - 1] == 'r' || IsSpace(s[|s| - 1]))
  {
    hide OperatorAt, IsSpace;
    var n :| 0 <= n <= |s| && OperatorAt(s, n) && forall k :: n <= k < |s| ==> IsSpace(s[k]);
    OperatorEndsInR(s, n);
  }

  lemma {:induction false} PlainRead(ts: seq<Token>, stack: string)
    requires ts != [] && IsPlain(ts[0]) && stack != []
    ensures ScanTokens(ts, stack) == Shift(1, ScanTokens(ts[1..], stack))
  {
    hide ScanTokens;
    TokenStep(ts, stack);
  }

  /** On the part of a line from `m` up to and with `i`; `low` is where the scanner then is, one character
      further if it has passed over two. */
  lemma {:induction false} BackwardIsScan(line: string, m: nat, i: int, stack: string) returns (low: int)
    requires m <= i + 1 <= |line| && stack != []
    ensures FlipAll(stack) != [] && m - 2 <= low < m && (m < |line| && !Skips(line, m) ==> low == m - 1)
    ensures match ScanTokens(BackTokens(line, m, i), FlipAll(stack))
      case Found(k) => k < i + 1 - m && FindStart(line, i, stack) == At(i - k)
      case Mismatch => FindStart(line, i, stack) == At(-1)
      case Unclosed(rest) => rest != [] && -1 <= low && FindStart(line, i, stack) == FindStart(line, low, FlipAll(rest))
    decreases i + 1 - m
  {
    hide FlipAll, BackwardStep, ScanTokens, Read, Skips;
    FlipAllTwice(stack);
    var ts, flipped := BackTokens(line, m, i), FlipAll(stack);
    low := m - 1;
    if i < m {
      EmptyScan(ts, flipped);
    } else if Skips(line, i) {
      BackwardSkips(line, i, stack);
      PlainRead(ts, flipped);
      if i == m {
        EmptyScan(ts[1..], flipped);
        low := m - 2;
      } else {
        PlainRead(ts[1..], flipped);
        low := BackwardIsScan(line, m, i - 2, stack);
      }
    } else {
      TokenStep(ts, flipped);
      BackwardStepIsRead(line, i, stack);
      if Read(ts[0], flipped).Reads? {
        var rest := Read(ts[0], flipped).stack;
        FlipAllTwice(rest);
        low := BackwardIsScan(line, m, i - 1, FlipAll(rest));
      }
    }
  }

  /** The characters between two positions, from the last one to the first one. */
  ghost function TokensBack(lines: seq<string>, l: nat, i: nat, l2: nat, i2: nat): seq<Token>
    requires Before(lines, l, i, l2, i2)
    decreases l2 - l
  {
    if l == l2 then BackTokens(lines[l], i, i2 - 1)
    else BackTokens(lines[l2], 0, i2 - 1) + TokensBack(lines, l, i, l2 - 1, |lines[l2 - 1]|)
  }

  lemma {:induction false} TextByLastLine(lines: seq<string>, l: nat, i: nat, l2: nat, i2: nat)
    requires Before(lines, l, i, l2, i2) && l < l2
    ensures Text(lines, l, i, l2, i2) == Text(lines, l, i, l2 - 1, |lines[l2 - 1]|) + lines[l2][0..i2]
    decreases l2 - l
  {
    if l + 1 < l2 {
      TextByLastLine(lines, l + 1, 0, l2, i2);
      Associate(lines[l][i..], Text(lines, l + 1, 0, l2 - 1, |lines[l2 - 1]|), lines[l2][0..i2]);
    } else {
      assert lines[l][i..] == lines[l][i..|lines[l]|];
    }
  }

  lemma {:induction false} MirrorLast(s: string, m: nat, i: nat)
    requires m <= i < |s|
    ensures Mirror(s[m..i + 1]) == [Flip(s[i])] + Mirror(s[m..i])
  {
    assert s[m..i + 1] == s[m..i] + [s[i]] && [s[i]][1..] == [];
    MirrorAppend(s[m..i], [s[i]]);
  }

  lemma {:induction false} BackChars(line: string, m: nat, i: int)
    requires m <= i + 1 <= |line|
    ensures Chars(BackTokens(line, m, i)) == Mirror(line[m..i + 1])
    decreases i + 1 - m
  {
    hide Skips, Chars, Mirror;
    var ts := BackTokens(line, m, i);
    if i < m {
      CharsOfNone(ts);
      MirrorNone(line[m..i + 1]);
    } else {
      MirrorLast(line, m, i);
      CharsStep(ts);
      if !Skips(line, i) {
        BackChars(line, m, i - 1);
      } else if i == m {
        CharsOfNone(ts[1..]);
        MirrorNone(line[m..i]);
      } else {
        MirrorLast(line, m, i - 1);
        CharsStep(ts[1..]);
        BackChars(line, m, i - 2);
      }
    }
  }

  lemma {:induction false} MirrorNone(s: string)
    requires s == []
    ensures Mirror(s) == []
  {
  }

  lemma {:induction false} TokensBackChars(lines: seq<string>, l: nat, i: nat, l2: nat, i2: nat)
    requires Before(lines, l, i, l2, i2)
    ensures Chars(TokensBack(lines, l, i, l2, i2)) == Mirror(Text(lines, l, i, l2, i2))
    ensures |TokensBack(lines, l, i, l2, i2)| == |Text(lines, l, i, l2, i2)|
    decreases l2 - l
  {
    hide Chars, BackTokens, Mirror;
    if l == l2 {
      BackChars(lines[l], i, i2 - 1);
    } else {
      var here, earlier := BackTokens(lines[l2], 0, i2 - 1), TokensBack(lines, l, i, l2 - 1, |lines[l2 - 1]|);
      BackChars(lines[l2], 0, i2 - 1);
      TokensBackChars(lines, l, i, l2 - 1, |lines[l2 - 1]|);
      CharsAppend(here, earlier);
      TextByLastLine(lines, l, i, l2, i2);
      MirrorAppend(Text(lines, l, i, l2 - 1, |lines[l2 - 1]|), lines[l2][0..i2]);
    }
  }

  /** A place before the position. */
  predicate Earlier(lines: seq<string>, hit: Hit, l: nat, i: int) {
    && hit.linenum <= l < |lines| && hit.line == lines[hit.linenum]
    && 0 <= hit.pos < |lines[hit.linenum]| && (hit.linenum == l ==> hit.pos <= i)
  }

  lemma {:induction false} FindStartGoesBack(line: string, i: int, stack: string)
    requires i < |line|
    ensures FindStart(line, i, stack).At? ==> -1 <= FindStart(line, i, stack).pos && FindStart(line, i, stack).pos <= i
    decreases i
  {
    hide EndsWithOperator, DropPending, SpacedGreaterEqual;
    if i >= 0 && BackwardStep(line, i, stack).Go? {
      FindStartGoesBack(line, i - BackwardStep(line, i, stack).back - 1, BackwardStep(line, i, stack).stack);
    }
  }

  lemma {:induction false} ReverseFromGoesBack(lines: seq<string>, l: nat, i: int, stack: string)
    requires l < |lines| && i < |lines[l]|
    ensures var hit := ReverseFrom(lines, l, i, stack);
      Earlier(lines, hit, l, i) || (hit.linenum == 0 && hit.pos == -1)
    decreases l
  {
    FindStartGoesBack(lines[l], i, stack);
    var r := FindStart(lines[l], i, stack);
    if r.Rest? && r.stack != [] && l > 0 {
      ReverseFromGoesBack(lines, l - 1, |lines[l - 1]| - 1, r.stack);
    }
  }

  lemma {:induction false} StartOfLine(line: string, stack: string)
    ensures FindStart(line, -1, stack) == Rest(stack)
  {
  }

  lemma {:induction false} TextInLine(lines: seq<string>, l: nat, i2: nat)
    requires l < |lines| && i2 <= |lines[l]|
    ensures forall i: nat :: i <= i2 ==> |Text(lines, l, i, l, i2)| == i2 - i
  {
  }

  /** `ReverseCloseExpression` on the text down to `(l, i)`, in terms of the scanner for tokens. */
  lemma {:induction false} ReverseFromIsScan(lines: seq<string>, l: nat, i: nat, l2: nat, i2: nat, stack: string)
    returns (low: int)
    requires Before(lines, l, i, l2, i2) && stack != []
    ensures FlipAll(stack) != [] && low < i && low < |lines[l]|
    ensures var hit := ReverseFrom(lines, l2, i2 - 1, stack);
      match ScanTokens(TokensBack(lines, l, i, l2, i2), FlipAll(stack))
      case Found(k) =>
        && Earlier(lines, hit, l2, i2 - 1) && Before(lines, l, i, hit.linenum, hit.pos)
        && k + 1 == |Text(lines, hit.linenum, hit.pos, l2, i2)|
      case Mismatch => hit.pos == -1
      case Unclosed(rest) => rest != [] && hit == ReverseFrom(lines, l, low, FlipAll(rest))
    decreases l2 - l
  {
    hide ScanTokens, FindStart, BackTokens, FlipAll, Skips, Text;
    FlipAllTwice(stack);
    TextInLine(lines, l2, i2);
    if l == l2 {
      low := BackwardIsScan(lines[l], i, i2 - 1, stack);
    } else {
      var here, earlier := BackTokens(lines[l2], 0, i2 - 1), TokensBack(lines, l, i, l2 - 1, |lines[l2 - 1]|);
      low := BackwardIsScan(lines[l2], 0, i2 - 1, stack);
      var r := ScanTokens(here, FlipAll(stack));
      TokensAppend(here, earlier, FlipAll(stack));
      low := i - 1;
      if r.Unclosed? {
        FlipAllTwice(r.stack);
        StartOfLine(lines[l2], FlipAll(r.stack));
        low := ReverseFromIsScan(lines, l, i, l2 - 1, |lines[l2 - 1]|, FlipAll(r.stack));
        var hit := ReverseFrom(lines, l2, i2 - 1, stack);
        if hit.pos >= 0 && Before(lines, hit.linenum, hit.pos, l2, i2) && hit.linenum < l2 {
          TextByLastLine(lines, hit.linenum, hit.pos, l2, i2);
        }
      }
    }
  }

  /** Texts of one length up to one position begin at one place. */
  lemma {:induction false} SameStart(lines: seq<string>, a: nat, b: nat, c: nat, d: nat, l2: nat, i2: nat)
    requires Before(lines, a, b, l2, i2) && Before(lines, c, d, l2, i2) && b < |lines[a]| && d < |lines[c]|
    requires |Text(lines, a, b, l2, i2)| == |Text(lines, c, d, l2, i2)|
    ensures a == c && b == d
  {
    if a < c {
      LaterIsShorter(lines, a, b, c, d, l2, i2);
    } else if c < a {
      LaterIsShorter(lines, c, d, a, b, l2, i2);
    } else if a < l2 {
      assert |lines[a][b..]| == |lines[a]| - b && |lines[a][d..]| == |lines[a]| - d;
    }
  }

  lemma {:induction false} LaterIsShorter(lines: seq<string>, a: nat, b: nat, c: nat, d: nat, l2: nat, i2: nat)
    requires Before(lines, a, b, l2, i2) && Before(lines, c, d, l2, i2) && b < |lines[a]| && a < c
    ensures |Text(lines, a, b, l2, i2)| > |Text(lines, c, d, l2, i2)|
  {
    hide Text;
    TextStep(lines, a, b, l2, i2);
    SuffixIsShorter(lines, a + 1, 0, c, d, l2, i2);
  }

  lemma {:induction false} TextStep(lines: seq<string>, l: nat, i: nat, l2: nat, i2: nat)
    requires Before(lines, l, i, l2, i2) && l < l2
    ensures |Text(lines, l, i, l2, i2)| == |lines[l]| - i + |Text(lines, l + 1, 0, l2, i2)|
  {
  }

  lemma {:induction false} SuffixIsShorter(lines: seq<string>, a: nat, b: nat, c: nat, d: nat, l2: nat, i2: nat)
    requires Before(lines, a, b, l2, i2) && Before(lines, c, d, l2, i2) && Before(lines, a, b, c, d)
    ensures |Text(lines, a, b, l2, i2)| >= |Text(lines, c, d, l2, i2)|
    decreases c - a
  {
    if a < c {
      SuffixIsShorter(lines, a + 1, 0, c, d, l2, i2);
    }
  }

  // ---------- what the backward scanner finds ----------

  /** A character from which the backward search can start. */
  ghost predicate OpensBack(line: string, pos: nat)
    requires pos < |line|
  {
    IsClose(line[pos]) || (line[pos] == '>' && !Skips(line, pos))
  }

  lemma {:induction false} ReverseStarts(lines: seq<string>, l: nat, pos: nat)
    requires l < |lines| && pos < |lines[l]| && OpensBack(lines[l], pos)
    ensures ReverseClose(lines, l, pos) == ReverseFrom(lines, l, pos - 1, [lines[l][pos]])
  {
    hide AfterOperator, EndsWithOperator;
    var line := lines[l];
    OperatorIff(line[..pos]);
    assert [] + [line[pos]] == [line[pos]];
    assert BackwardStep(line, pos, []) == Go([line[pos]], 0);
    assert FindStart(line, pos, []) == FindStart(line, pos - 1, [line[pos]]);
  }

  /** The earlier position is before the later one. */
  predicate Apart(lines: seq<string>, l: nat, pos: nat, l2: nat, i2: nat) {
    Before(lines, l, pos, l2, i2) && pos < |lines[l]| && i2 < |lines[l2]| && (l == l2 ==> pos < i2)
  }

  lemma {:induction false} FlipOne(c: char)
    ensures FlipAll([c]) == [Flip(c)]
  {
  }

  /** A place is found exactly where the scanner for tokens finds the end. */
  lemma {:induction false} ReverseIffScan(lines: seq<string>, l: nat, pos: nat, l2: nat, i2: nat)
    requires Apart(lines, l, pos, l2, i2) && OpensBack(lines[l2], i2)
    ensures var ts := TokensBack(lines, l, pos, l2, i2);
      && ts != []
      && (ReverseClose(lines, l2, i2) == Hit(lines[l], l, pos) <==>
            ScanTokens(ts, [Flip(lines[l2][i2])]) == Found(|ts| - 1))
  {
    hide ReverseClose, ReverseFrom, TokensBack, ScanTokens, OpensBack, Text, FlipAll;
    var c, ts, hit := lines[l2][i2], TokensBack(lines, l, pos, l2, i2), ReverseClose(lines, l2, i2);
    ReverseStarts(lines, l2, i2);
    TokensBackChars(lines, l, pos, l2, i2);
    NotNothing(lines, l, pos, l2, i2);
    FlipOne(c);
    var low := ReverseFromIsScan(lines, l, pos, l2, i2, [c]);
    var r := ScanTokens(ts, [Flip(c)]);
    if r.Unclosed? {
      ReverseFromGoesBack(lines, l, low, FlipAll(r.stack));
    }
    if r == Found(|ts| - 1) {
      SameStart(lines, hit.linenum, hit.pos, l, pos, l2, i2);
    }
  }

  lemma {:induction false} NotNothing(lines: seq<string>, l: nat, pos: nat, l2: nat, i2: nat)
    requires Apart(lines, l, pos, l2, i2)
    ensures Text(lines, l, pos, l2, i2) != []
  {
  }

  lemma {:induction false} MirrorFirst(c: char, x: string)
    ensures Mirror([c] + x) == Mirror(x) + [Flip(c)]
  {
    assert ([c] + x)[1..] == x;
  }

  lemma {:induction false} MirrorBalancedIff(x: string)
    ensures Balanced(Mirror(x)) <==> Balanced(x)
  {
    hide Balanced;
    MirrorTwice(x);
    if Balanced(x) {
      MirrorBalanced(x);
    }
    if Balanced(Mirror(x)) {
      MirrorBalanced(Mirror(x));
    }
  }

  lemma {:induction false} FlipOpens(c: char)
    ensures IsOpen(Flip(c)) <==> IsClose(c)
  {
  }

  /** From `)`, `]` or `}`, whatever the text: a place is found exactly if it is at the partner and the text
      between the two is well bracketed. */
  lemma {:induction false} ReverseIff(lines: seq<string>, l: nat, pos: nat, l2: nat, i2: nat)
    requires Apart(lines, l, pos, l2, i2) && IsClose(lines[l2][i2])
    ensures Before(lines, l, pos + 1, l2, i2)
    ensures ReverseClose(lines, l2, i2) == Hit(lines[l], l, pos) <==>
      Pair(lines[l][pos], lines[l2][i2]) && Balanced(Text(lines, l, pos + 1, l2, i2))
  {
    hide ReverseClose, TokensBack, ScanTokens, Scan, Text, Balanced, Mirror, Flip;
    var c, d, ts, inner := lines[l][pos], lines[l2][i2], TokensBack(lines, l, pos, l2, i2),
      Text(lines, l, pos + 1, l2, i2);
    ReverseIffScan(lines, l, pos, l2, i2);
    TokensBackChars(lines, l, pos, l2, i2);
    TextStarts(lines, l, pos, l2, i2);
    MirrorFirst(c, inner);
    FlipOpens(d);
    BracketScan(ts, Flip(d), |ts| - 1);
    FoundInside(Mirror(inner), Flip(d), Flip(c));
    FlipPair(c, d);
    MirrorBalancedIff(inner);
  }

  /** From a `>` that may close template arguments: a place is found exactly if it is at a `<` that may open
      some and the text between the two is nested as seen from its end. */
  lemma {:induction false} ReverseAnglesIff(lines: seq<string>, l: nat, pos: nat, l2: nat, i2: nat)
    requires Apart(lines, l, pos, l2, i2) && lines[l2][i2] == '>' && !Skips(lines[l2], i2)
    ensures var ts := TokensBack(lines, l, pos, l2, i2);
      && ts != []
      && (ReverseClose(lines, l2, i2) == Hit(lines[l], l, pos) <==>
            ts[|ts| - 1].Greater? && Nested(ts[..|ts| - 1]))
  {
    hide ReverseClose, TokensBack, ScanTokens, Nested, Skips;
    var ts := TokensBack(lines, l, pos, l2, i2);
    ReverseIffScan(lines, l, pos, l2, i2);
    FoundIffNested(ts, |ts| - 1);
  }

  /** The scanners are each other's inverses: whatever the text, the forward one comes from an opening bracket
      to the place after a closing one exactly if the backward one comes from that to the opening one. */
  lemma {:induction false} RoundTrip(lines: seq<string>, l: nat, pos: nat, l2: nat, i2: nat)
    requires Apart(lines, l, pos, l2, i2) && IsOpen(lines[l][pos]) && IsClose(lines[l2][i2])
    ensures Close(lines, l, pos) == Hit(lines[l2], l2, i2 + 1) <==> ReverseClose(lines, l2, i2) == Hit(lines[l], l, pos)
  {
    hide Close, ReverseClose, Text, Balanced;
    ReverseIff(lines, l, pos, l2, i2);
    CloseIff(lines, l, pos, l2, i2);
  }

  // ---------- angle brackets there and back ----------

  /** If the character is an angle bracket, both scanners take it for one, and neither passes over it. */
  ghost predicate IsClear(line: string, i: nat)
    requires i < |line|
  {
    && !Skips(line, i) && !ForwardToken(line, i).Undo?
    && (line[i] == '<' || line[i] == '>' ==> !ForwardToken(line, i).Plain?)
  }

  ghost predicate AreClear(lines: seq<string>, l: nat, i: nat, l2: nat, i2: nat)
    requires Before(lines, l, i, l2, i2)
    decreases l2 - l
  {
    if l == l2 then forall k :: i <= k < i2 ==> IsClear(lines[l], k)
    else (forall k :: i <= k < |lines[l]| ==> IsClear(lines[l], k)) && AreClear(lines, l + 1, 0, l2, i2)
  }

  lemma {:induction false} ClearToken(line: string, i: nat)
    requires i < |line| && IsClear(line, i)
    ensures BackwardToken(line[i]) == MirrorToken(ForwardToken(line, i))
  {
    hide AfterOperator, Skips;
  }

  lemma {:induction false} ClearLine(line: string, m: nat, i: nat)
    requires m <= i <= |line| && forall k :: m <= k < i ==> IsClear(line, k)
    ensures BackTokens(line, m, i - 1) == MirrorTokens(LineTokens(line, m, i)) && Undo !in LineTokens(line, m, i)
    decreases i - m
  {
    hide ForwardToken, LineTokens, Skips;
    if m < i {
      ClearLine(line, m, i - 1);
      LineTokensButLast(line, m, i - 1);
      ClearToken(line, i - 1);
      var t := ForwardToken(line, i - 1);
      MirrorTokensAppend(LineTokens(line, m, i - 1), [t]);
      assert [t][1..] == [];
    }
  }

  lemma {:induction false} ClearTokens(lines: seq<string>, l: nat, i: nat, l2: nat, i2: nat)
    requires Before(lines, l, i, l2, i2) && AreClear(lines, l, i, l2, i2)
    ensures TokensBack(lines, l, i, l2, i2) == MirrorTokens(Tokens(lines, l, i, l2, i2))
    ensures Undo !in Tokens(lines, l, i, l2, i2)
    decreases l2 - l
  {
    hide LineTokens, BackTokens, IsClear;
    if l == l2 {
      ClearLine(lines[l], i, i2);
    } else {
      ClearLine(lines[l], i, |lines[l]|);
      ClearTokens(lines, l + 1, 0, l2, i2);
      MirrorTokensAppend(LineTokens(lines[l], i, |lines[l]|), Tokens(lines, l + 1, 0, l2, i2));
      TokensBackByFirstLine(lines, l, i, l2, i2);
    }
  }

  lemma {:induction false} TokensBackByFirstLine(lines: seq<string>, l: nat, i: nat, l2: nat, i2: nat)
    requires Before(lines, l, i, l2, i2) && l < l2
    ensures TokensBack(lines, l, i, l2, i2) ==
      TokensBack(lines, l + 1, 0, l2, i2) + BackTokens(lines[l], i, |lines[l]| - 1)
    decreases l2 - l
  {
    hide BackTokens;
    if l + 1 < l2 {
      TokensBackByFirstLine(lines, l, i, l2 - 1, |lines[l2 - 1]|);
    }
  }

  lemma {:induction false} TokensStart(lines: seq<string>, l: nat, i: nat, l2: nat, i2: nat)
    requires l < |lines| && i < |lines[l]| && Before(lines, l, i + 1, l2, i2)
    ensures Tokens(lines, l, i, l2, i2) == [ForwardToken(lines[l], i)] + Tokens(lines, l, i + 1, l2, i2)
  {
    hide ForwardToken, LineTokens;
    FirstToken(lines[l], i, if l == l2 then i2 else |lines[l]|);
  }

  lemma {:induction false} ClearEnds(lines: seq<string>, l: nat, i: nat, l2: nat, i2: nat)
    requires Before(lines, l, i, l2, i2) && i2 < |lines[l2]| && AreClear(lines, l, i, l2, i2 + 1)
    ensures AreClear(lines, l, i, l2, i2) && IsClear(lines[l2], i2)
    ensures i < |lines[l]| ==> IsClear(lines[l], i)
    decreases l2 - l
  {
    hide IsClear;
    if l < l2 {
      ClearEnds(lines, l + 1, 0, l2, i2);
    }
  }

  /** Where both take every angle bracket for one, the scanners are each other's inverses for template
      arguments, too. */
  lemma {:induction false} AnglesRoundTrip(lines: seq<string>, l: nat, pos: nat, l2: nat, i2: nat)
    requires Apart(lines, l, pos, l2, i2) && lines[l][pos] == '<' && lines[l2][i2] == '>'
    requires !ShiftOrLessEqual(lines[l], pos) && AreClear(lines, l, pos, l2, i2 + 1)
    ensures Close(lines, l, pos) == Hit(lines[l2], l2, i2 + 1) <==> ReverseClose(lines, l2, i2) == Hit(lines[l], l, pos)
  {
    hide Close, ReverseClose, Tokens, TokensBack, Nested, Skips, AreClear, MirrorTokens, AfterOperator;
    hide ShiftOrLessEqual;
    var inner, ts := Tokens(lines, l, pos + 1, l2, i2), TokensBack(lines, l, pos, l2, i2);
    ClearEnds(lines, l, pos, l2, i2);
    ClearTokens(lines, l, pos, l2, i2);
    TokensStart(lines, l, pos, l2, i2);
    MirrorTokensAppend([Less], inner);
    MirrorOne(Less);
    CloseAnglesIff(lines, l, pos, l2, i2);
    ReverseAnglesIff(lines, l, pos, l2, i2);
    MirrorNestedIff(inner);
    assert ts[..|ts| - 1] == MirrorTokens(inner) && ts[|ts| - 1] == Greater;
  }

  lemma {:induction false} MirrorOne(t: Token)
    ensures MirrorTokens([t]) == [MirrorToken(t)]
  {
    assert [t][1..] == [];
  }

  /** Elsewhere they may differ: forward, the `>` of `>=` closes template arguments, backward it is an
      operator. */
  lemma {:induction false} AnglesDoNotRoundTrip()
    ensures Close(["<a >= b"], 0, 0) == Hit("<a >= b", 0, 4)
    ensures ReverseClose(["<a >= b"], 0, 3) == Hit("<a >= b", 0, -1)
  {
    var line := "<a >= b";
    assert line[..2] == "<a";
    assert FindEnd(line, 3, "<") == At(4);
    assert FindEnd(line, 2, "<") == At(4);
    assert FindEnd(line, 1, "<") == At(4);
    assert FindEnd(line, 0, "") == At(4);
    assert FindStart(line, 1, "") == FindStart(line, 0, "");
    assert FindStart(line, 3, "") == FindStart(line, 1, "");
  }
}
