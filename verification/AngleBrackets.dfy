/**
 * What a scanner finds that takes `<` for a bracket until something shows that it was not one: a
 * closing bracket of another kind, a semicolon or a second `<`.
 */
module AngleBrackets {
  import opened Brackets

  /** `Less` opens a template argument list for all the scanner knows and `Greater` closes one; `Undo` is
      the second character of a shift. A semicolon ends what is pending. */
  datatype Token = Plain(c: char) | Less | Greater | Undo | Semicolon

  function CharOf(t: Token): char {
    match t
    case Plain(c) => c
    case Less => '<'
    case Greater => '>'
    case Undo => '<'
    case Semicolon => ';'
  }

  function Chars(ts: seq<Token>): string {
    seq(|ts|, i requires 0 <= i < |ts| => CharOf(ts[i]))
  }

  // ---------- the scanner ----------

  predicate TopIs(stack: string, c: char) {
    stack != [] && stack[|stack| - 1] == c
  }

  function Pop(stack: string): string
    requires stack != []
  {
    stack[..|stack| - 1]
  }

  /** Pending angle brackets that turn out to be operators. */
  function DropPending(stack: string, c: char): string {
    if TopIs(stack, c) then DropPending(Pop(stack), c) else stack
  }

  /** The stack after a token, or the end of the search. */
  datatype Reading = Reads(stack: string) | Ends | Fails

  function PopOr(stack: string, last: Reading): Reading
    requires stack != []
  {
    if |stack| == 1 then last else Reads(Pop(stack))
  }

  function Read(t: Token, stack: string): (r: Reading)
    requires stack != []
    ensures r.Reads? ==> r.stack != []
  {
    match t
    case Plain(c) =>
      if IsOpen(c) then Reads(stack + [c])
      else if IsClose(c) then
        var rest := DropPending(stack, '<');
        if rest != [] && Pair(rest[|rest| - 1], c) then PopOr(rest, Ends) else Fails
      else Reads(stack)
    case Less => Reads(stack + ['<'])
    case Greater => if TopIs(stack, '<') then PopOr(stack, Ends) else Reads(stack)
    case Undo => if TopIs(stack, '<') then PopOr(stack, Fails) else Reads(stack)
    case Semicolon => if DropPending(stack, '<') == [] then Fails else Reads(DropPending(stack, '<'))
  }

  /** Reads the tokens with a stack until it is empty. */
  function ScanTokens(ts: seq<Token>, stack: string): Outcome
    requires stack != []
    decreases |ts|
  {
    if ts == [] then Unclosed(stack)
    else
      match Read(ts[0], stack)
      case Reads(stack') => Shift(1, ScanTokens(ts[1..], stack'))
      case Ends => Found(0)
      case Fails => Mismatch
  }

  // ---------- brackets do not mind angle brackets ----------

  predicate IsStack(stack: string) {
    forall i :: 0 <= i < |stack| ==> IsOpen(stack[i]) || stack[i] == '<'
  }

  /** The stack without what is only pending. */
  function Hard(stack: string): string {
    if stack == [] then []
    else if stack[|stack| - 1] == '<' then Hard(Pop(stack))
    else Hard(Pop(stack)) + [stack[|stack| - 1]]
  }

  lemma {:induction false} HardMore(stack: string, c: char)
    ensures Hard(stack + [c]) == if c == '<' then Hard(stack) else Hard(stack) + [c]
  {
    assert Pop(stack + [c]) == stack;
  }

  predicate Based(stack: string) {
    stack != [] && IsOpen(stack[0]) && IsStack(stack)
  }

  lemma {:induction false} BasedIsHard(stack: string)
    requires Based(stack)
    ensures Hard(stack) != [] && (|Hard(stack)| == 1 ==> Hard(stack) == [stack[0]])
    decreases |stack|
  {
    if |stack| > 1 {
      BasedIsHard(Pop(stack));
    } else {
      assert Pop(stack) == [];
    }
  }

  /** What is left of a stack when what is pending is dropped ends with a bracket. */
  lemma {:induction false} DropIsHard(upper: string)
    requires Based(upper)
    ensures var rest, hard := DropPending(upper, '<'), Hard(upper);
      && Based(rest) && hard != [] && rest[|rest| - 1] == hard[|hard| - 1] && hard[|hard| - 1] != '<'
      && Hard(rest) == hard && Hard(Pop(rest)) == hard[..|hard| - 1]
      && (|rest| > 1 ==> Based(Pop(rest))) && (|rest| == 1 <==> |hard| == 1)
    decreases |upper|
  {
    BasedIsHard(upper);
    if TopIs(upper, '<') {
      PopBased(upper);
      DropIsHard(Pop(upper));
    } else if |upper| > 1 {
      PopBased(upper);
      BasedIsHard(Pop(upper));
    }
  }

  lemma {:induction false} PopBased(upper: string)
    requires Based(upper)
    ensures |upper| > 1 ==> Based(Pop(upper))
    ensures TopIs(upper, '<') ==> |upper| > 1 && Hard(Pop(upper)) == Hard(upper)
  {
  }

  lemma {:induction false} TopOf(lower: string, upper: string)
    requires upper != []
    ensures (lower + upper)[|lower + upper| - 1] == upper[|upper| - 1] && Pop(lower + upper) == lower + Pop(upper)
  {
  }

  lemma {:induction false} DropAbove(lower: string, upper: string)
    requires Based(upper)
    ensures DropPending(lower + upper, '<') == lower + DropPending(upper, '<')
    decreases |upper|
  {
    TopOf(lower, upper);
    if TopIs(upper, '<') {
      PopBased(upper);
      DropAbove(lower, Pop(upper));
    }
  }

  lemma {:induction false} OpenRead(c: char, lower: string, upper: string)
    requires Based(upper) && (IsOpen(c) || c == '<')
    ensures lower + upper + [c] == lower + (upper + [c]) && Based(upper + [c])
    ensures Hard(upper + [c]) == if c == '<' then Hard(upper) else Hard(upper) + [c]
  {
    HardMore(upper, c);
  }

  lemma {:induction false} CloseRead(c: char, lower: string, upper: string) returns (upper': string)
    requires Based(upper) && IsClose(c)
    ensures Hard(upper) != []
    ensures var hard := Hard(upper);
      if !Pair(hard[|hard| - 1], c) then Read(Plain(c), lower + upper) == Fails
      else if |hard| == 1 then Read(Plain(c), lower + upper) == if lower == [] then Ends else Reads(lower)
      else
        Based(upper') && Read(Plain(c), lower + upper) == Reads(lower + upper') && Hard(upper') == hard[..|hard| - 1]
  {
    hide DropPending, Hard, Pair, IsStack;
    var rest := DropPending(upper, '<');
    DropAbove(lower, upper);
    DropIsHard(upper);
    TopOf(lower, rest);
    upper' := Pop(rest);
    assert |rest| == 1 ==> lower + upper' == lower;
  }

  /** What a token does to a stack with a bracket in it depends only on the brackets. */
  lemma {:induction false} ReadIsHard(t: Token, lower: string, upper: string) returns (upper': string)
    requires Based(upper)
    ensures Hard(upper) != []
    ensures var c, hard := CharOf(t), Hard(upper);
      if IsClose(c) && !Pair(hard[|hard| - 1], c) then Read(t, lower + upper) == Fails
      else if IsClose(c) && |hard| == 1 then Read(t, lower + upper) == if lower == [] then Ends else Reads(lower)
      else
        && Based(upper') && Read(t, lower + upper) == Reads(lower + upper')
        && Hard(upper') == if IsOpen(c) then hard + [c] else if IsClose(c) then hard[..|hard| - 1] else hard
  {
    hide DropPending, Hard, Pair, Based, Pop;
    BasedIsHard(upper);
    NotEmpty(upper);
    upper' := upper;
    if t.Plain? && IsClose(t.c) {
      upper' := CloseRead(t.c, lower, upper);
    } else if t.Plain? && IsOpen(t.c) {
      OpenRead(t.c, lower, upper);
      upper' := upper + [t.c];
    } else if t.Less? {
      OpenRead('<', lower, upper);
      upper' := upper + ['<'];
    } else if t.Semicolon? {
      DropAbove(lower, upper);
      DropIsHard(upper);
      upper' := DropPending(upper, '<');
      NotEmpty(upper');
    } else if !t.Plain? && TopIs(upper, '<') {
      TopOf(lower, upper);
      PopBased(upper);
      upper' := Pop(upper);
    } else {
      TopOf(lower, upper);
    }
  }

  lemma {:induction false} NotEmpty(upper: string)
    requires Based(upper)
    ensures upper != []
  {
  }

  lemma {:induction false} CharsStep(ts: seq<Token>)
    requires ts != []
    ensures Chars(ts) != [] && Chars(ts)[0] == CharOf(ts[0]) && Chars(ts)[1..] == Chars(ts[1..])
  {
  }

  lemma {:induction false} CharsAppend(a: seq<Token>, b: seq<Token>)
    ensures Chars(a + b) == Chars(a) + Chars(b) && |Chars(a)| == |a|
  {
  }

  /** Above a bracket the scanner does what the scanner for brackets does: what it takes for angle brackets
      makes no difference. */
  lemma {:induction false} TokensAreScan(ts: seq<Token>, lower: string, upper: string) returns (rest: string)
    requires Based(upper)
    ensures Hard(upper) != []
    ensures match Scan(Chars(ts), Hard(upper))
      case Found(k) => k < |ts| &&
        ScanTokens(ts, lower + upper) == if lower == [] then Found(k) else Shift(k + 1, ScanTokens(ts[k + 1..], lower))
      case Mismatch => ScanTokens(ts, lower + upper) == Mismatch
      case Unclosed(hard) =>
        Based(rest) && Hard(rest) == hard && ScanTokens(ts, lower + upper) == Unclosed(lower + rest)
    decreases |ts|
  {
    hide Read, Based, Hard, Scan, Chars, CharOf, IsOpen, IsClose, Pair, ScanTokens;
    rest := upper;
    BasedIsHard(upper);
    NotEmpty(upper);
    if ts == [] {
      ScanNothing(ts, Hard(upper), lower + upper);
    } else {
      var c, hard := CharOf(ts[0]), Hard(upper);
      CharsStep(ts);
      ScanStep(Chars(ts), hard);
      OpenIsNotClose(c);
      TokenStep(ts, lower + upper);
      var upper' := ReadIsHard(ts[0], lower, upper);
      if !IsClose(c) || (Pair(hard[|hard| - 1], c) && |hard| > 1) {
        NotEmpty(upper');
        rest := TokensAreScan(ts[1..], lower, upper');
        LaterTail(ts, Scan(Chars(ts[1..]), Hard(upper')));
      }
    }
  }

  lemma {:induction false} TokenStep(ts: seq<Token>, stack: string)
    requires ts != [] && stack != []
    ensures match Read(ts[0], stack)
      case Reads(stack') => stack' != [] && ScanTokens(ts, stack) == Shift(1, ScanTokens(ts[1..], stack'))
      case Ends => ScanTokens(ts, stack) == Found(0)
      case Fails => ScanTokens(ts, stack) == Mismatch
  {
    hide Read;
    var r := Read(ts[0], stack);
  }

  lemma {:induction false} OpenIsNotClose(c: char)
    ensures IsOpen(c) ==> !IsClose(c)
  {
  }

  lemma {:induction false} ScanNothing(ts: seq<Token>, hard: string, stack: string)
    requires ts == [] && hard != [] && stack != []
    ensures Scan(Chars(ts), hard) == Unclosed(hard) && ScanTokens(ts, stack) == Unclosed(stack)
  {
  }

  lemma {:induction false} LaterTail(ts: seq<Token>, outcome: Outcome)
    requires ts != [] && (outcome.Found? ==> outcome.at < |ts| - 1)
    ensures outcome.Found? ==> ts[1..][outcome.at + 1..] == ts[outcome.at + 2..]
  {
  }

  // ---------- template arguments ----------

  predicate Closes(t: Token) {
    t.Greater? || t.Undo?
  }

  predicate IsPlain(t: Token) {
    t.Plain? && !IsOpen(t.c) && !IsClose(t.c)
  }

  predicate IsGroup(ts: seq<Token>, k: nat) {
    0 < k < |ts| && ts[0].Plain? && ts[k].Plain? && Pair(ts[0].c, ts[k].c)
  }

  predicate IsAngles(ts: seq<Token>, k: nat) {
    0 < k < |ts| && ts[0].Less? && Closes(ts[k])
  }

  /** What may stand between `<` and its `>`: brackets of other kinds in pairs, with whatever comparison
      signs between them, and `<` with `>`, or with the second character of a shift, in pairs again. */
  ghost predicate Nested(ts: seq<Token>)
    decreases |ts|
  {
    || ts == []
    || (IsPlain(ts[0]) && Nested(ts[1..]))
    || (exists k: nat :: IsGroup(ts, k) && Balanced(Chars(ts[1..k])) && Nested(ts[k + 1..]))
    || (exists k: nat :: IsAngles(ts, k) && Nested(ts[1..k]) && Nested(ts[k + 1..]))
  }

  /** A nested text is empty, or begins with a plain character, a group in brackets or a group in angle
      brackets. */
  datatype Shape = Empty | Flat | Group(at: nat) | Angles(at: nat)

  ghost predicate HasShape(ts: seq<Token>, shape: Shape) {
    match shape
    case Empty => ts == []
    case Flat => ts != [] && IsPlain(ts[0]) && Nested(ts[1..])
    case Group(k) => IsGroup(ts, k) && Balanced(Chars(ts[1..k])) && Nested(ts[k + 1..])
    case Angles(k) => IsAngles(ts, k) && Nested(ts[1..k]) && Nested(ts[k + 1..])
  }

  lemma {:induction false} ShapeOf(ts: seq<Token>) returns (shape: Shape)
    requires Nested(ts)
    ensures HasShape(ts, shape)
  {
    hide Balanced, Chars, IsPlain;
    if ts == [] {
      shape := Empty;
    } else if IsPlain(ts[0]) && Nested(ts[1..]) {
      shape := Flat;
    } else if exists k: nat :: IsGroup(ts, k) && Balanced(Chars(ts[1..k])) && Nested(ts[k + 1..]) {
      var k: nat :| IsGroup(ts, k) && Balanced(Chars(ts[1..k])) && Nested(ts[k + 1..]);
      shape := Group(k);
    } else {
      var k: nat :| IsAngles(ts, k) && Nested(ts[1..k]) && Nested(ts[k + 1..]);
      shape := Angles(k);
    }
  }

  lemma {:induction false} ShapeGives(ts: seq<Token>, shape: Shape)
    requires HasShape(ts, shape)
    ensures Nested(ts)
  {
  }

  /** A group in brackets, and what comes after it, above any stack. */
  lemma {:induction false} GroupRead(ts: seq<Token>, k: nat, us: seq<Token>, stack: string)
    requires IsGroup(ts, k) && Balanced(Chars(ts[1..k])) && stack != []
    ensures ScanTokens(ts + us, stack) == Shift(k + 1, ScanTokens(ts[k + 1..] + us, stack))
  {
    hide Balanced, Scan, ScanTokens, Chars, Hard;
    var c, all := ts[0].c, ts + us;
    var inner, after := ts[1..k], [ts[k]] + (ts[k + 1..] + us);
    TokenStep(all, stack);
    assert all[1..] == inner + after;
    assert stack + [c] == stack + ([] + [c]);
    CharsAppend(inner, after);
    CharsStep(after);
    ScanBalanced(Chars(inner), Chars(after), [c]);
    ScanStep(Chars(after), [c]);
    HardMore([], c);
    HardEmpty();
    assert [] + [c] == [c];
    var rest := TokensAreScan(all[1..], stack, [c]);
    assert all[1..][|inner| + 1..] == ts[k + 1..] + us;
  }

  lemma {:induction false} HardEmpty()
    ensures Hard([]) == []
  {
  }

  lemma {:induction false} FlatRead(ts: seq<Token>, us: seq<Token>, stack: string)
    requires ts != [] && IsPlain(ts[0]) && stack != []
    ensures ScanTokens(ts + us, stack) == Shift(1, ScanTokens(ts[1..] + us, stack))
  {
    hide ScanTokens;
    TokenStep(ts + us, stack);
    assert (ts + us)[1..] == ts[1..] + us;
  }

  /** A group in angle brackets whose inner part leaves the stack as it was. */
  lemma {:induction false} AnglesRead(ts: seq<Token>, k: nat, us: seq<Token>, stack: string)
    requires IsAngles(ts, k) && stack != []
    requires var after := [ts[k]] + (ts[k + 1..] + us);
      ScanTokens(ts[1..k] + after, stack + ['<']) == Shift(k - 1, ScanTokens(after, stack + ['<']))
    ensures ScanTokens(ts + us, stack) == Shift(k + 1, ScanTokens(ts[k + 1..] + us, stack))
  {
    hide ScanTokens;
    var after := [ts[k]] + (ts[k + 1..] + us);
    TokenStep(ts + us, stack);
    assert (ts + us)[1..] == ts[1..k] + after;
    TokenStep(after, stack + ['<']);
    assert after[1..] == ts[k + 1..] + us && Pop(stack + ['<']) == stack;
  }

  lemma {:induction false} ShiftTwice(m: nat, n: nat, outcome: Outcome)
    ensures Shift(m, Shift(n, outcome)) == Shift(m + n, outcome)
  {
  }

  /** Nested text leaves the stack as it was. */
  lemma {:induction false} NestedRead(ts: seq<Token>, us: seq<Token>, stack: string)
    requires Nested(ts) && stack != []
    ensures ScanTokens(ts + us, stack) == Shift(|ts|, ScanTokens(us, stack))
    decreases |ts|
  {
    var shape := ShapeOf(ts);
    hide Nested, ScanTokens, Balanced, Chars, Shift, Closes, IsPlain;
    match shape
    case Empty => NothingRead(ts, us, stack);
    case Flat =>
      FlatRead(ts, us, stack);
      NestedRead(ts[1..], us, stack);
      ShiftTwice(1, |ts| - 1, ScanTokens(us, stack));
    case Group(k) =>
      GroupRead(ts, k, us, stack);
      NestedRead(ts[k + 1..], us, stack);
      ShiftTwice(k + 1, |ts| - k - 1, ScanTokens(us, stack));
    case Angles(k) =>
      NestedRead(ts[1..k], [ts[k]] + (ts[k + 1..] + us), stack + ['<']);
      AnglesRead(ts, k, us, stack);
      NestedRead(ts[k + 1..], us, stack);
      ShiftTwice(k + 1, |ts| - k - 1, ScanTokens(us, stack));
  }

  lemma {:induction false} NothingRead(ts: seq<Token>, us: seq<Token>, stack: string)
    requires ts == [] && stack != []
    ensures ScanTokens(ts + us, stack) == Shift(0, ScanTokens(us, stack))
  {
    assert ts + us == us;
  }

  /** Text that closes `d` pending `<` one after the other, the last one with a `>`. */
  ghost predicate ClosesAll(ts: seq<Token>, d: nat)
    decreases d
  {
    exists n :: 0 <= n < |ts| && Nested(ts[..n]) && ClosesRest(ts[n], ts[n + 1..], d)
  }

  ghost predicate ClosesRest(t: Token, rest: seq<Token>, d: nat)
    decreases d, 0
  {
    if d <= 1 then d == 1 && t.Greater? && rest == [] else Closes(t) && ClosesAll(rest, d - 1)
  }

  function Length(shape: Shape): nat {
    match shape
    case Empty => 0
    case Flat => 1
    case Group(k) => k + 1
    case Angles(k) => k + 1
  }

  lemma {:induction false} ShapeAppend(a: seq<Token>, b: seq<Token>, shape: Shape)
    requires HasShape(a, shape) && !shape.Empty? && Nested(a[Length(shape)..] + b)
    ensures HasShape(a + b, shape)
  {
    hide Nested, Balanced;
    var ts := a + b;
    assert ts[Length(shape)..] == a[Length(shape)..] + b;
    assert !shape.Flat? ==> ts[1..Length(shape) - 1] == a[1..Length(shape) - 1];
  }

  lemma {:induction false} ShapeTail(ts: seq<Token>, shape: Shape)
    requires HasShape(ts, shape) && !shape.Empty?
    ensures 0 < Length(shape) <= |ts| && Nested(ts[Length(shape)..])
  {
  }

  lemma {:induction false} NestedAppend(a: seq<Token>, b: seq<Token>)
    requires Nested(a) && Nested(b)
    ensures Nested(a + b)
    decreases |a|
  {
    hide Nested, HasShape, Length;
    if a == [] {
      assert a + b == b;
    } else {
      var shape := ShapeOf(a);
      NotEmptyShape(a, shape);
      ShapeTail(a, shape);
      NestedAppend(a[Length(shape)..], b);
      ShapeAppend(a, b, shape);
      ShapeGives(a + b, shape);
    }
  }

  lemma {:induction false} NotEmptyShape(ts: seq<Token>, shape: Shape)
    requires HasShape(ts, shape) && ts != []
    ensures !shape.Empty?
  {
  }

  lemma {:induction false} NestedEmpty()
    ensures Nested([])
  {
  }

  lemma {:induction false} PutFlat(t: Token)
    requires IsPlain(t)
    ensures Nested([t])
  {
    assert [t][1..] == [];
    ShapeGives([t], Flat);
  }

  lemma {:induction false} PutGroup(open: Token, inner: seq<Token>, close: Token)
    requires open.Plain? && close.Plain? && Pair(open.c, close.c) && Balanced(Chars(inner))
    ensures Nested([open] + inner + [close])
  {
    hide Nested, Balanced;
    var ts, k := [open] + inner + [close], |inner| + 1;
    assert ts[1..k] == inner && ts[k + 1..] == [];
    NestedEmpty();
    ShapeGives(ts, Group(k));
  }

  lemma {:induction false} PutAngles(inner: seq<Token>, close: Token)
    requires Closes(close) && Nested(inner)
    ensures Nested([Less] + inner + [close])
  {
    hide Nested;
    var ts, k := [Less] + inner + [close], |inner| + 1;
    assert ts[1..k] == inner && ts[k + 1..] == [];
    NestedEmpty();
    ShapeGives(ts, Angles(k));
  }

  /** Nested text may stand before what closes. */
  lemma {:induction false} PutBefore(piece: seq<Token>, ts: seq<Token>, d: nat)
    requires Nested(piece) && ClosesAll(ts, d)
    ensures ClosesAll(piece + ts, d)
  {
    hide Nested, ClosesRest;
    var n :| 0 <= n < |ts| && Nested(ts[..n]) && ClosesRest(ts[n], ts[n + 1..], d);
    NestedAppend(piece, ts[..n]);
    var all, m := piece + ts, |piece| + n;
    assert all[..m] == piece + ts[..n] && all[m] == ts[n] && all[m + 1..] == ts[n + 1..];
  }

  lemma {:induction false} CloseFirst(t: Token, rest: seq<Token>, d: nat)
    requires ClosesRest(t, rest, d)
    ensures ClosesAll([t] + rest, d)
  {
    hide ClosesRest;
    var all := [t] + rest;
    assert all[..0] == [] && all[0] == t && all[0 + 1..] == rest;
    NestedEmpty();
  }

  lemma {:induction false} SplitAtClose(ts: seq<Token>, d: nat) returns (n: nat)
    requires ClosesAll(ts, d)
    ensures n < |ts| && Nested(ts[..n]) && ClosesRest(ts[n], ts[n + 1..], d)
  {
    n :| 0 <= n < |ts| && Nested(ts[..n]) && ClosesRest(ts[n], ts[n + 1..], d);
  }

  lemma {:induction false} CloseIsMore(t: Token, rest: seq<Token>, d: nat)
    requires d > 0 && ClosesRest(t, rest, d + 1)
    ensures Closes(t) && ClosesAll(rest, d)
  {
  }

  /** One `<` more is closed first. */
  lemma {:induction false} CloseOneMore(ts: seq<Token>, d: nat)
    requires d > 0 && ClosesAll(ts, d + 1)
    ensures ClosesAll([Less] + ts, d)
  {
    hide Nested, ClosesAll, ClosesRest;
    var n := SplitAtClose(ts, d + 1);
    CloseIsMore(ts[n], ts[n + 1..], d);
    PutAngles(ts[..n], ts[n]);
    PutBefore([Less] + ts[..n] + [ts[n]], ts[n + 1..], d);
    assert [Less] + ts == [Less] + ts[..n] + [ts[n]] + ts[n + 1..];
  }

  function Lesses(d: nat): string {
    seq(d, _ => '<')
  }

  lemma {:induction false} AllDropped(d: nat)
    ensures DropPending(Lesses(d), '<') == []
  {
    if d > 0 {
      assert Pop(Lesses(d)) == Lesses(d - 1);
      AllDropped(d - 1);
    }
  }

  /** What a token does when only `<` are pending. */
  lemma {:induction false} ReadPending(t: Token, d: nat)
    requires d > 0
    ensures match t
      case Plain(c) =>
        Read(t, Lesses(d)) ==
          (if IsOpen(c) then Reads(Lesses(d) + [c]) else if IsClose(c) then Fails else Reads(Lesses(d)))
      case Less => Read(t, Lesses(d)) == Reads(Lesses(d + 1))
      case Greater => Read(t, Lesses(d)) == if d == 1 then Ends else Reads(Lesses(d - 1))
      case Undo => Read(t, Lesses(d)) == if d == 1 then Fails else Reads(Lesses(d - 1))
      case Semicolon => Read(t, Lesses(d)) == Fails
  {
    AllDropped(d);
    assert Pop(Lesses(d)) == Lesses(d - 1) && Lesses(d) + ['<'] == Lesses(d + 1);
  }

  /** The group that a bracket opens while only `<` are pending. */
  lemma {:induction false} GroupFound(ts: seq<Token>, d: nat) returns (j: nat)
    requires d > 0 && ts != [] && ts[0].Plain? && IsOpen(ts[0].c) && ScanTokens(ts, Lesses(d)).Found?
    ensures j + 2 <= |ts| && Nested(ts[..j + 2])
    ensures ScanTokens(ts, Lesses(d)) == Shift(j + 2, ScanTokens(ts[j + 2..], Lesses(d)))
  {
    hide ScanTokens, Scan, Chars, Balanced, Nested, Lesses;
    var c, rest := ts[0].c, ts[1..];
    LessesLong(d);
    ReadPending(ts[0], d);
    TokenStep(ts, Lesses(d));
    HardMore([], c);
    HardEmpty();
    assert [] + [c] == [c];
    var unclosed := TokensAreScan(rest, Lesses(d), [c]);
    FoundBalanced(Chars(rest), c);
    j := Scan(Chars(rest), [c]).at;
    InnerChars(rest, j);
    NotAngle(rest[j], c);
    PutGroup(ts[0], rest[..j], rest[j]);
    assert ts[..j + 2] == [ts[0]] + rest[..j] + [rest[j]] && rest[j + 1..] == ts[j + 2..];
  }

  lemma {:induction false} LessesLong(d: nat)
    ensures |Lesses(d)| == d
  {
  }

  lemma {:induction false} InnerChars(ts: seq<Token>, j: nat)
    requires j < |ts|
    ensures |Chars(ts)| == |ts| && Chars(ts)[..j] == Chars(ts[..j]) && Chars(ts)[j] == CharOf(ts[j])
  {
  }

  lemma {:induction false} NotAngle(t: Token, c: char)
    requires Pair(c, CharOf(t))
    ensures t.Plain?
  {
  }

  /** If the scanner finds an end while only `<` are pending, the text up to it closes them. */
  lemma {:induction false} FoundCloses(ts: seq<Token>, d: nat)
    requires d > 0 && |Lesses(d)| == d && ScanTokens(ts, Lesses(d)).Found?
    ensures var k := ScanTokens(ts, Lesses(d)).at; k < |ts| && ClosesAll(ts[..k + 1], d)
    decreases |ts|
  {
    hide ScanTokens, Lesses, Nested, ClosesAll, Read, ClosesRest, IsOpen, IsClose;
    if ts == [] {
      NothingFound(ts, Lesses(d));
      assert false;
    } else {
      var t, k, rest := ts[0], ScanTokens(ts, Lesses(d)).at, ts[1..];
      LessesLong(d - 1);
      LessesLong(d + 1);
      TokenStep(ts, Lesses(d));
      ReadPending(t, d);
      if t.Plain? && IsOpen(t.c) {
        var j := GroupFound(ts, d);
        FoundCloses(ts[j + 2..], d);
        PutBefore(ts[..j + 2], ts[j + 2..][..k - j - 1], d);
        assert ts[..k + 1] == ts[..j + 2] + ts[j + 2..][..k - j - 1];
      } else if k == 0 {
        LastClose(t, d);
        assert ts[..1] == [t] + [];
      } else {
        FoundCloses(rest, if t.Plain? then d else if t.Less? then d + 1 else d - 1);
        assert ts[..k + 1] == [t] + rest[..k];
        if t.Plain? {
          PutFlat(t);
          PutBefore([t], rest[..k], d);
        } else if t.Less? {
          CloseOneMore(rest[..k], d);
        } else {
          CloseMore(t, rest[..k], d);
          CloseFirst(t, rest[..k], d);
        }
      }
    }
  }

  lemma {:induction false} NothingFound(ts: seq<Token>, stack: string)
    requires ts == [] && stack != []
    ensures !ScanTokens(ts, stack).Found?
  {
  }

  lemma {:induction false} CloseMore(t: Token, rest: seq<Token>, d: nat)
    requires d > 1 && Closes(t) && ClosesAll(rest, d - 1)
    ensures ClosesRest(t, rest, d)
  {
  }

  lemma {:induction false} LastClose(t: Token, d: nat)
    requires d > 0 && Read(t, Lesses(d)) == Ends && !(t.Plain? && IsOpen(t.c))
    ensures ClosesAll([t] + [], d)
  {
    ReadPending(t, d);
    CloseFirst(t, [], d);
  }

  /** The end of a template argument list is found exactly where it is: at the first `>` before which the
      text is nested. */
  lemma {:induction false} FoundIffNested(ts: seq<Token>, k: nat)
    ensures ScanTokens(ts, ['<']) == Found(k) <==> k < |ts| && ts[k].Greater? && Nested(ts[..k])
  {
    hide ScanTokens, Nested;
    assert Lesses(1) == ['<'];
    if ScanTokens(ts, ['<']) == Found(k) {
      FoundCloses(ts, 1);
      OneIsClosed(ts[..k + 1]);
      assert ts[..k + 1][..k] == ts[..k];
    }
    if k < |ts| && ts[k].Greater? && Nested(ts[..k]) {
      NestedRead(ts[..k], ts[k..], ['<']);
      assert ts[..k] + ts[k..] == ts;
      TokenStep(ts[k..], ['<']);
    }
  }

  lemma {:induction false} OneIsClosed(ts: seq<Token>)
    requires ClosesAll(ts, 1)
    ensures ts != [] && ts[|ts| - 1].Greater? && Nested(ts[..|ts| - 1])
  {
    hide Nested;
    var n := SplitAtClose(ts, 1);
    assert n == |ts| - 1;
  }

  // ---------- four pairs of brackets ----------

  predicate Partners(open: Token, close: Token) {
    (open.Less? && close.Greater?) || (open.Plain? && close.Plain? && Pair(open.c, close.c))
  }

  /** Every bracket has its partner, `<` and `>` being a pair like the other three. */
  ghost predicate Bracketed(ts: seq<Token>)
    decreases |ts|
  {
    || ts == []
    || (IsPlain(ts[0]) && Bracketed(ts[1..]))
    || (exists k: nat :: 0 < k < |ts| && Partners(ts[0], ts[k]) && Bracketed(ts[1..k]) && Bracketed(ts[k + 1..]))
  }

  lemma {:induction false} FirstPartner(ts: seq<Token>) returns (k: nat)
    requires Bracketed(ts) && ts != [] && !IsPlain(ts[0])
    ensures 0 < k < |ts| && Partners(ts[0], ts[k]) && Bracketed(ts[1..k]) && Bracketed(ts[k + 1..])
  {
    hide IsPlain, Partners;
    k :| 0 < k < |ts| && Partners(ts[0], ts[k]) && Bracketed(ts[1..k]) && Bracketed(ts[k + 1..]);
  }

  lemma {:induction false} RestBracketed(ts: seq<Token>)
    requires Bracketed(ts) && ts != [] && IsPlain(ts[0])
    ensures Bracketed(ts[1..])
  {
  }

  lemma {:induction false} CharsAround(ts: seq<Token>, k: nat)
    requires 0 < k < |ts|
    ensures Chars(ts) == [CharOf(ts[0])] + (Chars(ts[1..k]) + ([CharOf(ts[k])] + Chars(ts[k + 1..])))
  {
  }

  /** Then the three pairs by themselves are well bracketed. */
  lemma {:induction false} BracketedIsBalanced(ts: seq<Token>)
    requires Bracketed(ts)
    ensures Balanced(Chars(ts))
    decreases |ts|
  {
    hide Bracketed, Balanced, Chars;
    if ts == [] {
      CharsOfNone(ts);
      EmptyBalanced(Chars(ts));
    } else if IsPlain(ts[0]) {
      RestBracketed(ts);
      BracketedIsBalanced(ts[1..]);
      CharsStep(ts);
      PutPlain(ts[0].c, Chars(ts[1..]));
      assert Chars(ts) == [ts[0].c] + Chars(ts)[1..];
    } else {
      var k := FirstPartner(ts);
      BracketedIsBalanced(ts[1..k]);
      BracketedIsBalanced(ts[k + 1..]);
      CharsAround(ts, k);
      var inner, rest := Chars(ts[1..k]), Chars(ts[k + 1..]);
      if ts[0].Less? {
        PutPlain('>', rest);
        BalancedAppend(inner, ['>'] + rest);
        PutPlain('<', inner + (['>'] + rest));
      } else {
        Assemble(ts[0].c, inner, ts[k].c, rest);
      }
    }
  }

  lemma {:induction false} CharsOfNone(ts: seq<Token>)
    requires ts == []
    ensures Chars(ts) == []
  {
  }

  /** And the text may stand between angle brackets. */
  lemma {:induction false} BracketedIsNested(ts: seq<Token>)
    requires Bracketed(ts)
    ensures Nested(ts)
    decreases |ts|
  {
    hide Bracketed, Balanced, Chars, Nested;
    if ts == [] {
      NestedEmpty();
    } else if IsPlain(ts[0]) {
      RestBracketed(ts);
      BracketedIsNested(ts[1..]);
      ShapeGives(ts, Flat);
    } else {
      var k := FirstPartner(ts);
      BracketedIsBalanced(ts[1..k]);
      BracketedIsNested(ts[1..k]);
      BracketedIsNested(ts[k + 1..]);
      ShapeGives(ts, if ts[0].Less? then Angles(k) else Group(k));
    }
  }

  // ---------- reading backwards ----------

  function MirrorToken(t: Token): Token {
    match t
    case Plain(c) => Plain(Flip(c))
    case Less => Greater
    case Greater => Less
    case Undo => Plain('>')
    case Semicolon => Semicolon
  }

  /** The tokens as seen from their end. */
  function MirrorTokens(ts: seq<Token>): (r: seq<Token>)
    ensures |r| == |ts|
  {
    if ts == [] then [] else MirrorTokens(ts[1..]) + [MirrorToken(ts[0])]
  }

  lemma {:induction false} MirrorTokensAppend(a: seq<Token>, b: seq<Token>)
    ensures MirrorTokens(a + b) == MirrorTokens(b) + MirrorTokens(a)
    decreases |a|
  {
    if a == [] {
      assert a + b == b;
    } else {
      assert (a + b)[0] == a[0] && (a + b)[1..] == a[1..] + b;
      MirrorTokensAppend(a[1..], b);
      assert MirrorTokens(a + b) == MirrorTokens(b) + (MirrorTokens(a[1..]) + [MirrorToken(a[0])]);
    }
  }

  lemma {:induction false} MirrorChars(ts: seq<Token>)
    ensures Chars(MirrorTokens(ts)) == Mirror(Chars(ts))
    decreases |ts|
  {
    hide Chars;
    if ts == [] {
      CharsOfNone(ts);
    } else {
      MirrorChars(ts[1..]);
      CharsStep(ts);
      CharsAppend(MirrorTokens(ts[1..]), [MirrorToken(ts[0])]);
      OneChar(MirrorToken(ts[0]));
    }
  }

  lemma {:induction false} OneChar(t: Token)
    ensures Chars([t]) == [CharOf(t)]
  {
  }

  lemma {:induction false} MirrorAround(ts: seq<Token>, k: nat)
    requires 0 < k < |ts|
    ensures MirrorTokens(ts) ==
      MirrorTokens(ts[k + 1..]) + ([MirrorToken(ts[k])] + MirrorTokens(ts[1..k]) + [MirrorToken(ts[0])])
  {
    var a, b := ts[1..k], [ts[k]] + ts[k + 1..];
    assert ts[1..] == a + b && b[1..] == ts[k + 1..];
    MirrorTokensAppend(a, b);
  }

  lemma {:induction false} MirrorGroup(ts: seq<Token>, k: nat)
    requires IsGroup(ts, k) && Balanced(Chars(ts[1..k])) && Nested(MirrorTokens(ts[k + 1..]))
    ensures Nested(MirrorTokens(ts))
  {
    hide Nested, Balanced, Chars, MirrorTokens;
    var inner, open, close := ts[1..k], MirrorToken(ts[k]), MirrorToken(ts[0]);
    MirrorAround(ts, k);
    MirrorChars(inner);
    MirrorBalanced(Chars(inner));
    PutGroup(open, MirrorTokens(inner), close);
    NestedAppend(MirrorTokens(ts[k + 1..]), [open] + MirrorTokens(inner) + [close]);
  }

  lemma {:induction false} MirrorAngles(ts: seq<Token>, k: nat)
    requires 0 < k < |ts| && ts[0].Less? && ts[k].Greater?
    requires Nested(MirrorTokens(ts[1..k])) && Nested(MirrorTokens(ts[k + 1..]))
    ensures Nested(MirrorTokens(ts))
  {
    hide Nested, MirrorTokens;
    var inner := ts[1..k];
    MirrorAround(ts, k);
    PutAngles(MirrorTokens(inner), Greater);
    NestedAppend(MirrorTokens(ts[k + 1..]), [Less] + MirrorTokens(inner) + [Greater]);
  }

  /** Nested text without shifts is nested from its end, too. */
  lemma {:induction false} MirrorNested(ts: seq<Token>)
    requires Nested(ts) && Undo !in ts
    ensures Nested(MirrorTokens(ts))
    decreases |ts|
  {
    var shape := ShapeOf(ts);
    hide Nested, Balanced, Chars;
    match shape
    case Empty => NestedEmpty();
    case Flat =>
      MirrorNested(ts[1..]);
      PutFlat(MirrorToken(ts[0]));
      NestedAppend(MirrorTokens(ts[1..]), [MirrorToken(ts[0])]);
    case Group(k) =>
      MirrorNested(ts[k + 1..]);
      MirrorGroup(ts, k);
    case Angles(k) =>
      assert ts[k] in ts;
      MirrorNested(ts[1..k]);
      MirrorNested(ts[k + 1..]);
      MirrorAngles(ts, k);
  }

  lemma {:induction false} MirrorTokensTwice(ts: seq<Token>)
    requires Undo !in ts
    ensures MirrorTokens(MirrorTokens(ts)) == ts && Undo !in MirrorTokens(ts)
    decreases |ts|
  {
    if ts != [] {
      var t := MirrorToken(ts[0]);
      MirrorTokensTwice(ts[1..]);
      MirrorTokensAppend(MirrorTokens(ts[1..]), [t]);
      assert [t][1..] == [];
    }
  }

  lemma {:induction false} MirrorNestedIff(ts: seq<Token>)
    requires Undo !in ts
    ensures Nested(MirrorTokens(ts)) <==> Nested(ts)
  {
    hide Nested, MirrorTokens;
    MirrorTokensTwice(ts);
    if Nested(ts) {
      MirrorNested(ts);
    }
    if Nested(MirrorTokens(ts)) {
      MirrorNested(MirrorTokens(ts));
    }
  }

  // ---------- text in parts ----------

  /** Reading two texts one after the other. */
  lemma {:induction false} TokensAppend(a: seq<Token>, b: seq<Token>, stack: string)
    requires stack != []
    ensures var r := ScanTokens(a, stack);
      match r
      case Unclosed(rest) => rest != [] && ScanTokens(a + b, stack) == Shift(|a|, ScanTokens(b, rest))
      case _ => ScanTokens(a + b, stack) == r && (r.Found? ==> r.at < |a|)
    decreases |a|
  {
    hide ScanTokens, Read;
    if a == [] {
      ScanNothing(a, stack, stack);
      assert a + b == b;
    } else {
      TokenStep(a, stack);
      TokenStep(a + b, stack);
      assert (a + b)[0] == a[0] && (a + b)[1..] == a[1..] + b;
      if Read(a[0], stack).Reads? {
        TokensAppend(a[1..], b, Read(a[0], stack).stack);
      }
    }
  }
}
