/**
 * Well-bracketed text, and what a scanner with a stack finds in it. This is the reference for the
 * two scanners of cpplint on text without angle brackets.
 */
module Brackets {
  predicate IsOpen(c: char) {
    c == '(' || c == '[' || c == '{'
  }

  predicate IsClose(c: char) {
    c == ')' || c == ']' || c == '}'
  }

  function Flip(c: char): char {
    match c
    case '(' => ')'
    case ')' => '('
    case '[' => ']'
    case ']' => '['
    case '{' => '}'
    case '}' => '{'
    case '<' => '>'
    case '>' => '<'
    case _ => c
  }

  predicate Pair(open: char, close: char) {
    IsOpen(open) && close == Flip(open)
  }

  /** Every bracket has its partner, and what is between two partners is well bracketed. */
  ghost predicate Balanced(s: string)
    decreases |s|
  {
    || s == []
    || (!IsOpen(s[0]) && !IsClose(s[0]) && Balanced(s[1..]))
    || exists k :: 0 < k < |s| && Pair(s[0], s[k]) && Balanced(s[1..k]) && Balanced(s[k + 1..])
  }

  datatype Outcome = Found(at: nat) | Mismatch | Unclosed(stack: string)

  function Shift(n: nat, outcome: Outcome): Outcome {
    if outcome.Found? then Found(n + outcome.at) else outcome
  }

  /** Reads `s` with a stack of opening brackets until the stack is empty. */
  function Scan(s: string, stack: string): Outcome
    requires stack != []
    decreases |s|
  {
    if s == [] then Unclosed(stack)
    else if IsOpen(s[0]) then Shift(1, Scan(s[1..], stack + [s[0]]))
    else if IsClose(s[0]) then
      if !Pair(stack[|stack| - 1], s[0]) then Mismatch
      else if |stack| == 1 then Found(0)
      else Shift(1, Scan(s[1..], stack[..|stack| - 1]))
    else Shift(1, Scan(s[1..], stack))
  }

  lemma {:induction false} ScanStep(s: string, stack: string)
    requires stack != []
    ensures s == [] ==> Scan(s, stack) == Unclosed(stack)
    ensures s != [] && IsOpen(s[0]) ==> Scan(s, stack) == Shift(1, Scan(s[1..], stack + [s[0]]))
    ensures s != [] && !IsOpen(s[0]) && !IsClose(s[0]) ==> Scan(s, stack) == Shift(1, Scan(s[1..], stack))
    ensures s != [] && IsClose(s[0]) ==>
      Scan(s, stack) ==
        (if !Pair(stack[|stack| - 1], s[0]) then Mismatch
         else if |stack| == 1 then Found(0)
         else Shift(1, Scan(s[1..], stack[..|stack| - 1])))
  {
  }

  /** Reading two texts one after the other. */
  lemma {:induction false} ScanAppend(a: string, b: string, stack: string)
    requires stack != []
    ensures Scan(a, stack).Unclosed? ==> Scan(a, stack).stack != []
    ensures Scan(a + b, stack) ==
      if Scan(a, stack).Unclosed? then Shift(|a|, Scan(b, Scan(a, stack).stack)) else Scan(a, stack)
    decreases |a|
  {
    if a == [] {
      assert a + b == b;
    } else {
      assert (a + b)[0] == a[0] && (a + b)[1..] == a[1..] + b;
      if IsOpen(a[0]) {
        ScanAppend(a[1..], b, stack + [a[0]]);
      } else if !IsClose(a[0]) {
        ScanAppend(a[1..], b, stack);
      } else if |stack| > 1 {
        ScanAppend(a[1..], b, stack[..|stack| - 1]);
      }
    }
  }

  /** The upper part of the stack is worked off first. */
  lemma {:induction false} ScanSplit(s: string, lower: string, upper: string)
    requires lower != [] && upper != []
    ensures Scan(s, lower + upper) ==
      match Scan(s, upper)
      case Found(k) => if k < |s| then Shift(k + 1, Scan(s[k + 1..], lower)) else Mismatch
      case Mismatch => Mismatch
      case Unclosed(stack) => Unclosed(lower + stack)
    ensures Scan(s, upper).Found? ==> Scan(s, upper).at < |s|
    decreases |s|
  {
    hide Scan;
    var stack, n := lower + upper, |upper| - 1;
    ScanStep(s, stack);
    ScanStep(s, upper);
    if s != [] {
      var rest := s[1..];
      assert stack[|stack| - 1] == upper[n] && stack[..|stack| - 1] == lower + upper[..n];
      if IsOpen(s[0]) {
        assert stack + [s[0]] == lower + (upper + [s[0]]);
        ScanSplit(rest, lower, upper + [s[0]]);
        SplitStep(s, lower, Scan(rest, upper + [s[0]]));
      } else if !IsClose(s[0]) {
        ScanSplit(rest, lower, upper);
        SplitStep(s, lower, Scan(rest, upper));
      } else if Pair(upper[n], s[0]) {
        if n > 0 {
          ScanSplit(rest, lower, upper[..n]);
          SplitStep(s, lower, Scan(rest, upper[..n]));
        } else {
          assert lower + upper[..n] == lower;
        }
      }
    }
  }

  lemma {:induction false} SplitStep(s: string, lower: string, outcome: Outcome)
    requires s != [] && lower != [] && (outcome.Found? ==> outcome.at < |s| - 1)
    ensures outcome.Found? ==> s[1..][outcome.at + 1..] == s[outcome.at + 2..]
  {
  }

  /** The partner of the first bracket. */
  lemma {:induction false} Partner(x: string) returns (inner: string, close: char, rest: string)
    requires Balanced(x) && x != [] && IsOpen(x[0])
    ensures Pair(x[0], close) && Balanced(inner) && Balanced(rest) && x == [x[0]] + (inner + ([close] + rest))
  {
    var k :| 0 < k < |x| && Pair(x[0], x[k]) && Balanced(x[1..k]) && Balanced(x[k + 1..]);
    inner, close, rest := x[1..k], x[k], x[k + 1..];
  }

  lemma {:induction false} PlainFirst(x: string)
    requires Balanced(x) && x != [] && !IsOpen(x[0])
    ensures !IsClose(x[0]) && Balanced(x[1..])
  {
  }

  lemma {:induction false} PutPlain(c: char, x: string)
    requires Balanced(x) && !IsOpen(c) && !IsClose(c)
    ensures Balanced([c] + x)
  {
    assert ([c] + x)[1..] == x;
  }

  lemma {:induction false} Reassociate(open: char, inner: string, close: char, rest: string, y: string)
    ensures ([open] + (inner + ([close] + rest))) + y == [open] + (inner + ([close] + (rest + y)))
  {
  }

  lemma {:induction false} Assemble(open: char, inner: string, close: char, rest: string)
    requires Pair(open, close) && Balanced(inner) && Balanced(rest)
    ensures Balanced([open] + (inner + ([close] + rest)))
  {
    var x, k := [open] + (inner + ([close] + rest)), |inner| + 1;
    assert x[0] == open && x[k] == close && x[1..k] == inner && x[k + 1..] == rest;
  }

  lemma {:induction false} ScanPair(open: char, inner: string, close: char, rest: string, stack: string)
    requires Pair(open, close) && stack != []
    requires Scan(inner + ([close] + rest), stack + [open]) == Shift(|inner|, Scan([close] + rest, stack + [open]))
    ensures Scan([open] + (inner + ([close] + rest)), stack) == Shift(|inner| + 2, Scan(rest, stack))
  {
    var s, t := [open] + (inner + ([close] + rest)), [close] + rest;
    assert s[1..] == inner + t && t[1..] == rest && (stack + [open])[..|stack|] == stack;
  }

  /** Well-bracketed text leaves the stack as it was. */
  lemma {:induction false} ScanBalanced(x: string, y: string, stack: string)
    requires Balanced(x) && stack != []
    ensures Scan(x + y, stack) == Shift(|x|, Scan(y, stack))
    decreases |x|
  {
    if x == [] {
      assert x + y == y;
    } else if !IsOpen(x[0]) {
      PlainFirst(x);
      hide Balanced;
      assert (x + y)[1..] == x[1..] + y;
      ScanBalanced(x[1..], y, stack);
    } else {
      hide Balanced, Scan;
      var inner, close, rest := Partner(x);
      ScanBalanced(inner, [close] + (rest + y), stack + [x[0]]);
      ScanBalanced(rest, y, stack);
      ScanPair(x[0], inner, close, rest + y, stack);
      Reassociate(x[0], inner, close, rest, y);
    }
  }

  /** The text before the bracket found is well bracketed. */
  lemma {:induction false} FoundBalanced(s: string, open: char)
    requires Scan(s, [open]).Found?
    ensures var k := Scan(s, [open]).at; k < |s| && Pair(open, s[k]) && Balanced(s[..k])
    decreases |s|
  {
    hide Balanced, Scan;
    ScanStep(s, [open]);
    if s != [] && IsOpen(s[0]) {
      var rest, inner := s[1..], Scan(s[1..], [s[0]]);
      assert [open] + [s[0]] == [open, s[0]];
      ScanSplit(rest, [open], [s[0]]);
      FoundBalanced(rest, s[0]);
      FoundBalanced(rest[inner.at + 1..], open);
      TwoParts(s, inner.at, Scan(rest[inner.at + 1..], [open]).at);
    } else if s != [] && !IsClose(s[0]) {
      FoundBalanced(s[1..], open);
      PutPlain(s[0], s[1..][..Scan(s[1..], [open]).at]);
      assert s[..Scan(s[1..], [open]).at + 1] == [s[0]] + s[1..][..Scan(s[1..], [open]).at];
    } else {
      EmptyBalanced(s[..0]);
    }
  }

  lemma {:induction false} EmptyBalanced(x: string)
    requires x == []
    ensures Balanced(x)
  {
  }

  /** A bracket, its partner `j` characters on, and `m` further characters. */
  lemma {:induction false} TwoParts(s: string, j: nat, m: nat)
    requires s != [] && j + 2 + m < |s| && Pair(s[0], s[1..][j])
    requires Balanced(s[1..][..j]) && Balanced(s[1..][j + 1..][..m])
    ensures Balanced(s[..j + m + 2]) && s[j + m + 2] == s[1..][j + 1..][m]
  {
    hide Balanced, Pair;
    var inner, close, rest := s[1..][..j], s[1..][j], s[1..][j + 1..][..m];
    Assemble(s[0], inner, close, rest);
    assert s[..j + m + 2] == [s[0]] + (inner + ([close] + rest));
  }

  lemma {:induction false} FoundPrefix(s: string)
    requires s != [] && Scan(s[1..], [s[0]]).Found?
    ensures var n := Scan(s[1..], [s[0]]).at + 2; n <= |s| && Balanced(s[..n])
  {
    FoundBalanced(s[1..], s[0]);
    var k := Scan(s[1..], [s[0]]).at;
    var inner, close := s[1..][..k], s[1..][k];
    Assemble(s[0], inner, close, []);
    assert s[..k + 2] == [s[0]] + (inner + ([close] + []));
  }

  lemma {:induction false} PrefixFound(s: string, m: nat)
    requires s != [] && IsOpen(s[0]) && 0 < m <= |s| && Balanced(s[..m])
    ensures Scan(s[1..], [s[0]]).Found? && Scan(s[1..], [s[0]]).at + 2 <= m
  {
    hide Balanced, Scan;
    var inner, close, rest := Partner(s[..m]);
    var tail := [close] + (rest + s[m..]);
    assert s == s[..m] + s[m..];
    assert s[1..] == inner + tail;
    ScanBalanced(inner, tail, [s[0]]);
    ScanStep(tail, [s[0]]);
  }

  /** The scanner that starts at an opening bracket finds the end of the shortest well-bracketed
      prefix, if there is one. */
  lemma {:induction false} ScanFindsShortest(s: string, m: nat)
    requires s != [] && IsOpen(s[0]) && 0 < m <= |s|
    ensures Scan(s[1..], [s[0]]).Found? ==>
      Scan(s[1..], [s[0]]).at + 2 <= |s| && Balanced(s[..Scan(s[1..], [s[0]]).at + 2])
    ensures Balanced(s[..m]) ==> Scan(s[1..], [s[0]]).Found? && Scan(s[1..], [s[0]]).at + 2 <= m
  {
    hide Balanced, Scan;
    if Scan(s[1..], [s[0]]).Found? {
      FoundPrefix(s);
    }
    if Balanced(s[..m]) {
      PrefixFound(s, m);
    }
  }

  // ---------- reading backwards ----------

  /** The text as seen from its end. */
  function Mirror(s: string): (r: string)
    ensures |r| == |s|
  {
    if s == [] then [] else Mirror(s[1..]) + [Flip(s[0])]
  }

  lemma {:induction false} MirrorAppend(a: string, b: string)
    ensures Mirror(a + b) == Mirror(b) + Mirror(a)
    decreases |a|
  {
    if a == [] {
      assert a + b == b;
    } else {
      assert (a + b)[0] == a[0] && (a + b)[1..] == a[1..] + b;
      MirrorAppend(a[1..], b);
      assert Mirror(a + b) == Mirror(b) + (Mirror(a[1..]) + [Flip(a[0])]);
    }
  }

  lemma {:induction false} MirrorTwice(s: string)
    ensures Mirror(Mirror(s)) == s
    decreases |s|
  {
    if s != [] {
      MirrorTwice(s[1..]);
      MirrorAppend(Mirror(s[1..]), [Flip(s[0])]);
      assert [Flip(s[0])][1..] == [];
    }
  }

  lemma {:induction false} BalancedAppend(a: string, b: string)
    requires Balanced(a) && Balanced(b)
    ensures Balanced(a + b)
    decreases |a|
  {
    hide Balanced;
    if a == [] {
      assert a + b == b;
    } else if !IsOpen(a[0]) {
      PlainFirst(a);
      BalancedAppend(a[1..], b);
      PutPlain(a[0], a[1..] + b);
      assert a + b == [a[0]] + (a[1..] + b);
    } else {
      var inner, close, rest := Partner(a);
      BalancedAppend(rest, b);
      Assemble(a[0], inner, close, rest + b);
      Reassociate(a[0], inner, close, rest, b);
    }
  }

  lemma {:induction false} MirrorPair(open: char, inner: string, close: char, rest: string)
    ensures Mirror([open] + (inner + ([close] + rest))) ==
      Mirror(rest) + ([Flip(close)] + (Mirror(inner) + ([Flip(open)] + [])))
  {
    var t := [close] + rest;
    assert ([open] + (inner + t))[1..] == inner + t && t[1..] == rest;
    MirrorAppend(inner, t);
  }

  lemma {:induction false} MirrorBalanced(s: string)
    requires Balanced(s)
    ensures Balanced(Mirror(s))
    decreases |s|
  {
    if s == [] {
    } else if !IsOpen(s[0]) {
      MirrorBalanced(s[1..]);
      assert Balanced([Flip(s[0])]) by { assert [Flip(s[0])][1..] == []; }
      BalancedAppend(Mirror(s[1..]), [Flip(s[0])]);
    } else {
      var inner, close, rest := Partner(s);
      hide Balanced;
      MirrorBalanced(inner);
      MirrorBalanced(rest);
      MirrorPair(s[0], inner, close, rest);
      assert Balanced([]);
      Assemble(Flip(close), Mirror(inner), Flip(s[0]), []);
      BalancedAppend(Mirror(rest), [Flip(close)] + (Mirror(inner) + ([Flip(s[0])] + [])));
    }
  }

  /** Read backwards from the closing bracket, the scanner ends at the opening one, whatever stands
      before it. */
  lemma {:induction false} ScanBack(before: string, open: char, x: string, close: char)
    requires Pair(open, close) && Balanced(x)
    ensures Scan(Mirror(before + [open] + x), [Flip(close)]) == Found(|x|)
  {
    MirrorBalanced(x);
    assert before + [open] + x == before + ([open] + x);
    MirrorAppend(before, [open] + x);
    MirrorAppend([open], x);
    assert Mirror([open]) == [Flip(open)] by { assert [open][1..] == []; }
    var rest := [Flip(open)] + Mirror(before);
    assert Mirror(before + [open] + x) == Mirror(x) + rest;
    ScanBalanced(Mirror(x), rest, [Flip(close)]);
    assert Scan(rest, [Flip(close)]) == Found(0);
  }
}
