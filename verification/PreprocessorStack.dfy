/**
 * How cpplint keeps its stack of open blocks across `#if`, `#else` and `#endif`: the stack is saved
 * at `#if`, saved again and restored at the first `#else` or `#elif`, and restored at `#endif`.
 *
 * What a line does to the stack apart from that is an arbitrary function of the line and the stack.
 */
module PreprocessorStack {
  import opened CharClasses
  import opened Options

  // ---------- lines ----------

  datatype Kind = If | Else | Endif | Other

  function SkipSpaces(s: string): string {
    if s != [] && IsSpace(s[0]) then SkipSpaces(s[1..]) else s
  }

  function FirstWord(s: string): string {
    if s != [] && IsWord(s[0]) then [s[0]] + FirstWord(s[1..]) else []
  }

  /** The word after `#`, empty if there is none. */
  function Directive(line: string): string {
    var s := SkipSpaces(line);
    if s == [] || s[0] != '#' then "" else FirstWord(SkipSpaces(s[1..]))
  }

  function KindOfWord(word: string): Kind {
    if word == "if" || word == "ifdef" || word == "ifndef" then If
    else if word == "else" || word == "elif" then Else
    else if word == "endif" then Endif
    else Other
  }

  /** `^\s*#\s*(if|ifdef|ifndef)\b`, `^\s*#\s*(else|elif)\b` and `^\s*#\s*endif\b`. */
  function KindOf(line: string): Kind {
    KindOfWord(Directive(line))
  }

  predicate AllSpaces(s: string) {
    forall i :: 0 <= i < |s| ==> IsSpace(s[i])
  }

  predicate AllWord(s: string) {
    forall i :: 0 <= i < |s| ==> IsWord(s[i])
  }

  /** The line matches `^\s*#\s*word\b`: spaces, `#`, spaces, the word and no more of a word. */
  predicate Matches(line: string, indent: string, gap: string, word: string, rest: string) {
    && AllSpaces(indent) && AllSpaces(gap) && line == indent + "#" + gap + word + rest
    && (rest == "" || !IsWord(rest[0]))
  }

  function WordsOf(kind: Kind): set<string> {
    match kind
    case If => {"if", "ifdef", "ifndef"}
    case Else => {"else", "elif"}
    case Endif => {"endif"}
    case Other => {}
  }

  lemma {:induction false} SpacesSkipped(indent: string, s: string)
    requires AllSpaces(indent) && (s == "" || !IsSpace(s[0]))
    ensures SkipSpaces(indent + s) == s
  {
    if indent == "" {
      assert indent + s == s;
    } else {
      assert (indent + s)[1..] == indent[1..] + s;
      SpacesSkipped(indent[1..], s);
    }
  }

  lemma {:induction false} SkipLeaves(s: string) returns (indent: string)
    ensures AllSpaces(indent) && s == indent + SkipSpaces(s)
    ensures SkipSpaces(s) == "" || !IsSpace(SkipSpaces(s)[0])
  {
    indent := "";
    if s != "" && IsSpace(s[0]) {
      var more := SkipLeaves(s[1..]);
      indent := [s[0]] + more;
    }
  }

  lemma {:induction false} WordTaken(word: string, rest: string)
    requires AllWord(word) && (rest == "" || !IsWord(rest[0]))
    ensures FirstWord(word + rest) == word
  {
    if word == "" {
      assert word + rest == rest;
    } else {
      assert (word + rest)[1..] == word[1..] + rest;
      WordTaken(word[1..], rest);
    }
  }

  lemma {:induction false} WordLeaves(s: string) returns (rest: string)
    ensures s == FirstWord(s) + rest && (rest == "" || !IsWord(rest[0]))
  {
    rest := s;
    if s != "" && IsWord(s[0]) {
      rest := WordLeaves(s[1..]);
    }
  }

  lemma {:induction false} WordNotSpace(word: string, rest: string)
    requires AllWord(word) && word != ""
    ensures word + rest != "" && !IsSpace((word + rest)[0])
  {
  }

  lemma {:induction false} MatchDecides(line: string, indent: string, gap: string, word: string, rest: string)
    requires Matches(line, indent, gap, word, rest) && AllWord(word) && word != ""
    ensures Directive(line) == word
  {
    hide AllWord, IsSpace, IsWord, AllSpaces, SkipSpaces, FirstWord;
    assert line == indent + ("#" + (gap + (word + rest)));
    HashNotSpace(gap + (word + rest));
    SpacesSkipped(indent, "#" + (gap + (word + rest)));
    WordNotSpace(word, rest);
    SpacesSkipped(gap, word + rest);
    WordTaken(word, rest);
  }

  lemma {:induction false} HashNotSpace(s: string)
    ensures !IsSpace(("#" + s)[0]) && ("#" + s)[1..] == s
  {
  }

  lemma {:induction false} DirectiveMatches(line: string)
    returns (indent: string, gap: string, rest: string)
    requires Directive(line) != ""
    ensures Matches(line, indent, gap, Directive(line), rest)
  {
    hide AllWord, IsSpace, IsWord, AllSpaces, SkipSpaces, FirstWord;
    indent := SkipLeaves(line);
    var s := SkipSpaces(line);
    assert s == "#" + s[1..];
    gap := SkipLeaves(s[1..]);
    rest := WordLeaves(SkipSpaces(s[1..]));
    assert line == indent + "#" + gap + Directive(line) + rest;
  }

  lemma {:induction false} WordsDecide(word: string, kind: Kind)
    requires !kind.Other?
    ensures KindOfWord(word) == kind <==> word in WordsOf(kind)
    ensures word in WordsOf(kind) ==> AllWord(word) && word != ""
  {
  }

  /** The kind of a line is that of the expression it matches. */
  lemma {:induction false} KindIsMatched(line: string, kind: Kind)
    requires !kind.Other?
    ensures KindOf(line) == kind <==>
      exists indent, gap, word, rest :: word in WordsOf(kind) && Matches(line, indent, gap, word, rest)
  {
    hide Directive, KindOfWord, Matches, WordsOf, AllWord;
    WordsDecide(Directive(line), kind);
    if KindOf(line) == kind {
      var indent, gap, rest := DirectiveMatches(line);
      assert Directive(line) in WordsOf(kind) && Matches(line, indent, gap, Directive(line), rest);
    }
    forall indent, gap, word, rest | word in WordsOf(kind) && Matches(line, indent, gap, word, rest)
      ensures KindOf(line) == kind
    {
      WordsDecide(word, kind);
      MatchDecides(line, indent, gap, word, rest);
    }
  }

  // ---------- what the code does ----------

  /** The attributes of a block that change while it is on the stack. */
  datatype Fields = Fields(name: string, seenOpenBrace: bool, openParentheses: int, inlineAsm: nat)

  datatype PpInfo<T> = PpInfo(beforeIf: seq<T>, beforeElse: seq<T>, seenElse: bool)

  datatype State = State(stack: seq<Fields>, pp: seq<PpInfo<Fields>>)

  /** Lines are numbered, since what a line does may depend on its number. */
  datatype Line = Line(text: string, num: nat)

  /** What a line does to the blocks: it changes the attributes of the innermost one, opens a block
      or closes one. */
  datatype Edit = SetTop(fields: Fields) | Push(fields: Fields) | Pop

  type Effect = (Line, seq<Fields>) -> seq<Edit>

  function ApplyEdit(stack: seq<Fields>, edit: Edit): seq<Fields> {
    match edit
    case SetTop(fields) => if stack == [] then stack else stack[|stack| - 1 := fields]
    case Push(fields) => stack + [fields]
    case Pop => if stack == [] then stack else stack[..|stack| - 1]
  }

  function ApplyEdits(stack: seq<Fields>, edits: seq<Edit>): seq<Fields>
    decreases |edits|
  {
    if edits == [] then stack else ApplyEdits(ApplyEdit(stack, edits[0]), edits[1..])
  }

  /** The number of blocks that the edits have opened and not closed, or -1 if they touch one that was
      there before. */
  function OpenedBy(edits: seq<Edit>, n: int): int
    decreases |edits|
  {
    if n < 0 || edits == [] then n
    else
      match edits[0]
      case SetTop(_) => OpenedBy(edits[1..], if n == 0 then -1 else n)
      case Push(_) => OpenedBy(edits[1..], n + 1)
      case Pop => OpenedBy(edits[1..], n - 1)
  }

  /** Blocks are last in, first out: edits that close what they open leave the blocks below as they were. */
  lemma {:induction false} OuterBlocksKept(stack: seq<Fields>, edits: seq<Edit>, outer: nat)
    requires outer <= |stack| && OpenedBy(edits, |stack| - outer) >= 0
    ensures var r := ApplyEdits(stack, edits);
      |r| == outer + OpenedBy(edits, |stack| - outer) && r[..outer] == stack[..outer]
    decreases |edits|
  {
    if edits != [] {
      OuterBlocksKept(ApplyEdit(stack, edits[0]), edits[1..], outer);
    }
  }

  function UpdatePp(s: State, kind: Kind): State {
    var last := |s.pp| - 1;
    match kind
    case If => s.(pp := s.pp + [PpInfo(s.stack, [], false)])
    case Else =>
      if last < 0 then s
      else if s.pp[last].seenElse then s.(stack := s.pp[last].beforeIf)
      else State(s.pp[last].beforeIf, s.pp[last := s.pp[last].(seenElse := true, beforeElse := s.stack)])
    case Endif =>
      if last < 0 then s
      else State(if s.pp[last].seenElse then s.pp[last].beforeElse else s.stack, s.pp[..last])
    case Other => s
  }

  function Update(s: State, line: Line, effect: Effect): State {
    var s' := UpdatePp(s, KindOf(line.text));
    s'.(stack := ApplyEdits(s'.stack, effect(line, s'.stack)))
  }

  function Run(s: State, lines: seq<Line>, effect: Effect): State
    decreases |lines|
  {
    if lines == [] then s else Run(Update(s, lines[0], effect), lines[1..], effect)
  }

  lemma {:induction false} RunAppend(s: State, first: seq<Line>, second: seq<Line>, effect: Effect)
    ensures Run(s, first + second, effect) == Run(Run(s, first, effect), second, effect)
    decreases |first|
  {
    hide Update;
    if first == [] {
      assert first + second == second;
    } else {
      assert (first + second)[1..] == first[1..] + second;
      RunAppend(Update(s, first[0], effect), first[1..], second, effect);
    }
  }

  // ---------- the stack from the lines alone ----------

  /** A conditional that is still open: the line of its `#if`, and that of its first `#else` or `#elif`
      if there has been one. */
  datatype Open = Open(ifAt: nat, elseAt: Option<nat>)

  function OpenAfter(lines: seq<Line>): (open: seq<Open>)
    ensures forall i :: 0 <= i < |open| ==>
      open[i].ifAt < |lines| && (open[i].elseAt.Some? ==> open[i].elseAt.value < |lines|)
    decreases |lines|
  {
    if lines == [] then []
    else
      var n := |lines| - 1;
      var open := OpenAfter(lines[..n]);
      var last := |open| - 1;
      match KindOf(lines[n].text)
      case If => open + [Open(n, None)]
      case Else => if last < 0 || open[last].elseAt.Some? then open else open[last := Open(open[last].ifAt, Some(n))]
      case Endif => if last < 0 then open else open[..last]
      case Other => open
  }

  /** How many of the lines before the last one lead to the stack that it finds: all of them, but an
      `#else` or `#elif` those before its `#if`, and an `#endif` those before its first `#else`. */
  function Origin(lines: seq<Line>): (k: nat)
    requires lines != []
    ensures k < |lines|
  {
    var n := |lines| - 1;
    var open := OpenAfter(lines[..n]);
    var last := |open| - 1;
    match KindOf(lines[n].text)
    case Else => if last < 0 then n else open[last].ifAt
    case Endif => if last < 0 || open[last].elseAt.None? then n else open[last].elseAt.value
    case _ => n
  }

  /** The stack after the lines, with nothing saved. */
  function StackAfter(lines: seq<Line>, effect: Effect): seq<Fields>
    decreases |lines|
  {
    if lines == [] then []
    else
      var stack := StackAfter(lines[..Origin(lines)], effect);
      ApplyEdits(stack, effect(lines[|lines| - 1], stack))
  }

  /** What is saved for a conditional. */
  function SavedFor(lines: seq<Line>, open: Open, effect: Effect): PpInfo<Fields>
    requires open.ifAt <= |lines| && (open.elseAt.Some? ==> open.elseAt.value <= |lines|)
  {
    PpInfo(
      StackAfter(lines[..open.ifAt], effect),
      if open.elseAt.Some? then StackAfter(lines[..open.elseAt.value], effect) else [],
      open.elseAt.Some?)
  }

  predicate SavedIs(pp: seq<PpInfo<Fields>>, lines: seq<Line>, effect: Effect) {
    var open := OpenAfter(lines);
    |pp| == |open| && forall i :: 0 <= i < |pp| ==> pp[i] == SavedFor(lines, open[i], effect)
  }

  lemma {:induction false} SavedForLonger(lines: seq<Line>, open: Open, effect: Effect)
    requires lines != [] && open.ifAt < |lines| && (open.elseAt.Some? ==> open.elseAt.value < |lines|)
    ensures SavedFor(lines, open, effect) == SavedFor(lines[..|lines| - 1], open, effect)
  {
    hide StackAfter;
    var before := lines[..|lines| - 1];
    assert before[..open.ifAt] == lines[..open.ifAt];
    if open.elseAt.Some? {
      assert before[..open.elseAt.value] == lines[..open.elseAt.value];
    }
  }

  lemma {:induction false} UpdateIsStackAfter(lines: seq<Line>, s: State, effect: Effect)
    requires lines != []
    requires var before := lines[..|lines| - 1]; s.stack == StackAfter(before, effect) && SavedIs(s.pp, before, effect)
    ensures var s' := UpdatePp(s, KindOf(lines[|lines| - 1].text));
      && s'.stack == StackAfter(lines[..Origin(lines)], effect)
      && SavedIs(s'.pp, lines, effect)
  {
    hide StackAfter, KindOf;
    var n := |lines| - 1;
    var before := lines[..n];
    var open := OpenAfter(before);
    forall i | 0 <= i < |open| ensures SavedFor(lines, open[i], effect) == SavedFor(before, open[i], effect) {
      SavedForLonger(lines, open[i], effect);
    }
    if open != [] {
      var last := open[|open| - 1];
      assert before[..last.ifAt] == lines[..last.ifAt];
      if last.elseAt.Some? {
        assert before[..last.elseAt.value] == lines[..last.elseAt.value];
      }
    }
  }

  lemma {:induction false} NothingSaved(effect: Effect)
    ensures SavedIs([], [], effect)
  {
  }

  /** Whatever the lines, balanced or not: the stack after every line is the one that it should be, and
      what is saved for each open conditional are the stacks before its `#if` and its first `#else`. */
  lemma {:induction false} RunIsStackAfter(lines: seq<Line>, effect: Effect)
    ensures var s := Run(State([], []), lines, effect);
      s.stack == StackAfter(lines, effect) && SavedIs(s.pp, lines, effect)
    decreases |lines|
  {
    hide KindOf, ApplyEdits, UpdatePp, SavedIs;
    if lines == [] {
      NothingSaved(effect);
    } else {
      var n := |lines| - 1;
      RunIsStackAfter(lines[..n], effect);
      RunAppend(State([], []), lines[..n], [lines[n]], effect);
      assert lines == lines[..n] + [lines[n]] && [lines[n]][1..] == [];
      UpdateIsStackAfter(lines, Run(State([], []), lines[..n], effect), effect);
    }
  }

  // ---------- what it is for ----------

  /** For each open conditional, whether an `#else` or `#elif` of it has been seen. */
  predicate AnyDead(dead: seq<bool>) {
    true in dead
  }

  function NextDead(dead: seq<bool>, kind: Kind): seq<bool> {
    match kind
    case If => dead + [false]
    case Else => if dead == [] then [] else dead[|dead| - 1 := true]
    case Endif => if dead == [] then [] else dead[..|dead| - 1]
    case Other => dead
  }

  /** A line counts if it is not in a later branch. An `#else` does not count, and an `#endif` counts
      like the `#if` it belongs to. */
  predicate Counts(dead: seq<bool>, kind: Kind) {
    match kind
    case If => !AnyDead(dead)
    case Else => dead == []
    case Endif => dead == [] || !AnyDead(dead[..|dead| - 1])
    case Other => !AnyDead(dead)
  }

  /** Only the first branch of each conditional, with its `#if` and `#endif`. */
  function FirstBranches(lines: seq<Line>, dead: seq<bool>): seq<Line>
    decreases |lines|
  {
    if lines == [] then []
    else
      var kind := KindOf(lines[0].text);
      (if Counts(dead, kind) then [lines[0]] else []) + FirstBranches(lines[1..], NextDead(dead, kind))
  }

  function DeadAfter(lines: seq<Line>, dead: seq<bool>): seq<bool>
    decreases |lines|
  {
    if lines == [] then dead else DeadAfter(lines[1..], NextDead(dead, KindOf(lines[0].text)))
  }

  // ---------- the two runs side by side ----------

  /** The outermost conditional that is in a later branch; the number of conditionals if there is none. */
  function FirstDead(dead: seq<bool>): (j: nat)
    ensures j <= |dead|
    ensures j < |dead| ==> dead[j]
    ensures forall i :: 0 <= i < j ==> !dead[i]
  {
    if dead == [] || dead[0] then 0 else 1 + FirstDead(dead[1..])
  }

  /** The whole run and the run of the first branches: while no conditional is in a later branch the
      two are in the same state. Otherwise the whole run has saved the other's stack with the
      outermost such conditional. */
  predicate InStep(all: State, some: State, dead: seq<bool>) {
    var j := FirstDead(dead);
    && |all.pp| == |dead|
    && (forall i :: 0 <= i < |dead| ==> all.pp[i].seenElse == dead[i])
    && if j == |dead| then all == some
       else
         && |some.pp| == j + 1 && some.pp[..j] == all.pp[..j]
         && !some.pp[j].seenElse && all.pp[j].beforeElse == some.stack
  }

  lemma {:induction false} FirstDeadIs(dead: seq<bool>, j: nat)
    requires j <= |dead| && (forall i :: 0 <= i < j ==> !dead[i]) && (j < |dead| ==> dead[j])
    ensures FirstDead(dead) == j
  {
  }

  lemma {:induction false} DeadIff(dead: seq<bool>)
    ensures AnyDead(dead) <==> FirstDead(dead) < |dead|
  {
  }

  lemma {:induction false} IfKeepsInStep(all: State, some: State, dead: seq<bool>)
    requires InStep(all, some, dead)
    ensures InStep(UpdatePp(all, If), if AnyDead(dead) then some else UpdatePp(some, If), dead + [false])
  {
    var j := FirstDead(dead);
    DeadIff(dead);
    FirstDeadIs(dead + [false], if j == |dead| then j + 1 else j);
    hide FirstDead, AnyDead;
  }

  lemma {:induction false} ElseKeepsInStep(all: State, some: State, dead: seq<bool>)
    requires InStep(all, some, dead)
    ensures InStep(UpdatePp(all, Else), if dead == [] then UpdatePp(some, Else) else some, NextDead(dead, Else))
  {
    var j, n := FirstDead(dead), |dead|;
    if n > 0 {
      FirstDeadIs(dead[n - 1 := true], if j == n then n - 1 else j);
    }
    hide FirstDead, AnyDead;
  }

  lemma {:induction false} EndifKeepsInStep(all: State, some: State, dead: seq<bool>)
    requires InStep(all, some, dead)
    ensures InStep(
      UpdatePp(all, Endif), if Counts(dead, Endif) then UpdatePp(some, Endif) else some, NextDead(dead, Endif))
  {
    var j, n := FirstDead(dead), |dead|;
    if n > 0 {
      DeadIff(dead[..n - 1]);
      FirstDeadIs(dead[..n - 1], if j == n then n - 1 else j);
    }
    hide FirstDead, AnyDead;
  }

  /** What a line does after that: on the same stack the same, and in a later branch it does not matter. */
  lemma {:induction false} EditKeepsInStep(all: State, some: State, dead: seq<bool>, a: seq<Fields>, b: seq<Fields>)
    requires InStep(all, some, dead)
    requires if AnyDead(dead) then b == some.stack else a == b
    ensures InStep(all.(stack := a), some.(stack := b), dead)
  {
    DeadIff(dead);
  }

  lemma {:induction false} StepKeepsInStep(all: State, some: State, dead: seq<bool>, line: Line, effect: Effect)
    requires InStep(all, some, dead)
    ensures var kind := KindOf(line.text);
      InStep(
        Update(all, line, effect), if Counts(dead, kind) then Update(some, line, effect) else some,
        NextDead(dead, kind))
  {
    var kind := KindOf(line.text);
    var counts, dead' := Counts(dead, kind), NextDead(dead, kind);
    var all', some' := UpdatePp(all, kind), if counts then UpdatePp(some, kind) else some;
    match kind {
      case If => IfKeepsInStep(all, some, dead);
      case Else => ElseKeepsInStep(all, some, dead);
      case Endif => EndifKeepsInStep(all, some, dead);
      case Other =>
    }
    assert counts == !AnyDead(dead');
    DeadIff(dead');
    assert counts ==> all' == some';
    hide InStep, UpdatePp, ApplyEdits, KindOf, Counts, NextDead;
    EditKeepsInStep(all', some', dead', ApplyEdits(all'.stack, effect(line, all'.stack)),
      if counts then ApplyEdits(some'.stack, effect(line, some'.stack)) else some'.stack);
  }

  lemma {:induction false} RunKeepsInStep(all: State, some: State, dead: seq<bool>, lines: seq<Line>, effect: Effect)
    requires InStep(all, some, dead)
    ensures InStep(Run(all, lines, effect), Run(some, FirstBranches(lines, dead), effect), DeadAfter(lines, dead))
    decreases |lines|
  {
    hide InStep, Update;
    if lines != [] {
      var line, rest := lines[0], lines[1..];
      var kind := KindOf(line.text);
      StepKeepsInStep(all, some, dead, line, effect);
      RunKeepsInStep(
        Update(all, line, effect), if Counts(dead, kind) then Update(some, line, effect) else some,
        NextDead(dead, kind), rest, effect);
      if Counts(dead, kind) {
        assert FirstBranches(lines, dead)[1..] == FirstBranches(rest, NextDead(dead, kind));
      } else {
        assert FirstBranches(lines, dead) == FirstBranches(rest, NextDead(dead, kind));
      }
    }
  }

  /** Whatever the lines, balanced or not: outside later branches the stack is what the first branches
      alone make of it. */
  lemma {:induction false} FirstBranchesDecide(lines: seq<Line>, effect: Effect)
    ensures !AnyDead(DeadAfter(lines, [])) ==>
      Run(State([], []), lines, effect) == Run(State([], []), FirstBranches(lines, []), effect)
  {
    var none: seq<bool> := [];
    assert InStep(State([], []), State([], []), none);
    RunKeepsInStep(State([], []), State([], []), none, lines, effect);
    DeadIff(DeadAfter(lines, none));
  }

  // ---------- well-nested lines ----------

  /** The number of open conditionals after the lines, or -1 if an `#else` or `#endif` had none. */
  function DepthAfter(lines: seq<Line>, depth: int): int
    decreases |lines|
  {
    if depth < 0 || lines == [] then depth
    else
      match KindOf(lines[0].text)
      case If => DepthAfter(lines[1..], depth + 1)
      case Else => if depth == 0 then -1 else DepthAfter(lines[1..], depth)
      case Endif => DepthAfter(lines[1..], depth - 1)
      case Other => DepthAfter(lines[1..], depth)
  }

  predicate WellNested(lines: seq<Line>) {
    DepthAfter(lines, 0) == 0
  }

  /** The saved stacks below the conditionals that the lines open are not touched. */
  lemma {:induction false} OuterKept(s: State, lines: seq<Line>, outer: nat, effect: Effect)
    requires outer <= |s.pp| && DepthAfter(lines, |s.pp| - outer) >= 0
    ensures var r := Run(s, lines, effect);
      |r.pp| == outer + DepthAfter(lines, |s.pp| - outer) && r.pp[..outer] == s.pp[..outer]
    decreases |lines|
  {
    hide KindOf, ApplyEdits;
    if lines != [] {
      OuterKept(Update(s, lines[0], effect), lines[1..], outer, effect);
    }
  }

  /** From any state, well-nested lines leave the saved stacks as they were. */
  lemma {:induction false} WellNestedRestores(s: State, lines: seq<Line>, effect: Effect)
    requires WellNested(lines)
    ensures Run(s, lines, effect).pp == s.pp
  {
    OuterKept(s, lines, |s.pp|, effect);
    assert s.pp[..|s.pp|] == s.pp;
  }

  function Below(base: seq<PpInfo<Fields>>, s: State): State {
    s.(pp := base + s.pp)
  }

  lemma {:induction false} UpdateBelow(base: seq<PpInfo<Fields>>, s: State, line: Line, effect: Effect)
    requires KindOf(line.text).If? || KindOf(line.text).Other? || s.pp != []
    ensures Update(Below(base, s), line, effect) == Below(base, Update(s, line, effect))
  {
    var last, kind := |s.pp| - 1, KindOf(line.text);
    hide KindOf;
    if s.pp != [] {
      assert (base + s.pp)[..|base| + last] == base + s.pp[..last];
      var x := s.pp[last].(seenElse := true, beforeElse := s.stack);
      assert (base + s.pp)[|base| + last := x] == base + s.pp[last := x];
    }
    assert base + (s.pp + [PpInfo(s.stack, [], false)]) == base + s.pp + [PpInfo(s.stack, [], false)];
  }

  lemma {:induction false} RunBelow(base: seq<PpInfo<Fields>>, s: State, lines: seq<Line>, effect: Effect)
    requires DepthAfter(lines, |s.pp|) >= 0
    ensures Run(Below(base, s), lines, effect) == Below(base, Run(s, lines, effect))
    decreases |lines|
  {
    hide KindOf, ApplyEdits, Below;
    if lines == [] {
    } else {
      UpdateBelow(base, s, lines[0], effect);
      RunBelow(base, Update(s, lines[0], effect), lines[1..], effect);
    }
  }

  /** And the stack is what the first branches alone make of it. */
  lemma {:induction false} WellNestedFirstBranches(s: State, lines: seq<Line>, effect: Effect)
    requires WellNested(lines)
    ensures Run(s, lines, effect) == State(Run(State(s.stack, []), FirstBranches(lines, []), effect).stack, s.pp)
  {
    var bare, none: seq<bool> := State(s.stack, []), [];
    assert Below(s.pp, bare) == s;
    RunBelow(s.pp, bare, lines, effect);
    WellNestedRestores(bare, lines, effect);
    assert InStep(bare, bare, none);
    RunKeepsInStep(bare, bare, none, lines, effect);
  }

  // ---------- later branches ----------

  /** The number of conditionals open inside another one, or -1 if the lines close that one. */
  function LevelAfter(lines: seq<Line>, level: int): int
    decreases |lines|
  {
    if level < 0 || lines == [] then level
    else
      match KindOf(lines[0].text)
      case If => LevelAfter(lines[1..], level + 1)
      case Endif => LevelAfter(lines[1..], level - 1)
      case _ => LevelAfter(lines[1..], level)
  }

  /** As long as a conditional stays open, the stack before it stays saved. */
  lemma {:induction false} BeforeIfKept(s: State, lines: seq<Line>, k: nat, effect: Effect)
    requires k < |s.pp| && LevelAfter(lines, |s.pp| - 1 - k) >= 0
    ensures var r := Run(s, lines, effect);
      && |r.pp| == k + 1 + LevelAfter(lines, |s.pp| - 1 - k)
      && r.pp[..k] == s.pp[..k] && r.pp[k].beforeIf == s.pp[k].beforeIf
    decreases |lines|
  {
    hide KindOf, ApplyEdits;
    if lines != [] {
      BeforeIfKept(Update(s, lines[0], effect), lines[1..], k, effect);
    }
  }

  lemma {:induction false} IfSaves(s: State, ifLine: Line, effect: Effect)
    requires KindOf(ifLine.text).If?
    ensures Update(s, ifLine, effect).pp == s.pp + [PpInfo(s.stack, [], false)]
  {
    hide KindOf, ApplyEdits;
  }

  lemma {:induction false} ElseRestores(s: State, k: nat)
    requires |s.pp| == k + 1
    ensures var r := UpdatePp(s, Else); r.stack == s.pp[k].beforeIf && |r.pp| == k + 1 && r.pp[..k] == s.pp[..k]
  {
  }

  /** From any state: an `#else` or `#elif` finds the stack that there was before its `#if`, whatever the
      branches before it have opened and closed, earlier ones of the same conditional included. */
  lemma {:induction false} BranchStartsOver(s: State, ifLine: Line, body: seq<Line>, elseLine: Line, effect: Effect)
    requires KindOf(ifLine.text).If? && KindOf(elseLine.text).Else? && LevelAfter(body, 0) == 0
    ensures var r := UpdatePp(Run(Update(s, ifLine, effect), body, effect), KindOf(elseLine.text));
      r.stack == s.stack && |r.pp| == |s.pp| + 1 && r.pp[..|s.pp|] == s.pp
  {
    hide KindOf, Run, Update, UpdatePp, LevelAfter;
    var t, k := Update(s, ifLine, effect), |s.pp|;
    IfSaves(s, ifLine, effect);
    BeforeIfKept(t, body, k, effect);
    ElseRestores(Run(t, body, effect), k);
    assert t.pp[..k] == s.pp;
  }

  /** So in each later branch the stack is what that branch alone makes of the stack before the `#if`. */
  lemma {:induction false} LaterBranchAlone(
    s: State, ifLine: Line, body: seq<Line>, elseLine: Line, branch: seq<Line>, effect: Effect)
    requires KindOf(ifLine.text).If? && KindOf(elseLine.text).Else? && LevelAfter(body, 0) == 0 && WellNested(branch)
    ensures var start := ApplyEdits(s.stack, effect(elseLine, s.stack));
      Run(s, [ifLine] + body + [elseLine] + branch, effect).stack ==
      Run(State(start, []), FirstBranches(branch, []), effect).stack
  {
    hide KindOf, ApplyEdits, UpdatePp;
    BranchStartsOver(s, ifLine, body, elseLine, effect);
    RunAppend(s, [ifLine] + body + [elseLine], branch, effect);
    RunAppend(s, [ifLine] + body, [elseLine], effect);
    RunAppend(s, [ifLine], body, effect);
    assert [ifLine][1..] == [] && [elseLine][1..] == [];
    WellNestedFirstBranches(Run(s, [ifLine] + body + [elseLine], effect), branch, effect);
  }

  // ---------- the object ----------

  /** Blocks are objects in `memory`, changed in place while they are on the stack, which is why the
      stack is copied deeply when it is saved. */
  type Ref = nat

  predicate Allocated(memory: map<Ref, Fields>, blocks: seq<Ref>) {
    forall i :: 0 <= i < |blocks| ==> blocks[i] in memory
  }

  function Values(memory: map<Ref, Fields>, blocks: seq<Ref>): seq<Fields>
    requires Allocated(memory, blocks)
  {
    seq(|blocks|, i requires 0 <= i < |blocks| => memory[blocks[i]])
  }

  predicate InfoAllocated(memory: map<Ref, Fields>, info: PpInfo<Ref>) {
    Allocated(memory, info.beforeIf) && Allocated(memory, info.beforeElse)
  }

  function InfoValues(memory: map<Ref, Fields>, info: PpInfo<Ref>): PpInfo<Fields>
    requires InfoAllocated(memory, info)
  {
    PpInfo(Values(memory, info.beforeIf), Values(memory, info.beforeElse), info.seenElse)
  }

  predicate AllAllocated(memory: map<Ref, Fields>, pp: seq<PpInfo<Ref>>) {
    forall k :: 0 <= k < |pp| ==> InfoAllocated(memory, pp[k])
  }

  function PpValues(memory: map<Ref, Fields>, pp: seq<PpInfo<Ref>>): seq<PpInfo<Fields>>
    requires AllAllocated(memory, pp)
  {
    seq(|pp|, k requires 0 <= k < |pp| => InfoValues(memory, pp[k]))
  }

  predicate Distinct(blocks: seq<Ref>) {
    forall i, j :: 0 <= i < j < |blocks| ==> blocks[i] != blocks[j]
  }

  predicate Apart(a: seq<Ref>, b: seq<Ref>) {
    forall i, j :: 0 <= i < |a| && 0 <= j < |b| ==> a[i] != b[j]
  }

  predicate ApartFrom(a: seq<Ref>, info: PpInfo<Ref>) {
    Apart(a, info.beforeIf) && Apart(a, info.beforeElse)
  }

  /** No block on the stack is also in a saved stack, now or when a saved stack comes back. */
  predicate NoAlias(stack: seq<Ref>, pp: seq<PpInfo<Ref>>) {
    && Distinct(stack)
    && (forall k :: 0 <= k < |pp| ==> ApartFrom(stack, pp[k]) && Distinct(pp[k].beforeElse))
    && (forall k, l :: 0 <= k < l < |pp| ==> ApartFrom(pp[l].beforeElse, pp[k]))
  }

  /** The memory has grown. */
  predicate Extends(memory: map<Ref, Fields>, memory': map<Ref, Fields>) {
    forall r :: r in memory ==> r in memory' && memory'[r] == memory[r]
  }

  lemma {:induction false} ValuesExtend(
    memory: map<Ref, Fields>, memory': map<Ref, Fields>, stack: seq<Ref>, pp: seq<PpInfo<Ref>>)
    requires Extends(memory, memory') && Allocated(memory, stack) && AllAllocated(memory, pp)
    ensures Allocated(memory', stack) && Values(memory', stack) == Values(memory, stack)
    ensures AllAllocated(memory', pp) && PpValues(memory', pp) == PpValues(memory, pp)
  {
    forall k | 0 <= k < |pp|
      ensures InfoAllocated(memory', pp[k]) && InfoValues(memory', pp[k]) == InfoValues(memory, pp[k])
    {
      assert InfoAllocated(memory, pp[k]);
      assert Values(memory', pp[k].beforeIf) == Values(memory, pp[k].beforeIf);
      assert Values(memory', pp[k].beforeElse) == Values(memory, pp[k].beforeElse);
    }
  }

  /** A change of a block that is in no saved stack is not seen there. */
  lemma {:induction false} ChangeUnseen(memory: map<Ref, Fields>, top: Ref, fields: Fields, pp: seq<PpInfo<Ref>>)
    requires AllAllocated(memory, pp) && forall k :: 0 <= k < |pp| ==> ApartFrom([top], pp[k])
    ensures AllAllocated(memory[top := fields], pp) && PpValues(memory[top := fields], pp) == PpValues(memory, pp)
  {
    var memory' := memory[top := fields];
    forall k | 0 <= k < |pp|
      ensures InfoAllocated(memory', pp[k]) && InfoValues(memory', pp[k]) == InfoValues(memory, pp[k])
    {
      assert InfoAllocated(memory, pp[k]) && ApartFrom([top], pp[k]) && [top][0] == top;
      assert Values(memory', pp[k].beforeIf) == Values(memory, pp[k].beforeIf);
      assert Values(memory', pp[k].beforeElse) == Values(memory, pp[k].beforeElse);
    }
  }

  class NestingState {
    var memory: map<Ref, Fields>
    var unused: Ref
    var stack: seq<Ref>
    var pp: seq<PpInfo<Ref>>

    ghost predicate Valid()
      reads this
    {
      && Allocated(memory, stack) && AllAllocated(memory, pp) && NoAlias(stack, pp)
      && forall r :: r in memory ==> r < unused
    }

    ghost function Current(): State
      requires Valid()
      reads this
    {
      State(Values(memory, stack), PpValues(memory, pp))
    }

    constructor ()
      ensures Valid() && Current() == State([], [])
    {
      memory, unused, stack, pp := map[], 0, [], [];
    }

    method DeepCopy(blocks: seq<Ref>) returns (copies: seq<Ref>)
      requires Allocated(memory, blocks) && forall r :: r in memory ==> r < unused
      modifies this`memory, this`unused
      ensures Extends(old(memory), memory) && (forall r :: r in memory ==> r < unused)
      ensures Allocated(memory, copies) && Values(memory, copies) == old(Values(memory, blocks))
      ensures Distinct(copies) && forall i :: 0 <= i < |copies| ==> copies[i] >= old(unused)
    {
      copies := [];
      for i := 0 to |blocks|
        invariant Extends(old(memory), memory) && Allocated(memory, blocks) && unused >= old(unused)
        invariant forall r :: r in memory ==> r < unused
        invariant |copies| == i && Allocated(memory, copies) && Distinct(copies)
        invariant forall j :: 0 <= j < i ==> copies[j] >= old(unused) && memory[copies[j]] == old(memory)[blocks[j]]
      {
        memory := memory[unused := memory[blocks[i]]];
        copies := copies + [unused];
        unused := unused + 1;
      }
      assert Values(memory, copies) == old(Values(memory, blocks));
    }

    method BeginIf()
      requires Valid()
      modifies this
      ensures Valid() && Current() == UpdatePp(old(Current()), If)
    {
      var copy := DeepCopy(stack);
      ValuesExtend(old(memory), memory, stack, pp);
      var info := PpInfo(copy, [], false);
      assert InfoValues(memory, info) == PpInfo(old(Values(memory, stack)), [], false);
      pp := pp + [info];
      assert PpValues(memory, pp) == old(PpValues(memory, pp)) + [InfoValues(memory, info)];
    }

    /** Remembers the stack at the first `#else` or `#elif`. */
    method SaveAtElse()
      requires Valid() && pp != [] && !pp[|pp| - 1].seenElse
      modifies this
      ensures Valid() && stack == old(stack) && |pp| == |old(pp)|
      ensures Current() == var s, last := old(Current()), |pp| - 1;
        s.(pp := s.pp[last := s.pp[last].(seenElse := true, beforeElse := s.stack)])
    {
      var last := |pp| - 1;
      var copy := DeepCopy(stack);
      ValuesExtend(old(memory), memory, stack, pp);
      pp := pp[last := pp[last].(seenElse := true, beforeElse := copy)];
    }

    method RestoreBeforeIf()
      requires Valid() && pp != []
      modifies this
      ensures Valid() && pp == old(pp)
      ensures Current() == var s := old(Current()); s.(stack := s.pp[|s.pp| - 1].beforeIf)
    {
      assert InfoAllocated(memory, pp[|pp| - 1]);
      var copy := DeepCopy(pp[|pp| - 1].beforeIf);
      ValuesExtend(old(memory), memory, stack, pp);
      forall k | 0 <= k < |pp| ensures ApartFrom(copy, pp[k]) {
        assert InfoAllocated(old(memory), pp[k]);
      }
      stack := copy;
    }

    method BeginElse()
      requires Valid()
      modifies this
      ensures Valid() && Current() == UpdatePp(old(Current()), Else)
    {
      if pp != [] {
        if !pp[|pp| - 1].seenElse {
          SaveAtElse();
        }
        RestoreBeforeIf();
      }
    }

    method EndIf()
      requires Valid()
      modifies this`pp, this`stack
      ensures Valid() && Current() == UpdatePp(old(Current()), Endif)
    {
      if pp != [] {
        var last := |pp| - 1;
        if pp[last].seenElse {
          stack := pp[last].beforeElse;
        }
        pp := pp[..last];
      }
    }

    method UpdatePreprocessor(line: string)
      requires Valid()
      modifies this
      ensures Valid() && Current() == UpdatePp(old(Current()), KindOf(line))
    {
      match KindOf(line) {
        case If => BeginIf();
        case Else => BeginElse();
        case Endif => EndIf();
        case Other =>
      }
    }

    /** Changes the innermost block in place: no saved stack sees it. */
    method ChangeTop(fields: Fields)
      requires Valid() && stack != []
      modifies this`memory
      ensures Valid() && Current() == var s := old(Current()); s.(stack := ApplyEdit(s.stack, SetTop(fields)))
    {
      var top := stack[|stack| - 1];
      ChangeUnseen(memory, top, fields, pp);
      memory := memory[top := fields];
    }

    method Enter(fields: Fields)
      requires Valid()
      modifies this
      ensures Valid() && Current() == var s := old(Current()); s.(stack := ApplyEdit(s.stack, Push(fields)))
    {
      memory := memory[unused := fields];
      ValuesExtend(old(memory), memory, stack, pp);
      stack := stack + [unused];
      unused := unused + 1;
    }

    method Change(edit: Edit)
      requires Valid()
      modifies this
      ensures Valid() && Current() == var s := old(Current()); s.(stack := ApplyEdit(s.stack, edit))
    {
      match edit {
        case SetTop(fields) =>
          if stack != [] {
            ChangeTop(fields);
          }
        case Push(fields) => Enter(fields);
        case Pop =>
          if stack != [] {
            stack := stack[..|stack| - 1];
          }
      }
    }

    method UpdateLine(line: Line, effect: Effect)
      requires Valid()
      modifies this
      ensures Valid() && Current() == Update(old(Current()), line, effect)
    {
      UpdatePreprocessor(line.text);
      var edits := effect(line, Values(memory, stack));
      label updated:
      for i := 0 to |edits|
        invariant Valid() && Current().pp == old@updated(Current()).pp
        invariant ApplyEdits(Current().stack, edits[i..]) == ApplyEdits(old@updated(Current()).stack, edits)
      {
        assert edits[i..][0] == edits[i] && edits[i..][1..] == edits[i + 1..];
        Change(edits[i]);
      }
    }
  }
}
