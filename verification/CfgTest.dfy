/** Which Rust items exist only in test builds: the cfg analysis of
    scripts/check-flight-tune-contracts.py, over token lists, proved against the
    meaning of the cfg expressions the tokens spell. */
module CfgTest {

  type Token = string
  type Tokens = seq<Token>

  // ---- splitting at top-level commas ----------------------------------------

  datatype Scan = Scan(segments: seq<Tokens>, current: Tokens, round: nat, square: nat, curly: nat)

  const START := Scan([], [], 0, 0, 0)

  function Less(depth: nat): nat {
    if depth == 0 then 0 else depth - 1
  }

  function Flush(s: Scan): Scan {
    if s.current == [] then s else s.(segments := s.segments + [s.current], current := [])
  }

  function Feed(s: Scan, token: Token): Scan {
    if token == "," && s.round == 0 && s.square == 0 && s.curly == 0 then Flush(s)
    else
      var t := s.(current := s.current + [token]);
      if token == "(" then t.(round := t.round + 1)
      else if token == "[" then t.(square := t.square + 1)
      else if token == "{" then t.(curly := t.curly + 1)
      else if token == ")" then t.(round := Less(t.round))
      else if token == "]" then t.(square := Less(t.square))
      else if token == "}" then t.(curly := Less(t.curly))
      else t
  }

  function FeedAll(s: Scan, tokens: Tokens): (r: Scan)
    decreases |tokens|
  {
    if tokens == [] then s else FeedAll(Feed(s, tokens[0]), tokens[1..])
  }

  function TopLevelSegments(tokens: Tokens): (segments: seq<Tokens>)
    ensures forall i :: 0 <= i < |segments| ==> |segments[i]| <= |tokens|
  {
    SegmentsAreShort(START, tokens);
    Flush(FeedAll(START, tokens)).segments
  }

  lemma {:induction false} SegmentsAreShort(s: Scan, tokens: Tokens)
    ensures |FeedAll(s, tokens).current| <= |s.current| + |tokens|
    ensures forall i :: 0 <= i < |FeedAll(s, tokens).segments| ==>
      (if i < |s.segments| then FeedAll(s, tokens).segments[i] == s.segments[i]
       else |FeedAll(s, tokens).segments[i]| <= |s.current| + |tokens|)
    ensures |s.segments| <= |FeedAll(s, tokens).segments|
    decreases |tokens|
  {
    if tokens != [] {
      SegmentsAreShort(Feed(s, tokens[0]), tokens[1..]);
      hide FeedAll;
      assert FeedAll(s, tokens) == FeedAll(Feed(s, tokens[0]), tokens[1..]) by {
        FeedAllStep(s, tokens);
      }
    }
  }

  lemma FeedAllStep(s: Scan, tokens: Tokens)
    requires tokens != []
    ensures FeedAll(s, tokens) == FeedAll(Feed(s, tokens[0]), tokens[1..])
  {
  }

  method SplitTopLevel(tokens: Tokens) returns (segments: seq<Tokens>)
    ensures segments == TopLevelSegments(tokens)
  {
    hide Feed;
    segments := [];
    var current: Tokens := [];
    var round, square, curly := 0, 0, 0;
    for i := 0 to |tokens|
      invariant round >= 0 && square >= 0 && curly >= 0
      invariant FeedAll(START, tokens) == FeedAll(Scan(segments, current, round, square, curly), tokens[i..])
    {
      var token := tokens[i];
      ghost var before := Scan(segments, current, round, square, curly);
      assert tokens[i..][1..] == tokens[i + 1..];
      if token == "," && round == 0 && square == 0 && curly == 0 {
        if current != [] {
          segments := segments + [current];
        }
        current := [];
        SplitStep(before, token);
        continue;
      }
      current := current + [token];
      if token == "(" {
        round := round + 1;
      } else if token == "[" {
        square := square + 1;
      } else if token == "{" {
        curly := curly + 1;
      } else if token == ")" {
        round := Less(round);
      } else if token == "]" {
        square := Less(square);
      } else if token == "}" {
        curly := Less(curly);
      }
      SplitStep(before, token);
    }
    if current != [] {
      segments := segments + [current];
    }
  }

  /** `Feed`, spelled out. */
  lemma SplitStep(s: Scan, token: Token)
    ensures Feed(s, token) ==
      if token == "," && s.round == 0 && s.square == 0 && s.curly == 0 then
        Scan(if s.current == [] then s.segments else s.segments + [s.current], [], 0, 0, 0)
      else
        Scan(s.segments, s.current + [token],
             if token == "(" then s.round + 1 else if token == ")" then Less(s.round) else s.round,
             if token == "[" then s.square + 1 else if token == "]" then Less(s.square) else s.square,
             if token == "{" then s.curly + 1 else if token == "}" then Less(s.curly) else s.curly)
  {
  }

  // ---- the analysis ---------------------------------------------------------

  predicate CfgRequiresTest(tokens: Tokens)
    decreases |tokens|
  {
    if tokens == ["test"] then true
    else if |tokens| < 3 || tokens[1] != "(" || tokens[|tokens| - 1] != ")" then false
    else
      var arguments := TopLevelSegments(tokens[2..|tokens| - 1]);
      if tokens[0] == "all" then exists i :: 0 <= i < |arguments| && CfgRequiresTest(arguments[i])
      else if tokens[0] == "any" then
        arguments != [] && forall i :: 0 <= i < |arguments| ==> CfgRequiresTest(arguments[i])
      else false
  }

  predicate IsCfg(attribute: Tokens) {
    |attribute| >= 4 && attribute[..2] == ["cfg", "("] && attribute[|attribute| - 1] == ")"
  }

  predicate AttributesRequireTest(attributes: seq<Tokens>) {
    exists i :: 0 <= i < |attributes| && IsCfg(attributes[i]) && CfgRequiresTest(attributes[i][2..|attributes[i]| - 1])
  }

  // ---- cfg expressions and their meaning ------------------------------------

  /** `trailing` is a comma after the last argument. */
  datatype Expr =
    | Test
    | Flag(name: Token)
    | KeyValue(key: Token, value: Token)
    | All(args: seq<Expr>, trailing: bool)
    | Any(args: seq<Expr>, trailing: bool)
    | Not(arg: Expr)

  datatype Atom = FlagAtom(name: Token) | KeyAtom(key: Token, value: Token)

  type Environment = Atom -> bool

  /** What the compiler selects in a build where `test` is off. */
  predicate HoldsWithoutTest(e: Expr, env: Environment) {
    match e
    case Test => false
    case Flag(name) => env(FlagAtom(name))
    case KeyValue(key, value) => env(KeyAtom(key, value))
    case All(args, _) => forall i :: 0 <= i < |args| ==> HoldsWithoutTest(args[i], env)
    case Any(args, _) => exists i :: 0 <= i < |args| && HoldsWithoutTest(args[i], env)
    case Not(arg) => !HoldsWithoutTest(arg, env)
  }

  predicate Punctuation(t: Token) {
    t == "," || t == "(" || t == ")" || t == "[" || t == "]" || t == "{" || t == "}"
  }

  /** Names and values are words, and only `Test` is the word `test`. */
  predicate WellFormed(e: Expr) {
    match e
    case Test => true
    case Flag(name) => !Punctuation(name) && name != "test"
    case KeyValue(key, value) => !Punctuation(key) && !Punctuation(value)
    case All(args, _) => forall i :: 0 <= i < |args| ==> WellFormed(args[i])
    case Any(args, _) => forall i :: 0 <= i < |args| ==> WellFormed(args[i])
    case Not(arg) => WellFormed(arg)
  }

  function Render(e: Expr): (tokens: Tokens)
    ensures tokens != []
    decreases e, 0
  {
    match e
    case Test => ["test"]
    case Flag(name) => [name]
    case KeyValue(key, value) => [key, "=", value]
    case All(args, trailing) => ["all", "("] + RenderArgs(args, trailing) + [")"]
    case Any(args, trailing) => ["any", "("] + RenderArgs(args, trailing) + [")"]
    case Not(arg) => ["not", "("] + Render(arg) + [")"]
  }

  function RenderArgs(args: seq<Expr>, trailing: bool): Tokens
    decreases args, 1
  {
    if args == [] then []
    else if |args| == 1 then Render(args[0]) + (if trailing then [","] else [])
    else Render(args[0]) + ([","] + RenderArgs(args[1..], trailing))
  }

  // ---- the tokens spell the expression --------------------------------------

  lemma {:induction false} FeedAppend(s: Scan, a: Tokens, b: Tokens)
    ensures FeedAll(s, a + b) == FeedAll(FeedAll(s, a), b)
    decreases |a|
  {
    if a == [] {
      assert a + b == b;
    } else {
      assert (a + b)[1..] == a[1..] + b;
      FeedAppend(Feed(s, a[0]), a[1..], b);
      hide Feed;
    }
  }

  /** Appending without a split. */
  function Took(s: Scan, tokens: Tokens): Scan {
    s.(current := s.current + tokens)
  }

  lemma FeedOne(s: Scan, t: Token)
    requires !Punctuation(t)
    ensures FeedAll(s, [t]) == Took(s, [t])
  {
    assert FeedAll(Feed(s, t), []) == Feed(s, t);
  }

  lemma FeedWords(s: Scan, a: Token, b: Token, c: Token)
    requires !Punctuation(a) && !Punctuation(b) && !Punctuation(c)
    ensures FeedAll(s, [a, b, c]) == Took(s, [a, b, c])
  {
    assert [a, b, c] == [a] + ([b] + [c]);
    FeedAppend(s, [a], [b] + [c]);
    FeedOne(s, a);
    FeedAppend(Took(s, [a]), [b], [c]);
    FeedOne(Took(s, [a]), b);
    FeedOne(Took(Took(s, [a]), [b]), c);
    assert (s.current + [a]) + [b] + [c] == s.current + ([a] + ([b] + [c]));
    hide FeedAll;
  }

  lemma FeedOpen(s: Scan)
    ensures FeedAll(s, ["("]) == Took(s, ["("]).(round := s.round + 1)
  {
    assert FeedAll(Feed(s, "("), []) == Feed(s, "(");
  }

  lemma FeedClose(s: Scan)
    requires s.round > 0
    ensures FeedAll(s, [")"]) == Took(s, [")"]).(round := s.round - 1)
  {
    assert FeedAll(Feed(s, ")"), []) == Feed(s, ")");
  }

  lemma TookInside(s: Scan, name: Token, body: Tokens)
    ensures Took(Took(s, [name]), ["("]).(round := Took(s, [name]).round + 1) == Inner(s, name)
    ensures var whole := Took(Inner(s, name), body);
      whole.round > 0 && Took(whole, [")"]).(round := whole.round - 1) == Took(s, [name, "("] + body + [")"])
  {
    assert (s.current + [name]) + ["("] == s.current + [name, "("];
    assert ((s.current + [name, "("]) + body) + [")"] == s.current + ([name, "("] + body + [")"]);
  }

  /** Just inside a group. */
  function Inner(s: Scan, name: Token): Scan {
    Took(s, [name, "("]).(round := s.round + 1)
  }

  /** A group: when its body is taken whole one level down, the group is. */
  lemma FeedGroup(s: Scan, name: Token, body: Tokens)
    requires !Punctuation(name)
    requires FeedAll(Inner(s, name), body) == Took(Inner(s, name), body)
    ensures FeedAll(s, [name, "("] + body + [")"]) == Took(s, [name, "("] + body + [")"])
  {
    hide FeedAll, Took, Inner;
    var named := Took(s, [name]);
    var inner := Inner(s, name);
    var whole := Took(inner, body);
    TookInside(s, name, body);
    FeedOne(s, name);
    FeedOpen(named);
    FeedClose(whole);
    var group := [name, "("] + body + [")"];
    Chain(s, [name], ["("], body, [")"], named, inner, whole, Took(s, group));
    Regroup(name, "(", body, ")");
  }

  lemma Chain(s: Scan, a: Tokens, b: Tokens, c: Tokens, d: Tokens, s1: Scan, s2: Scan, s3: Scan, s4: Scan)
    requires FeedAll(s, a) == s1 && FeedAll(s1, b) == s2 && FeedAll(s2, c) == s3 && FeedAll(s3, d) == s4
    ensures FeedAll(s, a + (b + (c + d))) == s4
  {
    FeedFour(s, a, b, c, d);
    hide FeedAll;
  }

  lemma FeedFour(s: Scan, a: Tokens, b: Tokens, c: Tokens, d: Tokens)
    ensures FeedAll(s, a + (b + (c + d))) == FeedAll(FeedAll(FeedAll(FeedAll(s, a), b), c), d)
  {
    hide FeedAll;
    FeedAppend(s, a, b + (c + d));
    FeedAppend(FeedAll(s, a), b, c + d);
    FeedAppend(FeedAll(FeedAll(s, a), b), c, d);
  }

  lemma Regroup<T>(a: T, b: T, body: seq<T>, c: T)
    ensures [a, b] + body + [c] == [a] + ([b] + (body + [c]))
  {
  }

  /** A rendered expression is taken whole at any depth. */
  lemma {:induction false} RenderIsTakenWhole(s: Scan, e: Expr)
    requires WellFormed(e)
    ensures FeedAll(s, Render(e)) == Took(s, Render(e))
    decreases e, 0
  {
    hide FeedAll, Feed;
    assert forall name :: Inner(s, name).round > 0;
    hide Took, Inner;
    match e
    case Test => FeedOne(s, "test");
    case Flag(name) => FeedOne(s, name);
    case KeyValue(key, value) => FeedWords(s, key, "=", value);
    case All(args, trailing) =>
      ArgsAreTakenWhole(Inner(s, "all"), args, trailing);
      FeedGroup(s, "all", RenderArgs(args, trailing));
    case Any(args, trailing) =>
      ArgsAreTakenWhole(Inner(s, "any"), args, trailing);
      FeedGroup(s, "any", RenderArgs(args, trailing));
    case Not(arg) =>
      RenderIsTakenWhole(Inner(s, "not"), arg);
      FeedGroup(s, "not", Render(arg));
  }

  lemma FeedInnerComma(s: Scan)
    requires s.round > 0
    ensures FeedAll(s, [","]) == Took(s, [","])
  {
    assert FeedAll(Feed(s, ","), []) == Feed(s, ",");
  }

  lemma TookTwice(s: Scan, a: Tokens, b: Tokens)
    ensures Took(Took(s, a), b) == Took(s, a + b)
    ensures Took(s, a).round == s.round
  {
    assert (s.current + a) + b == s.current + (a + b);
  }

  /** Inside parentheses so are the arguments, commas and all. */
  lemma {:induction false} ArgsAreTakenWhole(s: Scan, args: seq<Expr>, trailing: bool)
    requires s.round > 0
    requires forall i :: 0 <= i < |args| ==> WellFormed(args[i])
    ensures FeedAll(s, RenderArgs(args, trailing)) == Took(s, RenderArgs(args, trailing))
    decreases args, 1
  {
    if args == [] {
      assert Took(s, []) == s by { assert s.current + [] == s.current; }
    } else {
      var first := Render(args[0]);
      RenderIsTakenWhole(s, args[0]);
      TookTwice(s, first, [","]);
      var taken := Took(s, first);
      FeedInnerComma(taken);
      if |args| == 1 {
        var rest: Tokens := if trailing then [","] else [];
        FeedAppend(s, first, rest);
        assert FeedAll(taken, []) == taken;
        assert first + [] == first;
        hide FeedAll, Feed, Took;
      } else {
        var rest := RenderArgs(args[1..], trailing);
        TookTwice(taken, [","], rest);
        TookTwice(s, first, [","] + rest);
        ArgsAreTakenWhole(Took(taken, [","]), args[1..], trailing);
        FeedAppend(s, first, [","] + rest);
        FeedAppend(taken, [","], rest);
        hide FeedAll, Feed, Took;
      }
    }
  }

  function RenderEach(args: seq<Expr>): seq<Tokens> {
    seq(|args|, i requires 0 <= i < |args| => Render(args[i]))
  }

  /** At the top level the commas separate exactly the arguments. */
  lemma {:induction false} ArgsAreSplit(segments: seq<Tokens>, args: seq<Expr>, trailing: bool)
    requires forall i :: 0 <= i < |args| ==> WellFormed(args[i])
    ensures Flush(FeedAll(START.(segments := segments), RenderArgs(args, trailing))).segments
      == segments + RenderEach(args)
    decreases |args|
  {
    var s := START.(segments := segments);
    if args == [] {
      assert RenderEach(args) == [];
    } else {
      var first := Render(args[0]);
      var taken := Took(s, first);
      RenderIsTakenWhole(s, args[0]);
      assert [] + first == first;
      var split := START.(segments := segments + [first]);
      assert FeedAll(taken, [","]) == split by { assert FeedAll(split, []) == split; }
      if |args| == 1 {
        assert RenderEach(args) == [first];
        assert FeedAll(taken, []) == taken;
        assert first + [] == first;
        FeedAppend(s, first, if trailing then [","] else []);
        hide FeedAll, Feed;
      } else {
        var rest := RenderArgs(args[1..], trailing);
        assert RenderEach(args) == [first] + RenderEach(args[1..]);
        hide FeedAll, Feed, Flush, RenderEach, Took;
        ArgsAreSplit(segments + [first], args[1..], trailing);
        FeedAppend(s, first, [","] + rest);
        FeedAppend(taken, [","], rest);
        assert (segments + [first]) + RenderEach(args[1..]) == segments + ([first] + RenderEach(args[1..]));
      }
    }
  }

  lemma SegmentsAreTheArguments(args: seq<Expr>, trailing: bool)
    requires forall i :: 0 <= i < |args| ==> WellFormed(args[i])
    ensures TopLevelSegments(RenderArgs(args, trailing)) == RenderEach(args)
  {
    ArgsAreSplit([], args, trailing);
    assert [] + RenderEach(args) == RenderEach(args);
  }

  // ---- the analysis decides -------------------------------------------------

  /** What the analysis computes, on expressions. */
  predicate Requires(e: Expr) {
    match e
    case Test => true
    case All(args, _) => exists i :: 0 <= i < |args| && Requires(args[i])
    case Any(args, _) => args != [] && forall i :: 0 <= i < |args| ==> Requires(args[i])
    case _ => false
  }

  lemma GroupIsUnwrapped(name: Token, body: Tokens)
    ensures var t := [name, "("] + body + [")"];
      |t| >= 3 && t != ["test"] && t[0] == name && t[1] == "(" && t[|t| - 1] == ")" && t[2..|t| - 1] == body
  {
  }

  lemma {:induction false} AnalysisReadsTheExpression(e: Expr)
    requires WellFormed(e)
    ensures CfgRequiresTest(Render(e)) == Requires(e)
    decreases e
  {
    hide TopLevelSegments;
    match e
    case Test =>
    case Flag(_) =>
    case KeyValue(_, _) =>
    case Not(arg) =>
      GroupIsUnwrapped("not", Render(arg));
    case All(args, trailing) =>
      GroupIsUnwrapped("all", RenderArgs(args, trailing));
      SegmentsAreTheArguments(args, trailing);
      EachArgument(args);
      hide RenderArgs;
    case Any(args, trailing) =>
      GroupIsUnwrapped("any", RenderArgs(args, trailing));
      SegmentsAreTheArguments(args, trailing);
      EachArgument(args);
      hide RenderArgs;
  }

  lemma {:induction false} EachArgument(args: seq<Expr>)
    requires forall i :: 0 <= i < |args| ==> WellFormed(args[i])
    ensures |RenderEach(args)| == |args|
    ensures forall i :: 0 <= i < |args| ==> CfgRequiresTest(RenderEach(args)[i]) == Requires(args[i])
    decreases args
  {
    forall i | 0 <= i < |args|
      ensures CfgRequiresTest(RenderEach(args)[i]) == Requires(args[i])
    {
      AnalysisReadsTheExpression(args[i]);
    }
  }

  lemma {:induction false} RequiresMeansNeverWithoutTest(e: Expr, env: Environment)
    requires Requires(e)
    ensures !HoldsWithoutTest(e, env)
    decreases e
  {
    match e
    case All(args, _) =>
      var i :| 0 <= i < |args| && Requires(args[i]);
      RequiresMeansNeverWithoutTest(args[i], env);
    case Any(args, _) =>
      forall i | 0 <= i < |args|
        ensures !HoldsWithoutTest(args[i], env)
      {
        RequiresMeansNeverWithoutTest(args[i], env);
      }
    case _ =>
  }

  /** A true answer is right for every expression: no build without `test`
      selects it. */
  lemma TrueIsSound(e: Expr, env: Environment)
    requires WellFormed(e) && CfgRequiresTest(Render(e))
    ensures !HoldsWithoutTest(e, env)
  {
    AnalysisReadsTheExpression(e);
    RequiresMeansNeverWithoutTest(e, env);
  }

  /** The environment in which exactly these atoms are off. */
  function Without(off: set<Atom>): Environment {
    (a: Atom) => a !in off
  }

  /** Each atom occurs in one polarity, counted through every `not` around it:
      those of `off` under an odd number of them, the others under an even
      number. */
  predicate OnePolarity(e: Expr, off: set<Atom>, positive: bool) {
    match e
    case Test => true
    case Flag(name) => FlagAtom(name) !in off <==> positive
    case KeyValue(key, value) => KeyAtom(key, value) !in off <==> positive
    case All(args, _) => forall i :: 0 <= i < |args| ==> OnePolarity(args[i], off, positive)
    case Any(args, _) => forall i :: 0 <= i < |args| ==> OnePolarity(args[i], off, positive)
    case Not(arg) => OnePolarity(arg, off, !positive)
  }

  /** Then one environment is the best of all. */
  lemma {:induction false} BestEnvironment(e: Expr, off: set<Atom>, positive: bool, env: Environment)
    requires OnePolarity(e, off, positive)
    ensures positive && HoldsWithoutTest(e, env) ==> HoldsWithoutTest(e, Without(off))
    ensures !positive && HoldsWithoutTest(e, Without(off)) ==> HoldsWithoutTest(e, env)
    decreases e
  {
    match e
    case All(args, _) => BestForEach(args, off, positive, env);
    case Any(args, _) => BestForEach(args, off, positive, env);
    case Not(arg) => BestEnvironment(arg, off, !positive, env);
    case _ =>
  }

  lemma {:induction false} BestForEach(args: seq<Expr>, off: set<Atom>, positive: bool, env: Environment)
    requires forall i :: 0 <= i < |args| ==> OnePolarity(args[i], off, positive)
    ensures forall i :: 0 <= i < |args| ==>
      && (positive && HoldsWithoutTest(args[i], env) ==> HoldsWithoutTest(args[i], Without(off)))
      && (!positive && HoldsWithoutTest(args[i], Without(off)) ==> HoldsWithoutTest(args[i], env))
    decreases args
  {
    forall i | 0 <= i < |args|
      ensures positive && HoldsWithoutTest(args[i], env) ==> HoldsWithoutTest(args[i], Without(off))
      ensures !positive && HoldsWithoutTest(args[i], Without(off)) ==> HoldsWithoutTest(args[i], env)
    {
      BestEnvironment(args[i], off, positive, env);
    }
  }

  /** `not` stands only over single atoms and over `test`, and there is no `any`
      without arguments. */
  predicate Plain(e: Expr) {
    match e
    case All(args, _) => forall i :: 0 <= i < |args| ==> Plain(args[i])
    case Any(args, _) => args != [] && forall i :: 0 <= i < |args| ==> Plain(args[i])
    case Not(arg) => arg.Test? || arg.Flag? || arg.KeyValue?
    case _ => true
  }

  /** A plain expression that does not require `test` holds in that environment. */
  lemma {:induction false} PlainHolds(e: Expr, off: set<Atom>)
    requires OnePolarity(e, off, true) && Plain(e) && !Requires(e)
    ensures HoldsWithoutTest(e, Without(off))
    decreases e
  {
    match e
    case All(args, _) =>
      forall i | 0 <= i < |args|
        ensures HoldsWithoutTest(args[i], Without(off))
      {
        PlainHolds(args[i], off);
      }
    case Any(args, _) =>
      var i :| 0 <= i < |args| && !Requires(args[i]);
      PlainHolds(args[i], off);
    case _ =>
  }

  /** An answer is right when it is true exactly if no build without `test`
      selects the expression. */
  ghost predicate AnswerIsRight(e: Expr) {
    CfgRequiresTest(Render(e)) <==> forall env: Environment :: !HoldsWithoutTest(e, env)
  }

  /** On expressions whose atoms each occur in one polarity the answer is right if
      and only if it is true or the expression holds in the one environment that
      suits its atoms; and it is right on all such expressions that are plain.
      Expressions without `not` are those with no atom in `off`. */
  lemma ExactOnOnePolarity(e: Expr, off: set<Atom>)
    requires WellFormed(e) && OnePolarity(e, off, true)
    ensures AnswerIsRight(e) <==> CfgRequiresTest(Render(e)) || HoldsWithoutTest(e, Without(off))
    ensures Plain(e) ==> AnswerIsRight(e)
  {
    hide CfgRequiresTest, Render, WellFormed;
    AnalysisReadsTheExpression(e);
    if Requires(e) {
      forall env: Environment
        ensures !HoldsWithoutTest(e, env)
      {
        RequiresMeansNeverWithoutTest(e, env);
      }
    } else {
      if Plain(e) {
        PlainHolds(e, off);
      }
      forall env: Environment
        ensures HoldsWithoutTest(e, env) ==> HoldsWithoutTest(e, Without(off))
      {
        BestEnvironment(e, off, true, env);
      }
    }
  }

  /** A false answer can be wrong: `any()`, `not(all())`, `not(not(test))` and
      `all(a, not(a))` are never selected, and the analysis does not say so. */
  lemma FalseCanBeWrong(name: Token, env: Environment)
    requires WellFormed(Flag(name))
    ensures !HoldsWithoutTest(Any([], false), env) && !CfgRequiresTest(Render(Any([], false)))
    ensures !HoldsWithoutTest(Not(All([], false)), env) && !CfgRequiresTest(Render(Not(All([], false))))
    ensures !HoldsWithoutTest(Not(Not(Test)), env) && !CfgRequiresTest(Render(Not(Not(Test))))
    ensures var both := All([Flag(name), Not(Flag(name))], false);
      !HoldsWithoutTest(both, env) && !CfgRequiresTest(Render(both))
  {
    hide CfgRequiresTest, Render;
    AnalysisReadsTheExpression(Any([], false));
    AnalysisReadsTheExpression(Not(All([], false)));
    AnalysisReadsTheExpression(Not(Not(Test)));
    ContradictionIsMissed(Flag(name), env);
  }

  lemma ContradictionIsMissed(flag: Expr, env: Environment)
    requires flag.Flag? && WellFormed(flag)
    ensures var both := All([flag, Not(flag)], false);
      !HoldsWithoutTest(both, env) && !CfgRequiresTest(Render(both))
  {
    hide CfgRequiresTest, Render;
    var both := All([flag, Not(flag)], false);
    AnalysisReadsTheExpression(both);
    assert !Requires(both.args[0]) && !Requires(both.args[1]);
    assert !HoldsWithoutTest(both.args[0], env) || !HoldsWithoutTest(both.args[1], env);
  }

  // ---- whole items ----------------------------------------------------------

  /** An attribute of an item: a cfg, or something else. */
  datatype Attribute = Cfg(condition: Expr) | Unrelated(tokens: Tokens)

  function Spell(a: Attribute): Tokens {
    match a
    case Cfg(e) => ["cfg", "("] + Render(e) + [")"]
    case Unrelated(tokens) => tokens
  }

  function SpellAll(attributes: seq<Attribute>): seq<Tokens> {
    seq(|attributes|, i requires 0 <= i < |attributes| => Spell(attributes[i]))
  }

  predicate SoundAttribute(a: Attribute) {
    match a
    case Cfg(e) => WellFormed(e)
    case Unrelated(tokens) => !IsCfg(tokens)
  }

  /** An item is compiled when all its cfgs hold. */
  predicate Compiled(attributes: seq<Attribute>, env: Environment) {
    forall i :: 0 <= i < |attributes| && attributes[i].Cfg? ==> HoldsWithoutTest(attributes[i].condition, env)
  }

  lemma CfgIsUnwrapped(e: Expr)
    ensures var t := Spell(Cfg(e)); IsCfg(t) && t[2..|t| - 1] == Render(e)
  {
    GroupIsUnwrapped("cfg", Render(e));
    hide Render;
  }

  lemma ItemRequires(attributes: seq<Attribute>)
    requires forall i :: 0 <= i < |attributes| ==> SoundAttribute(attributes[i])
    ensures AttributesRequireTest(SpellAll(attributes)) <==>
      exists i :: 0 <= i < |attributes| && attributes[i].Cfg? && Requires(attributes[i].condition)
  {
    var spelled := SpellAll(attributes);
    forall i | 0 <= i < |attributes|
      ensures (IsCfg(spelled[i]) && CfgRequiresTest(spelled[i][2..|spelled[i]| - 1]))
          <==> (attributes[i].Cfg? && Requires(attributes[i].condition))
    {
      if attributes[i].Cfg? {
        CfgIsUnwrapped(attributes[i].condition);
        AnalysisReadsTheExpression(attributes[i].condition);
      }
      hide CfgRequiresTest, Requires, WellFormed, Render;
    }
    hide CfgRequiresTest, Requires, WellFormed, IsCfg;
  }

  /** An item the attributes mark as test-only is in no build without `test`. */
  lemma ItemsMarkedAreTestOnly(attributes: seq<Attribute>, env: Environment)
    requires forall i :: 0 <= i < |attributes| ==> SoundAttribute(attributes[i])
    requires AttributesRequireTest(SpellAll(attributes))
    ensures !Compiled(attributes, env)
  {
    ItemRequires(attributes);
    var i :| 0 <= i < |attributes| && attributes[i].Cfg? && Requires(attributes[i].condition);
    RequiresMeansNeverWithoutTest(attributes[i].condition, env);
  }

  ghost predicate MarkIsRight(attributes: seq<Attribute>) {
    AttributesRequireTest(SpellAll(attributes)) <==> forall env: Environment :: !Compiled(attributes, env)
  }

  predicate CfgsOfOnePolarity(attributes: seq<Attribute>, off: set<Atom>) {
    forall i :: 0 <= i < |attributes| && attributes[i].Cfg? ==> OnePolarity(attributes[i].condition, off, true)
  }

  predicate CfgsArePlain(attributes: seq<Attribute>) {
    forall i :: 0 <= i < |attributes| && attributes[i].Cfg? ==> Plain(attributes[i].condition)
  }

  /** When the cfgs of an item keep one polarity between them, it is marked rightly
      if and only if it is marked or some one build without `test` has it; and
      always when they are plain as well. */
  lemma ItemsMarkedExactly(attributes: seq<Attribute>, off: set<Atom>)
    requires forall i :: 0 <= i < |attributes| ==> SoundAttribute(attributes[i])
    requires CfgsOfOnePolarity(attributes, off)
    ensures MarkIsRight(attributes) <==>
      AttributesRequireTest(SpellAll(attributes)) || Compiled(attributes, Without(off))
    ensures CfgsArePlain(attributes) ==> MarkIsRight(attributes)
  {
    hide AttributesRequireTest, SoundAttribute;
    if AttributesRequireTest(SpellAll(attributes)) {
      forall env: Environment
        ensures !Compiled(attributes, env)
      {
        ItemsMarkedAreTestOnly(attributes, env);
      }
    } else {
      forall env: Environment
        ensures Compiled(attributes, env) ==> Compiled(attributes, Without(off))
      {
        BestForItem(attributes, off, env);
      }
      if CfgsArePlain(attributes) {
        PlainItemIsCompiled(attributes, off);
      }
    }
  }

  lemma BestForItem(attributes: seq<Attribute>, off: set<Atom>, env: Environment)
    requires CfgsOfOnePolarity(attributes, off)
    ensures Compiled(attributes, env) ==> Compiled(attributes, Without(off))
  {
    forall i | 0 <= i < |attributes| && attributes[i].Cfg?
      ensures HoldsWithoutTest(attributes[i].condition, env) ==> HoldsWithoutTest(attributes[i].condition, Without(off))
    {
      BestEnvironment(attributes[i].condition, off, true, env);
    }
    hide HoldsWithoutTest;
  }

  lemma PlainItemIsCompiled(attributes: seq<Attribute>, off: set<Atom>)
    requires forall i :: 0 <= i < |attributes| ==> SoundAttribute(attributes[i])
    requires CfgsOfOnePolarity(attributes, off) && CfgsArePlain(attributes)
    requires !AttributesRequireTest(SpellAll(attributes))
    ensures Compiled(attributes, Without(off))
  {
    ItemRequires(attributes);
    hide AttributesRequireTest, SoundAttribute;
    forall i | 0 <= i < |attributes| && attributes[i].Cfg?
      ensures HoldsWithoutTest(attributes[i].condition, Without(off))
    {
      PlainHolds(attributes[i].condition, off);
    }
  }
}
