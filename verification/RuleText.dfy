/** The router rule language of the proxy: a lexer, a parser in which `&&` binds
    tighter than `||`, and what a rule means for a request. Text is ASCII. */
module RuleText {
  import opened Options
  import Text

  /** `entrypoint` is the listener that the request arrives on. */
  datatype Request = Request(host: string, path: string, entrypoint: string)

  // --------------------------------------------------------------------- lexing

  datatype Token = Word(text: string) | Literal(text: string) | Open | Close | AndSign | OrSign

  predicate Letter(c: char) {
    'a' <= c <= 'z' || 'A' <= c <= 'Z'
  }

  /** The length of the run of letters that `s` starts with. */
  function WordLength(s: string): (n: nat)
    ensures n <= |s|
  {
    if s != "" && Letter(s[0]) then 1 + WordLength(s[1..]) else 0
  }

  /** The position of the first backquote, or |s|. */
  function UntilTick(s: string): (n: nat)
    ensures n <= |s|
    ensures n < |s| ==> s[n] == '`'
  {
    if s == "" || s[0] == '`' then 0 else 1 + UntilTick(s[1..])
  }

  function Lex(s: string): Option<seq<Token>>
    decreases |s|
  {
    if s == "" then Some([])
    else if s[0] == ' ' then Lex(s[1..])
    else if s[0] == '(' then Before(Open, Lex(s[1..]))
    else if s[0] == ')' then Before(Close, Lex(s[1..]))
    else if s[0] == '`' then
      var n := UntilTick(s[1..]);
      if n == |s| - 1 then None else Before(Literal(s[1..1 + n]), Lex(s[n + 2..]))
    else if |s| >= 2 && s[0] == s[1] == '&' then Before(AndSign, Lex(s[2..]))
    else if |s| >= 2 && s[0] == s[1] == '|' then Before(OrSign, Lex(s[2..]))
    else
      var n := WordLength(s);
      if n == 0 then None else Before(Word(s[..n]), Lex(s[n..]))
  }

  function Before(t: Token, ts: Option<seq<Token>>): Option<seq<Token>> {
    if ts.Some? then Some([t] + ts.value) else None
  }

  function AllBefore(front: seq<Token>, ts: Option<seq<Token>>): Option<seq<Token>> {
    if ts.Some? then Some(front + ts.value) else None
  }

  // -------------------------------------------------------------------- parsing

  datatype Rule = Matcher(name: string, arg: string) | And(left: Rule, right: Rule) | Or(left: Rule, right: Rule)

  datatype Parsed = Failed | Got(rule: Rule, rest: seq<Token>)

  function ParseOr(ts: seq<Token>): (r: Parsed)
    ensures r.Got? ==> |r.rest| < |ts|
    decreases |ts|, 2
  {
    match ParseAnd(ts)
    case Failed => Failed
    case Got(a, rest) =>
      if rest != [] && rest[0] == OrSign then
        match ParseOr(rest[1..])
        case Failed => Failed
        case Got(b, rest') => Got(Or(a, b), rest')
      else Got(a, rest)
  }

  function ParseAnd(ts: seq<Token>): (r: Parsed)
    ensures r.Got? ==> |r.rest| < |ts|
    decreases |ts|, 1
  {
    match ParseOne(ts)
    case Failed => Failed
    case Got(a, rest) =>
      if rest != [] && rest[0] == AndSign then
        match ParseAnd(rest[1..])
        case Failed => Failed
        case Got(b, rest') => Got(And(a, b), rest')
      else Got(a, rest)
  }

  function ParseOne(ts: seq<Token>): (r: Parsed)
    ensures r.Got? ==> |r.rest| < |ts|
    decreases |ts|, 0
  {
    if |ts| >= 4 && ts[0].Word? && ts[1].Open? && ts[2].Literal? && ts[3].Close? then
      Got(Matcher(ts[0].text, ts[2].text), ts[4..])
    else if |ts| >= 1 && ts[0].Open? then
      match ParseOr(ts[1..])
      case Failed => Failed
      case Got(a, rest) => if rest != [] && rest[0] == Close then Got(a, rest[1..]) else Failed
    else Failed
  }

  function Parse(text: string): Option<Rule> {
    match Lex(text)
    case None => None
    case Some(ts) =>
      match ParseOr(ts)
      case Failed => None
      case Got(rule, rest) => if rest == [] then Some(rule) else None
  }

  // -------------------------------------------------------------------- meaning

  const META: string := "?()|[]{}^$\\.+*"

  /** The one-character units of a plain pattern: an ordinary character or a class of one
      character. Anything else is outside this subset. */
  function Units(pattern: string): Option<string> {
    if pattern == "" then Some("")
    else if |pattern| >= 3 && pattern[0] == '[' && pattern[2] == ']' && pattern[1] != ']' && pattern[1] != '^' then
      match Units(pattern[3..]) { case None => None case Some(u) => Some([pattern[1]] + u) }
    else if pattern[0] in META then None
    else match Units(pattern[1..]) { case None => None case Some(u) => Some([pattern[0]] + u) }
  }

  const CASE_FOLDED_PREFIX: string := "(?i)^"

  /** `(?i)^` and plain units: a prefix match that ignores case. */
  predicate RegexpMatches(pattern: string, path: string) {
    CASE_FOLDED_PREFIX <= pattern &&
    match Units(pattern[|CASE_FOLDED_PREFIX|..])
    case None => false
    case Some(u) => |u| <= |path| && Text.Lower(u) == Text.Lower(path[..|u|])
  }

  predicate Matches(name: string, arg: string, req: Request) {
    if name == "Host" then req.host == arg
    else if name == "Path" then req.path == arg
    else if name == "PathPrefix" then arg <= req.path
    else name == "PathRegexp" && RegexpMatches(arg, req.path)
  }

  predicate Eval(r: Rule, req: Request) {
    match r
    case Matcher(name, arg) => Matches(name, arg, req)
    case And(a, b) => Eval(a, req) && Eval(b, req)
    case Or(a, b) => Eval(a, req) || Eval(b, req)
  }

  /** What a rule text means: nothing when it does not parse. */
  predicate TextMatches(text: string, req: Request) {
    var r := Parse(text);
    r.Some? && Eval(r.value, req)
  }

  // ------------------------------------------------- rule texts as they are printed

  /** The shape of a printed rule: parentheses are written, not implied. */
  datatype Shape =
    | Leaf(name: string, arg: string)
    | Both(left: Shape, right: Shape)
    | Either(left: Shape, right: Shape)
    | Group(inner: Shape)

  function Show(s: Shape): string {
    match s
    case Leaf(name, arg) => name + "(`" + arg + "`)"
    case Both(a, b) => Show(a) + " && " + Show(b)
    case Either(a, b) => Show(a) + " || " + Show(b)
    case Group(a) => "(" + Show(a) + ")"
  }

  predicate Means(s: Shape, req: Request) {
    match s
    case Leaf(name, arg) => Matches(name, arg, req)
    case Both(a, b) => Means(a, req) && Means(b, req)
    case Either(a, b) => Means(a, req) || Means(b, req)
    case Group(a) => Means(a, req)
  }

  predicate LeafOk(name: string, arg: string) {
    name != "" && (forall c :: c in name ==> Letter(c)) && '`' !in arg
  }

  /** Unambiguous: an `||` under an `&&` is in a group. */
  predicate OrOk(s: Shape)
    decreases s, 2
  {
    if s.Either? then AndOk(s.left) && OrOk(s.right) else AndOk(s)
  }

  predicate AndOk(s: Shape)
    decreases s, 1
  {
    if s.Both? then OneOk(s.left) && AndOk(s.right) else OneOk(s)
  }

  predicate OneOk(s: Shape)
    decreases s, 0
  {
    match s
    case Leaf(name, arg) => LeafOk(name, arg)
    case Group(a) => OrOk(a)
    case _ => false
  }

  lemma EitherOk(a: Shape, b: Shape)
    requires OneOk(a) && OrOk(b)
    ensures OrOk(Either(a, b)) && OneOk(Group(Either(a, b)))
  {
    assert AndOk(a);
  }

  lemma BothOk(a: Shape, b: Shape)
    requires OneOk(a) && AndOk(b)
    ensures AndOk(Both(a, b)) && OrOk(Both(a, b))
  {
  }

  lemma OneIsOr(a: Shape)
    requires OneOk(a)
    ensures AndOk(a) && OrOk(a)
  {
    assert AndOk(a);
  }

  predicate LeavesOk(s: Shape) {
    match s
    case Leaf(name, arg) => LeafOk(name, arg)
    case Both(a, b) => LeavesOk(a) && LeavesOk(b)
    case Either(a, b) => LeavesOk(a) && LeavesOk(b)
    case Group(a) => LeavesOk(a)
  }

  function Tokens(s: Shape): seq<Token> {
    match s
    case Leaf(name, arg) => [Word(name), Open, Literal(arg), Close]
    case Both(a, b) => Tokens(a) + [AndSign] + Tokens(b)
    case Either(a, b) => Tokens(a) + [OrSign] + Tokens(b)
    case Group(a) => [Open] + Tokens(a) + [Close]
  }

  lemma {:induction false} OrLeaves(s: Shape)
    requires OrOk(s)
    ensures LeavesOk(s)
    decreases s, 2
  {
    if s.Either? {
      AndLeaves(s.left);
      OrLeaves(s.right);
    } else {
      AndLeaves(s);
    }
  }

  lemma {:induction false} AndLeaves(s: Shape)
    requires AndOk(s)
    ensures LeavesOk(s)
    decreases s, 1
  {
    if s.Both? {
      OneLeaves(s.left);
      AndLeaves(s.right);
    } else {
      OneLeaves(s);
    }
  }

  lemma OneLeaves(s: Shape)
    requires OneOk(s)
    ensures LeavesOk(s)
    decreases s, 0
  {
    if s.Group? { OrLeaves(s.inner); }
  }

  // -------------------------------------------------------- the lexer on printed text

  lemma {:induction false} WordLengthOf(name: string, rest: string)
    requires forall c :: c in name ==> Letter(c)
    requires rest != "" && !Letter(rest[0])
    ensures WordLength(name + rest) == |name|
  {
    if name == "" {
      assert name + rest == rest;
    } else {
      assert (name + rest)[1..] == name[1..] + rest;
      assert name[0] in name;
      WordLengthOf(name[1..], rest);
    }
  }

  lemma {:induction false} UntilTickOf(arg: string, rest: string)
    requires '`' !in arg && rest != "" && rest[0] == '`'
    ensures UntilTick(arg + rest) == |arg|
  {
    if arg == "" {
      assert arg + rest == rest;
    } else {
      assert (arg + rest)[1..] == arg[1..] + rest;
      UntilTickOf(arg[1..], rest);
    }
  }

  lemma LexWord(name: string, rest: string)
    requires name != "" && (forall c :: c in name ==> Letter(c))
    requires rest != "" && !Letter(rest[0])
    ensures Lex(name + rest) == Before(Word(name), Lex(rest))
  {
    WordLengthOf(name, rest);
    var s := name + rest;
    assert name[0] in name;
    assert s[..|name|] == name && s[|name|..] == rest;
  }

  lemma LexLiteral(arg: string, rest: string)
    requires '`' !in arg
    ensures Lex("`" + arg + "`" + rest) == Before(Literal(arg), Lex(rest))
  {
    var s := "`" + arg + "`" + rest;
    assert s[1..] == arg + ("`" + rest);
    UntilTickOf(arg, "`" + rest);
    assert s[1..1 + |arg|] == arg && s[|arg| + 2..] == rest;
  }

  lemma LexChar(c: char, t: Token, rest: string)
    requires (c == '(' && t == Open) || (c == ')' && t == Close)
    ensures Lex([c] + rest) == Before(t, Lex(rest))
  {
    assert ([c] + rest)[1..] == rest;
  }

  lemma LexLeaf(name: string, arg: string, rest: string)
    requires LeafOk(name, arg)
    ensures Lex(name + "(`" + arg + "`)" + rest) ==
            AllBefore([Word(name), Open, Literal(arg), Close], Lex(rest))
  {
    var afterTick := ")" + rest;
    var afterOpen := "`" + arg + "`" + afterTick;
    var afterName := "(" + afterOpen;
    assert name + "(`" + arg + "`)" + rest == name + afterName;
    LexWord(name, afterName);
    LexChar('(', Open, afterOpen);
    LexLiteral(arg, afterTick);
    LexChar(')', Close, rest);
    var ts := Lex(rest);
    if ts.Some? {
      assert [Word(name)] + ([Open] + ([Literal(arg)] + ([Close] + ts.value))) ==
             [Word(name), Open, Literal(arg), Close] + ts.value;
    }
  }

  lemma {:induction false} LexShow(s: Shape, rest: string)
    requires LeavesOk(s)
    ensures Lex(Show(s) + rest) == AllBefore(Tokens(s), Lex(rest))
  {
    match s
    case Leaf(name, arg) =>
      LexLeaf(name, arg, rest);
    case Both(a, b) =>
      Between(Show(a), " && ", Show(b), rest);
      LexShow(b, rest);
      LexAnd(Show(b) + rest);
      LexShow(a, " && " + (Show(b) + rest));
      JoinTokens(Tokens(a), AndSign, Tokens(b), Lex(rest));
    case Either(a, b) =>
      Between(Show(a), " || ", Show(b), rest);
      LexShow(b, rest);
      LexOr(Show(b) + rest);
      LexShow(a, " || " + (Show(b) + rest));
      JoinTokens(Tokens(a), OrSign, Tokens(b), Lex(rest));
    case Group(a) =>
      Between("(", Show(a), ")", rest);
      LexChar(')', Close, rest);
      LexShow(a, ")" + rest);
      LexChar('(', Open, Show(a) + (")" + rest));
      GroupTokens(Tokens(a), Lex(rest));
  }

  lemma Between(a: string, b: string, c: string, rest: string)
    ensures a + b + c + rest == a + (b + (c + rest))
  {
  }

  lemma LexAnd(rest: string)
    ensures Lex(" && " + rest) == Before(AndSign, Lex(rest))
  {
    LexSign("&&", AndSign, rest);
    assert " && " + rest == " " + "&&" + " " + rest;
  }

  lemma LexOr(rest: string)
    ensures Lex(" || " + rest) == Before(OrSign, Lex(rest))
  {
    LexSign("||", OrSign, rest);
    assert " || " + rest == " " + "||" + " " + rest;
  }

  lemma GroupTokens(a: seq<Token>, ts: Option<seq<Token>>)
    ensures Before(Open, AllBefore(a, Before(Close, ts))) == AllBefore([Open] + a + [Close], ts)
  {
    if ts.Some? {
      assert [Open] + (a + ([Close] + ts.value)) == [Open] + a + [Close] + ts.value;
    }
  }

  lemma JoinTokens(a: seq<Token>, sign: Token, b: seq<Token>, ts: Option<seq<Token>>)
    ensures AllBefore(a, Before(sign, AllBefore(b, ts))) == AllBefore(a + [sign] + b, ts)
  {
    if ts.Some? {
      assert a + ([sign] + (b + ts.value)) == a + [sign] + b + ts.value;
    }
  }

  lemma LexSign(sign: string, t: Token, rest: string)
    requires (sign == "&&" && t == AndSign) || (sign == "||" && t == OrSign)
    ensures Lex(" " + sign + " " + rest) == Before(t, Lex(rest))
  {
    var s := " " + sign + " " + rest;
    var s1 := sign + (" " + rest);
    assert s[0] == ' ' && s[1..] == s1;
    assert Lex(s) == Lex(s1);
    assert s1[0] == s1[1] == sign[0] && s1[2..] == " " + rest;
    assert Lex(s1) == Before(t, Lex(" " + rest));
    assert (" " + rest)[1..] == rest;
  }

  // ------------------------------------------------------ the parser on printed tokens

  /** The rule a well-grouped text stands for. */
  function Meant(s: Shape): Rule {
    match s
    case Leaf(name, arg) => Matcher(name, arg)
    case Both(a, b) => And(Meant(a), Meant(b))
    case Either(a, b) => Or(Meant(a), Meant(b))
    case Group(a) => Meant(a)
  }

  lemma {:induction false} MeantMeans(s: Shape, req: Request)
    ensures Eval(Meant(s), req) == Means(s, req)
  {
    match s
    case Leaf(_, _) =>
    case Both(a, b) => MeantMeans(a, req); MeantMeans(b, req);
    case Either(a, b) => MeantMeans(a, req); MeantMeans(b, req);
    case Group(a) => MeantMeans(a, req);
  }

  predicate EndsAnd(rest: seq<Token>) { rest == [] || (rest[0] != AndSign) }

  predicate EndsOr(rest: seq<Token>) { EndsAnd(rest) && (rest == [] || rest[0] != OrSign) }

  lemma ParseOneTokens(s: Shape, rest: seq<Token>)
    requires OneOk(s)
    ensures ParseOne(Tokens(s) + rest) == Got(Meant(s), rest)
    decreases s, 0
  {
    match s
    case Leaf(name, arg) =>
      assert (Tokens(s) + rest)[4..] == rest;
    case Group(a) =>
      var ts := Tokens(s) + rest;
      assert ts[1..] == Tokens(a) + ([Close] + rest);
      ParseOrTokens(a, [Close] + rest);
      assert ([Close] + rest)[1..] == rest;
  }

  lemma {:induction false} ParseAndTokens(s: Shape, rest: seq<Token>)
    requires AndOk(s) && EndsAnd(rest)
    ensures ParseAnd(Tokens(s) + rest) == Got(Meant(s), rest)
    decreases s, 1
  {
    if s.Both? {
      var more := [AndSign] + (Tokens(s.right) + rest);
      assert Tokens(s) + rest == Tokens(s.left) + more;
      ParseOneTokens(s.left, more);
      assert more[1..] == Tokens(s.right) + rest;
      ParseAndTokens(s.right, rest);
    } else {
      ParseOneTokens(s, rest);
    }
  }

  lemma {:induction false} ParseOrTokens(s: Shape, rest: seq<Token>)
    requires OrOk(s) && EndsOr(rest)
    ensures ParseOr(Tokens(s) + rest) == Got(Meant(s), rest)
    decreases s, 2
  {
    if s.Either? {
      var more := [OrSign] + (Tokens(s.right) + rest);
      TokensOfPair(Tokens(s.left), OrSign, Tokens(s.right), rest);
      ParseAndTokens(s.left, more);
      ParseOrTokens(s.right, rest);
    } else {
      ParseAndTokens(s, rest);
    }
  }

  lemma TokensOfPair(a: seq<Token>, sign: Token, b: seq<Token>, rest: seq<Token>)
    ensures a + [sign] + b + rest == a + ([sign] + (b + rest))
    ensures ([sign] + (b + rest))[1..] == b + rest && ([sign] + (b + rest))[0] == sign
  {
  }

  /** A printed rule whose groups are written out reads back as exactly itself. */
  lemma ShownTextParses(s: Shape)
    requires OrOk(s)
    ensures Parse(Show(s)) == Some(Meant(s))
    ensures forall req :: TextMatches(Show(s), req) == Means(s, req)
  {
    OrLeaves(s);
    LexShow(s, "");
    assert Show(s) + "" == Show(s);
    assert Tokens(s) + [] == Tokens(s);
    ParseOrTokens(s, []);
    forall req
      ensures TextMatches(Show(s), req) == Means(s, req)
    {
      MeantMeans(s, req);
    }
  }

  /** Without the group, `&&` takes only the last alternative: the text of
      `a || b && c` matches wherever `a` matches. */
  lemma UngroupedAlternativesAreLoose(a: Shape, b: Shape, c: Shape, req: Request)
    requires OneOk(a) && OneOk(b) && OneOk(c)
    ensures TextMatches(Show(Both(Either(a, b), c)), req) <==> Means(a, req) || (Means(b, req) && Means(c, req))
  {
    var read := Either(a, Both(b, c));
    assert Show(Both(Either(a, b), c)) == Show(read);
    assert AndOk(a) && AndOk(c) && AndOk(Both(b, c));
    assert OrOk(Both(b, c)) && OrOk(read);
    ShownTextParses(read);
    assert Means(Both(b, c), req) == (Means(b, req) && Means(c, req));
  }
}
