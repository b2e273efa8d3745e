/** Wildcard queries and the regular expressions they are translated to. */
module Query {
  import opened Types

  // ----- the translation: two successive textual replacements -----

  /** Replaces every occurrence of a non-empty `from`, left to right, without overlaps. */
  function Replace(s: string, from: string, to: string): string
    requires from != ""
  {
    if |s| < |from| then s
    else if s[..|from|] == from then to + Replace(s[|from|..], from, to)
    else [s[0]] + Replace(s[1..], from, to)
  }

  function Body(query: string): string {
    Replace(Replace(query, "**", ".{0,}"), "*", "[^.]{0,}")
  }

  function Pattern(query: string): string {
    "^" + Body(query) + "$"
  }

  // ----- one left-to-right tokenisation -----

  datatype Token = StarPair | Star | Literal(c: char)

  function Tokens(query: string): seq<Token> {
    if query == "" then []
    else if |query| >= 2 && query[0] == '*' && query[1] == '*' then [StarPair] + Tokens(query[2..])
    else if query[0] == '*' then [Star] + Tokens(query[1..])
    else [Literal(query[0])] + Tokens(query[1..])
  }

  function Text(t: Token): string {
    match t
    case StarPair => ".{0,}"
    case Star => "[^.]{0,}"
    case Literal(c) => [c]
  }

  function Render(tokens: seq<Token>): string {
    if tokens == [] then "" else Text(tokens[0]) + Render(tokens[1..])
  }

  /** The second replacement leaves star-free text alone. */
  lemma {:induction false} ReplaceSkips(prefix: string, s: string, to: string)
    requires '*' !in prefix
    ensures Replace(prefix + s, "*", to) == prefix + Replace(s, "*", to)
  {
    if prefix == "" {
      assert prefix + s == s;
    } else {
      var whole := prefix + s;
      assert whole[0] == prefix[0] && prefix[0] in prefix;
      assert whole[..1] == [prefix[0]];
      assert whole[1..] == prefix[1..] + s;
      ReplaceSkips(prefix[1..], s, to);
      assert [prefix[0]] + (prefix[1..] + Replace(s, "*", to)) == prefix + Replace(s, "*", to);
    }
  }

  /** For every query the two replacements give the text of one tokenisation. */
  lemma {:induction false} TwoReplacementsAreOneTokenisation(query: string)
    ensures Body(query) == Render(Tokens(query))
  {
    if query != "" {
      if |query| >= 2 && query[0] == '*' && query[1] == '*' {
        assert query[..2] == "**";
        ReplaceSkips(".{0,}", Replace(query[2..], "**", ".{0,}"), "[^.]{0,}");
        TwoReplacementsAreOneTokenisation(query[2..]);
        assert Tokens(query)[1..] == Tokens(query[2..]);
      } else {
        var rest := Replace(query[1..], "**", ".{0,}");
        FirstCharacterStays(query);
        TwoReplacementsAreOneTokenisation(query[1..]);
        assert Tokens(query)[1..] == Tokens(query[1..]);
        if query[0] == '*' {
          assert ([query[0]] + rest)[..1] == "*" && ([query[0]] + rest)[1..] == rest;
        } else {
          ReplaceSkips([query[0]], rest, "[^.]{0,}");
        }
      }
    }
  }

  lemma {:induction false} FirstCharacterStays(query: string)
    requires query != "" && !(|query| >= 2 && query[0] == '*' && query[1] == '*')
    ensures Replace(query, "**", ".{0,}") == [query[0]] + Replace(query[1..], "**", ".{0,}")
  {}

  // ----- the part of the regular-expression language patterns are written in -----

  /** What one atom matches; `.` does not match a line feed. */
  datatype Atom = AnyChar | Except(c: char) | Exactly(c: char)

  /** An atom, once or at least so many times. */
  datatype Item = Once(atom: Atom) | AtLeast(times: nat, atom: Atom)

  predicate Matches(a: Atom, c: char) {
    match a
    case AnyChar => c != '\n'
    case Except(d) => c != d
    case Exactly(d) => c == d
  }

  /** Characters with a meaning of their own in a regular expression. */
  predicate IsSpecial(c: char) {
    || c == '\\' || c == '.' || c == '+' || c == '*' || c == '?' || c == '(' || c == ')' || c == '|'
    || c == '[' || c == ']' || c == '{' || c == '}' || c == '^' || c == '$'
  }

  /** How many characters the atom takes that a text starts with, and which it is: `.`, `[^`
      with a character and `]`, or a plain character. */
  function ParseAtom(text: string): (r: Option<(Atom, nat)>)
    requires text != ""
    ensures r.Some? ==> 1 <= r.value.1 <= |text|
  {
    if text[0] == '.' then Some((AnyChar, 1))
    else if |text| >= 4 && text[0] == '[' && text[1] == '^' && (text[2] == '.' || !IsSpecial(text[2])) && text[3] == ']' then
      Some((Except(text[2]), 4))
    else if IsSpecial(text[0]) then None
    else Some((Exactly(text[0]), 1))
  }

  /** How many decimal digits a text starts with. */
  function Digits(text: string): (n: nat)
    ensures n <= |text| && forall k | 0 <= k < n :: '0' <= text[k] <= '9'
  {
    if text != "" && '0' <= text[0] <= '9' then 1 + Digits(text[1..]) else 0
  }

  /** The number they denote. */
  function Number(digits: string): nat
    requires forall k | 0 <= k < |digits| :: '0' <= digits[k] <= '9'
  {
    if digits == "" then 0
    else 10 * Number(digits[..|digits| - 1]) + (digits[|digits| - 1] as int - '0' as int)
  }

  /** The repetition `{`, digits, `,}` that a text starts with: its number and its length. */
  function ParseRepetition(text: string): (r: Option<(nat, nat)>)
    requires text != "" && text[0] == '{'
    ensures r.Some? ==> 1 <= r.value.1 <= |text|
  {
    var d := Digits(text[1..]);
    if d > 0 && |text| >= d + 3 && text[d + 1] == ',' && text[d + 2] == '}' then
      Some((Number(text[1..][..d]), d + 3))
    else None
  }

  /** The items a pattern body denotes: atoms, each followed by a repetition or not.  Anything
      else is outside this part of the language. */
  function Parse(body: string): Option<seq<Item>>
    decreases |body|
  {
    if body == "" then Some([])
    else
      var atom := ParseAtom(body);
      if atom.None? then None
      else
        var rest := body[atom.value.1..];
        if rest == "" || rest[0] != '{' then Prepend(Once(atom.value.0), Parse(rest))
        else
          var repetition := ParseRepetition(rest);
          if repetition.None? then None
          else Prepend(AtLeast(repetition.value.0, atom.value.0), Parse(rest[repetition.value.1..]))
  }

  function Prepend(item: Item, rest: Option<seq<Item>>): Option<seq<Item>> {
    match rest
    case None => None
    case Some(items) => Some([item] + items)
  }

  /** Whether the items match the whole input. */
  predicate AcceptsAll(items: seq<Item>, input: string)
    decreases |items| + |input|
  {
    if items == [] then input == ""
    else match items[0]
      case Once(a) => input != "" && Matches(a, input[0]) && AcceptsAll(items[1..], input[1..])
      case AtLeast(n, a) =>
        || (n == 0 && AcceptsAll(items[1..], input))
        || (input != "" && Matches(a, input[0])
            && AcceptsAll([AtLeast(if n == 0 then 0 else n - 1, a)] + items[1..], input[1..]))
  }

  /** The body of a pattern that `^` and `$` pin to the whole input. */
  function ParsePattern(pattern: string): Option<seq<Item>> {
    if |pattern| >= 2 && pattern[0] == '^' && pattern[|pattern| - 1] == '$' then Parse(pattern[1..|pattern| - 1]) else None
  }

  /** Whether a query's pattern accepts an input. */
  predicate Accepts(query: string, input: string) {
    var items := ParsePattern(Pattern(query));
    items.Some? && AcceptsAll(items.value, input)
  }

  // ----- what the pattern of a query parses to -----

  /** The only special characters in the query are stars and dots. */
  predicate IsSimple(query: string) {
    forall c | c in query :: c == '*' || c == '.' || !IsSpecial(c)
  }

  predicate IsNameCharacter(c: char) {
    'a' <= c <= 'z' || 'A' <= c <= 'Z' || '0' <= c <= '9' || c == '/' || c == '_' || c == '-' || c == ':'
  }

  /** Whatever is written in ordinary name characters, dots and stars is such a query. */
  lemma NamesAreSimple(query: string)
    requires forall c | c in query :: IsNameCharacter(c) || c == '.' || c == '*'
    ensures IsSimple(query)
  {}

  function ItemOf(t: Token): Item {
    match t
    case StarPair => AtLeast(0, AnyChar)
    case Star => AtLeast(0, Except('.'))
    case Literal(c) => if c == '.' then Once(AnyChar) else Once(Exactly(c))
  }

  function Items(tokens: seq<Token>): seq<Item> {
    if tokens == [] then [] else [ItemOf(tokens[0])] + Items(tokens[1..])
  }

  predicate SimpleTokens(tokens: seq<Token>) {
    forall t | t in tokens :: t.Literal? ==> t.c == '.' || !IsSpecial(t.c)
  }

  /** The text rendered from tokens never starts with a repetition. */
  lemma RenderStart(tokens: seq<Token>)
    requires SimpleTokens(tokens)
    ensures Render(tokens) != "" ==> Render(tokens)[0] != '{'
  {}

  lemma {:induction false} SimpleQueryTokens(query: string)
    requires IsSimple(query)
    ensures SimpleTokens(Tokens(query))
  {
    if query != "" {
      assert query[0] in query;
      if |query| >= 2 && query[0] == '*' && query[1] == '*' {
        SimpleQueryTokens(query[2..]);
      } else {
        SimpleQueryTokens(query[1..]);
      }
    }
  }

  /** The text of one token, and whatever follows it, parses to the item of the token. */
  lemma TokenParses(t: Token, rest: string)
    requires t.Literal? ==> t.c == '.' || !IsSpecial(t.c)
    requires rest != "" ==> rest[0] != '{'
    ensures Parse(Text(t) + rest) == Prepend(ItemOf(t), Parse(rest))
  {
    match t
    case StarPair => StarPairParses(rest);
    case Star => StarParses(rest);
    case Literal(c) => LiteralParses(c, rest);
  }

  lemma LiteralParses(c: char, rest: string)
    requires c == '.' || !IsSpecial(c)
    requires rest != "" ==> rest[0] != '{'
    ensures Parse([c] + rest) == Prepend(if c == '.' then Once(AnyChar) else Once(Exactly(c)), Parse(rest))
  {
    var body := [c] + rest;
    assert body[1..] == rest;
    assert ParseAtom(body) == Some((if c == '.' then AnyChar else Exactly(c), 1));
  }

  lemma StarPairParses(rest: string)
    ensures Parse(".{0,}" + rest) == Prepend(AtLeast(0, AnyChar), Parse(rest))
  {
    var body := ".{0,}" + rest;
    assert body[1..] == "{0,}" + rest;
    RepeatedParses(body, AnyChar, 1, rest);
  }

  lemma StarParses(rest: string)
    ensures Parse("[^.]{0,}" + rest) == Prepend(AtLeast(0, Except('.')), Parse(rest))
  {
    var body := "[^.]{0,}" + rest;
    assert body[0] == '[' && body[1] == '^' && body[2] == '.' && body[3] == ']';
    assert body[4..] == "{0,}" + rest;
    RepeatedParses(body, Except('.'), 4, rest);
  }

  lemma RepeatedParses(body: string, a: Atom, n: nat, rest: string)
    requires body != "" && ParseAtom(body) == Some((a, n)) && body[n..] == "{0,}" + rest
    ensures Parse(body) == Prepend(AtLeast(0, a), Parse(rest))
  {
    RepetitionParses(rest);
  }

  lemma {:induction false} RenderParses(tokens: seq<Token>)
    requires SimpleTokens(tokens)
    ensures Parse(Render(tokens)) == Some(Items(tokens))
  {
    if tokens != [] {
      assert tokens[0] in tokens;
      RenderParses(tokens[1..]);
      RenderStart(tokens[1..]);
      TokenParses(tokens[0], Render(tokens[1..]));
    }
  }

  lemma RepetitionParses(rest: string)
    ensures ParseRepetition("{0,}" + rest) == Some((0, 4))
    ensures ("{0,}" + rest)[4..] == rest
  {
    var text := "{0,}" + rest;
    assert text[1..][0] == '0' && text[1..][1] == ',';
    assert Digits(text[1..][1..]) == 0;
    assert Digits(text[1..]) == 1;
    assert text[1..][..1] == "0";
    assert Number("") == 0 && "0"[..0] == "";
    assert Number("0") == 0;
  }

  lemma SimpleQueryParses(query: string)
    requires IsSimple(query)
    ensures ParsePattern(Pattern(query)) == Some(Items(Tokens(query)))
  {
    assert Pattern(query)[1..|Pattern(query)| - 1] == Body(query);
    TwoReplacementsAreOneTokenisation(query);
    SimpleQueryTokens(query);
    RenderParses(Tokens(query));
  }

  // ----- what wildcards mean -----

  /** How many stars the query starts with. */
  function StarRun(query: string): (r: nat)
    ensures r <= |query|
    ensures forall k | 0 <= k < r :: query[k] == '*'
    ensures r < |query| ==> query[r] != '*'
  {
    if query != "" && query[0] == '*' then 1 + StarRun(query[1..]) else 0
  }

  /** The query matches the whole input: a single star stands for any run without a dot, two
      or more stars for any run at all, and everything else for itself, except that a dot
      stands for any character if `wildDot`. */
  ghost predicate Glob(query: string, input: string, wildDot: bool)
    decreases |query|
  {
    var r := StarRun(query);
    if query == "" then input == ""
    else if r == 0 then
      input != "" && (query[0] == input[0] || (wildDot && query[0] == '.')) && Glob(query[1..], input[1..], wildDot)
    else
      exists k | 0 <= k <= |input| :: (r >= 2 || '.' !in input[..k]) && Glob(query[r..], input[k..], wildDot)
  }

  /** The atom matches the first `k` characters and the items the rest. */
  ghost predicate SplitsAt(a: Atom, items: seq<Item>, input: string, k: nat) {
    k <= |input| && (forall c | c in input[..k] :: Matches(a, c)) && AcceptsAll(items, input[k..])
  }

  lemma {:induction false} ManySplits(a: Atom, items: seq<Item>, input: string) returns (k: nat)
    requires AcceptsAll([AtLeast(0, a)] + items, input)
    ensures SplitsAt(a, items, input, k)
  {
    var all := [AtLeast(0, a)] + items;
    assert all[1..] == items;
    if AcceptsAll(items, input) {
      assert input[0..] == input;
      k := 0;
    } else {
      var j := ManySplits(a, items, input[1..]);
      assert input[..j + 1] == [input[0]] + input[1..][..j] && input[j + 1..] == input[1..][j..];
      k := j + 1;
    }
  }

  lemma {:induction false} SplitIsAccepted(a: Atom, items: seq<Item>, input: string, k: nat)
    requires SplitsAt(a, items, input, k)
    ensures AcceptsAll([AtLeast(0, a)] + items, input)
  {
    var all := [AtLeast(0, a)] + items;
    assert all[1..] == items;
    if k == 0 {
      assert input[0..] == input;
    } else {
      assert input[..k] == [input[0]] + input[1..][..k - 1] && input[k..] == input[1..][k - 1..];
      assert forall c | c in input[1..][..k - 1] :: c in input[..k];
      assert input[0] in input[..k];
      SplitIsAccepted(a, items, input[1..], k - 1);
    }
  }

  /** A repeated atom consumes some prefix of characters it matches. */
  lemma ManyConsumes(a: Atom, items: seq<Item>, input: string)
    ensures AcceptsAll([AtLeast(0, a)] + items, input) <==> exists k: nat :: SplitsAt(a, items, input, k)
  {
    if AcceptsAll([AtLeast(0, a)] + items, input) {
      var k := ManySplits(a, items, input);
    }
    if k: nat :| SplitsAt(a, items, input, k) {
      SplitIsAccepted(a, items, input, k);
    }
  }

  lemma TokensOfStar(query: string)
    requires query != ""
    ensures StarRun(query) == 0 ==> Items(Tokens(query)) == [ItemOf(Literal(query[0]))] + Items(Tokens(query[1..]))
    ensures StarRun(query) == 1 ==> Items(Tokens(query)) == [AtLeast(0, Except('.'))] + Items(Tokens(query[1..]))
    ensures StarRun(query) >= 2 ==> Items(Tokens(query)) == [AtLeast(0, AnyChar)] + Items(Tokens(query[2..]))
    ensures StarRun(query) >= 2 ==> StarRun(query[2..]) == StarRun(query) - 2
  {}

  /** Two runs that each take any prefix take any prefix together. */
  lemma RunsMerge(query: string, input: string)
    requires StarRun(query) >= 3
    ensures var rest := query[StarRun(query)..];
            (exists k :: 0 <= k <= |input| && Glob(query[2..], input[k..], true)) <==>
            (exists k :: 0 <= k <= |input| && Glob(rest, input[k..], true))
  {
    TokensOfStar(query);
    var r := StarRun(query);
    var rest := query[r..];
    assert query[2..][r - 2..] == rest;
    if k :| 0 <= k <= |input| && Glob(query[2..], input[k..], true) {
      var j :| 0 <= j <= |input[k..]| && Glob(rest, input[k..][j..], true);
      assert input[k..][j..] == input[k + j..];
    }
    if k :| 0 <= k <= |input| && Glob(rest, input[k..], true) {
      assert input[k..][..0] == "" && input[k..][0..] == input[k..];
      assert Glob(query[2..], input[k..], true);
    }
  }

  lemma {:induction false} AcceptsIsGlob(query: string, input: string)
    requires '\n' !in input
    ensures AcceptsAll(Items(Tokens(query)), input) <==> Glob(query, input, true)
    decreases |query|
  {
    if query != "" {
      TokensOfStar(query);
      var r := StarRun(query);
      if r == 0 {
        assert input != "" ==> input[0] in input;
        if input != "" { AcceptsIsGlob(query[1..], input[1..]); }
      } else {
        var step := if r == 1 then 1 else 2;
        var a := if r == 1 then Except('.') else AnyChar;
        ManyConsumes(a, Items(Tokens(query[step..])), input);
        forall k: nat | k <= |input|
          ensures SplitsAt(a, Items(Tokens(query[step..])), input, k) <==>
                  (r >= 2 || '.' !in input[..k]) && Glob(query[step..], input[k..], true)
        {
          assert forall c | c in input[..k] :: c in input;
          AcceptsIsGlob(query[step..], input[k..]);
        }
        if r >= 3 { RunsMerge(query, input); }
      }
    }
  }

  /** For a query whose special characters are stars and dots, and an input without line
      feeds, the pattern accepts exactly what the wildcards mean, a dot standing for any
      character. */
  lemma SimpleQueryAccepts(query: string, input: string)
    requires IsSimple(query) && '\n' !in input
    ensures Accepts(query, input) <==> Glob(query, input, true)
  {
    SimpleQueryParses(query);
    AcceptsIsGlob(query, input);
  }

  /** Reading dots literally only ever narrows a query. */
  lemma {:induction false} LiteralDotsNarrow(query: string, input: string)
    requires Glob(query, input, false)
    ensures Glob(query, input, true)
    decreases |query|
  {
    if query != "" {
      var r := StarRun(query);
      if r == 0 {
        LiteralDotsNarrow(query[1..], input[1..]);
      } else {
        var k :| 0 <= k <= |input| && (r >= 2 || '.' !in input[..k]) && Glob(query[r..], input[k..], false);
        LiteralDotsNarrow(query[r..], input[k..]);
      }
    }
  }

  lemma {:induction false} DotlessReadsTheSame(query: string, input: string)
    requires '.' !in query && Glob(query, input, true)
    ensures Glob(query, input, false)
    decreases |query|
  {
    if query != "" {
      var r := StarRun(query);
      if r == 0 {
        assert query[0] in query;
        DotlessReadsTheSame(query[1..], input[1..]);
      } else {
        var k :| 0 <= k <= |input| && (r >= 2 || '.' !in input[..k]) && Glob(query[r..], input[k..], true);
        DotlessReadsTheSame(query[r..], input[k..]);
      }
    }
  }

  /** A literal dot has to be found in the input. */
  lemma {:induction false} LiteralDotIsNeeded(query: string, input: string)
    requires '.' in query && Glob(query, input, false)
    ensures '.' in input
    decreases |query|
  {
    var r := StarRun(query);
    if r == 0 {
      if query[0] != '.' {
        assert '.' in query[1..];
        LiteralDotIsNeeded(query[1..], input[1..]);
      }
    } else {
      var k :| 0 <= k <= |input| && (r >= 2 || '.' !in input[..k]) && Glob(query[r..], input[k..], false);
      assert '.' in query[r..];
      LiteralDotIsNeeded(query[r..], input[k..]);
    }
  }

  /** An input the query accepts although it has no dot: no stars, and letters for dots. */
  function Undotted(query: string): (x: string)
    ensures '.' !in x
    ensures '\n' !in query ==> '\n' !in x
  {
    if query == "" then ""
    else
      var rest := Undotted(query[1..]);
      if query[0] == '*' then rest else [if query[0] == '.' then 'x' else query[0]] + rest
  }

  lemma {:induction false} UndottedSkipsStars(query: string)
    ensures Undotted(query) == Undotted(query[StarRun(query)..])
  {
    if StarRun(query) > 0 {
      UndottedSkipsStars(query[1..]);
      assert query[1..][StarRun(query[1..])..] == query[StarRun(query)..];
    } else {
      assert query[0..] == query;
    }
  }

  lemma {:induction false} UndottedMatches(query: string)
    ensures Glob(query, Undotted(query), true)
    decreases |query|
  {
    if query != "" {
      var r := StarRun(query);
      var x := Undotted(query);
      if r == 0 {
        UndottedMatches(query[1..]);
        assert x[1..] == Undotted(query[1..]);
      } else {
        UndottedSkipsStars(query);
        UndottedMatches(query[r..]);
        assert x[..0] == "" && x[0..] == x;
      }
    }
  }

  /** Dots are not escaped: a query accepts exactly its literal reading if and only if it
      contains no dot. */
  lemma LiteralReadingIff(query: string)
    requires IsSimple(query) && '\n' !in query
    ensures (forall input | '\n' !in input :: Accepts(query, input) <==> Glob(query, input, false)) <==> '.' !in query
  {
    if '.' !in query {
      forall input | '\n' !in input ensures Accepts(query, input) <==> Glob(query, input, false) {
        SimpleQueryAccepts(query, input);
        if Glob(query, input, true) { DotlessReadsTheSame(query, input); }
        if Glob(query, input, false) { LiteralDotsNarrow(query, input); }
      }
    } else {
      var x := Undotted(query);
      UndottedMatches(query);
      SimpleQueryAccepts(query, x);
      assert !Glob(query, x, false) by {
        if Glob(query, x, false) { LiteralDotIsNeeded(query, x); }
      }
    }
  }
}
