/** Whether `new RegExp(source)` accepts a pattern source or throws a
    SyntaxError. The grammar is that of ECMAScript regular expressions
    without flags, with the web-compatibility extensions of Annex B of
    ECMA-262 that V8 implements: a lone `]`, `}` or `{` is an ordinary
    character, a lookahead may be repeated, and any escape that is not a
    word-boundary assertion stands for a character or a character set. */
module Patterns {

  datatype Option<T> = None | Some(value: T)

  /** What precedes the current position, as far as a quantifier cares. */
  datatype Preceding =
    | Nothing     // the start of an alternative, a `(`, a `|` or an assertion
    | Repeatable  // a character, a class, a group or a lookahead
    | Repeated    // a quantifier, after which only the lazy `?` may follow

  /** The characters with a meaning of their own outside a class. */
  predicate Plain(c: char)
  {
    c !in "\\^$|?*+()[{"
  }

  predicate IsDigit(c: char)
  {
    '0' <= c <= '9'
  }

  /** The number of leading decimal digits of `s`. */
  function DigitCount(s: string): (n: nat)
    ensures n <= |s|
    ensures forall i :: 0 <= i < n ==> IsDigit(s[i])
    ensures n < |s| ==> !IsDigit(s[n])
  {
    if s == [] || !IsDigit(s[0]) then 0 else 1 + DigitCount(s[1..])
  }

  /** The value of a decimal numeral. */
  function NumeralValue(digits: string): nat
    requires forall i :: 0 <= i < |digits| ==> IsDigit(digits[i])
  {
    if digits == [] then 0
    else
      var last := digits[|digits| - 1];
      assert IsDigit(last);
      NumeralValue(digits[..|digits| - 1]) * 10 + (last as int - '0' as int)
  }

  /** How a `{` reads: as the braced quantifier `{n}`, `{n,}` or `{n,m}`
      spanning `length` characters, whose bounds are `inOrder` unless
      `n > m`, or as an ordinary character. */
  datatype Brace = Literal | Quantifier(length: nat, inOrder: bool)

  function ReadBrace(s: string): (b: Brace)
    requires |s| > 0 && s[0] == '{'
    ensures b.Quantifier? ==> 3 <= b.length <= |s| && s[b.length - 1] == '}'
  {
    var low := DigitCount(s[1..]);
    var p := 1 + low;
    if low == 0 || p >= |s| then Literal
    else if s[p] == '}' then Quantifier(p + 1, true)
    else if s[p] != ',' then Literal
    else
      var high := DigitCount(s[p + 1..]);
      var q := p + 1 + high;
      if q >= |s| || s[q] != '}' then Literal
      else if high == 0 then Quantifier(q + 1, true)
      else
        var least, most := s[1..p], s[p + 1..q];
        assert least == s[1..][..low] && most == s[p + 1..][..high];
        Quantifier(q + 1, NumeralValue(least) <= NumeralValue(most))
  }

  /** The rest of the pattern after the `]` that closes a class whose
      contents start at `s`, or `None` when the class is refused: it is
      never closed, a `\` ends the pattern, or a range between two
      ordinary characters runs backwards, as in `[z-a]`. */
  function ClassRest(s: string): (r: Option<string>)
    ensures r.Some? ==> |r.value| < |s|
    decreases |s|
  {
    if s == [] then None
    else if s[0] == ']' then Some(s[1..])
    else if s[0] == '\\' && |s| == 1 then None
    else
      var a := if s[0] == '\\' then 2 else 1;
      if a + 1 < |s| && s[a] == '-' && s[a + 1] != ']' then
        if s[a + 1] == '\\' && a + 2 == |s| then None
        else
          var b := if s[a + 1] == '\\' then 2 else 1;
          if a == 1 && b == 1 && s[0] > s[2] then None
          else ClassRest(s[a + 1 + b..])
      else ClassRest(s[a..])
  }

  predicate IsNameStart(c: char)
  {
    'a' <= c <= 'z' || 'A' <= c <= 'Z' || c == '_' || c == '$'
  }

  /** The length of the group name at the start of `s`. */
  function NameLength(s: string): (n: nat)
    ensures n <= |s|
  {
    if s == [] || !(IsNameStart(s[0]) || IsDigit(s[0])) then 0 else 1 + NameLength(s[1..])
  }

  /** How a `(` opens a group: the length of the opener, and whether the
      group may be repeated once it is closed (every group but a
      lookbehind). */
  datatype Opener = Opener(length: nat, repeatable: bool)

  /** The opener at the start of `s`, or `None` for a `(?` that is not
      followed by `:`, `=`, `!`, `<=`, `<!` or `<name>`. */
  function ReadOpener(s: string): (r: Option<Opener>)
    requires |s| > 0 && s[0] == '('
    ensures r.Some? ==> 1 <= r.value.length <= |s|
  {
    if |s| < 2 || s[1] != '?' then Some(Opener(1, true))
    else if |s| < 3 then None
    else if s[2] == ':' || s[2] == '=' || s[2] == '!' then Some(Opener(3, true))
    else if s[2] != '<' || |s| < 4 then None
    else if s[3] == '=' || s[3] == '!' then Some(Opener(4, false))
    else
      var n := NameLength(s[3..]);
      if n > 0 && IsNameStart(s[3]) && 3 + n < |s| && s[3 + n] == '>' then Some(Opener(4 + n, true))
      else None
  }

  /** Whether the rest `s` of a pattern parses, after `preceding` and with
      the groups in `open` still open, innermost last (each entry says
      whether that group may be repeated once closed). */
  predicate Scan(s: string, preceding: Preceding, open: seq<bool>)
    decreases |s|
  {
    if s == [] then open == []
    else
      var c := s[0];
      if c == '\\' then
        |s| >= 2 && Scan(s[2..], if s[1] == 'b' || s[1] == 'B' then Nothing else Repeatable, open)
      else if c == '[' then
        var contents := if |s| >= 2 && s[1] == '^' then s[2..] else s[1..];
        match ClassRest(contents)
        case None => false
        case Some(rest) => Scan(rest, Repeatable, open)
      else if c == '(' then
        match ReadOpener(s)
        case None => false
        case Some(g) => Scan(s[g.length..], Nothing, open + [g.repeatable])
      else if c == ')' then
        |open| > 0 && Scan(s[1..], if open[|open| - 1] then Repeatable else Nothing, open[..|open| - 1])
      else if c == '|' || c == '^' || c == '$' then
        Scan(s[1..], Nothing, open)
      else if c == '*' || c == '+' then
        preceding == Repeatable && Scan(s[1..], Repeated, open)
      else if c == '?' then
        match preceding
        case Nothing => false
        case Repeatable => Scan(s[1..], Repeated, open)
        case Repeated => Scan(s[1..], Nothing, open)
      else if c == '{' then
        match ReadBrace(s)
        case Literal => Scan(s[1..], Repeatable, open)
        case Quantifier(n, inOrder) => preceding == Repeatable && inOrder && Scan(s[n..], Repeated, open)
      else
        Scan(s[1..], Repeatable, open)
  }

  /** `new RegExp(source)` returns a pattern rather than throwing. */
  predicate Compiles(source: string)
  {
    Scan(source, Nothing, [])
  }

  /** The source `'.*' + t + '.*'` of the substring pattern of `t`. */
  function Surrounded(t: string): string
  {
    ".*" + t + ".*"
  }

  /** An ordinary character is an atom that a quantifier may repeat. */
  lemma ScanOrdinary(c: char, rest: string, preceding: Preceding, open: seq<bool>)
    requires Plain(c)
    ensures Scan([c] + rest, preceding, open) == Scan(rest, Repeatable, open)
  {
    assert ([c] + rest)[0] == c && ([c] + rest)[1..] == rest;
  }

  /** A `*` repeats what precedes it, and only an atom may be repeated. */
  lemma ScanStar(rest: string, preceding: Preceding, open: seq<bool>)
    ensures Scan("*" + rest, preceding, open) == (preceding == Repeatable && Scan(rest, Repeated, open))
  {
    assert ("*" + rest)[0] == '*' && ("*" + rest)[1..] == rest;
  }

  /** After the leading `.*`, the text of a substring pattern is parsed
      with a quantifier just before it. */
  lemma SurroundedStartsRepeated(t: string)
    ensures Compiles(Surrounded(t)) <==> Scan(t + ".*", Repeated, [])
  {
    var rest := t + ".*";
    assert Surrounded(t) == ['.'] + ("*" + rest);
    ScanOrdinary('.', "*" + rest, Nothing, []);
    ScanStar(rest, Repeatable, []);
  }

  /** Ordinary characters neither open nor close a group, so ordinary
      text followed by `.*` parses exactly when no group is open. */
  lemma {:induction false} PlainTextParses(t: string, preceding: Preceding, open: seq<bool>)
    requires forall i :: 0 <= i < |t| ==> Plain(t[i])
    ensures Scan(t + ".*", preceding, open) <==> open == []
    decreases |t|
  {
    if t == [] {
      assert t + ".*" == ".*";
      assert ".*"[1..] == "*" && "*"[1..] == "";
    } else {
      assert Plain(t[0]);
      assert (t + ".*")[0] == t[0];
      assert (t + ".*")[1..] == t[1..] + ".*";
      PlainTextParses(t[1..], Repeatable, open);
    }
  }

  /** The substring pattern of ordinary text compiles: `.*Al.*` does. */
  lemma PlainPatternCompiles(t: string)
    requires forall i :: 0 <= i < |t| ==> Plain(t[i])
    ensures Compiles(Surrounded(t))
  {
    SurroundedStartsRepeated(t);
    PlainTextParses(t, Repeated, []);
  }

  /** A `*` or `+` at the start of the text follows the leading `.*`
      and has nothing to repeat: `.*+1 555.*` throws. */
  lemma LeadingRepeatFails(c: char, t: string)
    requires c == '*' || c == '+'
    ensures !Compiles(Surrounded([c] + t))
  {
    SurroundedStartsRepeated([c] + t);
    assert ([c] + t + ".*")[0] == c;
  }

  /** A group that ordinary text never closes is unterminated: `.*(a.*`
      throws. */
  lemma UnclosedGroupFails(t: string)
    requires forall i :: 0 <= i < |t| ==> Plain(t[i])
    ensures !Compiles(Surrounded("(" + t))
  {
    var u := "(" + t + ".*";
    SurroundedStartsRepeated("(" + t);
    assert u[1] == (t + ".*")[0] != '?';
    assert ReadOpener(u) == Some(Opener(1, true));
    assert u[1..] == t + ".*";
    assert [] + [true] == [true];
    assert Scan(u, Repeated, []) == Scan(t + ".*", Nothing, [true]);
    PlainTextParses(t, Nothing, [true]);
  }

  /** A class that meets neither `]` nor `\` is never closed. */
  lemma {:induction false} UnclosedClassRest(s: string)
    requires forall i :: 0 <= i < |s| ==> s[i] != ']' && s[i] != '\\'
    ensures ClassRest(s) == None
    decreases |s|
  {
    if s != [] {
      if 2 < |s| && s[1] == '-' {
        UnclosedClassRest(s[3..]);
      }
      UnclosedClassRest(s[1..]);
    }
  }

  /** A class that ordinary text never closes is unterminated: `.*[a.*`
      throws. */
  lemma UnclosedClassFails(t: string)
    requires forall i :: 0 <= i < |t| ==> Plain(t[i]) && t[i] != ']'
    ensures !Compiles(Surrounded("[" + t))
  {
    var u := "[" + t + ".*";
    SurroundedStartsRepeated("[" + t);
    assert u[1..] == t + ".*";
    assert u[1] != '^';
    UnclosedClassRest(t + ".*");
  }

  /** A range between two ordinary characters that runs backwards is
      refused: `.*[z-a].*` throws. */
  lemma BackwardsRangeFails(x: char, y: char, t: string)
    requires x != ']' && x != '\\' && x != '^' && y != ']' && y != '\\'
    requires x > y
    ensures !Compiles(Surrounded([ '[', x, '-', y ] + t))
  {
    var u := [ '[', x, '-', y ] + t + ".*";
    SurroundedStartsRepeated([ '[', x, '-', y ] + t);
    assert u[1..] == [x, '-', y] + t + ".*";
    assert ClassRest(u[1..]) == None;
  }

  /** The substring pattern of one character throws exactly for `(`,
      `)`, `[`, `*` and `+`: an unterminated group, an unmatched `)`, an
      unterminated class, and two quantifiers with nothing to repeat. */
  lemma SingleCharacterPatterns(c: char)
    ensures Compiles(Surrounded([c])) <==> c !in "()[*+"
  {
    SurroundedStartsRepeated([c]);
    var u := [c] + ".*";
    assert u[1..] == ".*" && ".*"[1..] == "*" && "*"[1..] == "";
    if Plain(c) {
      PlainPatternCompiles([c]);
    } else if c == '(' {
      UnclosedGroupFails("");
      assert "(" + "" == [c];
    } else if c == '[' {
      UnclosedClassFails("");
      assert "[" + "" == [c];
    } else if c == '*' || c == '+' {
      LeadingRepeatFails(c, "");
      assert [c] + "" == [c];
    } else if c == '\\' {
      assert u[2..] == "*";
    } else if c == '{' {
      assert DigitCount(u[1..]) == 0;
      assert ReadBrace(u) == Literal;
    }
  }
}
