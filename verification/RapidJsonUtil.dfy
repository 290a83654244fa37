/**
 * The scanner that decides whether metadata looks like JSON: one pass with a stack of open brackets and two flags.
 * It is proved to accept exactly the texts whose brackets are well nested, and so every JSON text of RFC 8259.
 */
module RapidJsonUtils {
  import Bytes

  // ----- The scanner -----

  /** The flags after a character; they do not depend on the brackets. */
  datatype Flags = Flags(insideString: bool, escaped: bool)

  const OUTSIDE := Flags(false, false)

  function NextFlags(f: Flags, c: char): Flags {
    Flags(if !f.escaped && c == '"' then !f.insideString else f.insideString,
          if c == '\\' then !f.escaped else false)
  }

  predicate IsOpening(c: char) {
    c == '{' || c == '['
  }

  predicate IsBracket(c: char) {
    IsOpening(c) || c == '}' || c == ']'
  }

  function Closing(c: char): char {
    if c == '{' then '}' else ']'
  }

  /** The scanner takes this character for a bracket. */
  predicate Counts(f: Flags, c: char) {
    !f.escaped && !f.insideString && IsBracket(c)
  }

  /** The stack after a bracket, bottom first; None if it does not close the one on top. */
  datatype Stack = Open(brackets: seq<char>) | Mismatch

  function NextStack(s: Stack, c: char): Stack {
    if s.Mismatch? then Mismatch
    else if IsOpening(c) then Open(s.brackets + [c])
    else if s.brackets == [] then Mismatch
    else
      var top := s.brackets[|s.brackets| - 1];
      if (c == '}' && top != '{') || (c == ']' && top != '[') then Mismatch
      else Open(s.brackets[..|s.brackets| - 1])
  }

  function FlagsAfter(f: Flags, text: string): Flags
    decreases |text|
  {
    if text == [] then f else FlagsAfter(NextFlags(f, text[0]), text[1..])
  }

  /** The brackets the scanner sees. */
  function Seen(f: Flags, text: string): string
    decreases |text|
  {
    if text == [] then []
    else (if Counts(f, text[0]) then [text[0]] else []) + Seen(NextFlags(f, text[0]), text[1..])
  }

  function StackAfter(s: Stack, word: string): Stack
    decreases |word|
  {
    if word == [] then s else StackAfter(NextStack(s, word[0]), word[1..])
  }

  predicate Accepted(text: string) {
    StackAfter(Open([]), Seen(OUTSIDE, text)) == Open([])
  }

  lemma {:induction false} MismatchStays(word: string)
    ensures StackAfter(Mismatch, word) == Mismatch
    decreases |word|
  {
    if word != [] {
      MismatchStays(word[1..]);
    }
  }

  lemma SeenStep(s: Stack, c: char, counts: bool, rest: string)
    ensures StackAfter(s, (if counts then [c] else []) + rest) == StackAfter(if counts then NextStack(s, c) else s, rest)
  {
    assert ([c] + rest)[1..] == rest;
    assert [] + rest == rest;
  }

  // ----- Well-nested words -----

  /** Derivations of the language W ::= empty | { W } W | [ W ] W. */
  datatype Nesting = Nothing | Pair(brace: bool, inside: Nesting, after: Nesting)

  function Opener(brace: bool): char {
    if brace then '{' else '['
  }

  function Word(n: Nesting): string {
    match n
    case Nothing => []
    case Pair(brace, inside, after) =>
      if brace then "{" + (Word(inside) + ("}" + Word(after))) else "[" + (Word(inside) + ("]" + Word(after)))
  }

  ghost predicate WellNested(word: string) {
    exists n :: Word(n) == word
  }

  lemma {:induction false} StackAppend(s: Stack, a: string, b: string)
    ensures StackAfter(s, a + b) == StackAfter(StackAfter(s, a), b)
    decreases |a|
  {
    if a == [] {
      assert a + b == b;
    } else {
      StackAppend(NextStack(s, a[0]), a[1..], b);
      assert (a + b)[1..] == a[1..] + b;
    }
  }

  /** A well-nested word leaves any stack as it found it. */
  lemma {:induction false} WordRestores(n: Nesting, brackets: seq<char>)
    ensures StackAfter(Open(brackets), Word(n)) == Open(brackets)
  {
    match n
    case Nothing =>
    case Pair(brace, inside, after) =>
      var o := Opener(brace);
      var higher := brackets + [o];
      WordRestores(inside, higher);
      WordRestores(after, brackets);
      StackAppend(Open(brackets), [o], Word(inside) + ([Closing(o)] + Word(after)));
      StackAppend(Open(higher), Word(inside), [Closing(o)] + Word(after));
      StackAppend(Open(higher), [Closing(o)], Word(after));
      assert higher[..|brackets|] == brackets;
  }

  predicate AllBrackets(word: string) {
    forall i :: 0 <= i < |word| ==> IsBracket(word[i])
  }

  predicate AllOpening(brackets: seq<char>) {
    forall i :: 0 <= i < |brackets| ==> IsOpening(brackets[i])
  }

  /** word is a well-nested word and, on a non-empty stack, the closing of its top and a rest that empties what is left. */
  predicate Splits(brackets: seq<char>, word: string, n: Nesting, rest: string) {
    if brackets == [] then word == Word(n) && rest == []
    else
      var top := |brackets| - 1;
      && word == Word(n) + ([Closing(brackets[top])] + rest)
      && AllBrackets(rest) && StackAfter(Open(brackets[..top]), rest) == Open([])
  }

  /** A bracket that opens, on any stack: the word inside it, then the word after it. */
  lemma OpeningSplits(brackets: seq<char>, c: char, inside: Nesting, behind: string, after: Nesting, rest: string)
    requires IsOpening(c) && Splits(brackets, behind, after, rest)
    ensures Splits(brackets, [c] + (Word(inside) + ([Closing(c)] + behind)), Pair(c == '{', inside, after), rest)
  {
    if brackets != [] {
      Regroup([c], Word(inside), [Closing(c)], Word(after), [Closing(brackets[|brackets| - 1])] + rest);
    }
  }

  lemma Regroup(a: string, b: string, c: string, d: string, e: string)
    ensures a + (b + (c + (d + e))) == (a + (b + (c + d))) + e
  {
    Bytes.Assoc(c, d, e);
    Bytes.Assoc(b, c + d, e);
    Bytes.Assoc(a, b + (c + d), e);
  }

  lemma ClosingSplits(brackets: seq<char>, c: char, rest: string)
    requires AllOpening(brackets) && AllBrackets(rest) && IsBracket(c) && !IsOpening(c)
    requires StackAfter(NextStack(Open(brackets), c), rest) == Open([])
    ensures Splits(brackets, [c] + rest, Nothing, rest)
  {
    MismatchStays(rest);
  }

  /** Every word that empties the stack splits so. */
  lemma {:induction false} Decompose(brackets: seq<char>, word: string) returns (n: Nesting, rest: string)
    requires StackAfter(Open(brackets), word) == Open([]) && AllOpening(brackets) && AllBrackets(word)
    ensures Splits(brackets, word, n, rest)
    decreases |word|
  {
    if word == [] {
      n, rest := Nothing, [];
    } else {
      var c, word' := word[0], word[1..];
      assert word == [c] + word';
      if IsOpening(c) {
        var higher := brackets + [c];
        assert higher[..|brackets|] == brackets;
        var inside, behind := Decompose(higher, word');
        var after, rest' := Decompose(brackets, behind);
        OpeningSplits(brackets, c, inside, behind, after, rest');
        n, rest := Pair(c == '{', inside, after), rest';
      } else {
        ClosingSplits(brackets, c, word');
        n, rest := Nothing, word';
      }
    }
  }

  lemma {:induction false} SeenAreBrackets(f: Flags, text: string)
    ensures AllBrackets(Seen(f, text))
    decreases |text|
  {
    if text != [] {
      SeenAreBrackets(NextFlags(f, text[0]), text[1..]);
    }
  }

  lemma AcceptedIffWord(text: string)
    ensures Accepted(text) <==> WellNested(Seen(OUTSIDE, text))
  {
    var word := Seen(OUTSIDE, text);
    if Accepted(text) {
      SeenAreBrackets(OUTSIDE, text);
      var n, rest := Decompose([], word);
    }
    if n :| Word(n) == word {
      WordRestores(n, []);
    }
  }

  // ----- What a text looks like, without the scanner -----

  type PlainChar = c: char | c != '"' && c != '\\' witness 'a'

  /**
   * Section 7: an unescaped character, or a backslash and another character. An escape with four hexadecimal digits
   * is Escape('u') and four plain characters.
   */
  datatype Item = Plain(c: PlainChar) | Escape(e: char)

  function ItemText(item: Item): string {
    match item
    case Plain(c) => [c]
    case Escape(e) => ['\\', e]
  }

  function ItemsText(items: seq<Item>): string {
    if items == [] then [] else ItemText(items[0]) + ItemsText(items[1..])
  }

  function Quoted(items: seq<Item>): string {
    ['"'] + (ItemsText(items) + ['"'])
  }

  /**
   * Any text is a sequence of strings, of characters outside strings, and of characters outside strings with a
   * backslash in front; then comes nothing, a last backslash, or a string that is not closed.
   */
  datatype Piece = Bare(c: PlainChar) | Skipped(e: char) | Str(items: seq<Item>)

  datatype Tail = NoTail | Backslash | Unclosed(items: seq<Item>, backslash: bool)

  function PieceText(p: Piece): string {
    match p
    case Bare(c) => [c]
    case Skipped(c) => ['\\', c]
    case Str(items) => Quoted(items)
  }

  function PiecesText(ps: seq<Piece>): string {
    if ps == [] then [] else PieceText(ps[0]) + PiecesText(ps[1..])
  }

  function TailText(tail: Tail): string {
    match tail
    case NoTail => ""
    case Backslash => "\\"
    case Unclosed(items, backslash) => ['"'] + (ItemsText(items) + (if backslash then "\\" else ""))
  }

  /** The brackets among the characters outside strings that no backslash precedes. */
  function BareBrackets(ps: seq<Piece>): string {
    if ps == [] then []
    else
      var p := ps[0];
      (if p.Bare? && (p.c == '{' || p.c == '}' || p.c == '[' || p.c == ']') then [p.c] else []) + BareBrackets(ps[1..])
  }

  /** The brackets outside the strings of the text are well nested. */
  ghost predicate Balanced(text: string) {
    exists ps, tail :: text == PiecesText(ps) + TailText(tail) && WellNested(BareBrackets(ps))
  }

  // ----- The scanner accepts the balanced texts -----

  lemma {:induction false} FlagsAppend(f: Flags, a: string, b: string)
    ensures FlagsAfter(f, a + b) == FlagsAfter(FlagsAfter(f, a), b)
    ensures Seen(f, a + b) == Seen(f, a) + Seen(FlagsAfter(f, a), b)
    decreases |a|
  {
    if a == [] {
      assert a + b == b;
    } else {
      FlagsAppend(NextFlags(f, a[0]), a[1..], b);
      assert (a + b)[1..] == a[1..] + b;
    }
  }

  const INSIDE := Flags(true, false)

  lemma {:induction false} ItemsStayInside(items: seq<Item>)
    ensures FlagsAfter(INSIDE, ItemsText(items)) == INSIDE
    ensures Seen(INSIDE, ItemsText(items)) == []
  {
    if items != [] {
      ItemStaysInside(items[0]);
      FlagsAppend(INSIDE, ItemText(items[0]), ItemsText(items[1..]));
      ItemsStayInside(items[1..]);
    }
  }

  lemma ItemStaysInside(item: Item)
    ensures FlagsAfter(INSIDE, ItemText(item)) == INSIDE && Seen(INSIDE, ItemText(item)) == []
  {
    match item
    case Plain(c) =>
      OneChar(INSIDE, c);
    case Escape(e) =>
      FlagsAppend(INSIDE, ['\\'], [e]);
      assert ItemText(item) == ['\\'] + [e];
      OneChar(INSIDE, '\\');
      OneChar(Flags(true, true), e);
  }

  lemma OneChar(f: Flags, c: char)
    ensures FlagsAfter(f, [c]) == NextFlags(f, c) && Seen(f, [c]) == if Counts(f, c) then [c] else []
  {
    assert [c][1..] == [];
  }

  lemma QuotedShowsNothing(items: seq<Item>)
    ensures FlagsAfter(OUTSIDE, Quoted(items)) == OUTSIDE && Seen(OUTSIDE, Quoted(items)) == []
  {
    FlagsAppend(OUTSIDE, ['"'], ItemsText(items) + ['"']);
    FlagsAppend(INSIDE, ItemsText(items), ['"']);
    OneChar(OUTSIDE, '"');
    ItemsStayInside(items);
    OneChar(INSIDE, '"');
  }

  lemma SkippedShowsNothing(c: char)
    ensures FlagsAfter(OUTSIDE, ['\\', c]) == OUTSIDE && Seen(OUTSIDE, ['\\', c]) == []
  {
    FlagsAppend(OUTSIDE, ['\\'], [c]);
    assert ['\\', c] == ['\\'] + [c];
    OneChar(OUTSIDE, '\\');
    OneChar(Flags(false, true), c);
  }

  lemma PieceShows(p: Piece)
    ensures FlagsAfter(OUTSIDE, PieceText(p)) == OUTSIDE && Seen(OUTSIDE, PieceText(p)) == BareBrackets([p])
  {
    assert BareBrackets([]) == [];
    match p
    case Bare(c) => OneChar(OUTSIDE, c);
    case Skipped(c) => SkippedShowsNothing(c);
    case Str(items) => QuotedShowsNothing(items);
  }

  lemma {:induction false} PiecesShow(ps: seq<Piece>)
    ensures FlagsAfter(OUTSIDE, PiecesText(ps)) == OUTSIDE && Seen(OUTSIDE, PiecesText(ps)) == BareBrackets(ps)
  {
    if ps != [] {
      PieceShows(ps[0]);
      PiecesShow(ps[1..]);
      FlagsAppend(OUTSIDE, PieceText(ps[0]), PiecesText(ps[1..]));
    }
  }

  lemma TailShowsNothing(tail: Tail)
    ensures Seen(OUTSIDE, TailText(tail)) == []
  {
    match tail
    case NoTail =>
    case Backslash => OneChar(OUTSIDE, '\\');
    case Unclosed(items, backslash) =>
      var end := if backslash then "\\" else "";
      FlagsAppend(OUTSIDE, ['"'], ItemsText(items) + end);
      OneChar(OUTSIDE, '"');
      FlagsAppend(INSIDE, ItemsText(items), end);
      ItemsStayInside(items);
      OneChar(INSIDE, '\\');
  }

  /** What follows an opening quote: the string, and the rest behind its closing quote if it has one. */
  lemma {:induction false} SplitString(s: string) returns (items: seq<Item>, closed: bool, backslash: bool, rest: string)
    ensures s == ItemsText(items) + (if closed then ['"'] + rest else if backslash then "\\" else "")
    ensures closed ==> |rest| < |s|
    decreases |s|
  {
    if s == [] {
      items, closed, backslash, rest := [], false, false, [];
    } else if s[0] == '"' {
      items, closed, backslash, rest := [], true, false, s[1..];
      assert s == ['"'] + s[1..];
    } else if s == "\\" {
      items, closed, backslash, rest := [], false, true, [];
    } else {
      var n := if s[0] == '\\' then 2 else 1;
      var item := if s[0] == '\\' then Escape(s[1]) else Plain(s[0]);
      var more;
      more, closed, backslash, rest := SplitString(s[n..]);
      items := [item] + more;
      Bytes.Assoc(ItemText(item), ItemsText(more), if closed then ['"'] + rest else if backslash then "\\" else "");
      assert s == ItemText(item) + s[n..] && items[1..] == more;
    }
  }

  lemma OnePieceMore(p: Piece, ps: seq<Piece>, tail: Tail)
    ensures PiecesText([p] + ps) + TailText(tail) == PieceText(p) + (PiecesText(ps) + TailText(tail))
  {
    assert ([p] + ps)[1..] == ps;
    Bytes.Assoc(PieceText(p), PiecesText(ps), TailText(tail));
  }

  lemma {:induction false} TextHasPieces(text: string) returns (ps: seq<Piece>, tail: Tail)
    ensures text == PiecesText(ps) + TailText(tail)
    decreases |text|
  {
    if text == "" {
      ps, tail := [], NoTail;
    } else if text[0] == '"' {
      var items, closed, backslash, rest := SplitString(text[1..]);
      assert text == ['"'] + text[1..];
      if closed {
        var more;
        more, tail := TextHasPieces(rest);
        ps := [Str(items)] + more;
        OnePieceMore(Str(items), more, tail);
        Bytes.Assoc(ItemsText(items), ['"'], rest);
        Bytes.Assoc(['"'], ItemsText(items) + ['"'], rest);
      } else {
        ps, tail := [], Unclosed(items, backslash);
      }
    } else if text == "\\" {
      ps, tail := [], Backslash;
    } else {
      var n := if text[0] == '\\' then 2 else 1;
      var p := if text[0] == '\\' then Skipped(text[1]) else Bare(text[0]);
      var more;
      more, tail := TextHasPieces(text[n..]);
      ps := [p] + more;
      OnePieceMore(p, more, tail);
      assert text == PieceText(p) + text[n..];
    }
  }

  /** However a text is taken apart: it is accepted if and only if its brackets outside strings are well nested. */
  lemma PiecesAcceptedIff(ps: seq<Piece>, tail: Tail)
    ensures Accepted(PiecesText(ps) + TailText(tail)) <==> WellNested(BareBrackets(ps))
  {
    var text := PiecesText(ps) + TailText(tail);
    FlagsAppend(OUTSIDE, PiecesText(ps), TailText(tail));
    PiecesShow(ps);
    TailShowsNothing(tail);
    assert Seen(OUTSIDE, text) == BareBrackets(ps);
    AcceptedIffWord(text);
  }

  /** A text is accepted if and only if the brackets outside its strings are well nested. */
  lemma AcceptedIff(text: string)
    ensures Accepted(text) <==> Balanced(text)
  {
    var ps, tail := TextHasPieces(text);
    PiecesAcceptedIff(ps, tail);
    forall qs, end | text == PiecesText(qs) + TailText(end) && WellNested(BareBrackets(qs)) ensures Accepted(text) {
      PiecesAcceptedIff(qs, end);
    }
  }

  method ValidateIsJson(json: string) returns (valid: bool)
    ensures valid <==> Balanced(json)
    ensures valid <==> Accepted(json)
  {
    AcceptedIff(json);
    var brackets: seq<char> := [];
    var insideString, escaped := false, false;
    for i := 0 to |json|
      invariant Accepted(json)
           <==> StackAfter(Open(brackets), Seen(Flags(insideString, escaped), json[i..])) == Open([])
    {
      var c := json[i];
      ghost var before, rest := Open(brackets), Seen(NextFlags(Flags(insideString, escaped), c), json[i + 1..]);
      assert json[i..][0] == c && json[i..][1..] == json[i + 1..];
      SeenStep(before, c, Counts(Flags(insideString, escaped), c), rest);
      MismatchStays(rest);
      if !escaped {
        if c == '"' {
          insideString := !insideString;
        } else if !insideString {
          if c == '{' || c == '[' {
            brackets := brackets + [c];
          } else if c == '}' || c == ']' {
            if brackets == [] {
              return false;
            }
            var top := brackets[|brackets| - 1];
            brackets := brackets[..|brackets| - 1];
            if (c == '}' && top != '{') || (c == ']' && top != '[') {
              return false;
            }
          }
        }
      }
      escaped := if c == '\\' then !escaped else false;
    }
    assert json[|json|..] == [];
    valid := brackets == [];
  }

  // ----- JSON texts -----

  /** Section 2 of RFC 8259: space, tab, line feed, carriage return. */
  predicate IsWhitespace(c: char) {
    c == ' ' || c == '\t' || c == '\n' || c == '\r'
  }

  /** Characters of the numbers of section 6. */
  predicate IsNumberChar(c: char) {
    '0' <= c <= '9' || c == '-' || c == '+' || c == '.' || c == 'e' || c == 'E'
  }

  type Whitespace = s: string | forall i :: 0 <= i < |s| ==> IsWhitespace(s[i])

  /** All words over the characters of numbers, and so all numbers. */
  type NumberText = s: string | s != [] && forall i :: 0 <= i < |s| ==> IsNumberChar(s[i]) witness "0"

  /** Sections 3 to 5. */
  datatype Value =
    | False | Null | True
    | Number(text: NumberText)
    | String(items: seq<Item>)
    | Array(elements: Elements)
    | Object(members: Members)

  datatype Elements = NoElement(ws: Whitespace)
                    | LastElement(before: Whitespace, value: Value, after: Whitespace)
                    | MoreElements(before: Whitespace, value: Value, after: Whitespace, rest: Elements)

  datatype Members = NoMember(ws: Whitespace)
                   | LastMember(member: Member)
                   | MoreMembers(member: Member, rest: Members)

  datatype Member = Member(before: Whitespace, name: seq<Item>, between: Whitespace,
                           start: Whitespace, value: Value, after: Whitespace)

  function Text(v: Value): (text: string)
    ensures text != []
  {
    match v
    case False => "false"
    case Null => "null"
    case True => "true"
    case Number(text) => text
    case String(items) => Quoted(items)
    case Array(elements) => ['['] + (ElementsText(elements) + [']'])
    case Object(members) => ['{'] + (MembersText(members) + ['}'])
  }

  function ElementsText(elements: Elements): string {
    match elements
    case NoElement(ws) => ws
    case LastElement(before, value, after) => before + (Text(value) + after)
    case MoreElements(before, value, after, rest) => (before + (Text(value) + after)) + ([','] + ElementsText(rest))
  }

  function MembersText(members: Members): string {
    match members
    case NoMember(ws) => ws
    case LastMember(member) => MemberText(member)
    case MoreMembers(member, rest) => MemberText(member) + ([','] + MembersText(rest))
  }

  function MemberText(m: Member): string {
    (m.before + (Quoted(m.name) + m.between)) + ([':'] + (m.start + (Text(m.value) + m.after)))
  }

  // ----- Every JSON text is accepted -----

  /** Whatever is open before the text, the scanner is in the same state behind it, and never rejects. */
  ghost predicate Neutral(text: string) {
    && FlagsAfter(OUTSIDE, text) == OUTSIDE
    && forall brackets :: StackAfter(Open(brackets), Seen(OUTSIDE, text)) == Open(brackets)
  }

  lemma NeutralAppend(a: string, b: string)
    requires Neutral(a) && Neutral(b)
    ensures Neutral(a + b)
  {
    FlagsAppend(OUTSIDE, a, b);
    forall brackets ensures StackAfter(Open(brackets), Seen(OUTSIDE, a + b)) == Open(brackets) {
      StackAppend(Open(brackets), Seen(OUTSIDE, a), Seen(OUTSIDE, b));
    }
  }

  /** Text without quotes, backslashes and brackets. */
  predicate IsInert(c: char) {
    c != '"' && c != '\\' && !IsBracket(c)
  }

  lemma {:induction false} InertIsNeutral(text: string)
    requires forall i :: 0 <= i < |text| ==> IsInert(text[i])
    ensures Seen(OUTSIDE, text) == [] && Neutral(text)
    decreases |text|
  {
    if text != [] {
      InertIsNeutral(text[1..]);
    }
  }

  lemma QuotedIsNeutral(items: seq<Item>)
    ensures Neutral(Quoted(items))
  {
    QuotedShowsNothing(items);
  }

  /** Brackets around a neutral text. */
  lemma EnclosedIsNeutral(brace: bool, text: string)
    requires Neutral(text)
    ensures Neutral([Opener(brace)] + (text + [Closing(Opener(brace))]))
  {
    var o := Opener(brace);
    FlagsAppend(OUTSIDE, [o], text + [Closing(o)]);
    FlagsAppend(OUTSIDE, text, [Closing(o)]);
    OneChar(OUTSIDE, o);
    OneChar(OUTSIDE, Closing(o));
    var whole := [o] + (text + [Closing(o)]);
    forall brackets ensures StackAfter(Open(brackets), Seen(OUTSIDE, whole)) == Open(brackets) {
      var higher := brackets + [o];
      StackAppend(Open(brackets), [o], Seen(OUTSIDE, text) + [Closing(o)]);
      StackAppend(Open(higher), Seen(OUTSIDE, text), [Closing(o)]);
      assert StackAfter(Open(higher), Seen(OUTSIDE, text)) == Open(higher);
      assert higher[..|brackets|] == brackets;
    }
  }

  /** Each value leaves the bracket stack, the string flag and the escape flag as it found them. */
  lemma {:induction false} ValueIsNeutral(v: Value)
    ensures Neutral(Text(v))
    decreases v, 0
  {
    match v
    case Number(text) => InertIsNeutral(text);
    case String(items) => QuotedIsNeutral(items);
    case Array(elements) =>
      ElementsAreNeutral(elements);
      EnclosedIsNeutral(false, ElementsText(elements));
    case Object(members) =>
      MembersAreNeutral(members);
      EnclosedIsNeutral(true, MembersText(members));
    case _ => InertIsNeutral(Text(v));
  }

  lemma {:induction false} PaddedIsNeutral(before: Whitespace, v: Value, after: Whitespace)
    ensures Neutral(before + (Text(v) + after))
    decreases v, 1
  {
    ValueIsNeutral(v);
    InertIsNeutral(before);
    InertIsNeutral(after);
    NeutralAppend(Text(v), after);
    NeutralAppend(before, Text(v) + after);
  }

  lemma {:induction false} ElementsAreNeutral(elements: Elements)
    ensures Neutral(ElementsText(elements))
  {
    match elements
    case NoElement(ws) => InertIsNeutral(ws);
    case LastElement(before, value, after) => PaddedIsNeutral(before, value, after);
    case MoreElements(before, value, after, rest) =>
      PaddedIsNeutral(before, value, after);
      InertIsNeutral([',']);
      ElementsAreNeutral(rest);
      NeutralAppend([','], ElementsText(rest));
      NeutralAppend(before + (Text(value) + after), [','] + ElementsText(rest));
  }

  lemma {:induction false} MembersAreNeutral(members: Members)
    ensures Neutral(MembersText(members))
  {
    match members
    case NoMember(ws) => InertIsNeutral(ws);
    case LastMember(member) => MemberIsNeutral(member);
    case MoreMembers(member, rest) =>
      MemberIsNeutral(member);
      InertIsNeutral([',']);
      MembersAreNeutral(rest);
      NeutralAppend([','], MembersText(rest));
      NeutralAppend(MemberText(member), [','] + MembersText(rest));
  }

  lemma {:induction false} MemberIsNeutral(m: Member)
    ensures Neutral(MemberText(m))
  {
    InertIsNeutral(m.before);
    QuotedIsNeutral(m.name);
    InertIsNeutral(m.between);
    NeutralAppend(Quoted(m.name), m.between);
    NeutralAppend(m.before, Quoted(m.name) + m.between);
    PaddedIsNeutral(m.start, m.value, m.after);
    InertIsNeutral([':']);
    NeutralAppend([':'], m.start + (Text(m.value) + m.after));
    NeutralAppend(m.before + (Quoted(m.name) + m.between), [':'] + (m.start + (Text(m.value) + m.after)));
  }

  /** Every JSON text, at any nesting depth and with any escapes in its strings, is accepted. */
  lemma JsonIsAccepted(before: Whitespace, v: Value, after: Whitespace)
    ensures Accepted(before + (Text(v) + after))
  {
    PaddedIsNeutral(before, v, after);
  }

  /** The bracket that a text of brackets must not end or begin with. */
  lemma OneBracketIsRejected(a: string, c: char, b: string)
    requires c == '{' || c == '}' || c == '[' || c == ']'
    requires Neutral(a) && Neutral(b)
    ensures !Accepted(a + ([c] + b))
  {
    FlagsAppend(OUTSIDE, a, [c] + b);
    FlagsAppend(OUTSIDE, [c], b);
    OneChar(OUTSIDE, c);
    StackAppend(Open([]), Seen(OUTSIDE, a), [c] + Seen(OUTSIDE, b));
    StackAppend(Open([]), [c], Seen(OUTSIDE, b));
    assert [c][1..] == [];
    MismatchStays(Seen(OUTSIDE, b));
    assert StackAfter(Open([c]), Seen(OUTSIDE, b)) == Open([c]);
  }

  /** A JSON text with one bracket too many, of any kind, in front of it or behind it, is not accepted. */
  lemma ExtraBracketIsRejected(before: Whitespace, v: Value, after: Whitespace, c: char)
    requires c == '{' || c == '}' || c == '[' || c == ']'
    ensures !Accepted((before + (Text(v) + after)) + [c])
    ensures !Accepted([c] + (before + (Text(v) + after)))
  {
    var text := before + (Text(v) + after);
    PaddedIsNeutral(before, v, after);
    InertIsNeutral("");
    OneBracketIsRejected(text, c, "");
    OneBracketIsRejected("", c, text);
    assert [c] + "" == [c] && "" + ([c] + text) == [c] + text;
  }

  /** An array or an object without its last bracket, or with a wrong one in its place, is not accepted. */
  lemma UnclosedIsRejected(before: Whitespace, elements: Elements, members: Members)
    ensures !Accepted(before + (['['] + ElementsText(elements)))
    ensures !Accepted(before + (['{'] + MembersText(members)))
    ensures !Accepted(before + (['['] + (ElementsText(elements) + ['}'])))
    ensures !Accepted(before + (['{'] + (MembersText(members) + [']'])))
  {
    InertIsNeutral(before);
    ElementsAreNeutral(elements);
    MembersAreNeutral(members);
    OneBracketIsRejected(before, '[', ElementsText(elements));
    OneBracketIsRejected(before, '{', MembersText(members));
    WrongBracketIsRejected(before, '[', ElementsText(elements), '}');
    WrongBracketIsRejected(before, '{', MembersText(members), ']');
  }

  lemma OneBracket(s: Stack, c: char)
    ensures StackAfter(s, [c]) == NextStack(s, c)
  {
    assert [c][1..] == [];
  }

  lemma WrongBracketIsRejected(a: string, open: char, inside: string, close: char)
    requires Neutral(a) && Neutral(inside)
    requires (open == '[' && close == '}') || (open == '{' && close == ']')
    ensures !Accepted(a + ([open] + (inside + [close])))
  {
    FlagsAppend(OUTSIDE, a, [open] + (inside + [close]));
    FlagsAppend(OUTSIDE, [open], inside + [close]);
    FlagsAppend(OUTSIDE, inside, [close]);
    OneChar(OUTSIDE, open);
    OneChar(OUTSIDE, close);
    StackAppend(Open([]), Seen(OUTSIDE, a), [open] + (Seen(OUTSIDE, inside) + [close]));
    StackAppend(Open([]), [open], Seen(OUTSIDE, inside) + [close]);
    OneBracket(Open([]), open);
    assert [] + [open] == [open];
    OneBracket(Open([open]), close);
    StackAppend(Open([open]), Seen(OUTSIDE, inside), [close]);
    assert StackAfter(Open([open]), Seen(OUTSIDE, inside)) == Open([open]);
  }

  /** Not only JSON texts are: the empty text, which no value has, and a string that is never closed, are accepted. */
  lemma OtherTextsAreAccepted(v: Value)
    ensures Accepted("") && Text(v) != ""
    ensures Accepted("\"{")
  {
    var open := "\"{";
    assert open == ['"'] + ['{'];
    FlagsAppend(OUTSIDE, ['"'], ['{']);
    OneChar(OUTSIDE, '"');
    OneChar(INSIDE, '{');
  }
}
