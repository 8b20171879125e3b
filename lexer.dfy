/** The scanner of the Solar interpreter (`tokenize`, `isString`,
    `isIdentifier` and `isNumber` in solar-interpreter.js).

    The source scans with `String.prototype.split` and a global regular
    expression whose capturing group lists, in this order: the two-character
    operators, one character of `( ) { } ; , + - * / %`, an identifier, a
    number and a double-quoted string, with optional whitespace on either
    side; it then drops every piece that is empty or contains whitespace.
    Split tries the expression at each position q, starting at the end p of
    the previous match; when it matches, the unmatched text between p and q
    and the captured lexeme are both kept, in this order.  `Pieces` performs
    those steps by hand, trying the alternatives in the listed order. */
module Lexer {

  type Token = string

  // ---------------------------------------------------------------------
  // Character classes

  /** The characters that `\s` matches in ECMAScript. */
  predicate IsSpace(c: char)
  {
    c == ' ' || c == '\t' || c == '\n' || c == '\r' || c == '\U{000B}' || c == '\U{000C}'
    || c == '\U{00A0}' || c == '\U{1680}' || ('\U{2000}' <= c <= '\U{200A}')
    || c == '\U{2028}' || c == '\U{2029}' || c == '\U{202F}' || c == '\U{205F}'
    || c == '\U{3000}' || c == '\U{FEFF}'
  }

  /** `[A-Za-z_]`, the first character of an identifier. */
  predicate IsLetter(c: char)
  {
    ('A' <= c <= 'Z') || ('a' <= c <= 'z') || c == '_'
  }

  /** `\d` */
  predicate IsDigit(c: char)
  {
    '0' <= c <= '9'
  }

  /** `[A-Za-z0-9_]`, the later characters of an identifier. */
  predicate IsWordChar(c: char)
  {
    IsLetter(c) || IsDigit(c)
  }

  /** One character of the single-character class. */
  predicate IsSingle(c: char)
  {
    c in "(){};,+-*/%"
  }

  /** `=>|==|!=|<=|>=` */
  predicate IsPair(a: char, b: char)
  {
    (a == '=' && (b == '>' || b == '=')) || ((a == '!' || a == '<' || a == '>') && b == '=')
  }

  // ---------------------------------------------------------------------
  // Runs of characters

  /** The end of the run of whitespace that starts at `i`. */
  function SpaceEnd(s: string, i: nat): (j: nat)
    requires i <= |s|
    ensures i <= j <= |s|
    ensures forall k :: i <= k < j ==> IsSpace(s[k])
    ensures j == |s| || !IsSpace(s[j])
    decreases |s| - i
  {
    if i < |s| && IsSpace(s[i]) then SpaceEnd(s, i + 1) else i
  }

  /** The end of the run of identifier characters that starts at `i`. */
  function WordEnd(s: string, i: nat): (j: nat)
    requires i <= |s|
    ensures i <= j <= |s|
    ensures forall k :: i <= k < j ==> IsWordChar(s[k])
    ensures j == |s| || !IsWordChar(s[j])
    decreases |s| - i
  {
    if i < |s| && IsWordChar(s[i]) then WordEnd(s, i + 1) else i
  }

  /** The end of the run of decimal digits that starts at `i`. */
  function DigitEnd(s: string, i: nat): (j: nat)
    requires i <= |s|
    ensures i <= j <= |s|
    ensures forall k :: i <= k < j ==> IsDigit(s[k])
    ensures j == |s| || !IsDigit(s[j])
    decreases |s| - i
  {
    if i < |s| && IsDigit(s[i]) then DigitEnd(s, i + 1) else i
  }

  /** The index of the first double quote at or after `i`, or `|s|` when
      there is none. */
  function QuoteFrom(s: string, i: nat): (j: nat)
    requires i <= |s|
    ensures i <= j <= |s|
    ensures forall k :: i <= k < j ==> s[k] != '"'
    ensures j == |s| || s[j] == '"'
    decreases |s| - i
  {
    if i < |s| && s[i] != '"' then QuoteFrom(s, i + 1) else i
  }

  // ---------------------------------------------------------------------
  // One match of the expression

  /** The end of the lexeme that the capturing group matches at `i`, trying
      its alternatives in order; `i` itself when none of them matches. */
  function LexemeEnd(s: string, i: nat): (j: nat)
    requires i <= |s|
    ensures i <= j <= |s|
    ensures j > i ==> !IsSpace(s[i])
  {
    if i == |s| then i
    else if i + 1 < |s| && IsPair(s[i], s[i + 1]) then i + 2
    else if IsSingle(s[i]) then i + 1
    else if IsLetter(s[i]) then WordEnd(s, i + 1)
    else if IsDigit(s[i]) then
      var d := DigitEnd(s, i + 1);
      if d < |s| && s[d] == '.' then DigitEnd(s, d + 1) else d
    else if s[i] == '"' then
      var q := QuoteFrom(s, i + 1);
      if q < |s| then q + 1 else i
    else i
  }

  /** A match of the whole expression: the captured lexeme is
      `s[start..stop]`, and the match, trailing whitespace included, ends
      at `end`. */
  datatype Match = Match(start: nat, stop: nat, end: nat)

  /** The match of the expression at exactly position `q`, if any: leading
      whitespace, one lexeme, trailing whitespace.  No alternative starts
      with whitespace, so the greedy `\s*` never has to give characters
      back. */
  function MatchAt(s: string, q: nat): (m: Option<Match>)
    requires q < |s|
    ensures m.Some? ==> q <= m.value.start < m.value.stop <= m.value.end <= |s|
  {
    var a := SpaceEnd(s, q);
    var b := LexemeEnd(s, a);
    if b == a then None else Some(Match(a, b, SpaceEnd(s, b)))
  }

  datatype Option<T> = None | Some(value: T)

  /** The array that `s.split(regex)` builds when the previous match ended
      at `p` and the next match is tried at `q`. */
  function Pieces(s: string, p: nat, q: nat): (r: seq<string>)
    requires p <= q <= |s|
    ensures |r| > 0
    decreases |s| - q
  {
    if q == |s| then [s[p..]]
    else
      match MatchAt(s, q)
      case None => Pieces(s, p, q + 1)
      case Some(m) => [s[p..q], s[m.start..m.stop]] + Pieces(s, m.end, m.end)
  }

  /** A piece that the filter `token && !/\s/.test(token)` keeps. */
  predicate Clean(t: string)
  {
    |t| > 0 && forall k :: 0 <= k < |t| ==> !IsSpace(t[k])
  }

  /** The pieces that the filter keeps, in their order (which pieces, and
      how often, is the subject of `LexerFacts.KeepSelects`; the order, of
      `LexerFacts.KeepAppend`). */
  function Keep(pieces: seq<string>): (r: seq<string>)
    ensures |r| <= |pieces|
    ensures forall i :: 0 <= i < |r| ==> Clean(r[i])
  {
    if pieces == [] then []
    else
      assert pieces == [pieces[0]] + pieces[1..];
      if Clean(pieces[0]) then [pieces[0]] + Keep(pieces[1..])
      else Keep(pieces[1..])
  }

  /** `tokenize(code)` */
  function Tokenize(code: string): (tokens: seq<Token>)
    ensures forall i :: 0 <= i < |tokens| ==> Clean(tokens[i])
  {
    Keep(Pieces(code, 0, 0))
  }

  // ---------------------------------------------------------------------
  // Token classes used by the parser

  /** `isIdentifier`: `/^[A-Za-z_][A-Za-z0-9_]*$/`.  An identifier is a
      token the scanner can emit, and it is neither a number nor a string,
      so the order in which `parseFactor` tries the three classes does not
      matter. */
  function IsIdentifier(t: Token): (b: bool)
    ensures b ==> Clean(t) && !IsNumber(t) && !IsString(t)
  {
    |t| > 0 && IsLetter(t[0]) && forall k :: 1 <= k < |t| ==> IsWordChar(t[k])
  }

  /** `isString`: `/^"[^"]*"$/`.  A string token is its text between the
      two quotes put back inside quotes. */
  function IsString(t: Token): (b: bool)
    ensures b ==> "\"" + Unquote(t) + "\"" == t && forall k :: 0 <= k < |Unquote(t)| ==> Unquote(t)[k] != '"'
  {
    |t| >= 2 && t[0] == '"' && t[|t| - 1] == '"' && forall k :: 0 < k < |t| - 1 ==> t[k] != '"'
  }

  /** The number pattern `\d+\.?\d*` over the whole token (the model of
      `isNumber`; see README for the tokens that `!isNaN` accepts as well).
      A number is a token the scanner can emit that starts with a digit,
      so it is never a string. */
  function IsNumber(t: Token): (b: bool)
    ensures b ==> Clean(t) && IsDigit(t[0]) && !IsString(t)
  {
    var d := DigitEnd(t, 0);
    d > 0 && (d == |t| || (t[d] == '.' && DigitEnd(t, d + 1) == |t|))
  }

  /** `token.slice(1, -1)`: the text between the first and the last
      character; empty for a token shorter than two characters. */
  function Unquote(t: Token): (r: string)
    ensures |t| >= 2 ==> |r| == |t| - 2 && forall k :: 0 <= k < |r| ==> r[k] == t[k + 1]
    ensures |t| < 2 ==> r == ""
  {
    if |t| >= 2 then t[1..|t| - 1] else ""
  }

  // ---------------------------------------------------------------------
  // The value of a number literal (`parseFloat` on an exact decimal)

  function DigitValue(c: char): nat
    requires IsDigit(c)
  {
    (c as int - '0' as int) as nat
  }

  predicate AllDigits(ds: string)
  {
    forall k :: 0 <= k < |ds| ==> IsDigit(ds[k])
  }

  /** The natural number that a string of decimal digits denotes. */
  function DigitsValue(ds: string): nat
    requires AllDigits(ds)
  {
    if ds == [] then 0 else DigitsValue(ds[..|ds| - 1]) * 10 + DigitValue(ds[|ds| - 1])
  }

  function Pow10(k: nat): (r: nat)
    ensures r > 0
  {
    if k == 0 then 1 else 10 * Pow10(k - 1)
  }

  /** The exact value of a token that matches `\d+\.?\d*`. */
  function NumberValue(t: Token): (v: real)
    requires IsNumber(t)
    ensures v >= 0.0
  {
    var d := DigitEnd(t, 0);
    var whole := DigitsValue(t[..d]) as real;
    if d == |t| then whole
    else whole + DigitsValue(t[d + 1..]) as real / Pow10(|t| - d - 1) as real
  }
}
