/** Properties of the scanner and of number literals. */
module LexerFacts {
  import opened Lexer
  import opened Runtime

  // ---------------------------------------------------------------------
  // A single lexeme scans to itself

  /** The filter keeps each clean piece as often as it occurs and nothing
      else. */
  lemma {:induction false} KeepSelects(pieces: seq<string>)
    ensures forall i :: 0 <= i < |Keep(pieces)| ==> Keep(pieces)[i] in pieces
    ensures forall t :: t in pieces && Clean(t) ==> t in Keep(pieces)
    ensures forall t :: multiset(Keep(pieces))[t] == if Clean(t) then multiset(pieces)[t] else 0
    decreases |pieces|
  {
    if pieces != [] {
      var rest := pieces[1..];
      assert pieces == [pieces[0]] + rest;
      KeepSelects(rest);
      assert multiset(pieces) == multiset{pieces[0]} + multiset(rest);
      if Clean(pieces[0]) {
        assert Keep(pieces) == [pieces[0]] + Keep(rest);
        assert multiset(Keep(pieces)) == multiset{pieces[0]} + multiset(Keep(rest));
      } else {
        assert Keep(pieces) == Keep(rest);
      }
    }
  }

  /** The filter works piece by piece: filtering two runs of pieces one
      after the other gives the two filtered runs in the same order. */
  lemma {:induction false} KeepAppend(a: seq<string>, b: seq<string>)
    ensures Keep(a + b) == Keep(a) + Keep(b)
    decreases |a|
  {
    if a == [] {
      assert a + b == b;
    } else {
      var ab := a + b;
      assert ab[0] == a[0] && ab[1..] == a[1..] + b;
      KeepAppend(a[1..], b);
      if Clean(a[0]) {
        calc {
          Keep(ab);
          [a[0]] + Keep(a[1..] + b);
          [a[0]] + (Keep(a[1..]) + Keep(b));
          ([a[0]] + Keep(a[1..])) + Keep(b);
        }
      }
    }
  }

  /** An identifier on its own is one token: the expression matches all of
      it at position 0, leaving an empty piece on either side. */
  lemma {:induction false} TokenizeIdentifier(w: string)
    requires IsIdentifier(w)
    ensures Tokenize(w) == [w]
  {
    assert !IsSpace(w[0]) && !IsSingle(w[0]);
    assert WordEnd(w, 1) == |w| by { WordRunReachesEnd(w, 1); }
    assert MatchAt(w, 0) == Some(Match(0, |w|, |w|));
    assert Pieces(w, 0, 0) == ["", w, ""] by {
      assert w[0..0] == "" && w[0..|w|] == w && w[|w|..] == "";
    }
    assert Keep(["", w, ""]) == [w] by {
      assert Clean(w) && !Clean("");
      assert Keep([""]) == [];
      assert [w, ""][1..] == [""];
      assert Keep([w, ""]) == [w];
      assert ["", w, ""][1..] == [w, ""];
    }
  }

  lemma {:induction false} WordRunReachesEnd(w: string, i: nat)
    requires 1 <= i <= |w|
    requires forall k :: 1 <= k < |w| ==> IsWordChar(w[k])
    ensures WordEnd(w, i) == |w|
    decreases |w| - i
  {
    if i < |w| {
      WordRunReachesEnd(w, i + 1);
    }
  }

  lemma {:induction false} DigitRunFrom(t: string, i: nat, j: nat)
    requires i <= j <= |t|
    requires forall k :: i <= k < j ==> IsDigit(t[k])
    ensures DigitEnd(t, i) == DigitEnd(t, j)
    decreases j - i
  {
    if i < j {
      DigitRunFrom(t, i + 1, j);
    }
  }

  /** A number literal on its own is one token. */
  lemma {:induction false} TokenizeNumber(t: string)
    requires IsNumber(t)
    ensures Tokenize(t) == [t]
  {
    var d := DigitEnd(t, 0);
    assert IsDigit(t[0]) && !IsSpace(t[0]) && !IsSingle(t[0]) && !IsLetter(t[0]);
    assert !(1 < |t| && IsPair(t[0], t[1]));
    DigitRunFrom(t, 0, 1);
    assert DigitEnd(t, 1) == d;
    assert LexemeEnd(t, 0) == |t|;
    assert MatchAt(t, 0) == Some(Match(0, |t|, |t|));
    assert Pieces(t, 0, 0) == ["", t, ""] by {
      assert t[0..0] == "" && t[0..|t|] == t && t[|t|..] == "";
    }
    assert Keep(["", t, ""]) == [t] by {
      assert Clean(t) && !Clean("");
      assert Keep([""]) == [];
      assert [t, ""][1..] == [""];
      assert Keep([t, ""]) == [t];
      assert ["", t, ""][1..] == [t, ""];
    }
  }

  lemma {:induction false} QuoteRunTo(s: string, i: nat, j: nat)
    requires i <= j < |s| && s[j] == '"'
    requires forall k :: i <= k < j ==> s[k] != '"'
    ensures QuoteFrom(s, i) == j
    decreases j - i
  {
    if i < j {
      QuoteRunTo(s, i + 1, j);
    }
  }

  /** Nothing at all is left of a string literal with whitespace inside:
      the string alternative captures the whole literal as one piece, so it
      is not cut at the whitespace, and the filter then drops that piece. */
  lemma SpacedLiteralScansToNothing(w: string, k: nat)
    requires k < |w| && IsSpace(w[k])
    requires forall j :: 0 <= j < |w| ==> w[j] != '"'
    ensures Tokenize("\"" + w + "\"") == []
  {
    var s := "\"" + w + "\"";
    assert s[0] == '"' && s[|s| - 1] == '"';
    assert forall j :: 1 <= j < |s| - 1 ==> s[j] == w[j - 1];
    QuoteRunTo(s, 1, |s| - 1);
    assert !IsSpace(s[0]) && !IsSingle(s[0]) && !IsLetter(s[0]) && !IsDigit(s[0]);
    assert LexemeEnd(s, 0) == |s|;
    assert MatchAt(s, 0) == Some(Match(0, |s|, |s|));
    assert Pieces(s, 0, 0) == ["", s, ""] by {
      assert s[0..0] == "" && s[0..|s|] == s && s[|s|..] == "";
    }
    assert !Clean(s) by {
      assert s[k + 1] == w[k];
    }
    assert Keep(["", s, ""]) == [] by {
      assert Keep([""]) == [];
      assert [s, ""][1..] == [""];
      assert Keep([s, ""]) == [];
      assert ["", s, ""][1..] == [s, ""];
    }
  }

  // ---------------------------------------------------------------------
  // Text the expression does not match

  lemma {:induction false} WordRunStops(s: string, i: nat, e: nat)
    requires i <= e < |s| && !IsWordChar(s[e])
    requires forall k :: i <= k < e ==> IsWordChar(s[k])
    ensures WordEnd(s, i) == e
    decreases e - i
  {
    if i < e {
      WordRunStops(s, i + 1, e);
    }
  }

  lemma {:induction false} SpaceRunStops(s: string, i: nat, e: nat)
    requires i <= e < |s| && !IsSpace(s[e])
    requires forall k :: i <= k < e ==> IsSpace(s[k])
    ensures SpaceEnd(s, i) == e
    decreases e - i
  {
    if i < e {
      SpaceRunStops(s, i + 1, e);
    }
  }

  /** The expression matches an identifier that opens the text, with the
      blanks after it. */
  lemma WordMatch(s: string, n: nat)
    requires 0 < n < |s| && IsLetter(s[0]) && !IsWordChar(s[n])
    requires forall k :: 1 <= k < n ==> IsWordChar(s[k])
    ensures MatchAt(s, 0) == Some(Match(0, n, SpaceEnd(s, n)))
  {
    assert !IsSpace(s[0]) && !IsSingle(s[0]);
    assert !(1 < |s| && IsPair(s[0], s[1]));
    WordRunStops(s, 1, n);
  }

  /** No alternative starts with a lone `=`. */
  lemma LoneEqualsUnmatched(s: string, q: nat)
    requires q < |s| && s[q] == '=' && (q + 1 == |s| || IsSpace(s[q + 1]))
    ensures MatchAt(s, q) == None
  {
    assert SpaceEnd(s, q) == q;
    assert !IsSingle(s[q]);
  }

  /** The expression matches a run of digits that closes the text, with
      the blanks before it. */
  lemma DigitsMatch(s: string, q: nat, e: nat)
    requires q < e < |s| && forall k :: q <= k < e ==> IsSpace(s[k])
    requires forall k :: e <= k < |s| ==> IsDigit(s[k])
    ensures MatchAt(s, q) == Some(Match(e, |s|, |s|))
  {
    assert SpaceEnd(s, q) == e by { SpaceRunStops(s, q, e); }
    assert !IsSpace(s[e]) && !IsSingle(s[e]) && !IsLetter(s[e]);
    assert !(e + 1 < |s| && IsPair(s[e], s[e + 1]));
    DigitRunFrom(s, e + 1, |s|);
  }

  lemma KeepCons(a: string, rest: seq<string>)
    ensures Keep([a] + rest) == if Clean(a) then [a] + Keep(rest) else Keep(rest)
  {
    var x := [a] + rest;
    assert x[0] == a && x[1..] == rest;
  }

  lemma KeepTwo(a: string, b: string)
    requires !Clean(a) && Clean(b)
    ensures Keep([a, b]) == [b]
  {
    KeepCons(b, []);
    assert [b] + [] == [b];
    KeepCons(a, [b]);
    assert [a] + [b] == [a, b];
  }

  lemma KeepTail(c: string, d: string, e: string)
    requires Clean(c) && Clean(d) && !Clean(e)
    ensures Keep([c, d, e]) == [c, d]
  {
    KeepCons(e, []);
    assert [e] + [] == [e];
    KeepCons(d, [e]);
    assert [d] + [e] == [d, e];
    KeepCons(c, [d, e]);
    assert [c] + [d, e] == [c, d, e];
  }

  lemma KeepRuns(a: string, b: string, c: string, d: string, e: string)
    requires !Clean(a) && Clean(b) && Clean(c) && Clean(d) && !Clean(e)
    ensures Keep([a, b] + [c, d, e]) == [b, c, d]
  {
    KeepTwo(a, b);
    KeepTail(c, d, e);
    KeepAppend([a, b], [c, d, e]);
    assert [b] + [c, d] == [b, c, d];
  }

  /** A lone `=` is not one of the alternatives, so the expression does
      not match there; split still keeps it, as the unmatched text after
      the identifier, and the filter lets it through. */
  lemma UnmatchedKept(w: string)
    requires IsIdentifier(w)
    ensures Tokenize(w + "=") == [w, "="]
  {
    var s := w + "=";
    var n := |w|;
    assert s[n] == '=' && forall k :: 1 <= k < n ==> s[k] == w[k];
    WordMatch(s, n);
    LoneEqualsUnmatched(s, n);
    assert s[0..0] == "" && s[0..n] == w && s[n..] == "=";
    assert Pieces(s, n, n + 1) == ["="];
    assert Pieces(s, 0, 0) == ["", w] + ["="];
    assert Clean(w) && Clean("=") && !Clean("");
    KeepTwo("", w);
    KeepCons("=", []);
    assert ["="] + [] == ["="] && Keep([]) == [];
    KeepAppend(["", w], ["="]);
  }

  /** The text `w = t` of an assignment scans to its three tokens.  The
      expression matches the identifier with the blank after it, fails at
      `=`, and matches the number with the blank before it; the `=` in
      between is kept as unmatched text. */
  lemma AssignmentText(w: string, t: string)
    requires IsIdentifier(w) && |t| > 0 && AllDigits(t)
    ensures Tokenize(w + " = " + t) == [w, "=", t]
  {
    var s := w + " = " + t;
    AssignmentPieces(w, t, s);
    assert Clean(w) && Clean("=") && !Clean("");
    assert Clean(t) by {
      assert forall k :: 0 <= k < |t| ==> IsDigit(t[k]);
    }
    KeepRuns("", w, "=", t, "");
  }

  lemma AssignmentPieces(w: string, t: string, s: string)
    requires IsIdentifier(w) && |t| > 0 && AllDigits(t) && s == w + " = " + t
    ensures Pieces(s, 0, 0) == ["", w] + ["=", t, ""]
  {
    var n := |w|;
    assert s[n] == ' ' && s[n + 1] == '=' && s[n + 2] == ' ';
    assert MatchAt(s, 0) == Some(Match(0, n, n + 1)) by {
      assert forall k :: 1 <= k < n ==> s[k] == w[k];
      WordMatch(s, n);
      SpaceRunStops(s, n, n + 1);
    }
    assert Pieces(s, 0, 0) == [s[0..0], s[0..n]] + Pieces(s, n + 1, n + 1);
    assert s[0..0] == "" && s[0..n] == w;
    ValuePieces(s, n, t);
  }

  /** From the `=` on: the `=` is unmatched text, the number is captured. */
  lemma ValuePieces(s: string, n: nat, t: string)
    requires n + 3 < |s| && s[n + 1] == '=' && s[n + 2] == ' ' && s[n + 3..] == t && AllDigits(t)
    ensures Pieces(s, n + 1, n + 1) == ["=", t, ""]
  {
    LoneEqualsUnmatched(s, n + 1);
    assert MatchAt(s, n + 2) == Some(Match(n + 3, |s|, |s|)) by {
      assert forall k :: n + 3 <= k < |s| ==> s[k] == t[k - n - 3];
      DigitsMatch(s, n + 2, n + 3);
    }
    assert s[n + 1..n + 2] == "=" && s[n + 3..|s|] == t && s[|s|..] == "";
    assert Pieces(s, |s|, |s|) == [""];
    assert Pieces(s, n + 1, n + 2) == ["=", t] + [""];
  }

  // ---------------------------------------------------------------------
  // Numerals

  lemma {:induction false} DigitsOfNumeral(n: nat)
    ensures DigitsValue(NatToString(n)) == n
    decreases n
  {
    if n >= 10 {
      var prefix := NatToString(n / 10);
      var ds := prefix + [DigitChar(n % 10)];
      assert ds[..|ds| - 1] == prefix;
      DigitsOfNumeral(n / 10);
    }
  }

  /** The decimal numeral of a natural number is a number token, and its
      value is that number: printing a whole number and scanning it back
      gives the same number. */
  lemma {:induction false} NumeralRoundTrip(n: nat)
    ensures IsNumber(NatToString(n))
    ensures NumberValue(NatToString(n)) == n as real
  {
    var t := NatToString(n);
    DigitRunFrom(t, 0, |t|);
    assert DigitEnd(t, 0) == |t|;
    assert t[..|t|] == t;
    DigitsOfNumeral(n);
  }

  /** A whole number prints as its decimal numeral, with no fraction. */
  lemma WholeNumberText(n: nat)
    ensures NumToString(n as real) == NatToString(n)
  {
    assert (n as real).Floor == n;
  }

  /** A numeral literal prints exactly as it was written. */
  lemma NumeralPrintsAsWritten(n: nat)
    ensures IsNumber(NatToString(n))
    ensures Render(Num(NumberValue(NatToString(n)))) == NatToString(n)
  {
    NumeralRoundTrip(n);
    WholeNumberText(n);
  }
}
