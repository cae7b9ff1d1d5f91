/** Headers: how the client library prints them and how the router reads them. */
module Wire {
  import opened Subscriptions

  // ---------------------------------------------------------------------------
  // Words
  // ---------------------------------------------------------------------------

  function Flush(t: string): seq<string> { if t == "" then [] else [t] }

  /** The non-empty pieces of s between separators, the first of which has begun with t. */
  function Pieces(sep: set<char>, s: string, t: string): seq<string> {
    if s == "" then Flush(t)
    else if s[0] in sep then Flush(t) + Pieces(sep, s[1..], "")
    else Pieces(sep, s[1..], t + [s[0]])
  }

  /** A separator always separates. */
  lemma {:induction false} PiecesJoin(sep: set<char>, a: string, b: string, t: string)
    requires ' ' in sep
    ensures Pieces(sep, a + " " + b, t) == Pieces(sep, a, t) + Pieces(sep, b, "")
  {
    var s := a + " " + b;
    if a == "" {
      assert s[1..] == b;
    } else {
      assert s[1..] == a[1..] + " " + b;
      PiecesJoin(sep, a[1..], b, if a[0] in sep then "" else t + [a[0]]);
    }
  }

  lemma {:induction false} OnePiece(sep: set<char>, w: string, t: string)
    requires forall c | c in w :: c !in sep
    ensures Pieces(sep, w, t) == Flush(t + w)
  {
    if w == "" {
      assert t + w == t;
    } else {
      assert w[0] in w;
      OnePiece(sep, w[1..], t + [w[0]]);
      assert t + [w[0]] + w[1..] == t + w;
    }
  }

  /** Pieces are made of the characters of s. */
  lemma {:induction false} PiecesWithin(sep: set<char>, s: string, t: string)
    ensures forall w, c | w in Pieces(sep, s, t) && c in w :: c in s || c in t
  {
    if s != "" { PiecesWithin(sep, s[1..], if s[0] in sep then "" else t + [s[0]]); }
  }

  predicate Blank(c: char) { c == ' ' || c == '\t' }

  predicate Word(w: string) { w != "" && forall c | c in w :: !Blank(c) }

  function Words(s: string): seq<string> { Pieces({' ', '\t'}, s, "") }

  /** split */
  method Split(s: string) returns (v: seq<string>)
    ensures v == Words(s)
  {
    v := [];
    var t, i := "", 0;
    while i < |s|
      invariant i <= |s| && Words(s) == v + Pieces({' ', '\t'}, s[i..], t)
    {
      if Blank(s[i]) {
        if t != "" {
          v := v + [t];
          t := "";
        }
      } else {
        t := t + [s[i]];
      }
      i := i + 1;
    }
    if t != "" { v := v + [t]; }
  }

  /** Words are never empty and hold no blank. */
  lemma {:induction false} WordsAreWords(s: string, t: string)
    requires forall c | c in t :: !Blank(c)
    ensures forall w | w in Pieces({' ', '\t'}, s, t) :: Word(w)
  {
    if s != "" {
      if Blank(s[0]) { WordsAreWords(s[1..], ""); } else { WordsAreWords(s[1..], t + [s[0]]); }
    }
  }

  lemma SingleWord(w: string)
    requires Word(w)
    ensures Words(w) == [w]
  {
    OnePiece({' ', '\t'}, w, "");
    assert "" + w == w;
  }

  lemma AddWord(s: string, w: string)
    requires Word(w)
    ensures Words(s + " " + w) == Words(s) + [w]
  {
    PiecesJoin({' ', '\t'}, s, w, "");
    SingleWord(w);
  }

  /** Single blanks between the words. */
  function Spaced(ws: seq<string>): string
    requires ws != []
  {
    if |ws| == 1 then ws[0] else Spaced(ws[..|ws| - 1]) + " " + ws[|ws| - 1]
  }

  /** Splitting takes apart what was put together, for any words. */
  lemma {:induction false} SplitSpaced(ws: seq<string>)
    requires ws != [] && forall w | w in ws :: Word(w)
    ensures Words(Spaced(ws)) == ws
  {
    var k := |ws| - 1;
    assert ws == ws[..k] + [ws[k]] && Word(ws[k]);
    if k == 0 {
      SingleWord(ws[0]);
    } else {
      SplitSpaced(ws[..k]);
      AddWord(Spaced(ws[..k]), ws[k]);
    }
  }

  /** Any number of blanks and tabs. */
  predicate Gap(g: string) { forall c | c in g :: Blank(c) }

  /** The words, each followed by its gap. */
  function LaidOut(ws: seq<string>, gaps: seq<string>): string
    requires |ws| == |gaps|
  {
    if ws == [] then "" else ws[0] + gaps[0] + LaidOut(ws[1..], gaps[1..])
  }

  /** Blanks and tabs before and after, and at least one between any two words. */
  predicate Layout(lead: string, ws: seq<string>, gaps: seq<string>) {
    && |ws| == |gaps| && Gap(lead)
    && (forall i | 0 <= i < |ws| :: Word(ws[i]) && Gap(gaps[i]))
    && forall i | 0 <= i < |ws| - 1 :: gaps[i] != ""
  }

  lemma {:induction false} SkipGap(g: string, b: string, t: string)
    requires Gap(g)
    ensures Pieces({' ', '\t'}, g + b, t) == if g == "" then Pieces({' ', '\t'}, b, t) else Flush(t) + Words(b)
  {
    if g == "" {
      assert g + b == b;
    } else {
      assert g[0] in g && (g + b)[1..] == g[1..] + b;
      SkipGap(g[1..], b, "");
    }
  }

  lemma {:induction false} TakeWord(w: string, b: string, t: string)
    requires forall c | c in w :: !Blank(c)
    ensures Pieces({' ', '\t'}, w + b, t) == Pieces({' ', '\t'}, b, t + w)
  {
    if w == "" {
      assert w + b == b && t + w == t;
    } else {
      assert w[0] in w && (w + b)[1..] == w[1..] + b;
      TakeWord(w[1..], b, t + [w[0]]);
      assert t + [w[0]] + w[1..] == t + w;
    }
  }

  lemma {:induction false} WordsOfLayout(lead: string, ws: seq<string>, gaps: seq<string>)
    requires Layout(lead, ws, gaps)
    ensures Words(lead + LaidOut(ws, gaps)) == ws
    decreases |ws|
  {
    hide *;
    LayoutParts(lead, ws, gaps);
    SkipGap(lead, LaidOut(ws, gaps), "");
    PieceNext(LaidOut(ws, gaps), "");
    PieceNext(lead + LaidOut(ws, gaps), "");
    if ws != [] {
      var w, g, rest := ws[0], gaps[0], LaidOut(ws[1..], gaps[1..]);
      WordsOfLayout("", ws[1..], gaps[1..]);
      assert "" + rest == rest && w + (g + rest) == w + g + rest && "" + w == w;
      TakeWord(w, g + rest, "");
      SkipGap(g, rest, w);
      PieceNext(rest, w);
      assert ws == [w] + ws[1..];
    }
  }

  lemma LayoutParts(lead: string, ws: seq<string>, gaps: seq<string>)
    requires Layout(lead, ws, gaps)
    ensures |ws| == |gaps| && Gap(lead) && (ws == [] ==> LaidOut(ws, gaps) == "") && Flush("") == []
    ensures ws != [] ==> Layout("", ws[1..], gaps[1..])
    ensures ws != [] ==> LaidOut(ws, gaps) == ws[0] + gaps[0] + LaidOut(ws[1..], gaps[1..])
    ensures ws != [] ==> ws[0] != "" && (forall c | c in ws[0] :: !Blank(c)) && Gap(gaps[0]) && Flush(ws[0]) == [ws[0]]
    ensures |ws| == 1 ==> LaidOut(ws[1..], gaps[1..]) == ""
    ensures |ws| > 1 ==> gaps[0] != ""
  {
    if ws != [] {
      forall i | 0 <= i < |ws[1..]| - 1 ensures gaps[1..][i] != "" { assert gaps[1..][i] == gaps[i + 1]; }
    }
  }

  /** Any text is laid out from its words; t is the part of the first word already read. */
  lemma {:induction false} LayoutOf(s: string, t: string) returns (lead: string, gaps: seq<string>)
    requires forall c | c in t :: !Blank(c)
    ensures Layout(lead, Pieces({' ', '\t'}, s, t), gaps) && (t != "" ==> lead == "")
    ensures t + s == lead + LaidOut(Pieces({' ', '\t'}, s, t), gaps)
  {
    hide *;
    PieceNext(s, t);
    EmptyLayout(t);
    if s == "" {
      lead, gaps := "", if t == "" then [] else [""];
      assert t + s == t == "" + t;
    } else if s[0] == ' ' || s[0] == '\t' {
      var before, rest := LayoutOf(s[1..], "");
      var ws, g := Words(s[1..]), [s[0]] + before;
      assert "" + s[1..] == s[1..] && s == [s[0]] + s[1..];
      GapMore(before, ws, rest, s[0]);
      assert s == g + LaidOut(ws, rest);
      if t == "" {
        lead, gaps := g, rest;
        assert [] + ws == ws && t + s == s;
      } else {
        LayoutNext(t, g, ws, rest);
        lead, gaps := "", [g] + rest;
        Regroup(t, g, LaidOut(ws, rest));
      }
    } else {
      lead, gaps := LayoutOf(s[1..], t + [s[0]]);
      assert t + s == t + [s[0]] + s[1..];
    }
  }

  lemma PieceNext(s: string, t: string)
    ensures var r := Pieces({' ', '\t'}, s, t);
      if s == "" then r == if t == "" then [] else [t]
      else if Blank(s[0]) then r == (if t == "" then [] else [t]) + Words(s[1..])
      else r == Pieces({' ', '\t'}, s[1..], t + [s[0]])
    ensures Words(s) == Pieces({' ', '\t'}, s, "") && (s != "" ==> Words(s[1..]) == Pieces({' ', '\t'}, s[1..], ""))
    ensures forall c :: Blank(c) <==> c == ' ' || c == '\t'
  {}

  lemma EmptyLayout(t: string)
    requires forall c | c in t :: !Blank(c)
    ensures Layout("", [], []) && LaidOut([], []) == ""
    ensures t != "" ==> Word(t) && Layout("", [t], [""]) && LaidOut([t], [""]) == t
  {
    assert [t][1..] == [] && [""][1..] == [];
  }

  lemma GapMore(lead: string, ws: seq<string>, gaps: seq<string>, c: char)
    requires Layout(lead, ws, gaps) && Blank(c)
    ensures |ws| == |gaps| && Layout([c] + lead, ws, gaps)
  {}

  lemma Regroup(a: string, b: string, c: string)
    ensures a + (b + c) == "" + (a + b + c)
  {}

  lemma LayoutNext(w: string, g: string, ws: seq<string>, gaps: seq<string>)
    requires Layout(g, ws, gaps) && Word(w) && g != ""
    ensures Layout("", [w] + ws, [g] + gaps) && LaidOut([w] + ws, [g] + gaps) == w + g + LaidOut(ws, gaps)
  {
    LaidNext(w, g, ws, gaps);
  }

  lemma LaidNext(w: string, g: string, ws: seq<string>, gaps: seq<string>)
    requires |ws| == |gaps|
    ensures LaidOut([w] + ws, [g] + gaps) == w + g + LaidOut(ws, gaps)
  {
    assert ([w] + ws)[1..] == ws && ([g] + gaps)[1..] == gaps;
  }

  /** The words of a text are those it is laid out from. */
  lemma WordsExact(s: string, ws: seq<string>)
    ensures Words(s) == ws <==> exists lead, gaps :: Layout(lead, ws, gaps) && s == lead + LaidOut(ws, gaps)
  {
    if Words(s) == ws {
      var lead, gaps := LayoutOf(s, "");
      assert "" + s == s;
    }
    if lead, gaps :| Layout(lead, ws, gaps) && s == lead + LaidOut(ws, gaps) {
      WordsOfLayout(lead, ws, gaps);
    }
  }

  // ---------------------------------------------------------------------------
  // Numbers
  // ---------------------------------------------------------------------------

  predicate Digit(c: char) { '0' <= c <= '9' }

  predicate White(c: char) { c == ' ' || c == '\t' || c == '\n' || c == '\r' || c == '\U{b}' || c == '\U{c}' }

  /** The number whose digits, after acc, s begins with. */
  function Digits(s: string, acc: nat): nat {
    if s == "" || !Digit(s[0]) then acc else Digits(s[1..], 10 * acc + (s[0] as int - '0' as int))
  }

  /** atoi, on unbounded integers. */
  function Atoi(s: string): int {
    if s == "" then 0
    else if White(s[0]) then Atoi(s[1..])
    else if s[0] == '-' then 0 - Digits(s[1..], 0)
    else if s[0] == '+' then Digits(s[1..], 0)
    else Digits(s, 0)
  }

  function DigitOf(n: nat): char
    requires n < 10
  {
    ('0' as int + n) as char
  }

  function Decimal(n: nat): (s: string)
    ensures s != "" && forall c | c in s :: Digit(c)
  {
    if n < 10 then [DigitOf(n)] else Decimal(n / 10) + [DigitOf(n % 10)]
  }

  function Magnitude(x: int): nat { if x < 0 then -x else x }

  /** std::to_string of a double with an integral value. */
  function Printed(x: Value): string {
    Integer(x) + ".000000"
  }

  predicate AllDigits(s: string) { forall c | c in s :: Digit(c) }

  function DigitValue(c: char): nat
    requires Digit(c)
  {
    c as int - '0' as int
  }

  /** The number a row of digits stands for. */
  function Numeral(s: string): nat
    requires AllDigits(s)
  {
    if s == "" then 0 else 10 * Numeral(s[..|s| - 1]) + DigitValue(s[|s| - 1])
  }

  /** No digit follows. */
  predicate Stops(t: string) { t == "" || !Digit(t[0]) }

  lemma {:induction false} DigitsRead(before: string, ds: string, t: string)
    requires AllDigits(before) && AllDigits(ds) && Stops(t)
    ensures AllDigits(before + ds) && Digits(ds + t, Numeral(before)) == Numeral(before + ds)
    decreases |ds|
  {
    if ds == "" {
      assert ds + t == t && before + ds == before;
    } else {
      assert ds[0] in ds && (ds + t)[1..] == ds[1..] + t;
      var more := before + [ds[0]];
      assert more[..|before|] == before;
      DigitsRead(more, ds[1..], t);
      assert more + ds[1..] == before + ds;
    }
  }

  /** Blank, tab, line feed, vertical tab, form feed, carriage return. */
  const WHITE := " \t\n\U{b}\U{c}\r"

  /** What atoi reads: white space, a sign or none, digits, and whatever does not go on with one. */
  predicate NumberText(pad: string, sign: string, ds: string, t: string) {
    && (forall c | c in pad :: c in WHITE) && (sign == "" || sign == "+" || sign == "-")
    && AllDigits(ds) && Stops(t)
    && (sign == "" && ds == "" && t != "" ==> t[0] !in WHITE && t[0] != '+' && t[0] != '-')
  }

  /** atoi skips white space and gives what the digits after the sign stand for, 0 if there are none. */
  lemma {:induction false} AtoiExact(pad: string, sign: string, ds: string, t: string)
    requires NumberText(pad, sign, ds, t)
    ensures Atoi(pad + sign + ds + t) == if sign == "-" then 0 - Numeral(ds) else Numeral(ds)
  {
    if pad == "" {
      SignedDigits(sign, ds, t);
      assert pad + sign + ds + t == sign + ds + t;
    } else {
      hide Numeral, Digits;
      var s := pad + sign + ds + t;
      assert pad[0] in pad && s[1..] == pad[1..] + sign + ds + t;
      AtoiExact(pad[1..], sign, ds, t);
    }
  }

  lemma SignedDigits(sign: string, ds: string, t: string)
    requires NumberText("", sign, ds, t)
    ensures Atoi(sign + ds + t) == if sign == "-" then 0 - Numeral(ds) else Numeral(ds)
  {
    hide Numeral, Digits;
    DigitsRead("", ds, t);
    NoDigits();
    assert "" + ds == ds;
    if sign == "" {
      assert sign + ds + t == ds + t;
      if ds != "" { assert ds[0] in ds; }
      AtoiUnsigned(ds + t);
    } else {
      assert sign + ds + t == sign + (ds + t);
      AtoiSigned(sign, ds + t);
    }
  }

  lemma NoDigits()
    ensures Numeral("") == 0 && Digits("", 0) == 0
  {}

  lemma AtoiUnsigned(s: string)
    requires s != "" ==> !White(s[0]) && s[0] != '+' && s[0] != '-'
    ensures Atoi(s) == Digits(s, 0)
  {
    NoDigits();
    hide Digits;
  }

  lemma AtoiSigned(sign: string, s: string)
    requires sign == "+" || sign == "-"
    ensures Atoi(sign + s) == if sign == "-" then 0 - Digits(s, 0) else Digits(s, 0)
  {
    assert (sign + s)[1..] == s;
    hide Digits;
  }

  /** Every text is of that form. */
  lemma {:induction false} NumberParts(s: string) returns (pad: string, sign: string, ds: string, t: string)
    ensures NumberText(pad, sign, ds, t) && s == pad + sign + ds + t
  {
    if s != "" && White(s[0]) {
      pad, sign, ds, t := NumberParts(s[1..]);
      pad := [s[0]] + pad;
    } else {
      pad, sign := "", if s != "" && (s[0] == '+' || s[0] == '-') then [s[0]] else "";
      ds, t := DigitsFirst(s[|sign|..]);
    }
  }

  lemma {:induction false} DigitsFirst(s: string) returns (ds: string, t: string)
    ensures AllDigits(ds) && Stops(t) && s == ds + t
  {
    if s != "" && Digit(s[0]) {
      ds, t := DigitsFirst(s[1..]);
      ds := [s[0]] + ds;
    } else {
      ds, t := "", s;
    }
  }

  /** Digits without leading zeros. */
  predicate Plain(ds: string) { ds != "" && AllDigits(ds) && (|ds| == 1 || ds[0] != '0') }

  lemma {:induction false} NumeralPositive(ds: string)
    requires AllDigits(ds) && ds != "" && ds[0] != '0'
    ensures 0 < Numeral(ds)
  {
    if |ds| > 1 { NumeralPositive(ds[..|ds| - 1]); }
  }

  /** The decimal text of n is the one row of digits without leading zeros that stands for it. */
  lemma {:induction false} DecimalExact(n: nat, ds: string)
    ensures ds == Decimal(n) <==> Plain(ds) && Numeral(ds) == n
  {
    DecimalPlain(n);
    if Plain(ds) && Numeral(ds) == n {
      var k := |ds| - 1;
      if k == 0 {
        assert Numeral(ds[..k]) == 0 && ds[0] in ds;
        assert n == DigitValue(ds[0]) && DigitOf(n) == ds[0];
        assert ds == [ds[0]];
      } else {
        NumeralPositive(ds[..k]);
        assert ds[k] in ds && n == 10 * Numeral(ds[..k]) + DigitValue(ds[k]);
        assert Numeral(ds[..k]) == n / 10 && ds[k] == DigitOf(n % 10);
        DecimalExact(n / 10, ds[..k]);
        assert ds == ds[..k] + [ds[k]];
      }
    }
  }

  lemma {:induction false} DecimalPlain(n: nat)
    ensures Plain(Decimal(n)) && Numeral(Decimal(n)) == n && (n > 0 ==> Decimal(n)[0] != '0')
  {
    if n >= 10 {
      DecimalPlain(n / 10);
      var s := Decimal(n);
      assert s[..|s| - 1] == Decimal(n / 10);
    } else {
      assert Decimal(n)[..0] == "";
    }
  }

  /** A decimal text, with a minus if it is negative. */
  predicate Shows(s: string, x: int) {
    if x < 0 then s != "" && s[0] == '-' && Plain(s[1..]) && Numeral(s[1..]) == -x else Plain(s) && Numeral(s) == x
  }

  function Integer(x: int): string { (if x < 0 then "-" else "") + Decimal(Magnitude(x)) }

  lemma IntegerExact(x: int, s: string)
    ensures s == Integer(x) <==> Shows(s, x)
  {
    if x < 0 {
      assert Integer(x)[1..] == Decimal(-x);
      if s != "" { DecimalExact(-x, s[1..]); }
      DecimalExact(-x, Decimal(-x));
      assert s != "" && s[0] == '-' ==> s == "-" + s[1..];
    } else {
      DecimalExact(x, s);
      assert Integer(x) == Decimal(x);
    }
  }

  /** A printed value is its decimal text, a point and six zeros. */
  lemma PrintedExact(x: Value, s: string)
    ensures s == Printed(x) <==>
      |s| > 7 && s[|s| - 7] == '.' && (forall i | |s| - 6 <= i < |s| :: s[i] == '0') && Shows(s[..|s| - 7], x)
  {
    var r := Printed(x);
    assert r == Integer(x) + ".000000" && r[..|r| - 7] == Integer(x);
    hide Shows, Integer;
    IntegerExact(x, Integer(x));
    if |s| > 7 && s[|s| - 7] == '.' && (forall i | |s| - 6 <= i < |s| :: s[i] == '0') && Shows(s[..|s| - 7], x) {
      IntegerExact(x, s[..|s| - 7]);
      Fraction(s[|s| - 7..]);
      assert s == s[..|s| - 7] + s[|s| - 7..];
    }
  }

  lemma Fraction(t: string)
    requires |t| == 7 && t[0] == '.' && forall i | 1 <= i < 7 :: t[i] == '0'
    ensures t == ".000000"
  {
    assert t == [t[0], t[1], t[2], t[3], t[4], t[5], t[6]];
  }

  /** Reading an integer gives it back, whatever follows that is no digit. */
  lemma AtoiInteger(x: int, t: string)
    requires Stops(t)
    ensures Atoi(Integer(x) + t) == x && Atoi("+" + Decimal(Magnitude(x)) + t) == Magnitude(x)
    ensures Word(Integer(x))
  {
    var n := Magnitude(x);
    DecimalPlain(n);
    hide Decimal, Atoi, Numeral, Digits;
    AtoiExact("", if x < 0 then "-" else "", Decimal(n), t);
    AtoiExact("", "+", Decimal(n), t);
    assert "" + (if x < 0 then "-" else "") + Decimal(n) + t == Integer(x) + t;
    assert "" + "+" + Decimal(n) + t == "+" + Decimal(n) + t;
  }

  /** Reading a printed number gives it back. */
  lemma AtoiPrinted(x: Value)
    ensures Atoi(Printed(x)) == x && Word(Printed(x))
  {
    AtoiInteger(x, ".000000");
    assert Printed(x) == Integer(x) + ".000000";
  }

  // ---------------------------------------------------------------------------
  // Operators
  // ---------------------------------------------------------------------------

  datatype Option<T> = None | Some(value: T)

  function ParseOp(t: string): Option<Op> {
    if t == "=" then Some(Eq)
    else if t == "!=" then Some(Ne)
    else if t == ">" then Some(Gt)
    else if t == ">=" then Some(Ge)
    else if t == "<" then Some(Lt)
    else if t == "<=" then Some(Le)
    else None
  }

  /** The comparisons the router reads. */
  predicate Signed(o: Op) { o.Supported() && o != Exists }

  /** The comparisons the library offers. */
  predicate Printable(o: Op) { Signed(o) && o != Ne }

  function OpSign(o: Op): string
    requires Signed(o)
  {
    match o
    case Eq => "="
    case Ne => "!="
    case Lt => "<"
    case Gt => ">"
    case Le => "<="
    case Ge => ">="
  }

  /** Each comparison has its sign, and no other text is read as one. */
  lemma SignExact(t: string, o: Op)
    ensures ParseOp(t) == Some(o) <==> Signed(o) && t == OpSign(o)
    ensures ParseOp(t).Some? ==> Signed(ParseOp(t).value)
    ensures Signed(o) ==> Word(OpSign(o))
  {}
}
