/**
 * parse_size: turns a size such as "4G", "5KB" or " 40 G" into a byte count.
 *
 * The input is upper-cased; unless it starts with a space it is rewritten by
 * re.sub(r'([KMGT]?B?)', r' \1', ...), which (with Python 3.7+ semantics for
 * empty matches) puts a space before every unit run and before every other
 * character, and one more at the end; the result is split on whitespace and
 * must give exactly a number token and a unit token.
 */
module SizeParsing {
  import opened Outcomes
  import opened Text
  import opened ByteUnits

  /** The unit table: powers of 1024, with and without the trailing "B". */
  const Units: map<string, nat> :=
    map["B" := 1, "KB" := KiB, "MB" := MiB, "GB" := GiB, "TB" := TiB,
        "K" := KiB, "M" := MiB, "G" := GiB, "T" := TiB]

  datatype SizeError =
    | WrongTokenCount(count: nat)   // unpacking into (number, unit) fails
    | NotANumber(token: string)     // float(number) fails
    | UnknownUnit(token: string)    // units[unit] fails

  /** The table has exactly the nine keys, and each letter means the same with or without "B". */
  lemma UnitTable()
    ensures Units.Keys == {"B", "K", "KB", "M", "MB", "G", "GB", "T", "TB"}
    ensures Units["B"] == 1
    ensures Units["K"] == Units["KB"] == 0x400
    ensures Units["M"] == Units["MB"] == 0x10_0000
    ensures Units["G"] == Units["GB"] == 0x4000_0000
    ensures Units["T"] == Units["TB"] == 0x100_0000_0000
  {
  }

  // ---------------------------------------------------------------------
  // The number token: ASCII decimal digits

  predicate IsDigit(c: char) { '0' <= c <= '9' }

  predicate IsDigits(s: string)
  {
    s != [] && forall i :: 0 <= i < |s| ==> IsDigit(s[i])
  }

  function DigitValue(c: char): nat
    requires IsDigit(c)
  {
    c as int - '0' as int
  }

  /** The value of a decimal digit string, leading zeros allowed. */
  function DigitsValue(s: string): (v: nat)
    requires forall i :: 0 <= i < |s| ==> IsDigit(s[i])
  {
    if s == [] then 0 else DigitsValue(s[..|s| - 1]) * 10 + DigitValue(s[|s| - 1])
  }

  /** The shortest decimal spelling of n. */
  function Decimal(n: nat): (s: string)
    ensures IsDigits(s)
  {
    if n < 10 then ['0' + n as char] else Decimal(n / 10) + ['0' + (n % 10) as char]
  }

  lemma {:induction false} DecimalRoundTrip(n: nat)
    ensures DigitsValue(Decimal(n)) == n
  {
    if n >= 10 {
      var d := Decimal(n / 10);
      var s := d + ['0' + (n % 10) as char];
      assert s[..|s| - 1] == d;
      DecimalRoundTrip(n / 10);
    }
  }

  // ---------------------------------------------------------------------
  // The regular-expression rewrite

  predicate IsUnitLetter(c: char) { c == 'K' || c == 'M' || c == 'G' || c == 'T' }

  /** A character that can begin a non-empty match of [KMGT]?B? */
  predicate IsUnitChar(c: char) { IsUnitLetter(c) || c == 'B' }

  /** Length of the greedy match of [KMGT]?B? at the start of s (0 for the empty match). */
  function UnitRunLength(s: string): (n: nat)
    ensures n <= 2 && n <= |s|
    ensures n == 0 <==> s == [] || !IsUnitChar(s[0])
    ensures n == 2 <==> |s| >= 2 && IsUnitLetter(s[0]) && s[1] == 'B'
  {
    if s != [] && IsUnitLetter(s[0]) then (if |s| >= 2 && s[1] == 'B' then 2 else 1)
    else if s != [] && s[0] == 'B' then 1
    else 0
  }

  /**
   * Length of the next piece the rewrite puts a space in front of: the unit run
   * if there is one, otherwise the single character that follows an empty match.
   */
  function PieceLength(s: string): (n: nat)
    requires s != []
    ensures 1 <= n <= |s|
  {
    if UnitRunLength(s) == 0 then 1 else UnitRunLength(s)
  }

  /** re.sub(r'([KMGT]?B?)', r' \1', s) as Python 3.7 and later compute it. */
  function Rewrite(s: string): (r: string)
    ensures r != [] && r[0] == ' '
    decreases |s|
  {
    if s == [] then " "
    else
      var n := PieceLength(s);
      " " + s[..n] + Rewrite(s[n..])
  }

  /** A piece is one character, or a unit letter followed by "B". */
  predicate IsPiece(p: string)
  {
    |p| == 1 || (|p| == 2 && IsUnitLetter(p[0]) && p[1] == 'B')
  }

  /** The pieces of s in order: what the rewrite separates by spaces. */
  function Pieces(s: string): (ps: seq<string>)
    ensures forall p :: p in ps ==> IsPiece(p)
    decreases |s|
  {
    if s == [] then []
    else
      var n := PieceLength(s);
      [s[..n]] + Pieces(s[n..])
  }

  /** The pieces glued back together. */
  function Concat(ps: seq<string>): (s: string)
  {
    if ps == [] then [] else ps[0] + Concat(ps[1..])
  }

  /** Each piece with a space in front, and one space at the end. */
  function Spaced(ps: seq<string>): (s: string)
  {
    if ps == [] then " " else " " + ps[0] + Spaced(ps[1..])
  }

  /** A unit letter standing alone as a piece is never followed by "B": the match is greedy. */
  predicate Greedy(ps: seq<string>)
  {
    forall i :: 0 <= i < |ps| - 1 ==>
      (|ps[i]| == 1 && IsUnitLetter(ps[i][0]) ==> ps[i + 1] != [] && ps[i + 1][0] != 'B')
  }

  /** The pieces cut s into consecutive parts. */
  lemma {:induction false} PiecesConcat(s: string)
    ensures Concat(Pieces(s)) == s
    decreases |s|
  {
    if s != [] {
      var n := PieceLength(s);
      assert Pieces(s)[1..] == Pieces(s[n..]);
      PiecesConcat(s[n..]);
      assert s[..n] + s[n..] == s;
    }
  }

  /** The rewrite puts a space before each piece and one at the end. */
  lemma {:induction false} RewriteSpaced(s: string)
    ensures Rewrite(s) == Spaced(Pieces(s))
    decreases |s|
  {
    if s != [] {
      var n := PieceLength(s);
      assert Pieces(s)[1..] == Pieces(s[n..]);
      RewriteSpaced(s[n..]);
    }
  }

  /** The pieces are the greedy matches: a unit letter followed by "B" is never split apart. */
  lemma {:induction false} PiecesGreedy(s: string)
    ensures Greedy(Pieces(s))
    decreases |s|
  {
    if s != [] {
      var n := PieceLength(s);
      var ps := Pieces(s);
      var tail := Pieces(s[n..]);
      assert ps == [s[..n]] + tail;
      PiecesGreedy(s[n..]);
      if n == 1 && IsUnitLetter(s[0]) && |ps| >= 2 {
        assert s[n..] != [] && tail[0] == s[n..][..PieceLength(s[n..])];
        assert tail[0][0] == s[1];
      }
      assert forall i :: 1 <= i < |ps| ==> ps[i] == tail[i - 1];
    }
  }

  /** The pieces that survive splitting on whitespace: all but single whitespace characters. */
  function NonBlank(ps: seq<string>): (r: seq<string>)
    requires forall p :: p in ps ==> IsPiece(p)
    ensures forall p :: p in r ==> p in ps && IsPiece(p) && !IsSpace(p[0])
  {
    if ps == [] then []
    else
      assert ps[0] in ps && IsPiece(ps[0]);
      if IsSpace(ps[0][0]) then NonBlank(ps[1..]) else [ps[0]] + NonBlank(ps[1..])
  }

  /** A character that starts no unit run is a piece of its own. */
  lemma PiecesAfterSingle(s: string)
    requires s != [] && !(|s| >= 2 && IsUnitLetter(s[0]) && s[1] == 'B')
    ensures Pieces(s) == [[s[0]]] + Pieces(s[1..])
  {
    assert PieceLength(s) == 1;
    assert s[..1] == [s[0]];
  }

  /** A non-empty match of [KMGT]?B? */
  predicate IsUnitRun(u: string)
  {
    (|u| == 1 && IsUnitChar(u[0])) || (|u| == 2 && IsUnitLetter(u[0]) && u[1] == 'B')
  }

  /** A unit run on its own is one piece. */
  lemma PiecesOfUnitRun(u: string)
    requires IsUnitRun(u)
    ensures Pieces(u) == [u]
  {
    assert PieceLength(u) == |u|;
    assert u[..|u|] == u && u[|u|..] == [];
  }

  lemma NonBlankKeeps(p: string, ps: seq<string>)
    requires IsPiece(p) && !IsSpace(p[0])
    requires forall q :: q in ps ==> IsPiece(q)
    ensures NonBlank([p] + ps) == [p] + NonBlank(ps)
  {
    assert ([p] + ps)[1..] == ps;
  }

  lemma PieceHasNoSpace(p: string)
    requires IsPiece(p) && !IsSpace(p[0])
    ensures p != [] && NoSpace(p)
  {
  }

  /** Splitting the rewritten string yields exactly the non-blank pieces. */
  lemma {:induction false} SplitRewrite(s: string)
    ensures Split(Rewrite(s)) == NonBlank(Pieces(s))
    decreases |s|
  {
    if s == [] {
      SplitLeadingSpace(' ', []);
    } else {
      var n := PieceLength(s);
      var p := s[..n];
      var r := Rewrite(s[n..]);
      assert Rewrite(s) == [' '] + (p + r);
      SplitLeadingSpace(' ', p + r);
      assert p in Pieces(s);
      if IsSpace(p[0]) {
        assert |p| == 1 && p + r == [p[0]] + r;
        SplitLeadingSpace(p[0], r);
      } else {
        PieceHasNoSpace(p);
        SplitAfterToken(p, r);
      }
      SplitRewrite(s[n..]);
    }
  }

  /** The unit names are exactly the non-empty matches of [KMGT]?B? */
  lemma UnitKeys(u: string)
    ensures u in Units <==> IsUnitRun(u)
  {
    if |u| == 1 {
      assert u == [u[0]];
    } else if |u| == 2 {
      assert u == [u[0], u[1]];
    }
  }

  lemma UnitsAtMostTiB(u: string)
    requires u in Units
    ensures 1 <= Units[u] <= TiB
  {
  }

  lemma ProductBound(d: nat, m: nat)
    requires d <= 9 && m <= TiB
    ensures d * m <= 9 * TiB
  {
    assert d * m <= 9 * m;
  }

  // ---------------------------------------------------------------------
  // parse_size

  /** The rewrite is skipped when the (upper-cased) input begins with a space. */
  function Prepare(u: string): (p: string)
    ensures u != [] ==> p != [] && p[0] == ' '
    ensures u != [] && u[0] == ' ' ==> p == u
    ensures u == [] ==> p == " "
  {
    if u != [] && u[0] == ' ' then u else Rewrite(u)
  }

  /** Unpack the tokens into number and unit, convert the number and look up the unit. */
  function FromTokens(tokens: seq<string>): (r: Result<nat, SizeError>)
    ensures r.Ok? <==> |tokens| == 2 && IsDigits(tokens[0]) && tokens[1] in Units
    ensures r.Ok? ==> r.value == DigitsValue(tokens[0]) * Units[tokens[1]]
    ensures |tokens| != 2 ==> r == Err(WrongTokenCount(|tokens|))
  {
    if |tokens| != 2 then Err(WrongTokenCount(|tokens|))
    else if !IsDigits(tokens[0]) then Err(NotANumber(tokens[0]))
    else if tokens[1] !in Units then Err(UnknownUnit(tokens[1]))
    else Ok(DigitsValue(tokens[0]) * Units[tokens[1]])
  }

  /** The list of whitespace-separated tokens that parse_size unpacks. */
  function Tokens(size: string): (tokens: seq<string>)
  {
    Split(Prepare(Upper(size)))
  }

  /**
   * Succeeds exactly when the tokens are a number and a unit of the table, and
   * then gives the number times the unit's multiplier.
   */
  function ParseSize(size: string): (r: Result<nat, SizeError>)
    ensures var ts := Tokens(size);
      r.Ok? <==> |ts| == 2 && IsDigits(ts[0]) && ts[1] in Units
    ensures var ts := Tokens(size);
      r.Ok? ==> r.value == DigitsValue(ts[0]) * Units[ts[1]]
  {
    FromTokens(Tokens(size))
  }

  // ---------------------------------------------------------------------
  // Properties

  /** Only the upper-case form of each character matters. */
  lemma CaseInsensitive(s: string, t: string)
    requires |s| == |t|
    requires forall i :: 0 <= i < |s| ==> UpperChar(s[i]) == UpperChar(t[i])
    ensures ParseSize(s) == ParseSize(t)
  {
    assert Upper(s) == Upper(t);
  }

  /** An input that begins with a space is only split, never rewritten. */
  lemma SpacedInputIsSplitOnly(s: string)
    requires s != [] && s[0] == ' '
    ensures ParseSize(s) == FromTokens(Split(Upper(s)))
  {
  }

  /** A space, a decimal number, a space and a unit (in any case) parse to number times multiplier. */
  lemma SpacedRoundTrip(n: nat, unit: string)
    requires Upper(unit) in Units
    ensures ParseSize(" " + Decimal(n) + " " + unit) == Ok(n * Units[Upper(unit)])
  {
    UnitKeys(Upper(unit));
    SpacedTokens(Decimal(n), unit);
    DecimalRoundTrip(n);
  }

  lemma SpacedTokens(digits: string, unit: string)
    requires IsDigits(digits) && IsUnitRun(Upper(unit))
    ensures Tokens(" " + digits + " " + unit) == [digits, Upper(unit)]
  {
    var upper := Upper(" " + digits + " " + unit);
    SpacedUpper(digits, unit);
    assert Prepare(upper) == upper;
    SplitSpacedPair(digits, Upper(unit));
  }

  lemma SpacedUpper(digits: string, unit: string)
    requires IsDigits(digits)
    ensures Upper(" " + digits + " " + unit) == [' '] + Join([digits, Upper(unit)])
  {
    var head := " " + digits + " ";
    DigitsUnchanged(head);
    UpperConcat(head, unit);
    JoinPair(digits, Upper(unit));
  }

  lemma DigitsUnchanged(head: string)
    requires |head| >= 2 && head[0] == head[|head| - 1] == ' ' && IsDigits(head[1..|head| - 1])
    ensures Upper(head) == head
  {
    assert forall i :: 1 <= i < |head| - 1 ==> head[i] == head[1..|head| - 1][i - 1];
    UpperUnchanged(head);
  }

  lemma SplitSpacedPair(digits: string, u: string)
    requires IsDigits(digits) && IsUnitRun(u)
    ensures Split([' '] + Join([digits, u])) == [digits, u]
  {
    var pair := [digits, u];
    assert NoSpace(digits);
    PieceHasNoSpace(u);
    assert forall t :: t in pair ==> t == digits || t == u;
    SplitLeadingSpace(' ', Join(pair));
    SplitJoin(pair);
  }

  /** Without a leading space, the tokens are exactly the non-blank pieces. */
  lemma UnspacedTokens(s: string)
    requires Upper(s) == [] || Upper(s)[0] != ' '
    ensures Tokens(s) == NonBlank(Pieces(Upper(s)))
  {
    SplitRewrite(Upper(s));
  }

  /**
   * Without a leading space, a successful parse has a number of exactly one
   * digit, so the result is a digit times a multiplier and never above 9 TiB.
   */
  lemma UnspacedSuccess(s: string)
    requires Upper(s) == [] || Upper(s)[0] != ' '
    requires ParseSize(s).Ok?
    ensures var ts := NonBlank(Pieces(Upper(s)));
      |ts| == 2 && |ts[0]| == 1 && IsDigit(ts[0][0]) && ts[1] in Units &&
      ParseSize(s).value == DigitValue(ts[0][0]) * Units[ts[1]]
    ensures ParseSize(s).value <= 9 * TiB
  {
    UnspacedTokens(s);
    var ts := NonBlank(Pieces(Upper(s)));
    assert ts[0] in ts;
    assert ts[0] == [ts[0][0]];
    assert DigitsValue(ts[0]) == DigitValue(ts[0][0]) by {
      assert ts[0][..0] == [];
    }
    UnitsAtMostTiB(ts[1]);
    ProductBound(DigitValue(ts[0][0]), Units[ts[1]]);
  }

  /**
   * Without a leading space, two leading characters that are neither whitespace
   * nor unit characters make the parse fail: "40G", "1.5G", "4096".
   */
  lemma UnspacedLongNumberFails(s: string)
    requires |s| >= 2
    requires !IsSpace(UpperChar(s[0])) && !IsSpace(UpperChar(s[1]))
    requires !IsUnitChar(UpperChar(s[1]))
    ensures ParseSize(s).Err?
  {
    var u := Upper(s);
    UnspacedTokens(s);
    var rest := u[2..];
    PiecesAfterSingle(u);
    assert u[1..][0] == u[1] && u[1..][1..] == rest;
    PiecesAfterSingle(u[1..]);
    var tail := Pieces(rest);
    assert Pieces(u) == [[u[0]]] + ([[u[1]]] + tail);
    NonBlankKeeps([u[1]], tail);
    NonBlankKeeps([u[0]], [[u[1]]] + tail);
    var ts := NonBlank(Pieces(u));
    assert ts[0] == [u[0]] && ts[1] == [u[1]] && |ts| >= 2;
    UnitKeys([u[1]]);
  }

  /** A bare number without a unit never parses, whatever its length. */
  lemma BareNumberFails(s: string)
    requires IsDigits(s)
    ensures ParseSize(s).Err?
  {
    if |s| >= 2 {
      UnspacedLongNumberFails(s);
    } else {
      UnspacedTokens(s);
      assert Upper(s) == s;
      if |s| == 1 {
        assert s[..1] == s && s[1..] == [];
        assert Pieces(s) == [s];
        assert NonBlank([s]) == [s];
      }
    }
  }

  /** One digit directly followed by a unit, in any case, parses to digit times multiplier. */
  lemma DigitAndUnit(d: char, unit: string)
    requires IsDigit(d) && Upper(unit) in Units
    ensures ParseSize([d] + unit) == Ok(DigitValue(d) * Units[Upper(unit)])
  {
    DigitAndUnitTokens(d, unit);
    assert DigitsValue([d]) == DigitValue(d) by {
      assert [d][..0] == [];
    }
  }

  lemma DigitAndUnitTokens(d: char, unit: string)
    requires IsDigit(d) && Upper(unit) in Units
    ensures Tokens([d] + unit) == [[d], Upper(unit)]
  {
    var u := Upper(unit);
    assert Upper([d]) == [d];
    UpperConcat([d], unit);
    UnspacedTokens([d] + unit);
    UnitKeys(u);
    DigitThenUnitPieces(d, u);
  }

  lemma DigitThenUnitPieces(d: char, u: string)
    requires IsDigit(d) && IsUnitRun(u)
    ensures NonBlank(Pieces([d] + u)) == [[d], u]
  {
    PiecesOfUnitRun(u);
    PiecesAfterSingle([d] + u);
    assert ([d] + u)[1..] == u;
    assert Pieces([d] + u) == [[d]] + [u];
    NonBlankKeeps(u, []);
    assert [u] + [] == [u];
    NonBlankKeeps([d], [u]);
  }

  /** The spaced form accepts a number of more than one digit. */
  lemma SpacedExample(s: string)
    requires s == " 40 G"
    ensures ParseSize(s) == Ok(40 * GiB)
  {
    var unit := s[4..];
    assert Upper(unit) == unit;
    assert Decimal(40) == "40";
    assert s == " " + Decimal(40) + " " + unit;
    SpacedRoundTrip(40, unit);
  }

  /** Unspaced inputs the rewrite splits into too many or the wrong tokens. */
  lemma RejectedExamples(s: string)
    requires s in {"40G", "1.5G", "4096", "40", "KB"}
    ensures ParseSize(s).Err?
  {
    if s == "4096" || s == "40" {
      BareNumberFails(s);
    } else if s == "KB" {
      UnspacedTokens(s);
      assert Upper(s) == s;
      PiecesOfUnitRun(s);
      assert s in Pieces(s);
    } else {
      UnspacedLongNumberFails(s);
    }
  }

  // ---------------------------------------------------------------------
  // Corrected rewrite: only non-empty unit runs get a space in front

  /** re.sub(r'([KMGT]B?|B)', r' \1', s): the rewrite without its empty matches. */
  function RewriteUnits(s: string): (r: string)
    decreases |s|
  {
    if s == [] then []
    else if UnitRunLength(s) > 0 then " " + s[..UnitRunLength(s)] + RewriteUnits(s[UnitRunLength(s)..])
    else [s[0]] + RewriteUnits(s[1..])
  }

  /** parse_size with the corrected rewrite. */
  function ParseSizeFixed(size: string): (r: Result<nat, SizeError>)
  {
    var u := Upper(size);
    FromTokens(Split(if u != [] && u[0] == ' ' then u else RewriteUnits(u)))
  }

  /** Each unit-run piece with a space in front; every other piece as it is. */
  function SpacedUnits(ps: seq<string>): (s: string)
  {
    if ps == [] then [] else (if IsUnitRun(ps[0]) then " " + ps[0] else ps[0]) + SpacedUnits(ps[1..])
  }

  /**
   * The corrected rewrite cuts the input into the same pieces as the original,
   * but puts a space only before the unit runs and none at the end.
   */
  lemma {:induction false} RewriteUnitsPieces(s: string)
    ensures RewriteUnits(s) == SpacedUnits(Pieces(s))
    decreases |s|
  {
    if s != [] {
      var n := PieceLength(s);
      assert Pieces(s)[1..] == Pieces(s[n..]);
      RewriteUnitsPieces(s[n..]);
      if UnitRunLength(s) > 0 {
        assert IsUnitRun(s[..n]);
      } else {
        assert s[..n] == [s[0]] && !IsUnitRun(s[..n]);
      }
    }
  }

  lemma {:induction false} RewriteUnitsKeepsDigits(digits: string, rest: string)
    requires forall i :: 0 <= i < |digits| ==> IsDigit(digits[i])
    ensures RewriteUnits(digits + rest) == digits + RewriteUnits(rest)
    decreases |digits|
  {
    if digits == [] {
      assert digits + rest == rest;
    } else {
      var s := digits + rest;
      assert s[0] == digits[0] && s[1..] == digits[1..] + rest;
      assert UnitRunLength(s) == 0;
      RewriteUnitsKeepsDigits(digits[1..], rest);
      calc {
        RewriteUnits(s);
        [digits[0]] + RewriteUnits(digits[1..] + rest);
        [digits[0]] + (digits[1..] + RewriteUnits(rest));
        ([digits[0]] + digits[1..]) + RewriteUnits(rest);
        { assert [digits[0]] + digits[1..] == digits; }
        digits + RewriteUnits(rest);
      }
    }
  }

  lemma RewriteUnitsOfUnit(u: string)
    requires IsUnitRun(u)
    ensures RewriteUnits(u) == " " + u
  {
    assert UnitRunLength(u) == |u|;
    assert u[..|u|] == u && u[|u|..] == [];
  }

  lemma FixedTokens(n: nat, unit: string)
    requires IsUnitRun(Upper(unit))
    ensures Split(RewriteUnits(Upper(Decimal(n) + unit))) == [Decimal(n), Upper(unit)]
  {
    var d, u := Decimal(n), Upper(unit);
    DecimalUpper(d, unit);
    RewriteDecimalUnit(d, u);
    assert forall t :: t in [d, u] ==> t != [] && NoSpace(t);
    SplitJoin([d, u]);
  }

  lemma DecimalUpper(d: string, unit: string)
    requires IsDigits(d)
    ensures Upper(d + unit) == d + Upper(unit)
  {
    UpperConcat(d, unit);
    UpperUnchanged(d);
  }

  lemma RewriteDecimalUnit(d: string, u: string)
    requires IsDigits(d) && IsUnitRun(u)
    ensures RewriteUnits(d + u) == Join([d, u])
  {
    RewriteUnitsKeepsDigits(d, u);
    RewriteUnitsOfUnit(u);
    JoinPair(d, u);
  }

  /** With the corrected rewrite, any number glued to any unit parses: "40G" is 40 GiB. */
  lemma FixedRoundTrip(n: nat, unit: string)
    requires Upper(unit) in Units
    ensures ParseSizeFixed(Decimal(n) + unit) == Ok(n * Units[Upper(unit)])
  {
    UnitKeys(Upper(unit));
    UpperConcat(Decimal(n), unit);
    FixedTokens(n, unit);
    DecimalRoundTrip(n);
  }

  /** The corrected parser agrees with the source on inputs that begin with a space. */
  lemma FixedAgreesWhenSpaced(s: string)
    requires s != [] && s[0] == ' '
    ensures ParseSizeFixed(s) == ParseSize(s)
  {
  }

  /** "40G": rejected as written, forty gibibytes once only non-empty unit runs are spaced. */
  lemma FortyGibibytes(s: string)
    requires s == "40G"
    ensures ParseSize(s).Err?
    ensures ParseSizeFixed(s) == Ok(40 * GiB)
  {
    UnspacedLongNumberFails(s);
    var unit := s[2..];
    assert Decimal(40) == "40" && s == Decimal(40) + unit;
    assert Upper(unit) == unit;
    FixedRoundTrip(40, unit);
  }
}
