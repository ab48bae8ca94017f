/** The parts of Go's `strings` and `strconv` that the cron code uses. */
module Text {
  import opened Options

  const MAX_INT := 0x7fff_ffff_ffff_ffff

  // ----- white space -----

  /** Go's `unicode.IsSpace`. */
  predicate IsSpace(c: char) {
    c in "\t\n\U{0B}\U{0C}\r \U{85}\U{A0}\U{1680}\U{2028}\U{2029}\U{202F}\U{205F}\U{3000}"
    || '\U{2000}' <= c <= '\U{200A}'
  }

  ghost predicate SpaceFree(s: string) { forall c :: c in s ==> !IsSpace(c) }

  ghost predicate IsToken(s: string) { s != "" && SpaceFree(s) }

  ghost predicate Lacks(s: string, c: char) { c !in s }

  function TrimLeft(s: string): (r: string)
    ensures r == "" || !IsSpace(r[0])
    ensures |r| <= |s| && r == s[|s| - |r|..]
  {
    if s == "" || !IsSpace(s[0]) then s else TrimLeft(s[1..])
  }

  function TrimRight(s: string): (r: string)
    ensures r == "" || !IsSpace(r[|r| - 1])
    ensures r <= s
  {
    if s == "" || !IsSpace(s[|s| - 1]) then s else TrimRight(s[..|s| - 1])
  }

  /** `strings.TrimSpace`. */
  function TrimSpace(s: string): (r: string)
    ensures r == "" || (!IsSpace(r[0]) && !IsSpace(r[|r| - 1]))
  {
    TrimRight(TrimLeft(s))
  }

  lemma TrimmedStays(s: string)
    requires s == "" || (!IsSpace(s[0]) && !IsSpace(s[|s| - 1]))
    ensures TrimSpace(s) == s
  {
  }

  ghost predicate AllSpace(s: string) { forall c :: c in s ==> IsSpace(c) }

  lemma {:induction false} TrimLeftDrops(left: string, s: string)
    requires AllSpace(left)
    ensures TrimLeft(left + s) == TrimLeft(s)
  {
    if left == "" {
      assert left + s == s;
    } else {
      assert left[0] in left && (left + s)[1..] == left[1..] + s;
      TrimLeftDrops(left[1..], s);
    }
  }

  lemma {:induction false} TrimRightDrops(s: string, right: string)
    requires AllSpace(right)
    ensures TrimRight(s + right) == TrimRight(s)
  {
    if right == "" {
      assert s + right == s;
    } else {
      var n := |right| - 1;
      assert right[n] in right && (s + right)[..|s + right| - 1] == s + right[..n];
      TrimRightDrops(s, right[..n]);
    }
  }

  /** Trimming takes away exactly the white space around the text. */
  lemma TrimDrops(left: string, s: string, right: string)
    requires AllSpace(left) && AllSpace(right)
    requires s == "" || (!IsSpace(s[0]) && !IsSpace(s[|s| - 1]))
    ensures TrimSpace(left + s + right) == s
  {
    hide IsSpace;
    if s == "" {
      assert left + s + right == left + right;
      TrimLeftDrops(left, right);
      assert right + "" == right && "" + right == right;
      TrimLeftDrops(right, "");
    } else {
      assert left + s + right == left + (s + right);
      TrimLeftDrops(left, s + right);
      TrimRightDrops(s, right);
    }
  }

  function TokenLength(s: string): (n: nat)
    ensures n <= |s|
    ensures forall i :: 0 <= i < n ==> !IsSpace(s[i])
    ensures n < |s| ==> IsSpace(s[n])
  {
    if s == "" || IsSpace(s[0]) then 0 else 1 + TokenLength(s[1..])
  }

  /** `strings.Fields`. */
  function Fields(s: string): (r: seq<string>)
    ensures forall f :: f in r ==> IsToken(f)
    decreases |s|
  {
    if s == "" then []
    else if IsSpace(s[0]) then Fields(s[1..])
    else
      var n := TokenLength(s);
      assert IsToken(s[..n]);
      [s[..n]] + Fields(s[n..])
  }

  // ----- splitting and joining -----

  /** `strings.Join`. */
  function Join(parts: seq<string>, separator: string): string {
    if parts == [] then ""
    else if |parts| == 1 then parts[0]
    else parts[0] + separator + Join(parts[1..], separator)
  }

  /** `strings.Split` on a one-character separator. */
  function Split(s: string, c: char): (r: seq<string>)
    ensures |r| >= 1
    ensures forall p :: p in r ==> Lacks(p, c)
    ensures c in s <==> |r| >= 2
  {
    if s == "" then [""]
    else
      var rest := Split(s[1..], c);
      assert s == [s[0]] + s[1..];
      assert rest[0] in rest && forall p :: p in rest[1..] ==> p in rest;
      if s[0] == c then [""] + rest else [[s[0]] + rest[0]] + rest[1..]
  }

  lemma {:induction false} SplitPiece(piece: string, c: char)
    requires Lacks(piece, c)
    ensures Split(piece, c) == [piece]
  {
    if piece != "" {
      SplitPiece(piece[1..], c);
      assert piece == [piece[0]] + piece[1..];
    }
  }

  lemma {:induction false} SplitFirst(piece: string, rest: string, c: char)
    requires Lacks(piece, c)
    ensures Split(piece + [c] + rest, c) == [piece] + Split(rest, c)
  {
    var s := piece + [c] + rest;
    if piece == "" {
      assert s[1..] == rest;
    } else {
      SplitFirst(piece[1..], rest, c);
      assert s[1..] == piece[1..] + [c] + rest;
      assert piece == [piece[0]] + piece[1..];
    }
  }

  /** Splitting undoes joining. */
  lemma {:induction false} SplitJoin(parts: seq<string>, c: char)
    requires parts != [] && forall p :: p in parts ==> Lacks(p, c)
    ensures Split(Join(parts, [c]), c) == parts
  {
    if |parts| == 1 {
      SplitPiece(parts[0], c);
    } else {
      SplitFirst(parts[0], Join(parts[1..], [c]), c);
      SplitJoin(parts[1..], c);
    }
  }

  /** Joining undoes splitting. */
  lemma {:induction false} SplitAll(s: string, c: char)
    ensures Join(Split(s, c), [c]) == s
  {
    if s != "" {
      var rest := Split(s[1..], c);
      SplitAll(s[1..], c);
      assert s == [s[0]] + s[1..];
      if s[0] == c {
        assert ([""] + rest)[1..] == rest;
      } else {
        assert ([[s[0]] + rest[0]] + rest[1..])[1..] == rest[1..];
      }
    }
  }

  lemma {:induction false} TokenLengthOf(token: string, rest: string)
    requires SpaceFree(token) && (rest == "" || IsSpace(rest[0]))
    ensures TokenLength(token + rest) == |token|
  {
    if token == "" {
      assert token + rest == rest;
    } else {
      TokenLengthOf(token[1..], rest);
      assert (token + rest)[1..] == token[1..] + rest;
      assert token[0] in token;
    }
  }

  /** Reading fields undoes joining tokens with single spaces. */
  lemma {:induction false} FieldsJoin(tokens: seq<string>)
    requires forall t :: t in tokens ==> IsToken(t)
    ensures Fields(Join(tokens, " ")) == tokens
  {
    if tokens != [] {
      var line := Join(tokens, " ");
      var first := tokens[0];
      assert first in tokens;
      assert first[0] in first;
      if |tokens| == 1 {
        TokenLengthOf(first, "");
        assert first + "" == first;
        assert Fields("") == [];
      } else {
        var rest := Join(tokens[1..], " ");
        TokenLengthOf(first, " " + rest);
        assert line == first + (" " + rest);
        assert line[|first|..] == " " + rest;
        assert (" " + rest)[1..] == rest;
        FieldsJoin(tokens[1..]);
      }
    }
  }

  lemma {:induction false} FieldsDrop(left: string, s: string)
    requires AllSpace(left)
    ensures Fields(left + s) == Fields(s)
  {
    if left == "" {
      assert left + s == s;
    } else {
      assert left[0] in left && (left + s)[1..] == left[1..] + s;
      FieldsDrop(left[1..], s);
    }
  }

  /** One word between white space. */
  lemma FieldsOfWord(left: string, word: string, right: string)
    requires AllSpace(left) && AllSpace(right) && IsToken(word)
    ensures Fields(left + word + right) == [word]
  {
    assert left + word + right == left + (word + right);
    FieldsDrop(left, word + right);
    assert right != "" ==> right[0] in right;
    TokenLengthOf(word, right);
    assert word[0] in word;
    assert (word + right)[|word|..] == right && (word + right)[..|word|] == word;
    assert right + "" == right && Fields("") == [];
    FieldsDrop(right, "");
  }

  /** A joined line of tokens has no outer white space. */
  lemma {:induction false} JoinTrimmed(tokens: seq<string>)
    requires tokens != [] && forall t :: t in tokens ==> IsToken(t)
    ensures var line := Join(tokens, " ");
            && tokens[0] <= line && line != ""
            && !IsSpace(line[0]) && !IsSpace(line[|line| - 1])
  {
    var first := tokens[0];
    assert first in tokens;
    assert first[0] in first && first[|first| - 1] in first;
    if |tokens| > 1 {
      JoinTrimmed(tokens[1..]);
    }
  }

  lemma {:induction false} JoinAppend(a: seq<string>, b: seq<string>, separator: string)
    requires a != [] && b != []
    ensures Join(a + b, separator) == Join(a, separator) + separator + Join(b, separator)
  {
    hide Join;
    assert a + b != [] && (a + b)[0] == a[0];
    JoinFirst(a + b, separator);
    JoinFirst(a, separator);
    if |a| == 1 {
      assert (a + b)[1..] == b;
    } else {
      assert (a + b)[1..] == a[1..] + b;
      JoinAppend(a[1..], b, separator);
      Regrouped(a[0], separator, Join(a[1..], separator), Join(b, separator));
    }
  }

  lemma JoinFirst(parts: seq<string>, separator: string)
    requires parts != []
    ensures |parts| == 1 ==> Join(parts, separator) == parts[0]
    ensures |parts| > 1 ==> Join(parts, separator) == parts[0] + separator + Join(parts[1..], separator)
  {
  }

  lemma Regrouped(a: string, separator: string, b: string, c: string)
    ensures a + separator + (b + separator + c) == a + separator + b + separator + c
  {
  }

  // ----- decimal numbers -----

  predicate IsDigit(c: char) { '0' <= c <= '9' }

  ghost predicate AllDigits(s: string) { forall c :: c in s ==> IsDigit(c) }

  predicate OnlyDigits(s: string)
    ensures OnlyDigits(s) <==> AllDigits(s)
  {
    forall i :: 0 <= i < |s| ==> IsDigit(s[i])
  }

  function DigitValue(c: char): nat
    requires IsDigit(c)
  {
    c as int - '0' as int
  }

  function DecimalValue(s: string): nat
    requires AllDigits(s)
  {
    if s == "" then 0
    else
      assert s[|s| - 1] in s;
      10 * DecimalValue(s[..|s| - 1]) + DigitValue(s[|s| - 1])
  }

  /** `strconv.Atoi`: an optional sign, digits, and a value that fits in 64 bits. */
  function Atoi(s: string): Option<int> {
    var digits := if s != "" && (s[0] == '+' || s[0] == '-') then s[1..] else s;
    if digits == "" || !OnlyDigits(digits) then None
    else
      var magnitude: int := DecimalValue(digits);
      var value := if s[0] == '-' then -magnitude else magnitude;
      if -MAX_INT - 1 <= value <= MAX_INT then Some(value) else None
  }

  /** The text is a number with an optional sign. */
  ghost predicate Denotes(s: string, v: int) {
    exists digits: string :: SignedDigits(s, digits, v)
  }

  ghost predicate SignedDigits(s: string, digits: string, v: int) {
    && digits != "" && AllDigits(digits)
    && (((s == digits || s == "+" + digits) && v == DecimalValue(digits))
        || (s == "-" + digits && v + DecimalValue(digits) == 0))
  }

  ghost predicate Fits(v: int) { -MAX_INT - 1 <= v <= MAX_INT }

  /** `Atoi` reads exactly the signed decimal numbers that fit in 64 bits. */
  lemma AtoiExactly(s: string, v: int)
    ensures Atoi(s) == Some(v) <==> Denotes(s, v) && Fits(v)
  {
    hide DecimalValue;
    if digits: string :| SignedDigits(s, digits, v) {
      assert digits[0] in digits;
      assert s[0] == '+' || s[0] == '-' ==> s[1..] == digits;
    }
    if Atoi(s) == Some(v) {
      var digits := if s != "" && (s[0] == '+' || s[0] == '-') then s[1..] else s;
      assert digits == s || [s[0]] + digits == s;
      assert SignedDigits(s, digits, v);
    }
  }

  function DigitChar(d: nat): (c: char)
    requires d < 10
    ensures IsDigit(c)
  {
    d as char + '0'
  }

  /** `strconv.Itoa` on a non-negative number. */
  function Itoa(n: nat): (s: string)
    ensures s != "" && AllDigits(s)
  {
    if n < 10 then [DigitChar(n)] else Itoa(n / 10) + [DigitChar(n % 10)]
  }

  lemma {:induction false} DecimalOfItoa(n: nat)
    ensures DecimalValue(Itoa(n)) == n
  {
    if n < 10 {
      assert Itoa(n)[..0] == "";
    } else {
      DecimalOfItoa(n / 10);
      assert Itoa(n)[..|Itoa(n)| - 1] == Itoa(n / 10);
    }
  }

  /** Reading undoes printing. */
  lemma AtoiOfItoa(n: nat)
    requires n <= MAX_INT
    ensures Atoi(Itoa(n)) == Some(n)
  {
    DecimalOfItoa(n);
    assert Itoa(n)[0] in Itoa(n);
  }
}
