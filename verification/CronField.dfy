/** `parseCronField` of agent/internal/collector/snapshot.go, with the wrap-around of its
64-bit counter, against the stepped ranges a field names.
*/
module CronField {
  import opened Options
  import opened Text

  /** One comma-separated part: `first`, `first + step`, ... up to `last`. */
  datatype Stepped = Stepped(first: int, last: int, step: int) {
    predicate Names(v: int)
      requires step > 0
    {
      first <= v <= last && (v - first) % step == 0
    }

    /** The numbers the part names. */
    function Values(): set<int>
      requires step > 0
    {
      set v | first <= v <= last && Names(v)
    }

    /** The largest number it names. */
    function Largest(): int
      requires step > 0
    {
      last - (last - first) % step
    }

    /** Adding the step to the largest number stays within 64 bits. */
    predicate StepFits()
      requires step > 0
    {
      Largest() + step <= MAX_INT
    }
  }

  // ----- one part -----

  /** Everything the body of the parsing loop does with one part before it counts. */
  function ParsePart(part: string, minValue: int, maxValue: int): (r: Option<Stepped>)
    ensures r.Some? ==> minValue <= r.value.first <= r.value.last <= maxValue && 0 < r.value.step <= MAX_INT
  {
    var pieces := Split(part, '/');
    if part == "" || |pieces| > 2 then None
    else
      var step := if |pieces| == 2 then Atoi(pieces[1]) else Some(1);
      if step.None? || step.value <= 0 then None
      else
        var bounds := ParseBase(pieces[0], minValue, maxValue);
        if bounds.None? then None
        else
          var (first, last) := bounds.value;
          if first < minValue || last > maxValue || first > last then None
          else Some(Stepped(first, last, step.value))
  }

  function ParseBase(base: string, minValue: int, maxValue: int): Option<(int, int)> {
    if base == "*" then Some((minValue, maxValue))
    else
      var bounds := Split(base, '-');
      if |bounds| > 2 then None
      else
        var first, last := Atoi(bounds[0]), Atoi(bounds[|bounds| - 1]);
        if first.None? || last.None? then None else Some((first.value, last.value))
  }

  // ----- the texts of a part -----

  ghost predicate Number(s: string, v: int) { Denotes(s, v) && Fits(v) }

  ghost predicate Bounds(base: string, low: string, high: string, first: int, last: int) {
    base == low + "-" + high && Lacks(low, '-') && Lacks(high, '-') && Number(low, first) && Number(high, last)
  }

  /** A star, a number without a minus sign, or two of them with one between. */
  ghost predicate BaseText(base: string, minValue: int, maxValue: int, first: int, last: int) {
    || (base == "*" && first == minValue && last == maxValue)
    || (Lacks(base, '-') && Number(base, first) && last == first)
    || exists low, high :: Bounds(base, low, high, first, last)
  }

  ghost predicate SteppedText(part: string, base: string, step: string, n: int) {
    part == base + "/" + step && Lacks(step, '/') && Number(step, n) && n > 0
  }

  ghost predicate PartOver(part: string, base: string, minValue: int, maxValue: int, p: Stepped) {
    && Lacks(base, '/') && BaseText(base, minValue, maxValue, p.first, p.last)
    && minValue <= p.first <= p.last <= maxValue
    && ((part == base && p.step == 1) || exists step :: SteppedText(part, base, step, p.step))
  }

  /** The texts of a stepped range within the limits: a base, and perhaps a slash and a positive step. */
  ghost predicate PartText(part: string, minValue: int, maxValue: int, p: Stepped) {
    exists base :: PartOver(part, base, minValue, maxValue, p)
  }

  lemma SplitTwo(s: string, c: char)
    requires |Split(s, c)| == 2
    ensures s == Split(s, c)[0] + [c] + Split(s, c)[1]
  {
    hide Split;
    SplitAll(s, c);
    var r := Split(s, c);
    assert r[1..] == [r[1]];
    assert Join(r[1..], [c]) == r[1];
  }

  lemma BaseExactly(base: string, minValue: int, maxValue: int, first: int, last: int)
    ensures ParseBase(base, minValue, maxValue) == Some((first, last))
            <==> BaseText(base, minValue, maxValue, first, last)
  {
    hide Split, Atoi, Denotes, Fits;
    var bounds := Split(base, '-');
    AtoiExactly(bounds[0], first);
    AtoiExactly(bounds[|bounds| - 1], last);
    NoStar(first);
    if |bounds| == 1 { SplitAll(base, '-'); }
    if |bounds| == 2 { SplitTwo(base, '-'); }
    if Lacks(base, '-') { SplitPiece(base, '-'); }
    if low, high :| Bounds(base, low, high, first, last) {
      SplitFirst(low, high, '-');
      SplitPiece(high, '-');
      assert base[|low|] == '-';
    }
    if ParseBase(base, minValue, maxValue) == Some((first, last)) && base != "*" && |bounds| == 2 {
      assert Bounds(base, bounds[0], bounds[1], first, last);
    }
  }

  lemma NoStar(v: int)
    ensures !Denotes("*", v)
  {
    forall digits: string ensures !SignedDigits("*", digits, v) {
      if digits != "" { assert digits[0] in digits; }
    }
  }

  /** A part is accepted, as the stepped range `p`, exactly if its text is one of that range's texts. */
  lemma PartExactly(part: string, minValue: int, maxValue: int, p: Stepped)
    ensures ParsePart(part, minValue, maxValue) == Some(p) <==> PartText(part, minValue, maxValue, p)
  {
    hide Split, Atoi, Denotes, Fits, ParseBase, BaseText;
    var pieces := Split(part, '/');
    if ParsePart(part, minValue, maxValue) == Some(p) {
      BaseExactly(pieces[0], minValue, maxValue, p.first, p.last);
      var bounds := ParseBase(pieces[0], minValue, maxValue).value;
      assert bounds == (bounds.0, bounds.1);
      assert pieces[0] in pieces && pieces[|pieces| - 1] in pieces;
      if |pieces| == 2 {
        SplitTwo(part, '/');
        AtoiExactly(pieces[1], p.step);
        assert SteppedText(part, pieces[0], pieces[1], p.step);
      } else {
        SplitAll(part, '/');
      }
      assert PartOver(part, pieces[0], minValue, maxValue, p);
    }
    if base :| PartOver(part, base, minValue, maxValue, p) {
      BaseExactly(base, minValue, maxValue, p.first, p.last);
      BaseNotEmpty(base, minValue, maxValue, p.first, p.last);
      SplitPiece(base, '/');
      if step :| SteppedText(part, base, step, p.step) {
        SplitFirst(base, step, '/');
        SplitPiece(step, '/');
        AtoiExactly(step, p.step);
      }
    }
  }

  lemma BaseNotEmpty(base: string, minValue: int, maxValue: int, first: int, last: int)
    requires BaseText(base, minValue, maxValue, first, last)
    ensures base != ""
  {
    hide Fits, DecimalValue;
  }

  /** How often a character stands in a text. */
  ghost function Occurs(s: string, c: char): nat { multiset(s)[c] }

  lemma OccursIn(a: string, separator: char, b: string, c: char)
    ensures Occurs(a + [separator] + b, c) == Occurs(a, c) + (if separator == c then 1 else 0) + Occurs(b, c)
  {
  }

  lemma LacksNone(s: string, c: char)
    requires Lacks(s, c)
    ensures Occurs(s, c) == 0
  {
  }

  ghost predicate PartChars(s: string) { forall c :: c in s ==> IsDigit(c) || c in "*+-/" }

  lemma NumberChars(s: string, v: int)
    requires Number(s, v)
    ensures PartChars(s) && Lacks(s, '/') && (v > 0 ==> Lacks(s, '-'))
  {
    hide DecimalValue;
    var digits: string :| SignedDigits(s, digits, v);
  }

  lemma BaseChars(base: string, minValue: int, maxValue: int, first: int, last: int)
    requires BaseText(base, minValue, maxValue, first, last)
    ensures PartChars(base) && Occurs(base, '-') <= 1
  {
    hide Number, Occurs;
    if base == "*" {
      LacksNone(base, '-');
    } else if Lacks(base, '-') && Number(base, first) {
      NumberChars(base, first);
      LacksNone(base, '-');
    } else {
      var low, high :| Bounds(base, low, high, first, last);
      NumberChars(low, first);
      NumberChars(high, last);
      OccursIn(low, '-', high, '-');
      LacksNone(low, '-');
      LacksNone(high, '-');
    }
  }

  /** Empty parts, parts with a letter or any other character that is no digit, star, sign or slash, and
      parts with a second slash or minus sign are refused. */
  lemma MalformedRefused(part: string, minValue: int, maxValue: int)
    requires part == "" || Occurs(part, '/') > 1 || Occurs(part, '-') > 1
             || exists c :: c in part && !IsDigit(c) && c !in "*+-/"
    ensures ParsePart(part, minValue, maxValue) == None
  {
    hide ParsePart, Number, BaseText, Occurs;
    var r := ParsePart(part, minValue, maxValue);
    if r.Some? {
      PartExactly(part, minValue, maxValue, r.value);
      var base :| PartOver(part, base, minValue, maxValue, r.value);
      BaseNotEmpty(base, minValue, maxValue, r.value.first, r.value.last);
      BaseChars(base, minValue, maxValue, r.value.first, r.value.last);
      LacksNone(base, '/');
      if step :| SteppedText(part, base, step, r.value.step) {
        NumberChars(step, r.value.step);
        OccursIn(base, '/', step, '/');
        OccursIn(base, '/', step, '-');
        LacksNone(step, '/');
        LacksNone(step, '-');
      }
      assert false;
    }
  }

  // ----- the counting loop -----

  /** 64-bit addition. */
  function WrapAdd(a: int, b: int): int {
    if a + b > MAX_INT then a + b - 2 * (MAX_INT + 1) else a + b
  }

  /** How many rounds of the loop can be left: the counter climbs, and once the step is so
      large that it wraps, every second round starts lower than before. */
  ghost function Rounds(value: int, last: int, step: int): nat {
    if value > last then 0
    else if step <= MAX_INT - last then last - value + 1
    else if value >= 0 then 2 * value + 4
    else if value + step > last then 1
    else if value + step >= 0 then 2 * (value + step) + 5
    else 2
  }

  ghost predicate Countable(value: int, last: int, step: int) {
    0 <= last <= 1_000_000 && 0 < step <= MAX_INT && -MAX_INT - 1 <= value
  }

  lemma RoundsDecrease(value: int, last: int, step: int)
    requires Countable(value, last, step) && value <= last
    ensures Countable(WrapAdd(value, step), last, step)
    ensures Rounds(WrapAdd(value, step), last, step) < Rounds(value, last, step)
  {
  }

  /** The numbers the loop stores, counting in 64-bit arithmetic. */
  function Counted(value: int, last: int, step: int): set<int>
    requires Countable(value, last, step)
    decreases Rounds(value, last, step)
  {
    if value > last then {}
    else
      RoundsDecrease(value, last, step);
      {value} + Counted(WrapAdd(value, step), last, step)
  }

  lemma ShiftRemainder(x: int, step: int)
    requires step > 0
    ensures (x - step) % step == x % step
  {
    var q := x / step;
    assert x - step == step * (q - 1) + x % step;
    RemainderUnique(x - step, step, q - 1, x % step);
  }

  lemma RemainderUnique(x: int, step: int, q: int, r: int)
    requires step > 0 && 0 <= r < step && x == step * q + r
    ensures x % step == r
  {
    var d := q - x / step;
    assert step * d == x % step - r;
    assert d <= 0 || step * d >= step;
    assert d >= 0 || step * d <= -step;
  }

  lemma SmallRemainder(x: int, step: int)
    requires 0 <= x < step
    ensures x % step == x
  {
    RemainderUnique(x, step, 0, x);
  }

  /** While the counter does not wrap, the loop stores the stepped range. */
  lemma {:induction false} CountedInRange(first: int, last: int, step: int)
    requires Countable(first, last, step) && 0 <= first <= last
    requires Stepped(first, last, step).StepFits()
    ensures Counted(first, last, step) == Stepped(first, last, step).Values()
    decreases last - first
  {
    var next := first + step;
    var whole := Stepped(first, last, step).Values();
    assert WrapAdd(first, step) == next by { LargestBounds(first, last, step); }
    if next > last {
      assert Counted(first, last, step) == {first};
      forall v | first <= v <= last ensures v in whole <==> v == first {
        SmallRemainder(v - first, step);
      }
      assert whole == {first};
    } else {
      var rest := Stepped(next, last, step).Values();
      ShiftRemainder(last - first, step);
      CountedInRange(next, last, step);
      forall v | first <= v <= last ensures v in whole <==> v == first || v in rest {
        if v < next { SmallRemainder(v - first, step); }
        ShiftRemainder(v - first, step);
      }
      assert whole == {first} + rest;
    }
  }

  lemma LargestBounds(first: int, last: int, step: int)
    requires first <= last && step > 0
    ensures first <= Stepped(first, last, step).Largest() <= last
    ensures first + step <= last || Stepped(first, last, step).Largest() == first
  {
    if first + step > last { SmallRemainder(last - first, step); }
    else { assert (last - first) % step < step; }
  }

  /** Once the counter wraps, the loop stores a negative number. */
  lemma CountedWraps(first: int, last: int, step: int)
    requires Countable(first, last, step) && 0 <= first <= last
    requires !Stepped(first, last, step).StepFits()
    ensures exists v :: v in Counted(first, last, step) && v < 0
  {
    var next := WrapAdd(first, step);
    LargestBounds(first, last, step);
    assert next in Counted(next, last, step);
    assert next in Counted(first, last, step) && next < 0;
  }

  /** Before it can wrap, the loop has stored every number the part names. */
  lemma {:induction false} CountedCovers(first: int, last: int, step: int, v: int)
    requires Countable(first, last, step) && 0 <= first <= last
    requires Stepped(first, last, step).Names(v)
    ensures v in Counted(first, last, step)
    decreases last - first
  {
    if v < first + step {
      SmallRemainder(v - first, step);
    } else {
      ShiftRemainder(v - first, step);
      CountedCovers(first + step, last, step, v);
    }
  }

  method Count(first: int, last: int, step: int, stored: set<int>) returns (values: set<int>)
    requires Countable(first, last, step)
    ensures values == stored + Counted(first, last, step)
  {
    values := stored;
    var value := first;
    while value <= last
      invariant Countable(value, last, step)
      invariant values + Counted(value, last, step) == stored + Counted(first, last, step)
      decreases Rounds(value, last, step)
    {
      RoundsDecrease(value, last, step);
      values := values + {value};
      value := WrapAdd(value, step);
    }
  }

  // ----- the whole field -----

  function Trimmed(parts: seq<string>): (r: seq<string>)
    ensures |r| == |parts|
    ensures forall i :: 0 <= i < |parts| ==> r[i] == TrimSpace(parts[i])
  {
    seq(|parts|, i requires 0 <= i < |parts| => TrimSpace(parts[i]))
  }

  predicate PartsValid(parts: seq<string>, minValue: int, maxValue: int) {
    forall i :: 0 <= i < |parts| ==> ParsePart(parts[i], minValue, maxValue).Some?
  }

  predicate Limits(minValue: int, maxValue: int) { 0 <= minValue <= maxValue <= 1_000_000 }

  /** The stored numbers after some parts. */
  function StoredBy(parts: seq<string>, minValue: int, maxValue: int): set<int>
    requires Limits(minValue, maxValue) && PartsValid(parts, minValue, maxValue)
  {
    if parts == [] then {}
    else
      var p := ParsePart(parts[|parts| - 1], minValue, maxValue).value;
      StoredBy(parts[..|parts| - 1], minValue, maxValue) + Counted(p.first, p.last, p.step)
  }

  /** The union of the stepped ranges that the parts name. */
  ghost function NamedBy(parts: seq<string>, minValue: int, maxValue: int): set<int>
    requires Limits(minValue, maxValue) && PartsValid(parts, minValue, maxValue)
  {
    if parts == [] then {}
    else
      NamedBy(parts[..|parts| - 1], minValue, maxValue)
      + ParsePart(parts[|parts| - 1], minValue, maxValue).value.Values()
  }

  ghost predicate StepsFit(parts: seq<string>, minValue: int, maxValue: int)
    requires PartsValid(parts, minValue, maxValue)
  {
    forall i :: 0 <= i < |parts| ==> ParsePart(parts[i], minValue, maxValue).value.StepFits()
  }

  /** `parseCronField` as a function: the set and the wildcard flag, or nothing. */
  function FieldResult(field: string, minValue: int, maxValue: int): Option<(set<int>, bool)>
    requires Limits(minValue, maxValue)
  {
    var parts := Trimmed(Split(field, ','));
    if PartsValid(parts, minValue, maxValue) then
      Some((StoredBy(parts, minValue, maxValue), TrimSpace(field) == "*"))
    else None
  }

  lemma StoredEmpty(minValue: int, maxValue: int)
    requires Limits(minValue, maxValue)
    ensures StoredBy([], minValue, maxValue) == {}
  {
  }

  lemma StoredStep(parts: seq<string>, i: nat, minValue: int, maxValue: int)
    requires Limits(minValue, maxValue) && i < |parts|
    requires PartsValid(parts[..i], minValue, maxValue) && ParsePart(parts[i], minValue, maxValue).Some?
    ensures PartsValid(parts[..i + 1], minValue, maxValue)
    ensures var p := ParsePart(parts[i], minValue, maxValue).value;
            StoredBy(parts[..i + 1], minValue, maxValue)
            == StoredBy(parts[..i], minValue, maxValue) + Counted(p.first, p.last, p.step)
  {
    hide ParsePart, Counted;
    assert parts[..i + 1][..i] == parts[..i];
  }

  lemma Refused(parts: seq<string>, i: nat, minValue: int, maxValue: int)
    requires i < |parts| && ParsePart(parts[i], minValue, maxValue).None?
    ensures !PartsValid(parts, minValue, maxValue)
  {
  }

  lemma Accepted(field: string, minValue: int, maxValue: int)
    requires Limits(minValue, maxValue) && PartsValid(Trimmed(Split(field, ',')), minValue, maxValue)
    ensures var values := StoredBy(Trimmed(Split(field, ',')), minValue, maxValue);
            values != {} && FieldResult(field, minValue, maxValue) == Some((values, TrimSpace(field) == "*"))
  {
    hide ParsePart, Counted, PartsValid, NamedBy, StoredBy, Split, TrimSpace, Trimmed;
    StoredInRange(Trimmed(Split(field, ',')), minValue, maxValue);
  }

  method ParseCronField(field: string, minValue: int, maxValue: int) returns (r: Option<(set<int>, bool)>)
    requires Limits(minValue, maxValue)
    ensures r == FieldResult(field, minValue, maxValue)
  {
    hide ParsePart, Counted, StoredBy, PartsValid, Split, TrimSpace, Trimmed;
    var values: set<int> := {};
    StoredEmpty(minValue, maxValue);
    var wildcard := TrimSpace(field) == "*";
    var parts := Split(field, ',');
    ghost var trimmed := Trimmed(parts);
    assert trimmed[..0] == [];
    NoParts(minValue, maxValue);
    var i := 0;
    while i < |parts|
      invariant 0 <= i <= |parts|
      invariant PartsValid(trimmed[..i], minValue, maxValue)
      invariant values == StoredBy(trimmed[..i], minValue, maxValue)
    {
      var p := ParsePart(TrimSpace(parts[i]), minValue, maxValue);
      if p.None? {
        Refused(trimmed, i, minValue, maxValue);
        return None;
      }
      StoredStep(trimmed, i, minValue, maxValue);
      values := Count(p.value.first, p.value.last, p.value.step, values);
      i := i + 1;
    }
    assert trimmed[..i] == trimmed;
    Accepted(field, minValue, maxValue);
    return if values != {} then Some((values, wildcard)) else None;
  }

  lemma NoParts(minValue: int, maxValue: int)
    ensures PartsValid([], minValue, maxValue)
  {
  }

  /** A parsed field stores at least one number within the limits, and everything it names. */
  lemma {:induction false} StoredInRange(parts: seq<string>, minValue: int, maxValue: int)
    requires Limits(minValue, maxValue) && PartsValid(parts, minValue, maxValue)
    ensures NamedBy(parts, minValue, maxValue) <= StoredBy(parts, minValue, maxValue)
    ensures parts != [] ==> exists v :: v in NamedBy(parts, minValue, maxValue) && minValue <= v <= maxValue
  {
    if parts != [] {
      var n := |parts| - 1;
      StoredInRange(parts[..n], minValue, maxValue);
      var p := ParsePart(parts[n], minValue, maxValue).value;
      forall v | p.Names(v) ensures v in Counted(p.first, p.last, p.step) {
        CountedCovers(p.first, p.last, p.step, v);
      }
      SmallRemainder(0, p.step);
      assert p.first in p.Values();
    }
  }

  /** A field stores exactly the numbers it names, unless a step runs past the end of the
      64-bit range. */
  lemma {:induction false} StoresWhatItNames(parts: seq<string>, minValue: int, maxValue: int)
    requires Limits(minValue, maxValue) && PartsValid(parts, minValue, maxValue)
    ensures StoredBy(parts, minValue, maxValue) == NamedBy(parts, minValue, maxValue)
            <==> StepsFit(parts, minValue, maxValue)
    ensures !StepsFit(parts, minValue, maxValue) ==> exists v :: v in StoredBy(parts, minValue, maxValue) && v < 0
  {
    if parts != [] {
      var n := |parts| - 1;
      var init := parts[..n];
      StoresWhatItNames(init, minValue, maxValue);
      NamedInRange(parts, minValue, maxValue);
      StepsFitSplit(parts, minValue, maxValue);
      var p := ParsePart(parts[n], minValue, maxValue).value;
      if p.StepFits() {
        CountedInRange(p.first, p.last, p.step);
      } else {
        CountedWraps(p.first, p.last, p.step);
      }
    }
  }

  lemma StepsFitSplit(parts: seq<string>, minValue: int, maxValue: int)
    requires parts != [] && PartsValid(parts, minValue, maxValue)
    ensures StepsFit(parts, minValue, maxValue)
            <==> StepsFit(parts[..|parts| - 1], minValue, maxValue)
                 && ParsePart(parts[|parts| - 1], minValue, maxValue).value.StepFits()
  {
    hide ParsePart, Stepped.StepFits;
    var init := parts[..|parts| - 1];
    assert forall i :: 0 <= i < |init| ==> parts[i] == init[i];
  }

  lemma {:induction false} NamedInRange(parts: seq<string>, minValue: int, maxValue: int)
    requires Limits(minValue, maxValue) && PartsValid(parts, minValue, maxValue)
    ensures forall v :: v in NamedBy(parts, minValue, maxValue) ==> minValue <= v <= maxValue
  {
    if parts != [] { NamedInRange(parts[..|parts| - 1], minValue, maxValue); }
  }

  /** The recursive union spelled out. */
  lemma {:induction false} NamedExactly(parts: seq<string>, minValue: int, maxValue: int, v: int)
    requires Limits(minValue, maxValue) && PartsValid(parts, minValue, maxValue)
    ensures v in NamedBy(parts, minValue, maxValue)
            <==> exists i :: 0 <= i < |parts| && ParsePart(parts[i], minValue, maxValue).value.Names(v)
  {
    hide ParsePart;
    if parts != [] {
      var n := |parts| - 1;
      var init := parts[..n];
      NamedExactly(init, minValue, maxValue, v);
      var named := ParsePart(parts[n], minValue, maxValue).value;
      assert v in NamedBy(parts, minValue, maxValue)
        <==> v in NamedBy(init, minValue, maxValue) || named.Names(v);
      if i :| 0 <= i < |parts| && ParsePart(parts[i], minValue, maxValue).value.Names(v) && i < n {
        assert ParsePart(init[i], minValue, maxValue).value.Names(v);
      }
      if i :| 0 <= i < n && ParsePart(init[i], minValue, maxValue).value.Names(v) {
        assert ParsePart(parts[i], minValue, maxValue).value.Names(v);
      }
    }
  }
}
