/** `parseCronSchedule` and `nextCronRun` of agent/internal/collector/snapshot.go, and the
printed form of a field, which parsing reads back.
*/
module CronParser {
  import opened Options
  import opened Text
  import opened CronField
  import opened CronSchedule
  import Calendar

  // ----- a printed field -----

  datatype Base = Every | One(n: nat) | Range(low: nat, high: nat)

  datatype Item = Item(base: Base, step: Option<nat>) {
    ghost predicate Printable() {
      && (base.One? ==> base.n <= MAX_INT)
      && (base.Range? ==> base.low <= MAX_INT && base.high <= MAX_INT)
      && (step.Some? ==> 0 < step.value <= MAX_INT)
    }

    /** The range the item stands for in a field with these limits. */
    function Meaning(minValue: int, maxValue: int): (m: Stepped)
      ensures Printable() ==> m.step > 0
    {
      var every := if step.Some? then step.value else 1;
      match base
      case Every => Stepped(minValue, maxValue, every)
      case One(n) => Stepped(n, n, every)
      case Range(low, high) => Stepped(low, high, every)
    }

    predicate InLimits(minValue: int, maxValue: int) {
      var m := Meaning(minValue, maxValue);
      minValue <= m.first <= m.last <= maxValue
    }

    function PrintBase(): string {
      match base
      case Every => "*"
      case One(n) => Itoa(n)
      case Range(low, high) => Itoa(low) + "-" + Itoa(high)
    }

    function Print(): string {
      if step.Some? then PrintBase() + "/" + Itoa(step.value) else PrintBase()
    }
  }

  function Printed(items: seq<Item>): (r: seq<string>)
    ensures |r| == |items| && forall i :: 0 <= i < |items| ==> r[i] == items[i].Print()
  {
    seq(|items|, i requires 0 <= i < |items| => items[i].Print())
  }

  function PrintField(items: seq<Item>): string { Join(Printed(items), ",") }

  lemma DigitsLack(s: string, c: char)
    requires AllDigits(s) && !IsDigit(c)
    ensures Lacks(s, c)
  {
  }

  lemma DigitsSpaceFree(s: string)
    requires AllDigits(s)
    ensures SpaceFree(s)
  {
  }

  lemma PrintedBase(item: Item, minValue: int, maxValue: int)
    requires item.Printable()
    ensures var m := item.Meaning(minValue, maxValue);
            ParseBase(item.PrintBase(), minValue, maxValue) == Some((m.first, m.last))
  {
    match item.base
    case Every =>
    case One(n) => PrintedNumber(n, minValue, maxValue); hide ParseBase;
    case Range(low, high) => PrintedRange(low, high, minValue, maxValue); hide ParseBase;
  }

  lemma PrintedNumber(n: nat, minValue: int, maxValue: int)
    requires n <= MAX_INT
    ensures ParseBase(Itoa(n), minValue, maxValue) == Some((n, n))
  {
    AtoiOfItoa(n);
    DigitsLack(Itoa(n), '-');
    SplitPiece(Itoa(n), '-');
    assert '*' !in Itoa(n);
    hide Atoi, Itoa, Split;
  }

  lemma PrintedRange(low: nat, high: nat, minValue: int, maxValue: int)
    requires low <= MAX_INT && high <= MAX_INT
    ensures ParseBase(Itoa(low) + "-" + Itoa(high), minValue, maxValue) == Some((low, high))
  {
    AtoiOfItoa(low);
    AtoiOfItoa(high);
    DigitsLack(Itoa(low), '-');
    DigitsLack(Itoa(high), '-');
    SplitFirst(Itoa(low), Itoa(high), '-');
    SplitPiece(Itoa(high), '-');
    var text := Itoa(low) + "-" + Itoa(high);
    assert text[|Itoa(low)|] == '-';
    hide Atoi, Itoa, Split;
  }

  lemma PrintedChars(item: Item)
    ensures Lacks(item.PrintBase(), '/')
    ensures Lacks(item.Print(), ',') && IsToken(item.Print())
  {
    match item.base
    case Every =>
    case One(n) =>
      DigitsSpaceFree(Itoa(n));
    case Range(low, high) =>
      DigitsSpaceFree(Itoa(low));
      DigitsSpaceFree(Itoa(high));
    if item.step.Some? { DigitsSpaceFree(Itoa(item.step.value)); }
  }

  lemma PrintedTrimmed(item: Item)
    ensures TrimSpace(item.Print()) == item.Print()
  {
    hide TrimSpace, IsSpace, Item.Print;
    PrintedChars(item);
    var text := item.Print();
    assert text[0] in text && text[|text| - 1] in text;
    TrimmedStays(text);
  }

  lemma PrintedPart(item: Item, minValue: int, maxValue: int)
    requires item.Printable()
    ensures ParsePart(item.Print(), minValue, maxValue)
            == if item.InLimits(minValue, maxValue) then Some(item.Meaning(minValue, maxValue)) else None
  {
    hide ParseBase, Atoi, Item.PrintBase, IsSpace;
    PrintedChars(item);
    PrintedBase(item, minValue, maxValue);
    SplitPiece(item.PrintBase(), '/');
    if item.step.Some? {
      var step := Itoa(item.step.value);
      AtoiOfItoa(item.step.value);
      DigitsLack(step, '/');
      SplitPiece(step, '/');
      SplitFirst(item.PrintBase(), step, '/');
      assert item.Print() == item.PrintBase() + ['/'] + step;
    }
  }

  lemma PrintedParts(items: seq<Item>, minValue: int, maxValue: int)
    requires items != [] && forall i :: 0 <= i < |items| ==> items[i].Printable()
    ensures Trimmed(Split(PrintField(items), ',')) == Printed(items)
    ensures forall i :: 0 <= i < |items| ==>
                          ParsePart(Printed(items)[i], minValue, maxValue)
                          == if items[i].InLimits(minValue, maxValue) then Some(items[i].Meaning(minValue, maxValue))
                              else None
  {
    hide ParsePart, Item.Print, Item.Meaning, Item.InLimits, TrimSpace, Join, Split, IsSpace;
    var texts := Printed(items);
    forall i | 0 <= i < |items|
      ensures Lacks(texts[i], ',') && TrimSpace(texts[i]) == texts[i]
      ensures ParsePart(texts[i], minValue, maxValue)
              == if items[i].InLimits(minValue, maxValue) then Some(items[i].Meaning(minValue, maxValue)) else None
    {
      PrintedChars(items[i]);
      PrintedTrimmed(items[i]);
      PrintedPart(items[i], minValue, maxValue);
    }
    SplitJoin(texts, ',');
    assert Trimmed(texts) == texts;
  }

  ghost predicate NamedByItem(items: seq<Item>, minValue: int, maxValue: int, v: int)
    requires forall i :: 0 <= i < |items| ==> items[i].Printable()
  {
    exists i :: 0 <= i < |items| && items[i].Meaning(minValue, maxValue).Names(v)
  }

  /** Parsing a printed field gives the union of the ranges its items stand for, or nothing
      when one of them leaves the limits. */
  lemma PrintedFieldParses(items: seq<Item>, minValue: int, maxValue: int)
    requires Limits(minValue, maxValue) && items != []
    requires forall i :: 0 <= i < |items| ==> items[i].Printable()
    requires forall i :: 0 <= i < |items| ==> items[i].Meaning(minValue, maxValue).StepFits()
    ensures var r := FieldResult(PrintField(items), minValue, maxValue);
            && (r.Some? <==> forall i :: 0 <= i < |items| ==> items[i].InLimits(minValue, maxValue))
            && (r.Some? ==> forall v :: v in r.value.0 <==> NamedByItem(items, minValue, maxValue, v))
  {
    hide ParsePart, Stepped.Names, Stepped.StepFits, Item.Meaning, Item.InLimits, Item.Print, Join, TrimSpace, StoredBy;
    var texts := Printed(items);
    PrintedParts(items, minValue, maxValue);
    if PartsValid(texts, minValue, maxValue) {
      assert forall i :: 0 <= i < |items| ==>
          ParsePart(texts[i], minValue, maxValue) == Some(items[i].Meaning(minValue, maxValue));
      StoresWhatItNames(texts, minValue, maxValue);
      forall v ensures v in StoredBy(texts, minValue, maxValue) <==> NamedByItem(items, minValue, maxValue, v) {
        NamedExactly(texts, minValue, maxValue, v);
      }
    }
  }

  /** The step of this field wraps the 64-bit counter: the minute 57 is stored although only 59
      is named. */
  lemma HugeStepStoresMore()
    ensures var r := FieldResult(PrintField([Item(One(59), Some(MAX_INT))]), 0, 59);
            r.Some? && 57 in r.value.0 && !Item(One(59), Some(MAX_INT)).Meaning(0, 59).Names(57)
  {
    hide ParsePart, Trimmed, Printed, PrintField, Split;
    var item := Item(One(59), Some(MAX_INT));
    var texts := Printed([item]);
    PrintedParts([item], 0, 59);
    assert texts[..0] == [];
    assert StoredBy(texts, 0, 59) == Counted(59, 59, MAX_INT);
    assert WrapAdd(WrapAdd(59, MAX_INT), MAX_INT) == 57;
    assert 57 in Counted(57, 59, MAX_INT);
    assert 57 in Counted(WrapAdd(59, MAX_INT), 59, MAX_INT);
  }

  // ----- the five fields -----

  function Expanded(schedule: string): string {
    var name := TrimSpace(schedule);
    if name == "@hourly" then "0 * * * *"
    else if name == "@daily" || name == "@midnight" then "0 0 * * *"
    else if name == "@weekly" then "0 0 * * 0"
    else if name == "@monthly" then "0 0 1 * *"
    else if name == "@yearly" || name == "@annually" then "0 0 1 1 *"
    else schedule
  }

  function ScheduleOf(fields: seq<string>): Option<Schedule> {
    if |fields| != 5 then None
    else
      var minutes := FieldResult(fields[0], 0, 59);
      var hours := FieldResult(fields[1], 0, 23);
      var daysOfMonth := FieldResult(fields[2], 1, 31);
      var months := FieldResult(fields[3], 1, 12);
      var days := FieldResult(fields[4], 0, 7);
      if minutes.None? || hours.None? || daysOfMonth.None? || months.None? || days.None? then None
      else Some(Schedule(minutes.value.0, hours.value.0, daysOfMonth.value.0, months.value.0,
                         Weekdays(days.value.0), daysOfMonth.value.1, days.value.1))
  }

  method ParseCronSchedule(text: string) returns (r: Option<Schedule>)
    ensures r == ScheduleOf(Fields(Expanded(text)))
    ensures r.Some? ==> Parsed(r.value)
  {
    hide FieldResult, Parsed;
    ParsedSchedules(Fields(Expanded(text)));
    var fields := Fields(Expanded(text));
    if |fields| != 5 { return None; }
    var minutes := ParseCronField(fields[0], 0, 59);
    if minutes.None? { return None; }
    var hours := ParseCronField(fields[1], 0, 23);
    if hours.None? { return None; }
    var daysOfMonth := ParseCronField(fields[2], 1, 31);
    if daysOfMonth.None? { return None; }
    var months := ParseCronField(fields[3], 1, 12);
    if months.None? { return None; }
    var days := ParseCronField(fields[4], 0, 7);
    if days.None? { return None; }
    var daysOfWeek := SundayFromSeven(days.value.0);
    return Some(Schedule(minutes.value.0, hours.value.0, daysOfMonth.value.0, months.value.0,
                         daysOfWeek, daysOfMonth.value.1, days.value.1));
  }

  /** A parsed field holds a number within its limits, and all of them when it is a star. */
  lemma FieldParsed(field: string, minValue: int, maxValue: int)
    requires Limits(minValue, maxValue) && FieldResult(field, minValue, maxValue).Some?
    ensures var (values, wildcard) := FieldResult(field, minValue, maxValue).value;
            && (exists v :: v in values && minValue <= v <= maxValue)
            && (wildcard ==> forall v :: minValue <= v <= maxValue ==> v in values)
  {
    hide ParsePart, StoredBy, NamedBy, TrimSpace, Split;
    var parts := Trimmed(Split(field, ','));
    StoredInRange(parts, minValue, maxValue);
    if TrimSpace(field) == "*" {
      StarParts(field, minValue, maxValue);
      forall v | minValue <= v <= maxValue ensures v in StoredBy(parts, minValue, maxValue) {
        NamedExactly(parts, minValue, maxValue, v);
        assert ParsePart(parts[0], minValue, maxValue).value.Names(v);
      }
    }
  }

  lemma StarParts(field: string, minValue: int, maxValue: int)
    requires minValue <= maxValue && TrimSpace(field) == "*"
    ensures Trimmed(Split(field, ',')) == ["*"]
    ensures ParsePart("*", minValue, maxValue) == Some(Stepped(minValue, maxValue, 1))
  {
    hide TrimSpace, IsSpace;
    TrimKeepsComma(field);
    SplitPiece(field, ',');
    SplitPiece("*", '/');
    assert Trimmed([field]) == ["*"];
  }

  lemma TrimKeepsComma(s: string)
    requires TrimSpace(s) == "*"
    ensures Lacks(s, ',')
  {
    TrimKeepsChars(s);
    assert !IsSpace(',');
  }

  /** A character that is not white space survives trimming. */
  lemma TrimKeepsChars(s: string)
    ensures forall c :: c in s && !IsSpace(c) ==> c in TrimSpace(s)
  {
    LeftKeepsChars(s);
    RightKeepsChars(TrimLeft(s));
  }

  lemma {:induction false} LeftKeepsChars(s: string)
    ensures forall c :: c in s && !IsSpace(c) ==> c in TrimLeft(s)
  {
    if s != "" && IsSpace(s[0]) {
      LeftKeepsChars(s[1..]);
      assert s == [s[0]] + s[1..];
    }
  }

  lemma {:induction false} RightKeepsChars(s: string)
    ensures forall c :: c in s && !IsSpace(c) ==> c in TrimRight(s)
  {
    if s != "" && IsSpace(s[|s| - 1]) {
      RightKeepsChars(s[..|s| - 1]);
      assert s == s[..|s| - 1] + [s[|s| - 1]];
    }
  }

  /** Part `i` is one of the texts of `p`, between white space or not. */
  ghost predicate PartAt(parts: seq<string>, i: int, minValue: int, maxValue: int, p: Stepped) {
    0 <= i < |parts| && PartText(TrimSpace(parts[i]), minValue, maxValue, p)
  }

  ghost predicate Parses(parts: seq<string>, i: int, minValue: int, maxValue: int) {
    exists p :: PartAt(parts, i, minValue, maxValue, p)
  }

  ghost predicate NamedByPart(parts: seq<string>, minValue: int, maxValue: int, v: int) {
    exists i, p: Stepped :: PartAt(parts, i, minValue, maxValue, p) && p.step > 0 && p.Names(v)
  }

  lemma PartsExactly(parts: seq<string>, i: nat, minValue: int, maxValue: int)
    requires i < |parts|
    ensures var r := ParsePart(TrimSpace(parts[i]), minValue, maxValue);
            && (r.Some? <==> Parses(parts, i, minValue, maxValue))
            && (r.Some? ==> PartAt(parts, i, minValue, maxValue, r.value))
            && (forall p :: PartAt(parts, i, minValue, maxValue, p) ==> r == Some(p))
  {
    hide ParsePart, PartText, TrimSpace;
    forall p
      ensures PartAt(parts, i, minValue, maxValue, p)
              <==> ParsePart(TrimSpace(parts[i]), minValue, maxValue) == Some(p)
    {
      PartExactly(TrimSpace(parts[i]), minValue, maxValue, p);
    }
  }

  /** A field is accepted exactly if each of its parts is one of the texts of a stepped range within the
      limits; it then has at least the numbers of these ranges, and no others if every step fits; it is a
      wildcard exactly if it is a single star. */
  lemma FieldExactly(parts: seq<string>, minValue: int, maxValue: int)
    requires Limits(minValue, maxValue) && parts != [] && forall part :: part in parts ==> Lacks(part, ',')
    ensures var r := FieldResult(Join(parts, ","), minValue, maxValue);
            && (r.Some? <==> forall i :: 0 <= i < |parts| ==> Parses(parts, i, minValue, maxValue))
            && (r.Some? ==> (r.value.1 <==> |parts| == 1 && TrimSpace(parts[0]) == "*"))
            && (r.Some? ==> forall v :: NamedByPart(parts, minValue, maxValue, v) ==> v in r.value.0)
            && (r.Some? && (forall i, p :: PartAt(parts, i, minValue, maxValue, p) && p.step > 0 ==> p.StepFits()) ==>
                forall v :: v in r.value.0 ==> NamedByPart(parts, minValue, maxValue, v))
  {
    hide ParsePart, PartAt, Parses, NamedByPart, TrimSpace, StoredBy, Split, Join, Stepped.StepFits;
    SplitJoin(parts, ',');
    var trimmed := Trimmed(parts);
    WholeStar(parts);
    forall i | 0 <= i < |parts|
      ensures ParsePart(trimmed[i], minValue, maxValue).Some? <==> Parses(parts, i, minValue, maxValue)
    {
      PartsExactly(parts, i, minValue, maxValue);
    }
    if PartsValid(trimmed, minValue, maxValue) {
      StoredInRange(trimmed, minValue, maxValue);
      StoresWhatItNames(trimmed, minValue, maxValue);
      forall v ensures v in NamedBy(trimmed, minValue, maxValue) <==> NamedByPart(parts, minValue, maxValue, v) {
        NamedBoth(parts, minValue, maxValue, v);
      }
      if forall i, p :: PartAt(parts, i, minValue, maxValue, p) && p.step > 0 ==> p.StepFits() {
        forall i | 0 <= i < |parts| ensures ParsePart(trimmed[i], minValue, maxValue).value.StepFits() {
          PartsExactly(parts, i, minValue, maxValue);
        }
      }
    }
  }

  lemma NamedBoth(parts: seq<string>, minValue: int, maxValue: int, v: int)
    requires Limits(minValue, maxValue) && PartsValid(Trimmed(parts), minValue, maxValue)
    ensures v in NamedBy(Trimmed(parts), minValue, maxValue) <==> NamedByPart(parts, minValue, maxValue, v)
  {
    hide ParsePart, PartText, TrimSpace, Stepped.Names;
    var trimmed := Trimmed(parts);
    NamedExactly(trimmed, minValue, maxValue, v);
    if i :| 0 <= i < |trimmed| && ParsePart(trimmed[i], minValue, maxValue).value.Names(v) {
      PartsExactly(parts, i, minValue, maxValue);
      assert PartAt(parts, i, minValue, maxValue, ParsePart(trimmed[i], minValue, maxValue).value);
    }
    if i, p: Stepped :| PartAt(parts, i, minValue, maxValue, p) && p.step > 0 && p.Names(v) {
      PartsExactly(parts, i, minValue, maxValue);
      assert ParsePart(trimmed[i], minValue, maxValue).value.Names(v);
    }
  }

  /** A list of parts is a star only as a single one. */
  lemma WholeStar(parts: seq<string>)
    requires parts != []
    ensures TrimSpace(Join(parts, ",")) == "*" <==> |parts| == 1 && TrimSpace(parts[0]) == "*"
  {
    hide TrimSpace;
    if |parts| > 1 {
      var text := Join(parts, ",");
      assert text[|parts[0]|] == ',';
      TrimKeepsChars(text);
      assert !IsSpace(',') && ',' !in "*";
    }
  }

  /** Every schedule that parses has usable sets. */
  lemma ParsedSchedules(fields: seq<string>)
    ensures ScheduleOf(fields).Some? ==> Parsed(ScheduleOf(fields).value)
  {
    hide FieldResult;
    if ScheduleOf(fields).Some? {
      FieldParsed(fields[0], 0, 59);
      FieldParsed(fields[1], 0, 23);
      FieldParsed(fields[2], 1, 31);
      FieldParsed(fields[3], 1, 12);
      FieldParsed(fields[4], 0, 7);
      var days := FieldResult(fields[4], 0, 7).value.0;
      var v :| v in days && 0 <= v <= 7;
      assert (if v == 7 then 0 else v) in Weekdays(days);
    }
  }

  // ----- a printed schedule -----

  /** The items are what the field syntax can express for a field with these limits. */
  ghost predicate Written(items: seq<Item>, minValue: int, maxValue: int) {
    && Limits(minValue, maxValue) && items != []
    && (forall i :: 0 <= i < |items| ==> items[i].Printable())
    && (forall i :: 0 <= i < |items| ==> items[i].Meaning(minValue, maxValue).StepFits())
  }

  ghost predicate AllInLimits(items: seq<Item>, minValue: int, maxValue: int) {
    forall i :: 0 <= i < |items| ==> items[i].InLimits(minValue, maxValue)
  }

  ghost predicate Means(values: set<int>, items: seq<Item>, minValue: int, maxValue: int)
    requires Written(items, minValue, maxValue)
  {
    forall v :: v in values <==> NamedByItem(items, minValue, maxValue, v)
  }

  predicate IsStar(items: seq<Item>) { items == [Item(Every, None)] }

  lemma {:induction false} TextOfParts(parts: seq<string>)
    requires parts != [] && forall p :: p in parts ==> IsToken(p)
    ensures var text := Join(parts, ",");
            IsToken(text) && parts[0] != "" && text[0] == parts[0][0] && (|parts| > 1 ==> ',' in text)
  {
    assert parts[0] in parts;
    if |parts| > 1 {
      TextOfParts(parts[1..]);
      assert (parts[0] + ",")[|parts[0]|] == ',';
      assert !IsSpace(',');
    }
  }

  lemma StartsOf(item: Item)
    ensures item.Print() != "" && item.Print()[0] != '@'
    ensures item.Print() == "*" <==> item == Item(Every, None)
  {
    hide IsSpace;
    match item.base
    case Every =>
    case One(n) => assert Itoa(n)[0] in Itoa(n);
    case Range(low, _) => assert Itoa(low)[0] in Itoa(low);
  }

  /** A printed field is one word, is no name, and is a star only when its one item is. */
  lemma PrintedWord(items: seq<Item>)
    requires items != []
    ensures var text := PrintField(items);
            IsToken(text) && text[0] != '@' && (TrimSpace(text) == "*" <==> IsStar(items))
  {
    hide Item.Print, TrimSpace, IsSpace, Join;
    var parts := Printed(items);
    var text := PrintField(items);
    forall p | p in parts ensures IsToken(p) && Lacks(p, ',') {
      var i :| 0 <= i < |parts| && parts[i] == p;
      PrintedChars(items[i]);
    }
    TextOfParts(parts);
    StartsOf(items[0]);
    assert text[0] in text && text[|text| - 1] in text;
    TrimmedStays(text);
    if |items| == 1 { OnePart(parts); } else { assert ',' in text && ',' !in "*"; }
  }

  lemma OnePart(parts: seq<string>)
    requires |parts| == 1
    ensures Join(parts, ",") == parts[0]
  {
  }

  lemma FieldMeans(items: seq<Item>, minValue: int, maxValue: int)
    requires Written(items, minValue, maxValue)
    ensures var r := FieldResult(PrintField(items), minValue, maxValue);
            && (r.Some? <==> AllInLimits(items, minValue, maxValue))
            && (r.Some? ==> Means(r.value.0, items, minValue, maxValue) && (r.value.1 <==> IsStar(items)))
  {
    hide TrimSpace, PartsValid, StoredBy, NamedByItem, Item.InLimits, Item.Meaning;
    PrintedFieldParses(items, minValue, maxValue);
    PrintedWord(items);
  }

  lemma NotAName(fields: seq<string>)
    requires |fields| == 5 && (forall f :: f in fields ==> IsToken(f)) && fields[0] != "" && fields[0][0] != '@'
    ensures Fields(Expanded(Join(fields, " "))) == fields
  {
    hide TrimSpace, Fields, Join, IsSpace;
    var text := Join(fields, " ");
    JoinTrimmed(fields);
    TrimmedStays(text);
    FieldsJoin(fields);
    assert fields[0] in fields && text[0] == fields[0][0];
    assert Expanded(text) == text;
  }

  /** Five printed fields, with single spaces between them: parsing gives a schedule exactly if every
      item keeps to its field's limits, and the schedule has the minutes, hours, days and months that
      the items name, with 7 read as Sunday and a wildcard exactly where a field is a single star. */
  lemma PrintedScheduleParses(minutes: seq<Item>, hours: seq<Item>, daysOfMonth: seq<Item>, months: seq<Item>,
      days: seq<Item>)
    requires Written(minutes, 0, 59) && Written(hours, 0, 23) && Written(daysOfMonth, 1, 31) && Written(months, 1, 12)
             && Written(days, 0, 7)
    ensures var fields :=
            [PrintField(minutes), PrintField(hours), PrintField(daysOfMonth), PrintField(months), PrintField(days)];
            var r := ScheduleOf(Fields(Expanded(Join(fields, " "))));
            && (r.Some? <==> AllInLimits(minutes, 0, 59) && AllInLimits(hours, 0, 23) && AllInLimits(daysOfMonth, 1, 31)
                             && AllInLimits(months, 1, 12) && AllInLimits(days, 0, 7))
            && (r.Some? ==>
                  var s := r.value;
                  && Means(s.minutes, minutes, 0, 59) && Means(s.hours, hours, 0, 23)
                  && Means(s.daysOfMonth, daysOfMonth, 1, 31) && Means(s.months, months, 1, 12)
                  && (forall d :: d in s.daysOfWeek <==> Weekday(days, d))
                  && (s.dayOfMonthWildcard <==> IsStar(daysOfMonth)) && (s.dayOfWeekWildcard <==> IsStar(days)))
  {
    assert minutes != [] && hours != [] && daysOfMonth != [] && months != [] && days != [];
    hide Written, AllInLimits, Means, Weekday, ScheduleOf, PrintField, Join, Fields, Expanded, IsStar;
    var fields := [PrintField(minutes), PrintField(hours), PrintField(daysOfMonth), PrintField(months),
        PrintField(days)];
    Words(fields, [minutes, hours, daysOfMonth, months, days]);
    FiveMeans(fields, minutes, hours, daysOfMonth, months, days);
  }

  /** Day `d` is one that the items of a weekday field name, 7 being Sunday. */
  ghost predicate Weekday(days: seq<Item>, d: int)
    requires Written(days, 0, 7)
  {
    (d != 7 && NamedByItem(days, 0, 7, d)) || (d == 0 && NamedByItem(days, 0, 7, 7))
  }

  lemma WeekdaysMean(numbers: set<int>, days: seq<Item>)
    requires Written(days, 0, 7) && Means(numbers, days, 0, 7)
    ensures forall d :: d in Weekdays(numbers) <==> Weekday(days, d)
  {
    hide Written, NamedByItem;
  }

  // ----- the names -----

  /** A field that is a star, or one number. */
  function Items(n: Option<nat>): seq<Item> { [Item(if n.Some? then One(n.value) else Every, None)] }

  function FieldText(n: Option<nat>): string { if n.Some? then Itoa(n.value) else "*" }

  lemma ItemsMean(n: Option<nat>, minValue: int, maxValue: int)
    requires Limits(minValue, maxValue) && (n.Some? ==> minValue <= n.value <= maxValue)
    ensures Written(Items(n), minValue, maxValue) && AllInLimits(Items(n), minValue, maxValue)
    ensures PrintField(Items(n)) == FieldText(n) && (IsStar(Items(n)) <==> n.None?)
    ensures forall v :: NamedByItem(Items(n), minValue, maxValue, v)
                        <==> if n.Some? then v == n.value else minValue <= v <= maxValue
  {
    hide Itoa;
    var item := Items(n)[0];
    assert Printed(Items(n)) == [item.Print()];
    var m := item.Meaning(minValue, maxValue);
    assert m.step == 1 && (m.last - m.first) % 1 == 0;
    forall v
      ensures NamedByItem(Items(n), minValue, maxValue, v)
              <==> if n.Some? then v == n.value else minValue <= v <= maxValue
    {
      assert Items(n)[0].Meaning(minValue, maxValue).Names(v) <==> m.first <= v <= m.last;
    }
  }

  /** The minutes that five fields, each a star or one number, stand for, one of the day fields being a star. */
  ghost predicate Simple(s: Schedule, minute: Option<nat>, hour: Option<nat>, day: Option<nat>, month: Option<nat>,
      weekday: Option<nat>) {
    forall t :: s.Matches(t) <==>
      && (minute.Some? ==> Calendar.Minute(t) == minute.value) && (hour.Some? ==> Calendar.Hour(t) == hour.value)
      && (day.Some? ==> Calendar.Day(t) == day.value) && (month.Some? ==> Calendar.Month(t) == month.value)
      && (weekday.Some? ==> Calendar.Weekday(t) == weekday.value)
  }

  lemma SimpleSchedule(fields: seq<string>, minute: Option<nat>, hour: Option<nat>, day: Option<nat>,
      month: Option<nat>, weekday: Option<nat>)
    requires (minute.Some? ==> minute.value <= 59) && (hour.Some? ==> hour.value <= 23)
             && (day.Some? ==> 1 <= day.value <= 31) && (month.Some? ==> 1 <= month.value <= 12)
             && (weekday.Some? ==> weekday.value <= 6) && (day.None? || weekday.None?)
    requires fields == [FieldText(minute), FieldText(hour), FieldText(day), FieldText(month), FieldText(weekday)]
    ensures ScheduleOf(fields).Some? && Simple(ScheduleOf(fields).value, minute, hour, day, month, weekday)
  {
    hide ScheduleOf, Items, FieldText, Written, AllInLimits, IsStar, NamedByItem, PrintField, Simple;
    ItemsMean(minute, 0, 59);
    ItemsMean(hour, 0, 23);
    ItemsMean(day, 1, 31);
    ItemsMean(month, 1, 12);
    ItemsMean(weekday, 0, 7);
    FiveMeans(fields, Items(minute), Items(hour), Items(day), Items(month), Items(weekday));
    SimpleMatches(ScheduleOf(fields).value, minute, hour, day, month, weekday);
  }

  lemma SimpleMatches(s: Schedule, minute: Option<nat>, hour: Option<nat>, day: Option<nat>, month: Option<nat>,
      weekday: Option<nat>)
    requires day.None? || weekday.None?
    requires weekday.Some? ==> weekday.value <= 6
    requires forall v :: v in s.minutes <==> if minute.Some? then v == minute.value else 0 <= v <= 59
    requires forall v :: v in s.hours <==> if hour.Some? then v == hour.value else 0 <= v <= 23
    requires forall v :: v in s.daysOfMonth <==> if day.Some? then v == day.value else 1 <= v <= 31
    requires forall v :: v in s.months <==> if month.Some? then v == month.value else 1 <= v <= 12
    requires forall v :: v in s.daysOfWeek <==> if weekday.Some? then v == weekday.value else 0 <= v <= 6
    requires (s.dayOfMonthWildcard <==> day.None?) && (s.dayOfWeekWildcard <==> weekday.None?)
    ensures Simple(s, minute, hour, day, month, weekday)
  {
    hide Calendar.Year, Calendar.Month, Calendar.Day, Calendar.DaysInMonth;
    forall t {
      Calendar.FieldRanges(t);
    }
  }

  /** A text that stands for a line of five simple fields. */
  lemma NameMeans(text: string, minute: Option<nat>, hour: Option<nat>, day: Option<nat>, month: Option<nat>,
      weekday: Option<nat>)
    requires (minute.Some? ==> minute.value <= 59) && (hour.Some? ==> hour.value <= 23)
             && (day.Some? ==> 1 <= day.value <= 31) && (month.Some? ==> 1 <= month.value <= 12)
             && (weekday.Some? ==> weekday.value <= 6) && (day.None? || weekday.None?)
    requires Expanded(text)
             == Join([FieldText(minute), FieldText(hour), FieldText(day), FieldText(month), FieldText(weekday)], " ")
    ensures var r := ScheduleOf(Fields(Expanded(text)));
            r.Some? && Simple(r.value, minute, hour, day, month, weekday)
  {
    hide ScheduleOf, Fields, Expanded, Join, Simple;
    var fields := [FieldText(minute), FieldText(hour), FieldText(day), FieldText(month), FieldText(weekday)];
    FieldIsToken(minute);
    FieldIsToken(hour);
    FieldIsToken(day);
    FieldIsToken(month);
    FieldIsToken(weekday);
    FieldsJoin(fields);
    SimpleSchedule(fields, minute, hour, day, month, weekday);
  }

  lemma FieldIsToken(n: Option<nat>)
    ensures IsToken(FieldText(n))
  {
    if n.Some? { DigitsSpaceFree(Itoa(n.value)); }
  }

  /** What a name stands for as five fields. */
  lemma NameExpands(left: string, name: string, right: string)
    requires AllSpace(left) && AllSpace(right) && IsToken(name)
    ensures Expanded(left + name + right)
            == if name == "@hourly" then Join(["0", "*", "*", "*", "*"], " ")
               else if name == "@daily" || name == "@midnight" then Join(["0", "0", "*", "*", "*"], " ")
               else if name == "@weekly" then Join(["0", "0", "*", "*", "0"], " ")
               else if name == "@monthly" then Join(["0", "0", "1", "*", "*"], " ")
               else if name == "@yearly" || name == "@annually" then Join(["0", "0", "1", "1", "*"], " ")
               else left + name + right
  {
    assert name[0] in name && name[|name| - 1] in name;
    TrimDrops(left, name, right);
    hide TrimSpace, IsSpace, Join;
    JoinFive('0', '*', '*', '*', '*');
    JoinFive('0', '0', '*', '*', '*');
    JoinFive('0', '0', '*', '*', '0');
    JoinFive('0', '0', '1', '*', '*');
    JoinFive('0', '0', '1', '1', '*');
  }

  lemma JoinFive(a: char, b: char, c: char, d: char, e: char)
    ensures Join([[a], [b], [c], [d], [e]], " ") == [a, ' ', b, ' ', c, ' ', d, ' ', e]
  {
    var s := " ";
    JoinFirst([[d], [e]], s);
    JoinFirst([[c], [d], [e]], s);
    JoinFirst([[b], [c], [d], [e]], s);
    JoinFirst([[a], [b], [c], [d], [e]], s);
    JoinFirst([[e]], s);
    assert [[d], [e]][1..] == [[e]] && [[c], [d], [e]][1..] == [[d], [e]];
    assert [[b], [c], [d], [e]][1..] == [[c], [d], [e]];
    assert [[a], [b], [c], [d], [e]][1..] == [[b], [c], [d], [e]];
    hide Join;
    assert Join([[d], [e]], s) == [d, ' ', e];
    assert Join([[c], [d], [e]], s) == [c, ' ', d, ' ', e];
    assert Join([[b], [c], [d], [e]], s) == [b, ' ', c, ' ', d, ' ', e];
  }

  lemma OneDigit()
    ensures FieldText(Some(0)) == "0" && FieldText(Some(1)) == "1" && FieldText(None) == "*"
  {
    assert Itoa(0) == [DigitChar(0)] && DigitChar(0) == '0';
    assert Itoa(1) == [DigitChar(1)] && DigitChar(1) == '1';
  }

  /** The seven names, also between white space, and what they stand for: on the hour, at midnight of every
      day, of Sundays, of the first of every month, of 1 January.  No other word with an `@` is a schedule. */
  lemma NamedSchedules(left: string, name: string, right: string)
    requires AllSpace(left) && AllSpace(right) && IsToken(name) && name[0] == '@'
    ensures var r := ScheduleOf(Fields(Expanded(left + name + right)));
            && (r.Some? <==> name in ["@hourly", "@daily", "@midnight", "@weekly", "@monthly", "@yearly", "@annually"])
            && (r.Some? ==> forall t ::
                  var s, midnight := r.value, Calendar.Hour(t) == 0 && Calendar.Minute(t) == 0;
                  && (name == "@hourly" ==> (s.Matches(t) <==> Calendar.Minute(t) == 0))
                  && (name == "@daily" || name == "@midnight" ==> (s.Matches(t) <==> midnight))
                  && (name == "@weekly" ==> (s.Matches(t) <==> midnight && Calendar.Weekday(t) == 0))
                  && (name == "@monthly" ==> (s.Matches(t) <==> midnight && Calendar.Day(t) == 1))
                  && (name == "@yearly" || name == "@annually" ==>
                        (s.Matches(t) <==> midnight && Calendar.Day(t) == 1 && Calendar.Month(t) == 1)))
  {
    hide ScheduleOf, Fields, Expanded, Join, Schedule.Matches, Calendar.Day, Calendar.Month, IsSpace, FieldText;
    var text := left + name + right;
    NameExpands(left, name, right);
    OneDigit();
    if name == "@hourly" { NameMeans(text, Some(0), None, None, None, None); }
    else if name == "@daily" || name == "@midnight" { NameMeans(text, Some(0), Some(0), None, None, None); }
    else if name == "@weekly" { NameMeans(text, Some(0), Some(0), None, None, Some(0)); }
    else if name == "@monthly" { NameMeans(text, Some(0), Some(0), Some(1), None, None); }
    else if name == "@yearly" || name == "@annually" { NameMeans(text, Some(0), Some(0), Some(1), Some(1), None); }
    else {
      FieldsOfWord(left, name, right);
      NotFive([name]);
    }
  }

  lemma NotFive(fields: seq<string>)
    requires |fields| != 5
    ensures ScheduleOf(fields) == None
  {
  }

  lemma FiveMeans(fields: seq<string>, minutes: seq<Item>, hours: seq<Item>, daysOfMonth: seq<Item>,
      months: seq<Item>, days: seq<Item>)
    requires Written(minutes, 0, 59) && Written(hours, 0, 23) && Written(daysOfMonth, 1, 31) && Written(months, 1, 12)
             && Written(days, 0, 7)
    requires |fields| == 5 && fields[0] == PrintField(minutes) && fields[1] == PrintField(hours)
             && fields[2] == PrintField(daysOfMonth)
    requires fields[3] == PrintField(months) && fields[4] == PrintField(days)
    ensures var r := ScheduleOf(fields);
            && (r.Some? <==> AllInLimits(minutes, 0, 59) && AllInLimits(hours, 0, 23) && AllInLimits(daysOfMonth, 1, 31)
                             && AllInLimits(months, 1, 12) && AllInLimits(days, 0, 7))
            && (r.Some? ==>
                  var s := r.value;
                  && Means(s.minutes, minutes, 0, 59) && Means(s.hours, hours, 0, 23)
                  && Means(s.daysOfMonth, daysOfMonth, 1, 31) && Means(s.months, months, 1, 12)
                  && (forall d :: d in s.daysOfWeek <==> Weekday(days, d))
                  && (s.dayOfMonthWildcard <==> IsStar(daysOfMonth)) && (s.dayOfWeekWildcard <==> IsStar(days)))
  {
    hide Written, AllInLimits, Means, Weekdays, Weekday, FieldResult, PrintField, IsStar;
    FieldMeans(minutes, 0, 59);
    FieldMeans(hours, 0, 23);
    FieldMeans(daysOfMonth, 1, 31);
    FieldMeans(months, 1, 12);
    FieldMeans(days, 0, 7);
    if FieldResult(fields[4], 0, 7).Some? { WeekdaysMean(FieldResult(fields[4], 0, 7).value.0, days); }
  }

  lemma Words(fields: seq<string>, items: seq<seq<Item>>)
    requires |fields| == |items| == 5 && forall i :: 0 <= i < 5 ==> items[i] != [] && fields[i] == PrintField(items[i])
    ensures Fields(Expanded(Join(fields, " "))) == fields
  {
    hide PrintField, Join, Fields, Expanded, IsStar, TrimSpace, SpaceFree;
    forall i | 0 <= i < 5 ensures IsToken(fields[i]) { PrintedWord(items[i]); }
    PrintedWord(items[0]);
    NotAName(fields);
  }

  /** A wildcard leaves the day to the other field; two restricted fields are alternatives. */
  lemma DayRule(fields: seq<string>, at: int)
    ensures ScheduleOf(fields).Some? ==>
            var s := ScheduleOf(fields).value;
            && (s.dayOfMonthWildcard ==> (s.DayMatches(at) <==> Calendar.Weekday(at) in s.daysOfWeek))
            && (s.dayOfWeekWildcard ==> (s.DayMatches(at) <==> Calendar.Day(at) in s.daysOfMonth))
            && (!s.dayOfMonthWildcard && !s.dayOfWeekWildcard ==>
                  (s.DayMatches(at) <==> Calendar.Weekday(at) in s.daysOfWeek || Calendar.Day(at) in s.daysOfMonth))
  {
    hide ScheduleOf, Calendar.Day, Calendar.Month, Calendar.Year;
    ParsedSchedules(fields);
    Calendar.FieldRanges(at);
  }

  // ----- the next run -----

  /** `nextCronRun`: the minute of the next run, or nothing. */
  function NextRun(text: string, after: int): Option<int> {
    var parsed := ScheduleOf(Fields(Expanded(text)));
    if parsed.None? then None
    else EveryMinute(parsed.value.Test(), MinuteAfter(after), Calendar.AddYear(MinuteAfter(after)))
  }

  method NextCronRun(text: string, after: int) returns (r: Option<int>)
    ensures r == NextRun(text, after)
  {
    hide ScheduleOf, EveryMinute, MinuteAfter, Calendar.AddYear;
    var parsed := ParseCronSchedule(text);
    if parsed.None? { return None; }
    r := Search(parsed.value, after);
  }

  /** `nextCronRun` returns nothing exactly when the text does not parse, or the schedule names
      only 29 February by date and no permitted minute of a leap day lies within the year. */
  lemma NothingExactly(text: string, after: int)
    ensures var parsed := ScheduleOf(Fields(Expanded(text)));
            NextRun(text, after).None? <==>
            parsed.None? || (!RunsEveryYear(parsed.value) && !RunsOnLeapDay(parsed.value, MinuteAfter(after)))
  {
    hide ScheduleOf, EveryMinute, MinuteAfter, Calendar.AddYear, RunsEveryYear, RunsOnLeapDay;
    var parsed := ScheduleOf(Fields(Expanded(text)));
    if parsed.Some? {
      ParsedSchedules(Fields(Expanded(text)));
      RunExistsExactly(parsed.value, MinuteAfter(after));
    }
  }

  /** The minute's fields are in the schedule's sets; of two restricted day fields one suffices. */
  ghost predicate NamesMinute(s: Schedule, t: int) {
    && Calendar.Minute(t) in s.minutes && Calendar.Hour(t) in s.hours && Calendar.Month(t) in s.months
    && (Calendar.Day(t) in s.daysOfMonth || Calendar.Weekday(t) in s.daysOfWeek)
    && (s.dayOfMonthWildcard || s.dayOfWeekWildcard ==>
        Calendar.Day(t) in s.daysOfMonth && Calendar.Weekday(t) in s.daysOfWeek)
  }

  lemma MatchesNames(s: Schedule, t: int)
    ensures s.Matches(t) <==> NamesMinute(s, t)
  {
  }

  /** The minute returned is after the given time, within a year of it, and the first match. */
  lemma NextRunIsEarliest(text: string, after: int)
    ensures NextRun(text, after).Some? ==>
            var s, first, t := ScheduleOf(Fields(Expanded(text))).value, MinuteAfter(after), NextRun(text, after).value;
            && after < t * 60_000_000_000
            && t <= Calendar.AddYear(first) && NamesMinute(s, t)
            && forall u :: after < u * 60_000_000_000 && u < t ==> !NamesMinute(s, u)
  {
    hide ScheduleOf, Calendar.AddYear, Schedule.Matches;
    if NextRun(text, after).Some? {
      var s, first, t := ScheduleOf(Fields(Expanded(text))).value, MinuteAfter(after), NextRun(text, after).value;
      EveryMinuteIsEarliest(s.Test(), first, Calendar.AddYear(first));
      forall u | after < u * 60_000_000_000 && u < t ensures !NamesMinute(s, u) {
        assert first <= u;
        assert !s.Test()(u);
        MatchesNames(s, u);
      }
      assert s.Test()(t);
      MatchesNames(s, t);
    }
  }
}
