/** Five-field cron expressions and the search for the next fire
    (src/cron.rs). Time is in whole minutes since 0001-01-01T00:00 at a fixed
    offset; an instant handed to the search is in seconds. */
module Cron {
  import opened Wrappers
  import opened Text
  import opened Calendar

  const MAX_STEP_MINUTES: nat := 4 * 366 * 24 * 60

  datatype CronError =
    | FieldCount(count: nat)
    | BadToken
    | OutOfRange
    | InvertedRange
    | ZeroStep
    // adding the step would leave `u32`: a panic or a wrap in the original
    | StepOverflow

  /** A `u64` bit mask, and whether the field was a bare `*`. */
  datatype FieldSet = FieldSet(mask: nat, star: bool)

  datatype CronExpr = CronExpr(minute: FieldSet, hour: FieldSet, dom: FieldSet, month: FieldSet, dow: FieldSet)

  /** Bit `i` of a mask, and the mask with that bit set. */
  predicate Bit(mask: nat, i: nat) {
    if i == 0 then mask % 2 == 1 else Bit(mask / 2, i - 1)
  }

  function OrBit(mask: nat, i: nat): nat {
    if i == 0 then mask / 2 * 2 + 1 else OrBit(mask / 2, i - 1) * 2 + mask % 2
  }

  function Pow2(n: nat): nat { if n == 0 then 1 else 2 * Pow2(n - 1) }

  lemma {:induction false} OrBitSets(mask: nat, i: nat, v: nat)
    ensures Bit(OrBit(mask, i), v) <==> Bit(mask, v) || v == i
  {
    var r := OrBit(mask, i);
    if i > 0 {
      assert r / 2 == OrBit(mask / 2, i - 1) && r % 2 == mask % 2;
      if v > 0 { OrBitSets(mask / 2, i - 1, v - 1); }
    } else {
      assert r / 2 == mask / 2 && r % 2 == 1;
    }
  }

  /** Setting a low bit keeps the mask within its width. */
  lemma {:induction false} OrBitFits(mask: nat, i: nat, width: nat)
    requires mask < Pow2(width) && i < width
    ensures OrBit(mask, i) < Pow2(width)
  {
    if i > 0 {
      assert Pow2(width) == 2 * Pow2(width - 1);
      assert mask / 2 < Pow2(width - 1);
      OrBitFits(mask / 2, i - 1, width - 1);
    }
  }

  lemma {:induction false} EmptyMask(v: nat)
    ensures !Bit(0, v)
  {
    if v > 0 { EmptyMask(v - 1); }
  }

  predicate Contains(f: FieldSet, value: nat) { value < 64 && Bit(f.mask, value) }

  // ----- one list item -----

  /** `start`, `start + step`, … up to `end`. */
  datatype Item = Item(start: nat, end: nat, step: nat)

  /** `d` is a whole number of steps. */
  predicate Multiple(d: nat, step: nat)
    requires step > 0
  {
    d == 0 || (d >= step && Multiple(d - step, step))
  }

  predicate InItem(item: Item, v: nat)
    requires item.step > 0
  {
    item.start <= v <= item.end && Multiple(v - item.start, item.step)
  }

  function ParseValue(token: string, min: nat, max: nat): Result<nat, CronError> {
    match ParseU32(token)
    case None => Failure(BadToken)
    case Some(v) => if v < min || v > max then Failure(OutOfRange) else Success(v)
  }

  function ParseStep(part: string): (r: Result<(string, nat), CronError>)
    ensures r.Success? ==> 0 < r.value.1 < U32_LIMIT
    ensures r.Failure? ==> !r.error.FieldCount?
  {
    match SplitOnce(part, '/')
    case None => Success((part, 1))
    case Some((range, s)) =>
      match ParseU32(s)
      case None => Failure(BadToken)
      case Some(step) => if step == 0 then Failure(ZeroStep) else Success((range, step))
  }

  function ParseBounds(a: string, b: string, min: nat, max: nat): (r: Result<(nat, nat), CronError>)
    ensures r.Success? ==> min <= r.value.0 <= r.value.1 <= max
    ensures r.Failure? ==> !r.error.FieldCount?
  {
    var x := ParseValue(a, min, max);
    var y := ParseValue(b, min, max);
    if x.Failure? then Failure(x.error)
    else if y.Failure? then Failure(y.error)
    else if x.value > y.value then Failure(InvertedRange)
    else Success((x.value, y.value))
  }

  /** `N/n` runs from `N` to the field's maximum; a bare `N`, and `N/1`, is one
      value. */
  function ParseRange(range: string, step: nat, min: nat, max: nat): (r: Result<(nat, nat), CronError>)
    requires min <= max
    ensures r.Success? ==> min <= r.value.0 <= r.value.1 <= max
    ensures r.Failure? ==> !r.error.FieldCount?
  {
    if range == "*" then Success((min, max))
    else
      var split := SplitOnce(range, '-');
      if split.Some? then ParseBounds(split.value.0, split.value.1, min, max)
      else
        var v := ParseValue(range, min, max);
        if v.Failure? then Failure(v.error) else Success((v.value, if step == 1 then v.value else max))
  }

  /** The largest value of an item at or after `i`. */
  function LastFrom(i: nat, end: nat, step: nat): (r: nat)
    requires step > 0 && i <= end
    ensures i <= r <= end < r + step && Multiple(r - i, step)
    decreases end - i
  {
    if i + step > end then i else LastFrom(i + step, end, step)
  }

  /** Does the stepping loop leave `u32` after its last value? */
  predicate Overflows(item: Item)
    requires item.step > 0 && item.start <= item.end
  {
    LastFrom(item.start, item.end, item.step) + item.step >= U32_LIMIT
  }

  function ParseItem(part: string, min: nat, max: nat): (r: Result<Item, CronError>)
    requires min <= max
    ensures r.Success? ==> 0 < r.value.step < U32_LIMIT && min <= r.value.start <= r.value.end <= max
    ensures r.Failure? ==> !r.error.FieldCount?
  {
    var stepped := ParseStep(part);
    if stepped.Failure? then Failure(stepped.error)
    else
      var (range, step) := stepped.value;
      var bounds := ParseRange(range, step, min, max);
      if bounds.Failure? then Failure(bounds.error)
      else if Overflows(Item(bounds.value.0, bounds.value.1, step)) then Failure(StepOverflow)
      else Success(Item(bounds.value.0, bounds.value.1, step))
  }

  // ----- a whole field -----

  /** `v` is denoted by one of the first `n` list items. */
  ghost predicate Denoted(parts: seq<string>, n: nat, min: nat, max: nat, v: nat)
    requires min <= max && n <= |parts|
  {
    exists k :: 0 <= k < n && ParseItem(parts[k], min, max).Success? && InItem(ParseItem(parts[k], min, max).value, v)
  }

  /** The set is the union of what the items of the field denote. */
  ghost predicate FieldMeans(f: FieldSet, field: string, min: nat, max: nat)
    requires min <= max
  {
    && f.star == (field == "*")
    && forall v: nat :: Contains(f, v) <==> Denoted(Split(field, ','), |Split(field, ',')|, min, max, v)
  }

  /** Every item of the list is in order. */
  ghost predicate ItemsParse(parts: seq<string>, n: nat, min: nat, max: nat)
    requires min <= max && n <= |parts|
  {
    forall k :: 0 <= k < n ==> ParseItem(parts[k], min, max).Success?
  }

  ghost predicate FieldParses(field: string, min: nat, max: nat)
    requires min <= max
  {
    ItemsParse(Split(field, ','), |Split(field, ',')|, min, max)
  }

  /** The first item that is not in order fails with `error`. */
  ghost predicate FieldFails(field: string, min: nat, max: nat, error: CronError)
    requires min <= max
  {
    var parts := Split(field, ',');
    exists k: nat :: k < |parts| && ParseItem(parts[k], min, max) == Failure(error) && ItemsParse(parts, k, min, max)
  }

  /** The field fails with the error of its first bad item, and otherwise its
      mask is the union of what the items denote. */
  method ParseField(field: string, min: nat, max: nat) returns (r: Result<FieldSet, CronError>)
    requires min <= max < 64
    ensures r.Success? <==> FieldParses(field, min, max)
    ensures r.Failure? ==> FieldFails(field, min, max, r.error)
    ensures r.Success? ==>
              && r.value.mask < Pow2(64)
              && FieldValid(r.value, min, max)
              && FieldMeans(r.value, field, min, max)
  {
    hide ParseItem, Split, Bit, Pow2, Denoted, InItem;
    var star := field == "*";
    var mask: nat := 0;
    var parts := Split(field, ',');
    forall v: nat
      ensures !Bit(mask, v) && !Denoted(parts, 0, min, max, v)
    {
      EmptyMask(v);
      NothingDenoted(parts, min, max, v);
    }
    Pow2Positive(64);
    for k := 0 to |parts|
      invariant ItemsParse(parts, k, min, max)
      invariant mask < Pow2(64)
      invariant forall v: nat :: Bit(mask, v) <==> Denoted(parts, k, min, max, v)
    {
      var parsed := ParseItem(parts[k], min, max);
      if parsed.Failure? {
        return Failure(parsed.error);
      }
      ghost var before := mask;
      mask := AddItem(mask, parsed.value);
      forall v: nat
        ensures Bit(mask, v) <==> Denoted(parts, k + 1, min, max, v)
      {
        DenotedStep(parts, k, min, max, v);
      }
    }
    forall v: nat | Denoted(parts, |parts|, min, max, v)
      ensures v < 64
    {
      DenotedInRange(parts, |parts|, min, max, v);
    }
    var parsedSet := FieldSet(mask, star);
    FieldIsValid(field, parsedSet, min, max);
    r := Success(parsedSet);
  }

  lemma FieldIsValid(field: string, f: FieldSet, min: nat, max: nat)
    requires min <= max < 64 && f.star == (field == "*")
    requires forall k :: 0 <= k < |Split(field, ',')| ==> ParseItem(Split(field, ',')[k], min, max).Success?
    requires forall v: nat :: Contains(f, v) <==> Denoted(Split(field, ','), |Split(field, ',')|, min, max, v)
    ensures FieldValid(f, min, max)
  {
    var parts := Split(field, ',');
    var first := ParseItem(parts[0], min, max).value;
    assert InItem(first, first.start);
    assert Denoted(parts, |parts|, min, max, first.start);
    forall v: nat | Contains(f, v)
      ensures min <= v <= max
    {
      DenotedInRange(parts, |parts|, min, max, v);
    }
    if f.star {
      StarItem(min, max);
      forall v | min <= v <= max
        ensures Contains(f, v)
      {
        MultipleOfOne(v - min);
        assert InItem(ParseItem(parts[0], min, max).value, v);
        assert Denoted(parts, |parts|, min, max, v);
      }
    }
  }

  lemma StarItem(min: nat, max: nat)
    requires min <= max < 64
    ensures Split("*", ',') == ["*"] && ParseItem("*", min, max) == Success(Item(min, max, 1))
  {
    assert ParseStep("*") == Success(("*", 1));
  }

  lemma {:induction false} MultipleOfOne(d: nat)
    ensures Multiple(d, 1)
  {
    if d > 0 { MultipleOfOne(d - 1); }
  }

  /** The stepping loop of one item. */
  method AddItem(mask: nat, item: Item) returns (r: nat)
    requires 0 < item.step && item.start <= item.end < 64 && mask < Pow2(64)
    ensures r < Pow2(64)
    ensures forall v: nat :: Bit(r, v) <==> Bit(mask, v) || InItem(item, v)
  {
    hide Bit, OrBit, Pow2, Multiple;
    r := mask;
    var i := item.start;
    MultipleZero(item.step);
    while i <= item.end
      invariant item.start <= i && Multiple(i - item.start, item.step)
      invariant r < Pow2(64)
      invariant forall v: nat :: Bit(r, v) <==> Bit(mask, v) || (v < i && InItem(item, v))
      decreases item.end + item.step - i
    {
      forall v: nat
        ensures Bit(OrBit(r, i), v) <==> Bit(r, v) || v == i
      {
        OrBitSets(r, i, v);
      }
      OrBitFits(r, i, 64);
      r := OrBit(r, i);
      forall v: nat | i < v < i + item.step
        ensures !InItem(item, v)
      {
        NoneBetween(i - item.start, v - i, item.step);
      }
      MultipleNext(i - item.start, item.step);
      i := i + item.step;
    }
  }

  lemma NothingDenoted(parts: seq<string>, min: nat, max: nat, v: nat)
    requires min <= max
    ensures !Denoted(parts, 0, min, max, v)
  {
  }

  lemma DenotedInRange(parts: seq<string>, n: nat, min: nat, max: nat, v: nat)
    requires min <= max && n <= |parts| && Denoted(parts, n, min, max, v)
    ensures min <= v <= max
  {
  }

  lemma DenotedStep(parts: seq<string>, k: nat, min: nat, max: nat, v: nat)
    requires min <= max && k < |parts| && ParseItem(parts[k], min, max).Success?
    ensures Denoted(parts, k + 1, min, max, v) <==>
            Denoted(parts, k, min, max, v) || InItem(ParseItem(parts[k], min, max).value, v)
  {
  }

  lemma Pow2Positive(n: nat)
    ensures Pow2(n) > 0
  {
  }

  lemma MultipleZero(step: nat)
    requires step > 0
    ensures Multiple(0, step)
  {
  }

  lemma MultipleNext(d: nat, step: nat)
    requires step > 0 && Multiple(d, step)
    ensures Multiple(d + step, step)
  {
  }

  /** No multiple of the step lies strictly between two consecutive ones. */
  lemma {:induction false} NoneBetween(d: nat, k: nat, step: nat)
    requires 0 < k < step && Multiple(d, step)
    ensures !Multiple(d + k, step)
  {
    if d > 0 { NoneBetween(d - step, k, step); }
  }

  // ----- what the spellings mean -----

  /** Numbers as they are written: any text that reads as a `u32`. */
  datatype Token = Star | Single(n: string) | Range(a: string, b: string)

  predicate IsNumeral(s: string) { ParseU32(s).Some? }

  function Num(s: string): nat
    requires IsNumeral(s)
  {
    ParseU32(s).value
  }

  function BaseText(token: Token): string {
    match token
    case Star => "*"
    case Single(n) => n
    case Range(a, b) => a + ['-'] + b
  }

  function Render(token: Token, step: Option<string>): string {
    if step.Some? then BaseText(token) + ['/'] + step.value else BaseText(token)
  }

  predicate InField(token: Token, min: nat, max: nat) {
    match token
    case Star => true
    case Single(n) => IsNumeral(n) && min <= Num(n) <= max
    case Range(a, b) => IsNumeral(a) && IsNumeral(b) && min <= Num(a) <= Num(b) <= max
  }

  predicate IsStep(step: Option<string>) { step.Some? ==> IsNumeral(step.value) && Num(step.value) > 0 }

  function StepSize(step: Option<string>): (n: nat)
    requires IsStep(step)
    ensures 0 < n < U32_LIMIT
  {
    if step.Some? then Num(step.value) else 1
  }

  /** The documented meaning: every `step`-th value of the range; a single number
      is itself, and with a step above one it is the start of a range. */
  predicate Means(token: Token, step: Option<string>, min: nat, max: nat, v: nat)
    requires IsStep(step) && InField(token, min, max)
  {
    var s := StepSize(step);
    match token
    case Star => min <= v <= max && (v - min) % s == 0
    case Single(n) => if s == 1 then v == Num(n) else Num(n) <= v <= max && (v - Num(n)) % s == 0
    case Range(a, b) => Num(a) <= v <= Num(b) && (v - Num(a)) % s == 0
  }

  lemma {:induction false} MultipleIsMod(d: nat, step: nat)
    requires step > 0
    ensures Multiple(d, step) <==> d % step == 0
  {
    if d >= step {
      MultipleIsMod(d - step, step);
      assert d % step == (d - step) % step by { ModPeriod(d - step, step); }
    }
  }

  lemma ModPeriod(d: nat, step: nat)
    requires step > 0
    ensures (d + step) % step == d % step
  {
    var q, r := d / step, d % step;
    var n := d + step;
    assert n == (q + 1) * step + r;
    var k := q + 1 - n / step;
    assert n % step == k * step + r by {
      assert n == (n / step) * step + n % step;
      Distribute(q + 1, n / step, step);
    }
    AtLeastOne(k, step);
  }

  lemma Distribute(a: int, b: int, step: int)
    ensures (a - b) * step == a * step - b * step
  {
  }

  lemma AtLeastOne(k: int, step: nat)
    ensures k >= 1 ==> k * step >= step
    ensures k <= -1 ==> k * step <= 0 - step
  {
    assert k * step == step + (k - 1) * step;
    assert k * step == (k + 1) * step - step;
  }

  lemma NumeralLacks(s: string, c: char)
    requires IsNumeral(s) && !IsDigit(c) && c != '+'
    ensures c !in s && s != []
  {
    var digits := if s != [] && s[0] == '+' then s[1..] else s;
    assert forall i :: 0 <= i < |digits| ==> IsDigit(digits[i]);
    assert s == digits || s == ['+'] + digits;
  }

  lemma StepParses(token: Token, step: Option<string>, min: nat, max: nat)
    requires InField(token, min, max) && IsStep(step)
    ensures ParseStep(Render(token, step)) == Success((BaseText(token), StepSize(step)))
  {
    hide ParseU32;
    var base := BaseText(token);
    match token {
      case Star =>
      case Single(n) => NumeralLacks(n, '/');
      case Range(a, b) =>
        NumeralLacks(a, '/');
        NumeralLacks(b, '/');
    }
    assert '/' !in base;
    if step.Some? { SplitsAtFirst(base, '/', step.value); }
  }

  lemma RangeParses(token: Token, step: nat, min: nat, max: nat)
    requires InField(token, min, max) && min <= max < U32_LIMIT
    ensures ParseRange(BaseText(token), step, min, max) == Success(BoundsOf(token, step, min, max))
  {
    hide ParseU32;
    match token {
      case Star =>
      case Single(n) =>
        NumeralLacks(n, '-');
        NumeralLacks(n, '*');
        assert "*"[0] == '*';
      case Range(a, b) =>
        NumeralLacks(a, '-');
        SplitsAtFirst(a, '-', b);
        assert BaseText(token)[|a|] == '-';
        assert |BaseText(token)| > 1;
    }
  }

  function BoundsOf(token: Token, step: nat, min: nat, max: nat): (nat, nat)
    requires InField(token, min, max)
  {
    match token
    case Star => (min, max)
    case Single(n) => (Num(n), if step == 1 then Num(n) else max)
    case Range(a, b) => (Num(a), Num(b))
  }

  /** Each spelling is read as what it means, and refused exactly when stepping
      on from one of its values would leave `u32`. */
  lemma TokenDenotes(token: Token, step: Option<string>, min: nat, max: nat)
    requires InField(token, min, max) && min <= max < 64 && IsStep(step)
    ensures
      var r, s := ParseItem(Render(token, step), min, max), StepSize(step);
      && (r.Failure? ==> r == Failure(StepOverflow))
      && (r.Failure? <==> exists v: nat :: Means(token, step, min, max, v) && v + s >= U32_LIMIT)
      && (r.Success? ==> forall v: nat :: InItem(r.value, v) <==> Means(token, step, min, max, v))
  {
    hide Render, ParseStep, ParseRange, ParseU32, LastFrom, Means;
    StepParses(token, step, min, max);
    var s := StepSize(step);
    RangeParses(token, s, min, max);
    var bounds := BoundsOf(token, s, min, max);
    var item := Item(bounds.0, bounds.1, s);
    forall v: nat
      ensures InItem(item, v) <==> Means(token, step, min, max, v)
    {
      ItemMeans(token, step, min, max, item, v);
    }
    var last := LastFrom(item.start, item.end, s);
    assert InItem(item, last);
    forall v: nat | InItem(item, v)
      ensures v <= last
    {
      if v > last { NoneBetween(last - item.start, v - last, s); }
    }
  }

  lemma ItemMeans(token: Token, step: Option<string>, min: nat, max: nat, item: Item, v: nat)
    requires InField(token, min, max) && min <= max && IsStep(step)
    requires item.step == StepSize(step) && (item.start, item.end) == BoundsOf(token, item.step, min, max)
    ensures InItem(item, v) <==> Means(token, step, min, max, v)
  {
    hide ParseU32;
    if v >= item.start { MultipleIsMod(v - item.start, item.step); }
  }

  /** An input on which stepping does leave `u32`: `5/4294967295`. */
  lemma StepLeavesU32()
    ensures ParseItem("5/" + Decimal(U32_LIMIT - 1), 0, 59) == Failure(StepOverflow)
  {
    hide ParseItem, Render, ParseU32, Decimal, Means;
    var step := Decimal(U32_LIMIT - 1);
    FiveStepped(step);
    DecimalParses(5);
    DecimalParses(U32_LIMIT - 1);
    TokenDenotes(Single("5"), Some(step), 0, 59);
    assert Means(Single("5"), Some(step), 0, 59, 5) by { FiveMeans(step); }
  }

  lemma FiveStepped(step: string)
    ensures Decimal(5) == "5" && Render(Single("5"), Some(step)) == "5/" + step
  {
    assert "5" + ['/'] + step == "5/" + step;
  }

  lemma FiveMeans(step: string)
    requires ParseU32("5") == Some(5) && ParseU32(step).Some? && ParseU32(step).value > 0
    ensures Means(Single("5"), Some(step), 0, 59, 5)
  {
    hide ParseU32;
  }

  lemma DecimalStep(n: nat, d: nat)
    requires n > 0 && d < 10
    ensures Decimal(n * 10 + d) == Decimal(n) + [DigitChar(d)]
  {
  }

  // ----- a whole field, as written -----

  datatype ListItem = ListItem(token: Token, step: Option<string>)

  predicate IsItem(x: ListItem, min: nat, max: nat) { InField(x.token, min, max) && IsStep(x.step) }

  function Texts(items: seq<ListItem>): (r: seq<string>)
    ensures |r| == |items| && forall i :: 0 <= i < |items| ==> r[i] == Render(items[i].token, items[i].step)
  {
    seq(|items|, i requires 0 <= i < |items| => Render(items[i].token, items[i].step))
  }

  predicate MeansItem(x: ListItem, min: nat, max: nat, v: nat) {
    IsItem(x, min, max) && Means(x.token, x.step, min, max, v)
  }

  ghost predicate AllItems(items: seq<ListItem>, min: nat, max: nat) {
    forall i :: 0 <= i < |items| ==> IsItem(items[i], min, max)
  }

  lemma RenderLacks(x: ListItem, min: nat, max: nat, c: char)
    requires IsItem(x, min, max) && !IsDigit(c) && c !in "+*-/"
    ensures c !in Render(x.token, x.step) && Render(x.token, x.step) != []
  {
    hide ParseU32;
    match x.token {
      case Star =>
      case Single(n) => NumeralLacks(n, c);
      case Range(a, b) => NumeralLacks(a, c); NumeralLacks(b, c);
    }
    if x.step.Some? { NumeralLacks(x.step.value, c); }
  }

  /** A list of spellings denotes what any of them means, unless one of them is
      refused. */
  lemma ListDenotes(items: seq<ListItem>, min: nat, max: nat, v: nat)
    requires items != [] && min <= max < 64 && AllItems(items, min, max)
    requires FieldParses(Join(Texts(items), ','), min, max)
    ensures var parts := Split(Join(Texts(items), ','), ',');
            Denoted(parts, |parts|, min, max, v) <==>
            exists i :: 0 <= i < |items| && MeansItem(items[i], min, max, v)
  {
    hide Render, ParseItem, InItem, MeansItem, Split, Join, IsItem;
    var parts := Texts(items);
    forall p | p in parts
      ensures ',' !in p
    {
      var i :| 0 <= i < |parts| && parts[i] == p;
      RenderLacks(items[i], min, max, ',');
    }
    SplitJoin(parts, ',');
    forall i | 0 <= i < |items|
      ensures InItem(ParseItem(parts[i], min, max).value, v) <==> MeansItem(items[i], min, max, v)
    {
      ItemDenotes(items[i], min, max, v);
    }
  }

  lemma ItemDenotes(x: ListItem, min: nat, max: nat, v: nat)
    requires IsItem(x, min, max) && min <= max < 64 && ParseItem(Render(x.token, x.step), min, max).Success?
    ensures InItem(ParseItem(Render(x.token, x.step), min, max).value, v) <==> MeansItem(x, min, max, v)
  {
    TokenDenotes(x.token, x.step, min, max);
  }

  /** A field that is one number. */
  lemma SingleDenotes(n: nat, min: nat, max: nat, v: nat)
    requires min <= n <= max < 64
    ensures Split(Decimal(n), ',') == [Decimal(n)]
    ensures Denoted([Decimal(n)], 1, min, max, v) <==> v == n
  {
    hide ParseItem, Decimal, ParseU32;
    DecimalParses(n);
    DecimalLacks(n, ',');
    var x := Single(Decimal(n));
    TokenDenotes(x, None, min, max);
    assert Render(x, None) == Decimal(n);
    assert forall k :: 0 <= k < 1 ==> [Decimal(n)][k] == Decimal(n);
    assert ParseItem([Decimal(n)][0], min, max).Success?;
  }

  // ----- expressions -----

  /** A parsed field: some value, all in range, and everything when it is `*`. */
  ghost predicate FieldValid(f: FieldSet, min: nat, max: nat) {
    && (exists v :: min <= v <= max && Contains(f, v))
    && (forall v: nat :: Contains(f, v) ==> min <= v <= max)
    && (f.star ==> forall v :: min <= v <= max ==> Contains(f, v))
  }

  ghost predicate WellFormed(e: CronExpr) {
    && FieldValid(e.minute, 0, 59) && FieldValid(e.hour, 0, 23) && FieldValid(e.dom, 1, 31)
    && FieldValid(e.month, 1, 12) && FieldValid(e.dow, 0, 6)
  }

  /** `expr` has five fields, and each set of `e` is what its field denotes. */
  ghost predicate Spells(expr: string, e: CronExpr) {
    var fields := Words(expr);
    && |fields| == 5
    && FieldMeans(e.minute, fields[0], 0, 59) && FieldMeans(e.hour, fields[1], 0, 23)
    && FieldMeans(e.dom, fields[2], 1, 31) && FieldMeans(e.month, fields[3], 1, 12)
    && FieldMeans(e.dow, fields[4], 0, 6)
  }

  /** The bounds of the five fields. */
  const LOW: seq<nat> := [0, 0, 1, 1, 0]
  const HIGH: seq<nat> := [59, 23, 31, 12, 6]

  /** The first `n` of the five fields are in order. */
  ghost predicate FieldsParse(fields: seq<string>, n: nat)
    requires n <= 5 <= |fields|
  {
    forall i :: 0 <= i < n ==> LOW[i] <= HIGH[i] && FieldParses(fields[i], LOW[i], HIGH[i])
  }

  ghost predicate ExprParses(expr: string) { |Words(expr)| == 5 && FieldsParse(Words(expr), 5) }

  /** The first field that is not in order fails with `error`. */
  ghost predicate FirstBad(fields: seq<string>, error: CronError)
    requires |fields| == 5
  {
    exists i :: 0 <= i < 5 && FieldsParse(fields, i)
                && LOW[i] <= HIGH[i] && FieldFails(fields[i], LOW[i], HIGH[i], error)
  }

  /** An expression parses exactly when it has five fields that do, and fails
      with the error of the first that does not. */
  method ParseExpr(expr: string) returns (r: Result<CronExpr, CronError>)
    ensures r.Success? <==> ExprParses(expr)
    ensures r.Success? ==> WellFormed(r.value) && Spells(expr, r.value)
    ensures r.Failure? ==>
              if |Words(expr)| != 5 then r.error == FieldCount(|Words(expr)|) else FirstBad(Words(expr), r.error)
  {
    hide Words, FieldValid, FieldMeans, FieldParses, FieldFails;
    var fields := Words(expr);
    if |fields| != 5 {
      return Failure(FieldCount(|fields|));
    }
    var minute := ParseField(fields[0], 0, 59);
    if minute.Failure? { Bad(fields, 0, minute.error); return Failure(minute.error); }
    var hour := ParseField(fields[1], 0, 23);
    if hour.Failure? { Bad(fields, 1, hour.error); return Failure(hour.error); }
    var dom := ParseField(fields[2], 1, 31);
    if dom.Failure? { Bad(fields, 2, dom.error); return Failure(dom.error); }
    var month := ParseField(fields[3], 1, 12);
    if month.Failure? { Bad(fields, 3, month.error); return Failure(month.error); }
    var dow := ParseField(fields[4], 0, 6);
    if dow.Failure? { Bad(fields, 4, dow.error); return Failure(dow.error); }
    r := Success(CronExpr(minute.value, hour.value, dom.value, month.value, dow.value));
  }

  lemma Bad(fields: seq<string>, i: nat, error: CronError)
    requires |fields| == 5 && i < 5 && FieldsParse(fields, i) && !FieldParses(fields[i], LOW[i], HIGH[i])
    requires FieldFails(fields[i], LOW[i], HIGH[i], error)
    ensures FirstBad(fields, error) && !FieldsParse(fields, 5)
  {
    hide FieldParses, FieldFails;
  }

  predicate Matches(e: CronExpr, minute: nat, hour: nat, dom: nat, month: nat, dow: nat) {
    && Contains(e.minute, minute) && Contains(e.hour, hour) && Contains(e.month, month)
    && DayRule(e, dom, dow)
  }

  /** Both day fields restricted: either suffices. Otherwise both must hold. */
  predicate DayRule(e: CronExpr, dom: nat, dow: nat) {
    if !e.dom.star && !e.dow.star then Contains(e.dom, dom) || Contains(e.dow, dow)
    else Contains(e.dom, dom) && Contains(e.dow, dow)
  }

  const DAY: nat := 1440

  /** Does the minute `t` match? */
  predicate MatchesAt(e: CronExpr, t: nat) {
    var date := DateOf(t / DAY);
    Matches(e, t % 60, t / 60 % 24, date.day, date.month, Weekday(t / DAY))
  }

  /** The first match among the `n` minutes from `t` on. */
  function FirstMatch(e: CronExpr, t: nat, n: nat): (r: Option<nat>)
    ensures r.Some? ==>
              && t <= r.value < t + n && MatchesAt(e, r.value)
              && forall k: nat :: t <= k < r.value ==> !MatchesAt(e, k)
    ensures r.None? ==> forall k: nat :: t <= k < t + n ==> !MatchesAt(e, k)
    decreases n
  {
    if n == 0 then None
    else if MatchesAt(e, t) then Some(t)
    else FirstMatch(e, t + 1, n - 1)
  }

  /** The next fire after an instant given in seconds, in minutes. */
  function NextFire(e: CronExpr, after: nat): Option<nat> {
    FirstMatch(e, after / 60 + 1, MAX_STEP_MINUTES)
  }

  lemma NextFireIsLeast(e: CronExpr, after: nat)
    ensures var f := NextFire(e, after);
            f.Some? ==>
              && after < 60 * f.value && MatchesAt(e, f.value)
              && forall t: nat :: after < 60 * t && t < f.value ==> !MatchesAt(e, t)
  {
    hide MatchesAt;
  }

  /** The search of the original. What it returns is the least matching minute
      strictly after the instant, if there is one within the horizon. */
  method NextAfter(e: CronExpr, after: nat) returns (r: Option<nat>)
    ensures r == NextFire(e, after)
    ensures r.Some? ==> after < 60 * r.value && MatchesAt(e, r.value)
                        && forall t: nat :: after < 60 * t && t < r.value ==> !MatchesAt(e, t)
    ensures r.None? ==> forall t: nat :: after < 60 * t && t <= after / 60 + MAX_STEP_MINUTES ==> !MatchesAt(e, t)
  {
    hide MatchesAt, FirstMatch;
    var t := after / 60 + 1;
    for k := 0 to MAX_STEP_MINUTES
      invariant t == after / 60 + 1 + k
      invariant forall j: nat :: after / 60 < j < t ==> !MatchesAt(e, j)
    {
      if MatchesAt(e, t) {
        FirstIsLeast(e, after / 60 + 1, MAX_STEP_MINUTES, t);
        return Some(t);
      }
      t := t + 1;
    }
    return None;
  }

  lemma FirstIsLeast(e: CronExpr, t: nat, n: nat, m: nat)
    requires t <= m < t + n && MatchesAt(e, m) && forall k: nat :: t <= k < m ==> !MatchesAt(e, k)
    ensures FirstMatch(e, t, n) == Some(m)
  {
    hide MatchesAt;
    var r := FirstMatch(e, t, n);
    assert r.Some?;
    assert r.value <= m && m <= r.value;
  }

  // ----- how far the search has to look -----

  /** The calendar rule alone: does day number `n` qualify? */
  predicate DayMatches(e: CronExpr, n: nat) {
    var date := DateOf(n);
    Contains(e.month, date.month) && DayRule(e, date.day, Weekday(n))
  }

  /** A qualifying day inside the horizon means a fire. */
  lemma DayGivesFire(e: CronExpr, after: nat, n: nat)
    requires WellFormed(e) && DayMatches(e, n)
    requires after / 60 / DAY < n <= after / 60 / DAY + 1463
    ensures NextFire(e, after).Some?
  {
    hide WellFormed, Contains, DayRule, DateOf, FirstMatch;
    var h: nat, m: nat := ClockAsked(e);
    var t := n * DAY + h * 60 + m;
    ClockOf(n, h, m);
    assert MatchesAt(e, t);
    InHorizon(after / 60, n, t);
  }

  lemma ClockAsked(e: CronExpr) returns (h: nat, m: nat)
    requires WellFormed(e)
    ensures h <= 23 && Contains(e.hour, h) && m <= 59 && Contains(e.minute, m)
  {
    h :| 0 <= h <= 23 && Contains(e.hour, h);
    m :| 0 <= m <= 59 && Contains(e.minute, m);
  }

  lemma ClockOf(n: nat, h: nat, m: nat)
    requires h <= 23 && m <= 59
    ensures var t := n * DAY + h * 60 + m; t / DAY == n && t % 60 == m && t / 60 % 24 == h
  {
    var t := n * DAY + h * 60 + m;
    assert t / 60 == n * 24 + h;
  }

  lemma InHorizon(from: nat, n: nat, t: nat)
    requires from / DAY < n <= from / DAY + 1463 && n * DAY <= t < (n + 1) * DAY
    ensures from < t <= from + MAX_STEP_MINUTES
  {
  }

  ghost predicate DateAsked(e: CronExpr, m: nat, d: nat) { Contains(e.month, m) && Contains(e.dom, d) }

  /** Some asked-for date exists in every year. */
  ghost predicate CommonDate(e: CronExpr) {
    exists m: nat, d: nat :: DateAsked(e, m, d) && 1 <= m <= 12 && 1 <= d <= DaysInMonth(1, m)
  }

  /** Some asked-for date exists at all. */
  ghost predicate SomeDate(e: CronExpr) {
    exists m: nat, d: nat :: DateAsked(e, m, d) && 1 <= m <= 12 && 1 <= d <= DaysInMonth(4, m)
  }

  /** A 29 February lies among the 1463 full days after the day of `after`. */
  ghost predicate LeapDayAhead(after: nat) {
    exists y: nat :: y >= 1 && IsLeap(y) && LeapDayIn(after, y)
  }

  ghost predicate LeapDayIn(after: nat, y: nat)
    requires y >= 1
  {
    after / 60 / DAY < DayNumber(Date(y, 2, 29)) <= after / 60 / DAY + 1463
  }

  /** The year after the day of `after` lies wholly inside the horizon. */
  lemma NextYearAhead(after: nat, d: Date)
    requires ValidDate(d) && d.year == DateOf(after / 60 / DAY).year + 1
    ensures after / 60 / DAY < DayNumber(d) <= after / 60 / DAY + 1463
  {
    hide DateOf, DayNumber, DaysBeforeYear, YearDays;
    var today := DateOf(after / 60 / DAY);
    InYear(today);
    NextYear(today.year);
    InYear(d);
    YearIs366(today.year);
    YearIs366(d.year);
  }

  lemma CommonLength(y: nat, m: nat)
    ensures DaysInMonth(1, m) <= DaysInMonth(y, m) <= DaysInMonth(4, m)
    ensures DaysInMonth(1, m) >= 28 && (DaysInMonth(1, m) < DaysInMonth(4, m) ==> m == 2 && DaysInMonth(4, m) == 29)
  {
  }

  lemma FullDow(e: CronExpr, n: nat)
    requires WellFormed(e) && e.dow.star
    ensures Contains(e.dow, Weekday(n))
  {
  }

  lemma FullDom(e: CronExpr, d: nat)
    requires WellFormed(e) && e.dom.star && 1 <= d <= 31
    ensures Contains(e.dom, d)
  {
  }

  /** A date that every year has comes up within the horizon. */
  lemma CommonDateFires(e: CronExpr, after: nat)
    requires WellFormed(e) && e.dow.star && CommonDate(e)
    ensures NextFire(e, after).Some?
  {
    hide WellFormed, Contains, DateOf, NextFire;
    var m: nat, d: nat :| DateAsked(e, m, d) && 1 <= m <= 12 && 1 <= d <= DaysInMonth(1, m);
    var y := DateOf(after / 60 / DAY).year + 1;
    CommonLength(y, m);
    var date := Date(y, m, d);
    var n := DayNumber(date);
    DateOfDayNumber(date);
    NextYearAhead(after, date);
    FullDow(e, n);
    DayGivesFire(e, after, n);
  }

  lemma MonthAsked(e: CronExpr) returns (m: nat, w: nat)
    requires WellFormed(e)
    ensures 1 <= m <= 12 && Contains(e.month, m) && w <= 6 && Contains(e.dow, w)
  {
    m :| 1 <= m <= 12 && Contains(e.month, m);
    w :| 0 <= w <= 6 && Contains(e.dow, w);
  }

  function DaysUntil(n: nat, w: nat): (k: nat)
    requires w <= 6
    ensures k <= 6 && Weekday(n + k) == w
  {
    var today := Weekday(n);
    var k := if today <= w then w - today else w + 7 - today;
    WeekdayMoves(n, k);
    k
  }

  lemma WeekdayMoves(n: nat, k: nat)
    requires k <= 6
    ensures Weekday(n + k) == if Weekday(n) + k < 7 then Weekday(n) + k else Weekday(n) + k - 7
  {
  }

  lemma DayInMonth(y: nat, m: nat, k: nat)
    requires y >= 1 && 1 <= m <= 12
    ensures DayNumber(Date(y, m, k + 1)) == DayNumber(Date(y, m, 1)) + k
  {
  }

  /** A restricted day of the week comes up within the horizon: any month has
      every weekday in its first seven days. */
  lemma WeekdayFires(e: CronExpr, after: nat)
    requires WellFormed(e) && !e.dow.star
    ensures NextFire(e, after).Some?
  {
    hide WellFormed, Contains, DateOf, NextFire, DayNumber, Weekday;
    var m, w := MonthAsked(e);
    var y := DateOf(after / 60 / DAY).year + 1;
    CommonLength(y, m);
    var first := DayNumber(Date(y, m, 1));
    var k := DaysUntil(first, w);
    var date := Date(y, m, k + 1);
    DayInMonth(y, m, k);
    DateOfDayNumber(date);
    NextYearAhead(after, date);
    if e.dom.star { FullDom(e, k + 1); }
    DayGivesFire(e, after, first + k);
  }

  /** 29 February comes up when there is one. */
  lemma LeapDayFires(e: CronExpr, after: nat)
    requires WellFormed(e) && e.dow.star && DateAsked(e, 2, 29) && LeapDayAhead(after)
    ensures NextFire(e, after).Some?
  {
    hide WellFormed, Contains, DateOf, NextFire;
    var y: nat :| y >= 1 && IsLeap(y) && LeapDayIn(after, y);
    var date := Date(y, 2, 29);
    DateOfDayNumber(date);
    FullDow(e, DayNumber(date));
    DayGivesFire(e, after, DayNumber(date));
  }

  lemma MatchHasDate(e: CronExpr, t: nat)
    requires e.dow.star && MatchesAt(e, t)
    ensures SomeDate(e) && DateAsked(e, DateOf(t / DAY).month, DateOf(t / DAY).day)
  {
    hide DateOf;
    var date := DateOf(t / DAY);
    CommonLength(date.year, date.month);
    assert DateAsked(e, date.month, date.day);
  }

  lemma NoDateNoFire(e: CronExpr, after: nat)
    requires e.dow.star && !SomeDate(e)
    ensures NextFire(e, after).None?
  {
    hide SomeDate, MatchesAt;
    if NextFire(e, after).Some? { MatchHasDate(e, NextFire(e, after).value); }
  }

  /** Some minute of the horizon falls on 29 February at an asked hour and
      minute. */
  ghost predicate LeapMinuteAhead(e: CronExpr, after: nat) {
    exists t: nat :: after / 60 < t <= after / 60 + MAX_STEP_MINUTES && LeapMinute(e, t)
  }

  ghost predicate LeapMinute(e: CronExpr, t: nat) {
    && DateOf(t / DAY).month == 2 && DateOf(t / DAY).day == 29
    && Contains(e.minute, t % 60) && Contains(e.hour, t / 60 % 24)
  }

  /** When the search comes back empty: exactly for an expression without a
      restricted day of the week whose day and month fields name no date at all,
      or none but 29 February when the horizon has no such day with an asked time
      on it. */
  lemma Horizon(e: CronExpr, after: nat)
    requires WellFormed(e)
    ensures NextFire(e, after).None? <==>
            e.dow.star && !CommonDate(e) && (SomeDate(e) ==> !LeapMinuteAhead(e, after))
  {
    hide WellFormed, NextFire, LeapMinuteAhead, Contains;
    if !e.dow.star {
      WeekdayFires(e, after);
    } else if CommonDate(e) {
      CommonDateFires(e, after);
    } else if !SomeDate(e) {
      NoDateNoFire(e, after);
    } else {
      var m: nat, d: nat :| DateAsked(e, m, d) && 1 <= m <= 12 && 1 <= d <= DaysInMonth(4, m);
      CommonLength(4, m);
      if LeapMinuteAhead(e, after) {
        LeapMinuteFires(e, after);
      } else if NextFire(e, after).Some? {
        OnlyLeapFires(e, after);
      }
    }
  }

  lemma LeapMinuteFires(e: CronExpr, after: nat)
    requires WellFormed(e) && e.dow.star && DateAsked(e, 2, 29) && LeapMinuteAhead(e, after)
    ensures NextFire(e, after).Some?
  {
    hide WellFormed, Contains, DateOf, FirstMatch;
    var t: nat :| after / 60 < t <= after / 60 + MAX_STEP_MINUTES && LeapMinute(e, t);
    FullDow(e, t / DAY);
    assert MatchesAt(e, t);
  }

  lemma OnlyLeapFires(e: CronExpr, after: nat)
    requires e.dow.star && !CommonDate(e) && NextFire(e, after).Some?
    ensures LeapMinuteAhead(e, after)
  {
    hide Contains, DateOf, FirstMatch;
    var t := NextFire(e, after).value;
    MatchHasDate(e, t);
    var date := DateOf(t / DAY);
    CommonLength(date.year, date.month);
    assert LeapMinute(e, t);
  }

  /** With a 29 February among the full days ahead, only an expression that names
      no date goes without a fire. */
  lemma HorizonWithLeapDay(e: CronExpr, after: nat)
    requires WellFormed(e) && LeapDayAhead(after)
    ensures NextFire(e, after).None? <==> e.dow.star && !SomeDate(e)
  {
    hide WellFormed, NextFire, LeapDayAhead, Contains, LeapMinuteAhead;
    Horizon(e, after);
    if e.dow.star && SomeDate(e) && !CommonDate(e) {
      var m: nat, d: nat :| DateAsked(e, m, d) && 1 <= m <= 12 && 1 <= d <= DaysInMonth(4, m);
      CommonLength(4, m);
      LeapDayFires(e, after);
    }
  }

  // ----- when a leap day is ahead -----

  lemma LeapDayNumber(y: nat)
    requires y >= 1
    ensures DayNumber(Date(y, 2, 29)) == DaysBeforeYear(y) + 59
  {
    TwelveMonths(y);
  }

  lemma {:induction false} YearsApart(a: nat, k: nat)
    requires a >= 1
    ensures DaysBeforeYear(a) + 365 * k <= DaysBeforeYear(a + k) <= DaysBeforeYear(a) + 366 * k
  {
    if k > 0 {
      YearsApart(a, k - 1);
      NextYear(a + k - 1);
    }
  }

  /** Away from the centuries that skip their leap day there is always one. */
  lemma LeapDayIsAhead(after: nat)
    requires
      var y := DateOf(after / 60 / DAY).year;
      forall k: nat :: y <= k <= y + 4 && k % 100 == 0 ==> k % 400 == 0
    ensures LeapDayAhead(after)
  {
    hide DateOf, DayNumber, DaysBeforeYear, IsLeap;
    var today := after / 60 / DAY;
    var y := DateOf(today).year;
    InYear(DateOf(today));
    var z := NextFour(y);
    YearsApart(y, z - y);
    YearIs366(y);
    LeapDayNumber(z);
    if today < DayNumber(Date(z, 2, 29)) {
      assert LeapDayIn(after, z);
    } else {
      LeapDayNumber(z + 4);
      FourYears(z);
      assert IsLeap(z + 4) && LeapDayIn(after, z + 4);
    }
  }

  /** The first year from `y` on that is divisible by four. */
  function NextFour(y: nat): (z: nat)
    ensures y <= z <= y + 3
    ensures z % 100 != 0 || z % 400 == 0 ==> IsLeap(z)
    ensures (z + 4) % 100 != 0 || (z + 4) % 400 == 0 ==> IsLeap(z + 4)
  {
    (y + 3) / 4 * 4
  }

  lemma YearIs366(y: nat)
    ensures YearDays(y) <= 366
  {
  }

  lemma FourYears(z: nat)
    requires z >= 1 && IsLeap(z)
    ensures DaysBeforeYear(z + 4) == DaysBeforeYear(z) + 1461
  {
    hide DaysBeforeYear;
    NextYear(z);
    NextYear(z + 1);
    NextYear(z + 2);
    NextYear(z + 3);
  }

  /** Only 29 February, as in `0 0 29 2 *`. */
  ghost predicate LeapDayOnly(e: CronExpr) {
    && e.dow.star
    && DateAsked(e, 2, 29)
    && forall m: nat, d: nat :: DateAsked(e, m, d) ==> m == 2 && d == 29
  }

  const LEAP_DAY: string := "0 0 29 2 *"

  /** Whatever that text is read as asks for 29 February only. */
  lemma LeapDaySpelled(e: CronExpr)
    requires Spells(LEAP_DAY, e)
    ensures LeapDayOnly(e)
  {
    hide Words, Split, Denoted, Decimal;
    LeapDayWords();
    LeapDayNumerals();
    forall v: nat
      ensures Contains(e.dom, v) <==> v == 29
      ensures Contains(e.month, v) <==> v == 2
    {
      SingleDenotes(29, 1, 31, v);
      SingleDenotes(2, 1, 12, v);
    }
  }

  lemma LeapDayNumerals()
    ensures Decimal(29) == "29" && Decimal(2) == "2" && Decimal(0) == "0"
  {
    DecimalStep(2, 9);
  }

  lemma LeapDayWords()
    ensures Words(LEAP_DAY) == ["0", "0", "29", "2", "*"]
  {
    var parts := ["0", "0", "29", "2", "*"];
    assert Join(parts[4..], ' ') == "*";
    assert Join(parts[3..], ' ') == "2 *" by { assert parts[3..][1..] == parts[4..]; }
    assert Join(parts[2..], ' ') == "29 2 *" by { assert parts[2..][1..] == parts[3..]; }
    assert Join(parts[1..], ' ') == "0 29 2 *" by { assert parts[1..][1..] == parts[2..]; }
    assert Join(parts, ' ') == LEAP_DAY;
    WordsJoin(parts);
  }

  /** And it is read as something. */
  lemma LeapDayParses()
    ensures ExprParses(LEAP_DAY)
  {
    hide Words, Split, ParseItem, Decimal;
    LeapDayWords();
    LeapDayNumerals();
    SingleParses(0, 0, 59);
    SingleParses(0, 0, 23);
    SingleParses(29, 1, 31);
    SingleParses(2, 1, 12);
    StarItem(0, 6);
  }

  lemma SingleParses(n: nat, min: nat, max: nat)
    requires min <= n <= max < 64
    ensures FieldParses(Decimal(n), min, max)
  {
    hide ParseItem, Decimal, ParseU32;
    SingleDenotes(n, min, max, n);
  }

  /** Near a skipped leap day the horizon is too short: on almost every day of
      the four years from 1 March 1896 the next 29 February (1904) is beyond it,
      and the search for `0 0 29 2 *` gives up although the date exists. */
  lemma HorizonMissesCentury(e: CronExpr, after: nat)
    requires WellFormed(e) && Spells(LEAP_DAY, e)
    requires DayNumber(Date(1896, 3, 1)) <= after / 60 / DAY < DayNumber(Date(1896, 3, 1)) + 1456
    ensures NextFire(e, after).None? && SomeDate(e)
  {
    hide MatchesAt, DateOf, DayNumber, NextFire, LeapDayOnly, Spells, WellFormed;
    LeapDaySpelled(e);
    AsksLeapDay(e);
    var r := NextFire(e, after);
    if r.Some? {
      FireInHorizon(e, after);
      MatchHasDate(e, r.value);
      FireOnLeapDay(e, r.value);
      NoLeapDayFrom1896(DateOf(r.value / DAY));
    }
  }

  lemma AsksLeapDay(e: CronExpr)
    requires LeapDayOnly(e)
    ensures SomeDate(e) && e.dow.star
  {
    assert DateAsked(e, 2, 29) && DaysInMonth(4, 2) == 29;
  }

  lemma FireInHorizon(e: CronExpr, after: nat)
    requires NextFire(e, after).Some?
    ensures MatchesAt(e, NextFire(e, after).value)
    ensures after / 60 / DAY <= NextFire(e, after).value / DAY <= after / 60 / DAY + 1464
  {
  }

  lemma FireOnLeapDay(e: CronExpr, t: nat)
    requires LeapDayOnly(e) && DateAsked(e, DateOf(t / DAY).month, DateOf(t / DAY).day)
    ensures DateOf(t / DAY).month == 2 && DateOf(t / DAY).day == 29
  {
  }

  lemma NoLeapDayFrom1896(d: Date)
    requires ValidDate(d) && d.month == 2 && d.day == 29
    ensures DayNumber(d) < DayNumber(Date(1896, 3, 1)) || DayNumber(Date(1896, 3, 1)) + 1456 + 1464 <= DayNumber(d)
  {
    LeapDayNumber(d.year);
    TwelveMonths(1896);
    if d.year < 1896 {
      YearsGrow(d.year, 1896);
    } else if d.year > 1900 {
      assert d.year >= 1904;
      if d.year > 1904 { YearsGrow(1904, d.year); }
      EightYears();
    } else {
      assert d.year == 1896;
    }
  }

  lemma EightYears()
    ensures DaysBeforeYear(1904) == DaysBeforeYear(1896) + 2921
  {
    hide DaysBeforeYear;
    NextYear(1896);
    NextYear(1897);
    NextYear(1898);
    NextYear(1899);
    NextYear(1900);
    NextYear(1901);
    NextYear(1902);
    NextYear(1903);
  }
}
