/** The calculator-style amount keypad of PriceField: a bound integer `value`
    edited by digit, "00", "-/+" and reset buttons, and an `isEditing` flag that
    the amount button toggles and that may hide the keypad. */
module Keypad {

  /** The value printed on a digit button. */
  type Digit = d: int | 0 <= d <= 9

  /** The buttons of the keypad. */
  datatype Key = DigitKey(d: Digit) | DoubleZero | SignToggle | Reset

  function Sign(v: int): int { if v > 0 then 1 else if v < 0 then -1 else 0 }

  function Abs(v: int): nat { if v < 0 then -v else v }

  function Pow10(n: nat): nat
  {
    if n == 0 then 1 else 10 * Pow10(n - 1)
  }

  // ---------------------------------------------------------------------------
  // What one button does to the bound value

  /** The new value after pressing `k` with `v` on display. A digit pressed on
      zero starts the number, negative unless `positiveOnly`; a digit pressed on
      a non-zero value is appended to its magnitude and keeps its sign. */
  function Press(v: int, positiveOnly: bool, k: Key): (r: int)
    ensures k.DigitKey? && v == 0 ==>
      Abs(r) == k.d && (if positiveOnly then r >= 0 else r <= 0)
    ensures k.DigitKey? && v != 0 ==>
      Sign(r) == Sign(v) && Abs(r) == 10 * Abs(v) + k.d
    ensures k == DoubleZero ==> Sign(r) == Sign(v) && Abs(r) == 100 * Abs(v)
    ensures k == SignToggle ==> Sign(r) == -Sign(v) && Abs(r) == Abs(v)
    ensures k == Reset ==> r == 0
  {
    match k
    case DigitKey(d) =>
      if v == 0 then (if positiveOnly then d else -(d as int))
      else if v > 0 then 10 * v + d
      else 10 * v - d
    case DoubleZero => v * 100
    case SignToggle => -v
    case Reset => 0
  }

  /** Pressing the keys of `ks` one after another, starting from `v`. A run
      of no keys leaves `v`; a run that ends with reset ends at zero. */
  function PressAll(v: int, positiveOnly: bool, ks: seq<Key>): (r: int)
    ensures ks == [] ==> r == v
    ensures ks != [] && ks[|ks| - 1] == Reset ==> r == 0
  {
    if ks == [] then v
    else Press(PressAll(v, positiveOnly, ks[..|ks| - 1]), positiveOnly, ks[|ks| - 1])
  }

  /** Pressing `a` and then `b` is pressing `a + b`. */
  lemma {:induction false} PressAllConcat(v: int, positiveOnly: bool, a: seq<Key>, b: seq<Key>)
    ensures PressAll(v, positiveOnly, a + b) == PressAll(PressAll(v, positiveOnly, a), positiveOnly, b)
  {
    if b == [] {
      assert a + b == a;
    } else {
      assert (a + b)[..|a + b| - 1] == a + b[..|b| - 1];
      PressAllConcat(v, positiveOnly, a, b[..|b| - 1]);
    }
  }

  /** The digit buttons for the digits of `ds`, in order. */
  function DigitKeys(ds: seq<Digit>): (ks: seq<Key>)
    ensures |ks| == |ds|
    ensures forall i :: 0 <= i < |ds| ==> ks[i] == DigitKey(ds[i])
  {
    seq(|ds|, i requires 0 <= i < |ds| => DigitKey(ds[i]))
  }

  lemma SignToggleInvolution(v: int, positiveOnly: bool)
    ensures Press(Press(v, positiveOnly, SignToggle), positiveOnly, SignToggle) == v
  {
  }

  lemma ResetIdempotent(v: int, positiveOnly: bool)
    ensures Press(Press(v, positiveOnly, Reset), positiveOnly, Reset)
         == Press(v, positiveOnly, Reset) == 0
  {
  }

  // ---------------------------------------------------------------------------
  // Which buttons are on screen

  /** The keypad's rows as laid out: 1-3, 4-6, 7-9, then "00", 0, "-/+" (only
      when negative amounts are allowed) and reset. */
  function KeypadRows(positiveOnly: bool): (rows: seq<seq<Key>>)
    ensures |rows| == 4
    ensures forall i :: 0 <= i < 3 ==> |rows[i]| == 3
    ensures forall i, j :: 0 <= i < 3 && 0 <= j < 3 ==> rows[i][j] == DigitKey(3 * i + j + 1)
    ensures |rows[3]| == if positiveOnly then 3 else 4
    ensures rows[3][..2] == [DoubleZero, DigitKey(0)] && rows[3][|rows[3]| - 1] == Reset
    ensures SignToggle in rows[3] <==> !positiveOnly
  {
    [ [DigitKey(1), DigitKey(2), DigitKey(3)],
      [DigitKey(4), DigitKey(5), DigitKey(6)],
      [DigitKey(7), DigitKey(8), DigitKey(9)],
      [DoubleZero, DigitKey(0)] + (if positiveOnly then [] else [SignToggle]) + [Reset] ]
  }

  /** `k` is one of the keypad's buttons. */
  predicate Offered(positiveOnly: bool, k: Key)
  {
    exists i :: 0 <= i < |KeypadRows(positiveOnly)| && k in KeypadRows(positiveOnly)[i]
  }

  /** Every digit, "00" and reset are always offered; "-/+" exactly when
      negative amounts are allowed. */
  lemma OfferedKeys(positiveOnly: bool, k: Key)
    ensures Offered(positiveOnly, k) <==> (k == SignToggle ==> !positiveOnly)
  {
    var rows := KeypadRows(positiveOnly);
    match k
    case DigitKey(d) =>
      var i := if d == 0 then 3 else (d - 1) / 3;
      assert k in rows[i];
    case DoubleZero =>
      assert k in rows[3];
    case Reset =>
      assert k in rows[3];
    case SignToggle =>
      if !positiveOnly {
        assert k in rows[3];
      }
  }

  /** With `positiveOnly`, no offered button makes a non-negative amount
      negative, however many are pressed. */
  lemma {:induction false} PositiveOnlyStaysNonNegative(v: int, ks: seq<Key>)
    requires v >= 0
    requires forall i :: 0 <= i < |ks| ==> Offered(true, ks[i])
    ensures PressAll(v, true, ks) >= 0
  {
    if ks != [] {
      var init := ks[..|ks| - 1];
      PositiveOnlyStaysNonNegative(v, init);
      OfferedKeys(true, ks[|ks| - 1]);
    }
  }

  // ---------------------------------------------------------------------------
  // Digit entry spells a decimal number

  /** The number written by the decimal digits `ds`, most significant first. */
  function DecimalValue(ds: seq<Digit>): nat
  {
    if ds == [] then 0 else 10 * DecimalValue(ds[..|ds| - 1]) + ds[|ds| - 1]
  }

  /** The decimal digits of `n` without leading zeros (none for zero). */
  function DecimalDigits(n: nat): (ds: seq<Digit>)
    ensures n == 0 <==> ds == []
    ensures ds != [] ==> ds[0] != 0
  {
    if n == 0 then [] else
      var high := DecimalDigits(n / 10);
      assert high != [] ==> (high + [n % 10])[0] == high[0];
      high + [n % 10]
  }

  lemma {:induction false} DigitsThenValue(n: nat)
    ensures DecimalValue(DecimalDigits(n)) == n
  {
    if n != 0 {
      var ds := DecimalDigits(n);
      DigitsThenValue(n / 10);
      assert ds[..|ds| - 1] == DecimalDigits(n / 10);
    }
  }

  lemma {:induction false} LeadingDigitPositive(ds: seq<Digit>)
    requires ds != [] && ds[0] != 0
    ensures DecimalValue(ds) > 0
  {
    if |ds| > 1 {
      LeadingDigitPositive(ds[..|ds| - 1]);
    }
  }

  /** Digits without a leading zero are recovered from the number they spell. */
  lemma {:induction false} ValueThenDigits(ds: seq<Digit>)
    requires ds == [] || ds[0] != 0
    ensures DecimalDigits(DecimalValue(ds)) == ds
  {
    if ds != [] {
      var init, last := ds[..|ds| - 1], ds[|ds| - 1];
      var n := DecimalValue(ds);
      if init == [] {
        assert DecimalValue(init) == 0;
        assert DecimalDigits(n) == DecimalDigits(0) + [last];
      } else {
        LeadingDigitPositive(init);
        ValueThenDigits(init);
        assert n / 10 == DecimalValue(init) && n % 10 == last;
      }
    }
  }

  /** From zero, tapping digits spells their decimal number: positive when
      `positiveOnly`, otherwise negative (leading zeros leave zero). */
  lemma {:induction false} TapsFromZero(positiveOnly: bool, ds: seq<Digit>)
    ensures PressAll(0, positiveOnly, DigitKeys(ds))
         == if positiveOnly then DecimalValue(ds) else -(DecimalValue(ds) as int)
  {
    if ds != [] {
      var init := ds[..|ds| - 1];
      assert DigitKeys(ds)[..|ds| - 1] == DigitKeys(init);
      TapsFromZero(positiveOnly, init);
    }
  }

  /** From a non-zero value, tapped digits are appended to its magnitude and
      its sign is kept. */
  lemma {:induction false} TapsFromNonZero(v: int, positiveOnly: bool, ds: seq<Digit>)
    requires v != 0
    ensures var r := PressAll(v, positiveOnly, DigitKeys(ds));
      Sign(r) == Sign(v) && Abs(r) == Abs(v) * Pow10(|ds|) + DecimalValue(ds)
  {
    if ds != [] {
      var n := |ds|;
      var init := ds[..n - 1];
      assert DigitKeys(ds)[..n - 1] == DigitKeys(init);
      TapsFromNonZero(v, positiveOnly, init);
      var w := PressAll(v, positiveOnly, DigitKeys(init));
      AppendDigitArithmetic(Abs(v), Pow10(n - 1), DecimalValue(init), ds[n - 1]);
    }
  }

  lemma AppendDigitArithmetic(a: nat, p: nat, x: nat, d: nat)
    ensures 10 * (a * p + x) + d == a * (10 * p) + (10 * x + d)
  {
  }

  /** `positiveOnly` does not correct a bound value that is already negative:
      digits tapped on it keep it negative. */
  lemma NegativeStartStaysNegative(v: int, ds: seq<Digit>)
    requires v < 0
    ensures PressAll(v, true, DigitKeys(ds)) < 0
  {
    TapsFromNonZero(v, true, ds);
  }

  /** With `positiveOnly` set, a bound value of -1 followed by the digit 1 gives -11. */
  lemma MinusOneThenOne()
    ensures PressAll(-1, true, DigitKeys([1])) == -11
  {
    TapsFromNonZero(-1, true, [1]);
    assert DecimalValue([1]) == 1 by {
      assert [1][..0] == [];
    }
  }

  /** Digits d1..dn with d1 != 0 tapped from zero give the amount whose decimal
      digits are d1..dn, negative exactly when negative amounts are allowed. */
  lemma EnteredAmount(positiveOnly: bool, ds: seq<Digit>)
    requires ds != [] && ds[0] != 0
    ensures var r := PressAll(0, positiveOnly, DigitKeys(ds));
      DecimalDigits(Abs(r)) == ds && (r < 0 <==> !positiveOnly) && (r > 0 <==> positiveOnly)
  {
    TapsFromZero(positiveOnly, ds);
    ValueThenDigits(ds);
    LeadingDigitPositive(ds);
  }

  lemma OneTwoThree()
    ensures PressAll(0, false, DigitKeys([1, 2, 3])) == -123
    ensures PressAll(0, true, DigitKeys([1, 2, 3])) == 123
  {
    var ds: seq<Digit> := [1, 2, 3];
    assert ds[..2] == [1, 2] && ds[..2][..1] == [1] && ds[..2][..1][..0] == [];
    assert DecimalValue([1]) == 1;
    assert DecimalValue([1, 2]) == 12;
    assert DecimalValue(ds) == 123;
    TapsFromZero(false, ds);
    TapsFromZero(true, ds);
  }

  // ---------------------------------------------------------------------------
  // The view's state

  /** A PriceField: the bound amount, its configuration and the editing flag.
      `impacts` counts the haptic impacts the buttons emit. */
  class PriceField {
    var value: int
    const positiveOnly: bool
    const onlyShowKeypadWhenEditing: bool
    var isEditing: bool
    ghost var impacts: nat

    /** The `isEditing` argument is accepted and ignored: editing starts off. */
    constructor (value: int, positiveOnly: bool := false, isEditing: bool := false,
                 onlyShowKeypadWhenEditing: bool := false)
      ensures this.value == value && this.positiveOnly == positiveOnly
      ensures this.onlyShowKeypadWhenEditing == onlyShowKeypadWhenEditing
      ensures !this.isEditing && impacts == 0
      ensures KeypadVisible() <==> !onlyShowKeypadWhenEditing
    {
      this.value := value;
      this.positiveOnly := positiveOnly;
      this.onlyShowKeypadWhenEditing := onlyShowKeypadWhenEditing;
      this.isEditing := false;
      impacts := 0;
    }

    /** The keypad is drawn always, or, when configured to appear only while
        editing, exactly while editing. */
    predicate KeypadVisible()
      reads this
    {
      !onlyShowKeypadWhenEditing || isEditing
    }

    /** Button `k` can be tapped when the keypad is drawn and `k` is on it:
        any button but "-/+", which needs negative amounts to be allowed. */
    predicate CanTap(k: Key)
      reads this
      ensures CanTap(k) <==> KeypadVisible() && (k == SignToggle ==> !positiveOnly)
    {
      OfferedKeys(positiveOnly, k);
      KeypadVisible() && Offered(positiveOnly, k)
    }

    /** Tapping the amount toggles editing, which shows or hides the keypad
        when it is shown only while editing. */
    method TapAmount()
      modifies this`isEditing
      ensures isEditing == !old(isEditing)
      ensures KeypadVisible() <==> !onlyShowKeypadWhenEditing || !old(isEditing)
    {
      isEditing := !isEditing;
    }

    method TapDigit(d: Digit)
      requires CanTap(DigitKey(d))
      modifies this`value, this`impacts
      ensures value == Press(old(value), positiveOnly, DigitKey(d))
      ensures positiveOnly && old(value) >= 0 ==> value >= 0
      ensures impacts == old(impacts) + 1
    {
      if value == 0 {
        if positiveOnly {
          value := d;
        } else {
          value := -(d as int);
        }
      } else if value > 0 {
        value := 10 * value + d;
      } else {
        value := 10 * value - d;
      }
      impacts := impacts + 1;
    }

    method TapDoubleZero()
      requires CanTap(DoubleZero)
      modifies this`value, this`impacts
      ensures value == Press(old(value), positiveOnly, DoubleZero)
      ensures positiveOnly && old(value) >= 0 ==> value >= 0
      ensures impacts == old(impacts) + 1
    {
      value := value * 100;
      impacts := impacts + 1;
    }

    /** "-/+" is drawn only when negative amounts are allowed, and emits no
        haptic impact. */
    method TapSignToggle()
      requires CanTap(SignToggle)
      modifies this`value
      ensures !positiveOnly
      ensures value == Press(old(value), positiveOnly, SignToggle)
      ensures impacts == old(impacts)
    {
      OfferedKeys(positiveOnly, SignToggle);
      value := -value;
    }

    method TapReset()
      requires CanTap(Reset)
      modifies this`value, this`impacts
      ensures value == 0
      ensures impacts == old(impacts) + 1
    {
      value := 0;
      impacts := impacts + 1;
    }
  }
}
