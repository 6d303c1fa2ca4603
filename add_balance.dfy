/** The top-up amount picker (components/AddBalanceConfig.tsx): one integer state `amount`,
    changed by the +/- buttons and by typing, and confirmed only when at least 10000. */
module AddBalance {
  import opened Wrappers
  import opened Chars

  const InitialAmount: int := 10000
  /** The smallest amount that can be confirmed, and the step of the +/- buttons. */
  const MinAmount: int := 10000
  const Step: int := 10000

  /** What `amount` can be: 0 after the field is cleared, or a confirmable amount. */
  predicate ValidAmount(amount: int)
  {
    amount == 0 || amount >= MinAmount
  }

  // ---------------------------------------------------------------------------
  // parseInt(val, 10) and Number.prototype.toString()

  predicate AllDigits(s: string)
  {
    forall i :: 0 <= i < |s| ==> IsDigit(s[i])
  }

  /** `s` without its leading StrWhiteSpaceChar characters. */
  function TrimStart(s: string): (t: string)
    ensures |t| <= |s| && t == s[|s| - |t|..]
    ensures t == [] || !IsStrWhiteSpace(t[0])
    ensures s != [] && !IsStrWhiteSpace(s[0]) ==> t == s
  {
    if s != [] && IsStrWhiteSpace(s[0]) then TrimStart(s[1..]) else s
  }

  /** What TrimStart removes is all white space. */
  lemma {:induction false} TrimStartRemovesWhiteSpace(s: string)
    ensures forall i :: 0 <= i < |s| - |TrimStart(s)| ==> IsStrWhiteSpace(s[i])
  {
    if s != [] && IsStrWhiteSpace(s[0]) {
      TrimStartRemovesWhiteSpace(s[1..]);
      forall i | 1 <= i < |s| - |TrimStart(s)|
        ensures IsStrWhiteSpace(s[i])
      {
        assert s[i] == s[1..][i - 1];
      }
    }
  }

  /** The longest prefix of `s` made of decimal digits. */
  function DigitPrefix(s: string): (ds: string)
    ensures |ds| <= |s| && ds == s[..|ds|]
    ensures forall i :: 0 <= i < |ds| ==> IsDigit(ds[i])
    ensures |ds| == |s| || !IsDigit(s[|ds|])
    ensures AllDigits(s) ==> ds == s
  {
    if s != [] && IsDigit(s[0]) then [s[0]] + DigitPrefix(s[1..]) else []
  }

  /** The number a string of decimal digits denotes. */
  function DigitsValue(ds: string): nat
    requires AllDigits(ds)
  {
    if ds == [] then 0 else 10 * DigitsValue(ds[..|ds| - 1]) + DigitValue(ds[|ds| - 1])
  }

  /** `parseInt(s, 10)`: skip leading white space, take an optional sign, then the longest run
      of digits; no digit gives NaN (`None`), and whatever follows the digits is ignored. */
  function ParseInt(s: string): Option<int>
  {
    var t := TrimStart(s);
    var negative := t != [] && t[0] == '-';
    var unsigned := if t != [] && (t[0] == '-' || t[0] == '+') then t[1..] else t;
    var ds := DigitPrefix(unsigned);
    if ds == [] then None
    else
      var value: int := DigitsValue(ds);
      Some(if negative then -value else value)
  }

  /** A plain string of digits parses to its decimal value. */
  lemma ParseIntOfDigits(s: string)
    requires s != [] && AllDigits(s)
    ensures ParseInt(s) == Some(DigitsValue(s))
  {
    assert IsDigit(s[0]);
    assert TrimStart(s) == s;
    assert DigitPrefix(s) == s;
  }

  /** A string without any digit, the empty string among them, parses to NaN. */
  lemma ParseIntWithoutDigits(s: string)
    requires forall i :: 0 <= i < |s| ==> !IsDigit(s[i])
    ensures ParseInt(s) == None
  {
    var t := TrimStart(s);
    var unsigned := if t != [] && (t[0] == '-' || t[0] == '+') then t[1..] else t;
    assert unsigned == s[|s| - |unsigned|..];
    assert unsigned == [] || !IsDigit(unsigned[0]) by {
      if unsigned != [] {
        assert unsigned[0] == s[|s| - |unsigned|];
      }
    }
  }

  /** The decimal digits of a natural number, without leading zeros. */
  function Decimal(n: nat): (s: string)
    ensures s != [] && AllDigits(s)
    ensures DigitsValue(s) == n
    ensures s[0] == '0' ==> s == "0"
  {
    if n < 10 then [DigitChar(n)]
    else
      var s := Decimal(n / 10) + [DigitChar(n % 10)];
      assert s[..|s| - 1] == Decimal(n / 10);
      s
  }

  /** `n.toString()` for an integer. */
  function IntToString(n: int): string
  {
    if n < 0 then "-" + Decimal(-n) else Decimal(n)
  }

  /** parseInt reads back what toString writes. */
  lemma ParseIntToString(n: int)
    ensures ParseInt(IntToString(n)) == Some(n)
  {
    if n >= 0 {
      ParseIntOfDigits(Decimal(n));
    } else {
      var d := Decimal(-n);
      var s := "-" + d;
      assert IntToString(n) == s;
      assert !IsStrWhiteSpace('-');
      assert TrimStart(s) == s;
      assert s[1..] == d;
      assert DigitPrefix(d) == d;
    }
  }

  // ---------------------------------------------------------------------------
  // The state updates

  /** handleIncrement's updater: one step up. */
  function Incremented(prev: int): (next: int)
    ensures next - prev == Step
    ensures ValidAmount(prev) ==> ValidAmount(next) && next >= MinAmount
  {
    prev + Step
  }

  /** handleDecrement's updater: one step down, never below the minimum. */
  function Decremented(prev: int): (next: int)
    ensures next >= MinAmount
    ensures prev - Step >= MinAmount ==> next == prev - Step
    ensures prev - Step < MinAmount ==> next == MinAmount
  {
    if prev - Step > MinAmount then prev - Step else MinAmount
  }

  /** handleChange: a parsed value of at least the minimum is taken, the empty text
      gives 0, any other text leaves the amount as it was. */
  function ChangedAmount(prev: int, val: string): (next: int)
    ensures ParseInt(val).Some? && ParseInt(val).value >= MinAmount ==> next == ParseInt(val).value
    ensures val == "" ==> next == 0
    ensures val != "" && !(ParseInt(val).Some? && ParseInt(val).value >= MinAmount) ==> next == prev
    ensures ValidAmount(prev) ==> ValidAmount(next)
  {
    var parsed := ParseInt(val);
    if parsed.Some? && parsed.value >= MinAmount then parsed.value
    else if val == "" then 0
    else prev
  }

  /** The TextInput's `value`: empty for 0, else the decimal amount. */
  function DisplayedText(amount: int): string
  {
    if amount == 0 then "" else IntToString(amount)
  }

  /** Typing back what the field shows changes nothing. */
  lemma DisplayRoundTrip(amount: int)
    ensures ChangedAmount(amount, DisplayedText(amount)) == amount
  {
    if amount != 0 {
      ParseIntToString(amount);
      assert DisplayedText(amount) != "" by {
        assert IntToString(amount) != "";
      }
    }
  }

  /** The component's state. */
  class AddBalanceConfig {
    var amount: int

    ghost predicate Valid()
      reads this
    {
      ValidAmount(amount)
    }

    constructor ()
      ensures amount == InitialAmount && Valid()
    {
      amount := InitialAmount;
    }

    method HandleIncrement()
      modifies this
      ensures amount == Incremented(old(amount))
      ensures old(Valid()) ==> Valid()
    {
      amount := Incremented(amount);
    }

    method HandleDecrement()
      modifies this
      ensures amount == Decremented(old(amount)) && Valid()
    {
      amount := Decremented(amount);
    }

    method HandleChange(val: string)
      modifies this
      ensures amount == ChangedAmount(old(amount), val)
      ensures old(Valid()) ==> Valid()
    {
      amount := ChangedAmount(amount, val);
    }

    /** handleConfirm: the amount `onConfirm` is called with, or `None` when it is not called. */
    method HandleConfirm() returns (confirmed: Option<int>)
      ensures confirmed.Some? <==> amount >= MinAmount
      ensures confirmed.Some? ==> confirmed.value == amount
    {
      if amount >= MinAmount {
        confirmed := Some(amount);
      } else {
        confirmed := None;
      }
    }

    /** The `value` of the input field. */
    function Text(): string
      reads this
    {
      DisplayedText(amount)
    }
  }
}
