/** The payment page: card-number formatting as the user types, the plan
    chosen from the address, and the check on the Bit transfer form. The
    payment providers and the e-mail to the administrator are outside the
    model. */
module PaymentPage {
  import opened Common
  import Grouping

  /** The digits of the input, everything else dropped. */
  function Digits(s: string): string {
    Filter(s, Grouping.IsDigit)
  }

  lemma {:induction false} DigitsAreDigits(s: string)
    ensures AllDigits(Digits(s))
  {
    var r := Digits(s);
    FilterMembers(s, Grouping.IsDigit);
    forall i | 0 <= i < |r| ensures Grouping.IsDigit(r[i]) {
      assert r[i] in r;
    }
  }

  predicate AllDigits(s: string) {
    forall i :: 0 <= i < |s| ==> Grouping.IsDigit(s[i])
  }

  lemma {:induction false} DigitsOfDigits(s: string)
    requires AllDigits(s)
    ensures Digits(s) == s
    decreases |s|
  {
    if s != [] {
      DigitsOfDigits(s[1..]);
    }
  }

  /** The groups of four the loop cuts `match` into: `substring(i, i + 4)` for
      `i = 0, 4, 8, ...` below its length. */
  function Chunks(m: string): seq<string>
    decreases |m|
  {
    if m == [] then []
    else if |m| <= 4 then [m]
    else [m[..4]] + Chunks(m[4..])
  }

  /** `parts.join(' ')`. */
  function Join(parts: seq<string>): string
    decreases |parts|
  {
    if parts == [] then ""
    else if |parts| == 1 then parts[0]
    else parts[0] + " " + Join(parts[1..])
  }

  /** The digit run `\d{4,16}` finds first: the first sixteen digits, or none
      when there are fewer than four. */
  function CardDigits(value: string): (m: string)
    ensures var v := Digits(value);
      (|v| < 4 ==> m == "") && (|v| >= 4 ==> m == v[..Min(16, |v|)])
  {
    var v := Digits(value);
    if |v| < 4 then "" else v[..Min(16, |v|)]
  }

  /** `formatCardNumber`, as a value: the input unchanged with fewer than four
      digits, else its first sixteen digits in space-separated groups of four. */
  function CardFormat(value: string): string {
    var m := CardDigits(value);
    if m == [] then value else Join(Chunks(m))
  }

  /** The groups cover the run in order; every group but the last has four
      digits and the last has one to four. */
  lemma {:induction false} ChunksSpec(m: string)
    requires m != []
    ensures var c := Chunks(m);
      |c| > 0 && Concat(c) == m && (forall k :: 0 <= k < |c| - 1 ==> |c[k]| == 4)
      && 1 <= |c[|c| - 1]| <= 4 && |c| == (|m| + 3) / 4
    decreases |m|
  {
    if |m| > 4 {
      ChunksSpec(m[4..]);
      assert m == m[..4] + m[4..];
    }
  }

  function Concat(parts: seq<string>): string
    decreases |parts|
  {
    if parts == [] then "" else parts[0] + Concat(parts[1..])
  }

  /** Joining keeps the groups' digits in order and adds only spaces. */
  lemma {:induction false} JoinDigits(parts: seq<string>)
    requires parts != []
    requires forall k :: 0 <= k < |parts| ==> AllDigits(parts[k])
    ensures Digits(Join(parts)) == Concat(parts)
    decreases |parts|
  {
    DigitsOfDigits(parts[0]);
    if |parts| > 1 {
      JoinDigits(parts[1..]);
      DigitsAroundSpace(parts[0], Join(parts[1..]));
    } else {
      assert Concat(parts) == parts[0] + Concat(parts[1..]);
      assert parts[0] + "" == parts[0];
    }
  }

  lemma {:induction false} DigitsAroundSpace(a: string, b: string)
    requires AllDigits(a)
    ensures Digits(a + " " + b) == a + Digits(b)
  {
    var sp := [' '];
    DigitsOfDigits(a);
    FilterAppend(a + sp, b, Grouping.IsDigit);
    FilterAppend(a, sp, Grouping.IsDigit);
    FilterCons(' ', [], Grouping.IsDigit);
    assert sp == [' '] + [] && Filter(sp, Grouping.IsDigit) == [];
  }

  /** Joining adds exactly one space between neighbouring groups. */
  lemma {:induction false} JoinLength(parts: seq<string>)
    requires parts != []
    ensures |Join(parts)| == |Concat(parts)| + |parts| - 1
    decreases |parts|
  {
    if |parts| > 1 {
      JoinLength(parts[1..]);
    } else {
      assert Concat(parts) == parts[0] + Concat(parts[1..]);
    }
  }

  lemma {:induction false} ChunksDigits(m: string)
    requires AllDigits(m)
    ensures forall k :: 0 <= k < |Chunks(m)| ==> AllDigits(Chunks(m)[k])
    decreases |m|
  {
    if |m| > 4 {
      ChunksDigits(m[4..]);
    }
  }

  /** What a formatted card number is made of: with four or more digits the
      output's digits are the first min(16, n) digits of the input, grouped
      in fours, and it is at most 19 characters long (16 digits, 3 spaces). */
  lemma {:induction false} FormattedShape(value: string)
    requires |Digits(value)| >= 4
    ensures var v := Digits(value); var r := CardFormat(value);
      Digits(r) == v[..Min(16, |v|)] && IsPrefix(Digits(r), v)
      && r == Join(Chunks(v[..Min(16, |v|)]))
      && |r| <= 19
  {
    var v := Digits(value);
    var m := CardDigits(value);
    DigitsAreDigits(value);
    assert AllDigits(m);
    ChunksSpec(m);
    ChunksDigits(m);
    JoinDigits(Chunks(m));
    JoinLength(Chunks(m));
  }

  /** With fewer than four digits the input is returned as typed. */
  lemma {:induction false} FewDigitsUnchanged(value: string)
    requires |Digits(value)| < 4
    ensures CardFormat(value) == value
  {
  }

  /** Formatting a formatted number changes nothing. */
  lemma {:induction false} FormatIdempotent(value: string)
    ensures CardFormat(CardFormat(value)) == CardFormat(value)
  {
    var v := Digits(value);
    if |v| >= 4 {
      FormattedShape(value);
      var m := v[..Min(16, |v|)];
      var r := CardFormat(value);
      assert Digits(r) == m;
      assert CardDigits(r) == m;
    }
  }

  /** Cutting from position `i` takes the next (at most) four characters,
      then cuts the rest. */
  lemma {:induction false} ChunksStep(m: string, i: nat)
    requires i < |m|
    ensures Chunks(m[i..]) == [m[i..Min(i + 4, |m|)]] + Chunks(m[Min(i + 4, |m|)..])
  {
    var tail := m[i..];
    if i + 4 <= |m| {
      assert tail[..4] == m[i..i + 4];
      assert tail[4..] == m[i + 4..];
      if i + 4 == |m| {
        assert tail == m[i..i + 4];
        assert m[i + 4..] == [];
        assert Chunks([]) == [];
      }
    } else {
      assert Min(i + 4, |m|) == |m|;
      assert m[i..|m|] == tail;
      assert m[|m|..] == [];
      assert Chunks([]) == [];
    }
  }

  /** `formatCardNumber`: the non-digits are dropped, the first digit run of
      four to sixteen is cut into groups by a loop, and the groups are joined;
      with no groups the input comes back unchanged. */
  method FormatCardNumber(value: string) returns (r: string)
    ensures r == CardFormat(value)
  {
    var m := CardDigits(value);
    var parts: seq<string> := [];
    var i := 0;
    while i < |m|
      invariant 0 <= i
      invariant parts + Chunks(m[Min(i, |m|)..]) == Chunks(m)
      decreases |m| - i
    {
      ChunksStep(m, i);
      var end := if i + 4 <= |m| then i + 4 else |m|;
      parts := parts + [m[i..end]];
      i := i + 4;
    }
    assert m[Min(i, |m|)..] == [];
    assert parts == Chunks(m);
    if |parts| > 0 {
      r := Join(parts);
    } else {
      r := value;
    }
  }

  /** A price plan. */
  datatype Plan = Plan(name: string, price: nat)

  const Plans: map<string, Plan> := map[
    "basic" := Plan("בסיסי", 199),
    "premium" := Plan("פרימיום", 399),
    "ultimate" := Plan("אולטימייט", 699)]

  /** The plan for the `plan` address parameter, `premium` when it is absent
      or empty; an unknown id gives no plan, and the page stays on its
      loading spinner. */
  function PlanFor(param: Option<string>): (r: Option<Plan>)
    ensures !Present(param) ==> r == Some(Plan("פרימיום", 399))
    ensures Present(param) && param.value in Plans ==> r == Some(Plans[param.value])
    ensures Present(param) && param.value !in Plans ==> r == None
    ensures r.Some? ==> r.value.price in {199, 399, 699}
  {
    var id := if Present(param) then param.value else "premium";
    if id in Plans then Some(Plans[id]) else None
  }

  predicate ShowsSpinner(param: Option<string>) { PlanFor(param).None? }

  /** The spinner shows exactly for an id that names no plan. */
  lemma {:induction false} SpinnerExactlyForUnknownPlans(param: Option<string>)
    ensures ShowsSpinner(param) <==> Present(param) && param.value !in Plans
  {
  }

  /** The amount field starts as the number 0 and, once edited, holds the
      input's text. */
  datatype Amount = Initial(n: int) | Typed(text: string)

  predicate AmountTruthy(a: Amount) {
    match a
    case Initial(n) => n != 0
    case Typed(text) => text != ""
  }

  datatype BitDetails = BitDetails(transactionId: string, amount: Amount, lastDigits: string)

  const InitialBitDetails: BitDetails := BitDetails("", Initial(0), "")

  /** The check in `handleBitPaymentSubmit`, AS WRITTEN: each field must be
      truthy, and a typed amount is a non-empty string. */
  function BitAcceptedAsWritten(d: BitDetails): (ok: bool)
    ensures ok <==> d.transactionId != "" && AmountTruthy(d.amount) && d.lastDigits != ""
  {
    Truthy(d.transactionId) && AmountTruthy(d.amount) && Truthy(d.lastDigits)
  }

  /** A typed amount that reads as zero, or is empty: only zeros and a
      decimal point. */
  predicate ZeroText(text: string) {
    forall i :: 0 <= i < |text| ==> text[i] == '0' || text[i] == '.'
  }

  predicate AmountGiven(a: Amount) {
    match a
    case Initial(n) => n != 0
    case Typed(text) => !ZeroText(text)
  }

  /** The intended check: no field empty and the amount not zero. */
  function BitAccepted(d: BitDetails): (ok: bool)
    ensures ok ==> d.transactionId != "" && d.lastDigits != ""
    ensures ok ==> AmountTruthy(d.amount)
    ensures ok <==> BitAcceptedAsWritten(d) && !(d.amount.Typed? && ZeroText(d.amount.text))
  {
    Truthy(d.transactionId) && AmountGiven(d.amount) && Truthy(d.lastDigits)
  }

  /** As written, the untouched form is refused but an amount typed as "0" is
      accepted, although it is zero. */
  lemma {:induction false} TypedZeroAccepted()
    ensures !BitAcceptedAsWritten(InitialBitDetails)
    ensures BitAcceptedAsWritten(BitDetails("BIT-1", Typed("0"), "1234"))
    ensures !BitAccepted(BitDetails("BIT-1", Typed("0"), "1234"))
  {
  }

  /** The intended check refuses every zero amount, whether untouched or typed. */
  lemma {:induction false} ZeroAmountRefused(d: BitDetails)
    requires d.amount == Initial(0) || (d.amount.Typed? && ZeroText(d.amount.text))
    ensures !BitAccepted(d)
  {
  }
}
