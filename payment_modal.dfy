/** The card-payment form: how each keystroke is reformatted before it is stored,
    and the checks run on submit. */
module PaymentModal {
  import opened Seqs
  import opened Text

  datatype PaymentDetails = PaymentDetails(cardNumber: string, cardholderName: string, expiryDate: string, cvv: string)

  const EmptyDetails := PaymentDetails("", "", "", "")

  /** `s.replace(/(\d{4})/g, '$1 ')`: scanning left to right, each run of four digits
      gets a space after it; the scan resumes after the run. */
  function GroupFours(s: string): string
    decreases |s|
  {
    if |s| >= 4 && AllDigits(s[..4]) then s[..4] + " " + GroupFours(s[4..])
    else if s == [] then []
    else [s[0]] + GroupFours(s[1..])
  }

  /** Digits in groups of four separated by single spaces, with no trailing space. */
  function Grouped(d: string): (r: string)
    ensures |d| > 0 ==> |r| == |d| + (|d| - 1) / 4
    ensures |d| == 0 ==> r == []
    decreases |d|
  {
    if |d| <= 4 then d else d[..4] + " " + Grouped(d[4..])
  }

  /** The `cardNumber` branch of `handleChange`. */
  function FormatCardNumber(value: string): (r: string)
    ensures |r| <= 19
  {
    Take(Trim(GroupFours(RemoveSpaces(value))), 19)
  }

  /** On digits, the regex replacement is the grouping plus one trailing space after a
      final complete group. */
  lemma {:induction false} GroupFoursDigits(d: string)
    requires AllDigits(d)
    ensures GroupFours(d) == Grouped(d) + Trailing(d)
    decreases |d|
  {
    if |d| >= 4 {
      assert AllDigits(d[..4]);
      var rest := d[4..];
      GroupFoursDigits(rest);
      assert GroupFours(d) == d[..4] + " " + GroupFours(rest);
      if |d| == 4 {
        assert d[..4] == d;
      } else {
        assert Trailing(rest) == Trailing(d);
      }
    } else {
      GroupFoursShort(d);
    }
  }

  /** The space added after a final complete group of four. */
  function Trailing(d: string): string
  {
    if |d| > 0 && |d| % 4 == 0 then " " else ""
  }

  lemma {:induction false} GroupFoursShort(d: string)
    requires |d| < 4
    ensures GroupFours(d) == d
    decreases |d|
  {
    if d != [] {
      GroupFoursShort(d[1..]);
      assert [d[0]] + d[1..] == d;
    }
  }

  lemma {:induction false} GroupedEnds(d: string)
    requires AllDigits(d) && d != []
    ensures IsDigit(Grouped(d)[0]) && IsDigit(Grouped(d)[|Grouped(d)| - 1])
    decreases |d|
  {
    if |d| > 4 {
      GroupedEnds(d[4..]);
    }
  }

  /** Removing the separators gives the digits back. */
  lemma {:induction false} GroupedUngroups(d: string)
    requires AllDigits(d)
    ensures RemoveSpaces(Grouped(d)) == d
    decreases |d|
  {
    if |d| <= 4 {
      DigitsOfDigits(d);
    } else {
      GroupedUngroups(d[4..]);
      DigitsOfDigits(d[..4]);
      DigitsConcat(d[..4] + " ", Grouped(d[4..]));
      DigitsConcat(d[..4], " ");
      assert RemoveSpaces(" ") == [] by { assert " "[1..] == []; }
      assert d[..4] + d[4..] == d;
    }
  }

  /** The first `k` groups of a grouping are the grouping of the first `4 * k` digits. */
  lemma {:induction false} GroupedPrefix(d: string, k: nat)
    requires 1 <= k && 4 * k < |d|
    ensures Grouped(d)[..5 * k - 1] == Grouped(d[..4 * k])
    decreases k
  {
    if k > 1 {
      GroupedPrefix(d[4..], k - 1);
      assert d[..4 * k][4..] == d[4..][..4 * (k - 1)];
      assert d[..4 * k][..4] == d[..4];
    }
  }

  /** Trimming removes exactly the space after a final complete group. */
  lemma TrimGroupFours(d: string)
    requires AllDigits(d)
    ensures Trim(GroupFours(d)) == Grouped(d)
  {
    GroupFoursDigits(d);
    if d == [] {
      assert GroupFours(d) == [];
    } else {
      var g, pad := Grouped(d), Trailing(d);
      GroupedEnds(d);
      assert !IsSpace(g[0]) && !IsSpace(g[|g| - 1]);
      assert forall i :: 0 <= i < |pad| ==> IsSpace(pad[i]);
      TrimClean(g, pad);
    }
  }

  /** Cutting a grouping to nineteen characters keeps the first sixteen digits. */
  lemma TakeGrouped(d: string)
    ensures Take(Grouped(d), 19) == Grouped(Take(d, 16))
  {
    if |d| > 16 {
      GroupedPrefix(d, 4);
      assert |Grouped(d)| >= 19 by {
        assert (|d| - 1) / 4 >= 4;
      }
    } else if d != [] {
      assert |Grouped(d)| <= 19 by {
        assert (|d| - 1) / 4 <= 3;
      }
      assert Grouped(d)[..|Grouped(d)|] == Grouped(d);
      assert d[..|d|] == d;
    }
  }

  /** For input made of digits and white space, the stored card number is the first (at
      most sixteen) digits in groups of four, single-spaced, with no trailing space. */
  lemma FormatCardNumberDigits(value: string)
    requires AllDigits(RemoveSpaces(value))
    ensures FormatCardNumber(value) == Grouped(Take(RemoveSpaces(value), 16))
  {
    TrimGroupFours(RemoveSpaces(value));
    TakeGrouped(RemoveSpaces(value));
  }

  /** Typing or pasting sixteen or more digits (spaces allowed) always yields a card
      number that passes the length check. */
  lemma CardNumberRoundTrip(value: string)
    requires AllDigits(RemoveSpaces(value)) && |RemoveSpaces(value)| >= 16
    ensures RemoveSpaces(FormatCardNumber(value)) == RemoveSpaces(value)[..16]
    ensures CardNumberOk(FormatCardNumber(value))
  {
    var d := RemoveSpaces(value);
    var first := d[..16];
    assert AllDigits(first);
    FormatCardNumberDigits(value);
    assert Take(d, 16) == first;
    GroupedUngroups(first);
  }

  /** Reformatting a card number typed as digits and white space changes nothing. */
  lemma CardNumberIdempotent(value: string)
    requires AllDigits(RemoveSpaces(value))
    ensures FormatCardNumber(FormatCardNumber(value)) == FormatCardNumber(value)
  {
    var d := Take(RemoveSpaces(value), 16);
    FormatCardNumberDigits(value);
    assert AllDigits(d);
    GroupedUngroups(d);
    FormatCardNumberDigits(Grouped(d));
    assert Take(d, 16) == d;
  }

  /** The `expiryDate` branch of `handleChange`: digits only, with a slash after the
      first two when there are more than two. The result passes the MM/YY check exactly
      when four digits were typed. */
  function FormatExpiry(value: string): (r: string)
    ensures |r| <= 5
    ensures |Digits(value)| <= 2 ==> r == Digits(value)
    ensures |Digits(value)| > 2 ==> |r| >= 3 && r[2] == '/'
    ensures ExpiryOk(r) <==> |Digits(value)| >= 4
  {
    var clean := Digits(value);
    if |clean| > 2 then clean[..2] + "/" + clean[2..Min(4, |clean|)] else clean
  }

  /** `/^\d{2}\/\d{2}$/`. */
  predicate ExpiryOk(e: string)
  {
    |e| == 5 && IsDigit(e[0]) && IsDigit(e[1]) && e[2] == '/' && IsDigit(e[3]) && IsDigit(e[4])
  }

  /** The stored expiry keeps the first four digits typed, and only those. */
  lemma ExpiryKeepsDigits(value: string)
    ensures Digits(FormatExpiry(value)) == Take(Digits(value), 4)
  {
    var clean := Digits(value);
    if |clean| > 2 {
      var tail := clean[2..Min(4, |clean|)];
      DigitsJoin(clean[..2], '/', tail);
      assert clean[..2] + tail == clean[..Min(4, |clean|)];
    } else {
      DigitsOfDigits(clean);
    }
  }

  lemma ExpiryIdempotent(value: string)
    ensures FormatExpiry(FormatExpiry(value)) == FormatExpiry(value)
  {
    var clean := Digits(value);
    var e := FormatExpiry(value);
    var t := Digits(e);
    ExpiryKeepsDigits(value);
    var n := Min(4, |clean|);
    assert |t| == n && t == clean[..n];
    if |clean| > 2 {
      assert t[..2] == clean[..2] && t[2..n] == clean[2..n];
      assert FormatExpiry(e) == t[..2] + "/" + t[2..n];
    } else {
      assert t == clean;
    }
  }

  /** The `cvv` branch of `handleChange`: digits only, at most four. The result passes the
      CVV check exactly when at least three digits were typed. */
  function FormatCvv(value: string): (r: string)
    ensures CvvOk(r) <==> |Digits(value)| >= 3
    ensures AllDigits(r)
    ensures |r| == Min(4, |Digits(value)|) && r == Digits(value)[..|r|]
  {
    Take(Digits(value), 4)
  }

  /** `/^\d{3,4}$/`. */
  predicate CvvOk(c: string)
  {
    3 <= |c| <= 4 && AllDigits(c)
  }

  lemma CvvIdempotent(value: string)
    ensures FormatCvv(FormatCvv(value)) == FormatCvv(value)
  {
    DigitsOfDigits(FormatCvv(value));
  }

  /** `handleChange`: the field named by the input is set, reformatted for the card number,
      the expiry and the CVV, verbatim otherwise. A name that is none of the four fields
      stores nothing the form reads. */
  function HandleChange(details: PaymentDetails, name: string, value: string): (r: PaymentDetails)
    ensures name == "cardNumber" ==> |r.cardNumber| <= 19
    ensures name == "expiryDate" ==> |r.expiryDate| <= 5
    ensures name == "cvv" ==> |r.cvv| <= 4 && AllDigits(r.cvv)
  {
    if name == "cardNumber" then details.(cardNumber := FormatCardNumber(value))
    else if name == "expiryDate" then details.(expiryDate := FormatExpiry(value))
    else if name == "cvv" then details.(cvv := FormatCvv(value))
    else if name == "cardholderName" then details.(cardholderName := value)
    else details
  }

  /** The form field an input name stands for. */
  function Field(details: PaymentDetails, name: string): Option<string>
  {
    if name == "cardNumber" then Some(details.cardNumber)
    else if name == "cardholderName" then Some(details.cardholderName)
    else if name == "expiryDate" then Some(details.expiryDate)
    else if name == "cvv" then Some(details.cvv)
    else None
  }

  /** A change updates only the field it names, and stores the formatted value there. */
  lemma HandleChangeFrame(details: PaymentDetails, name: string, value: string, other: string)
    ensures other != name ==> Field(HandleChange(details, name, value), other) == Field(details, other)
    ensures Field(details, name).Some? ==>
      Field(HandleChange(details, name, value), name) ==
        Some(if name == "cardNumber" then FormatCardNumber(value)
             else if name == "expiryDate" then FormatExpiry(value)
             else if name == "cvv" then FormatCvv(value)
             else value)
    ensures Field(details, name).None? ==> HandleChange(details, name, value) == details
  {
    assert "cardNumber"[0] != "expiryDate"[0];
    assert |"cvv"| != |"cardNumber"| && |"cvv"| != |"expiryDate"| && |"cvv"| != |"cardholderName"|;
    assert |"cardholderName"| != |"cardNumber"| && |"cardholderName"| != |"expiryDate"|;
  }

  /** The outcome of `validateForm`: success, or the first check that failed. */
  datatype Verdict = Valid | InvalidCardNumber | MissingCardholderName | InvalidExpiryDate | InvalidCvv

  /** At least sixteen characters once white space is removed. */
  predicate CardNumberOk(c: string) { |RemoveSpaces(c)| >= 16 }

  predicate NameOk(n: string) { Trim(n) != [] }

  /** `validateForm`: the checks in order, stopping at the first that fails. */
  function ValidateForm(d: PaymentDetails): (r: Verdict)
    ensures r == Valid <==> CardNumberOk(d.cardNumber) && NameOk(d.cardholderName) && ExpiryOk(d.expiryDate) && CvvOk(d.cvv)
  {
    if |RemoveSpaces(d.cardNumber)| < 16 then InvalidCardNumber
    else if Trim(d.cardholderName) == [] then MissingCardholderName
    else if !ExpiryOk(d.expiryDate) then InvalidExpiryDate
    else if !CvvOk(d.cvv) then InvalidCvv
    else Valid
  }

  /** The verdict names the first failing check: an earlier failure hides later ones. */
  lemma ValidateFormOrder(d: PaymentDetails)
    ensures ValidateForm(d) == InvalidCardNumber <==> !CardNumberOk(d.cardNumber)
    ensures ValidateForm(d) == MissingCardholderName <==>
      CardNumberOk(d.cardNumber) && (forall i :: 0 <= i < |d.cardholderName| ==> IsSpace(d.cardholderName[i]))
    ensures ValidateForm(d) == InvalidExpiryDate <==>
      CardNumberOk(d.cardNumber) && NameOk(d.cardholderName) && !ExpiryOk(d.expiryDate)
    ensures ValidateForm(d) == InvalidCvv <==>
      CardNumberOk(d.cardNumber) && NameOk(d.cardholderName) && ExpiryOk(d.expiryDate) && !CvvOk(d.cvv)
  {
    TrimBlank(d.cardholderName);
  }

  /** Filling the form through `handleChange` with sixteen card digits, a name with a
      visible character, four expiry digits and three or four CVV digits passes validation. */
  lemma FilledFormValidates(card: string, name: string, expiry: string, cvv: string, k: nat)
    requires AllDigits(RemoveSpaces(card)) && |RemoveSpaces(card)| >= 16
    requires k < |name| && !IsSpace(name[k])
    requires |Digits(expiry)| >= 4
    requires |Digits(cvv)| >= 3
    ensures var d := HandleChange(HandleChange(HandleChange(HandleChange(EmptyDetails,
               "cardNumber", card), "cardholderName", name), "expiryDate", expiry), "cvv", cvv);
      ValidateForm(d) == Valid
  {
    CardNumberRoundTrip(card);
    TrimBlank(name);
  }
}
