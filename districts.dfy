/** The district selector of the green-spaces and cooling-equipment views: twenty
    options whose values are the postal codes "75001" to "75020", built as
    "750" followed by the district number padded to two digits. */
module Districts {
  import opened JsValues

  /** `s.padStart(width, fill)` for a one-character fill. */
  function PadStart(s: string, width: nat, fill: char): (r: string)
    ensures |s| >= width ==> r == s
    ensures |s| < width ==> |r| == width && r[width - |s|..] == s
    ensures forall i :: 0 <= i < |r| - |s| ==> r[i] == fill
  {
    if |s| >= width then s else seq(width - |s|, _ => fill) + s
  }

  /** The value of the option for district `n`. */
  function PostalCode(n: nat): string
  {
    "750" + PadStart(NatText(n), 2, '0')
  }

  /** The selectable values, for districts 1 to 20: the i-th is a five-digit
      code reading as 75001 + i, so no two options share a value. */
  function PostalCodeOptions(): (options: seq<string>)
    ensures |options| == 20
    ensures forall i :: 0 <= i < 20 ==>
      |options[i]| == 5 && IsDigits(options[i]) && ParseNat(options[i]) == 75001 + i
    ensures forall i, j :: 0 <= i < 20 && 0 <= j < 20 && i != j ==> options[i] != options[j]
  {
    PostalCodesRead();
    seq(20, i requires 0 <= i < 20 => PostalCode(i + 1))
  }

  /** Reading "750" followed by two digits gives 75000 plus the number those
      two digits denote. */
  lemma ParseAfter750(s: string)
    requires |s| == 2 && IsDigits(s)
    ensures IsDigits("750" + s)
    ensures ParseNat("750" + s) == 75000 + ParseNat(s)
  {
    var code := "750" + s;
    assert code[..4] == "750" + s[..1];
    assert code[..4][..3] == "750";
    assert ParseNat("750") == 750 by {
      assert "750"[..2] == "75";
      assert "75"[..1] == "7";
      assert "7"[..0] == "";
    }
    assert s[..1][..0] == "";
  }

  /** Every option is a five-digit code that reads as 75000 plus the
      district number. */
  lemma PostalCodeValue(n: nat)
    requires 1 <= n <= 20
    ensures |PostalCode(n)| == 5 && IsDigits(PostalCode(n))
    ensures ParseNat(PostalCode(n)) == 75000 + n
  {
    var digits := NatText(n);
    var padded := PadStart(digits, 2, '0');
    ParseNatText(n);
    if n < 10 {
      assert padded == "0" + digits;
      assert digits == [DigitChar(n)];
      assert padded[..1] == "0";
      assert ParseNat(padded) == n;
    } else {
      assert NatText(n / 10) == [DigitChar(n / 10)];
      assert padded == digits;
    }
    ParseAfter750(padded);
  }

  lemma PostalCodesRead()
    ensures forall n :: 1 <= n <= 20 ==>
      |PostalCode(n)| == 5 && IsDigits(PostalCode(n)) && ParseNat(PostalCode(n)) == 75000 + n
  {
    forall n | 1 <= n <= 20
      ensures |PostalCode(n)| == 5 && IsDigits(PostalCode(n)) && ParseNat(PostalCode(n)) == 75000 + n
    {
      PostalCodeValue(n);
    }
  }
}
