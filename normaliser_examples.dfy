/**
 * The cleaners disagree on Brazilian thousands separators: "1.234,56" is
 * 1234.56 for the dot-decimal reader of padronizador_final.py, and not a
 * number at all for the others.
 */
module NormaliserExamples {
  import opened Wrappers
  import opened Strings
  import opened Numbers
  import opened Normalisers

  lemma SplitOfThousands()
    ensures Split("1.234.56", '.') == ["1", "234", "56"]
  {
    assert "1.234.56" == "1" + "." + ("234" + "." + "56");
    SplitAtSep("1", "234" + "." + "56", '.');
    SplitAtSepHere("234", "56");
  }

  lemma KeepLastDotOfThousands()
    ensures KeepLastDot("1.234.56") == "1234.56"
  {
    SplitOfThousands();
    KeepLastDotOfThree("1.234.56", "1", "234", "56");
    assert "1" + "234" + "." + "56" == "1234.56";
  }

  /** A text with exactly two dots keeps only the second. */
  lemma KeepLastDotOfThree(s: string, a: string, b: string, c: string)
    requires Split(s, '.') == [a, b, c]
    ensures KeepLastDot(s) == a + b + "." + c
  {
    var parts := [a, b, c];
    assert parts[..2] == [a, b];
    assert Concat([a, b]) == a + b by {
      assert [a, b][1..] == [b];
      assert Concat([b]) == b + Concat([]);
    }
  }

  lemma CommaOfThousands()
    ensures Trim("1.234,56") == "1.234,56"
    ensures ReplaceChar("1.234,56", ',', '.') == "1.234.56"
  {
    TrimUntouched("1.234,56");
  }

  lemma DotNumericOfThousands()
    ensures Filter("1.234.56", IsDotNumericChar) == "1.234.56"
  {
    FilterKeepsAll("1.234.56", IsDotNumericChar);
  }

  lemma DotDecimalThrough(s: string, t: string, u: string)
    requires Trim(s) == s && ReplaceChar(s, ',', '.') == t
    requires Filter(t, IsDotNumericChar) == t && KeepLastDot(t) == u
    ensures DotDecimalText(s) == u
  {
  }

  lemma DotTextOfThousands()
    ensures DotDecimalText("1.234,56") == "1234.56"
  {
    CommaOfThousands();
    DotNumericOfThousands();
    KeepLastDotOfThousands();
    DotDecimalThrough("1.234,56", "1.234.56", "1234.56");
  }

  lemma FormatOfThousands()
    ensures FormatUnsignedCents(123456) == "1234.56"
  {
    assert NatToString(1) == "1";
    assert NatToString(12) == "12";
    assert NatToString(123) == "123";
    assert NatToString(1234) == "1234";
    assert TwoDigits(56) == "56";
  }

  lemma ParseThousands()
    ensures ParseFloat("1234.56") == Some(1234.56)
  {
    FormatUnsignedCentsRoundTrip(123456);
    FormatOfThousands();
  }

  lemma BrazilianThousands()
    ensures NormalizeNumberCents(Some("1.234,56")) == Some(123456)
  {
    DotTextOfThousands();
    ParseThousands();
    assert RoundCents(1234.56) == 123456;
  }
}
