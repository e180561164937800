/**
 * Which form `formatNumber` (main.js:593-600) gives a number. The digits of
 * `toFixed(1)` are floating point and are not modelled: an abbreviated result keeps
 * the number and the unit whose suffix it gets.
 */
module Format {
  import opened Wrappers
  import opened Numerals
  import opened Refresh

  datatype Unit = Thousand | Million {
    function Suffix(): string {
      match this case Thousand => "K" case Million => "M"
    }
    function Divisor(): int {
      match this case Thousand => 1000 case Million => 1000000
    }
  }

  datatype Shown =
    | Abbreviated(num: int, unit: Unit)   // (num / unit.Divisor()).toFixed(1) + unit.Suffix()
    | Plain(text: string)                 // num.toString()

  /** 'M' from one million up, 'K' from one thousand up, otherwise the integer itself (negatives included). */
  function FormatNumber(num: int): (s: Shown)
    ensures s == Abbreviated(num, Million) <==> num >= 1000000
    ensures s == Abbreviated(num, Thousand) <==> 1000 <= num < 1000000
    ensures s.Plain? <==> num < 1000
    ensures s.Plain? ==> s.text == IntToString(num)
    ensures s.Plain? ==> ParseInt(s.text) == Some(num)
  {
    if num >= 1000000 then Abbreviated(num, Million)
    else if num >= 1000 then Abbreviated(num, Thousand)
    else
      ParseIntOfIntToString(num, []);
      assert IntToString(num) + [] == IntToString(num);
      Plain(IntToString(num))
  }

  /** A revenue tick's value is always shown with the 'K' suffix. */
  lemma RevenueShownInThousands(r: real)
    requires 0.0 <= r < 1.0
    ensures FormatNumber(RevenueDraw(r)).unit.Suffix() == "K"
  {
  }
}
