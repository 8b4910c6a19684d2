/**
 * The count labels and platform badge colours of an influencer card
 * (src/components/InfluencerCard.tsx). The saved list and the profile page
 * repeat both helpers character for character, and the sidebar repeats
 * `formatNumber`; this module is the one definition they all use.
 */
module InfluencerCard {
  import opened Text

  /** A decimal digit string followed by `suffix`. */
  predicate DigitsThen(r: string, suffix: char)
  {
    |r| >= 2 && r[|r| - 1] == suffix && AllDigits(r[..|r| - 1])
  }

  /** `"<digits>.<digit>M"`: one decimal digit before the suffix. */
  predicate OneDecimalThenM(r: string)
  {
    && |r| >= 4 && r[|r| - 1] == 'M' && r[|r| - 3] == '.'
    && IsDigit(r[|r| - 2]) && AllDigits(r[..|r| - 3])
  }

  /** The value, in tenths of a million, a label of the `OneDecimalThenM` shape shows. */
  function MillionsInTenths(r: string): nat
    requires OneDecimalThenM(r)
  {
    10 * DecimalValue(r[..|r| - 3]) + (r[|r| - 2] as int - '0' as int)
  }

  /**
   * `formatNumber`. Counts of a million or more show millions with one
   * decimal ("M"), counts of a thousand or more show whole thousands ("K"),
   * smaller counts show the plain number. Rounding is to the nearest unit
   * shown, halves rounding up.
   */
  function FormatNumber(n: nat): (r: string)
    ensures n < 1000 ==> AllDigits(r) && |r| >= 1 && DecimalValue(r) == n
    ensures 1000 <= n < 1000000 ==>
              && DigitsThen(r, 'K')
              && var k := DecimalValue(r[..|r| - 1]);
                 k * 1000 <= n + 500 < (k + 1) * 1000
    ensures n >= 1000000 ==>
              && OneDecimalThenM(r)
              && var t := MillionsInTenths(r);
                 t * 100000 <= n + 50000 < (t + 1) * 100000
    ensures (r[|r| - 1] == 'M') == (n >= 1000000)
    ensures (r[|r| - 1] == 'K') == (1000 <= n < 1000000)
    ensures IsDigit(r[|r| - 1]) == (n < 1000)
    ensures r[0] != '0' || r == "0"
  {
    if n >= 1000000 then
      var tenths := (n + 50000) / 100000;
      var whole := NatToString(tenths / 10);
      var r := whole + "." + [DigitChar(tenths % 10)] + "M";
      assert r[..|r| - 3] == whole;
      assert r[0] == whole[0];
      assert |whole| == 1 ==> whole == [whole[|whole| - 1]];
      r
    else if n >= 1000 then
      var thousands := NatToString((n + 500) / 1000);
      var r := thousands + "K";
      assert r[..|r| - 1] == thousands;
      assert r[0] == thousands[0];
      assert |thousands| == 1 ==> thousands == [thousands[|thousands| - 1]];
      r
    else
      var r := NatToString(n);
      assert |r| == 1 ==> r == [r[|r| - 1]];
      r
  }

  /** Thousands round half up: 1,499 shows as "1K" and 1,500 as "2K". */
  lemma ThousandsRoundHalfUp()
    ensures FormatNumber(1499) == "1K" && FormatNumber(1500) == "2K"
    ensures FormatNumber(999) == "999" && FormatNumber(1000) == "1K"
  {
    assert NatToString(1) == "1" && NatToString(2) == "2";
    assert NatToString(99) == "99";
  }

  /** Just below a million the K branch still applies and shows "1000K". */
  lemma ThousandKBelowAMillion(n: nat)
    requires 999500 <= n < 1000000
    ensures FormatNumber(n) == "1000K"
  {
    assert (n + 500) / 1000 == 1000;
    assert NatToString(1) == "1";
    assert NatToString(10) == "10";
    assert NatToString(100) == "100";
    assert NatToString(1000) == "1000";
  }

  /** 2,500,000 shows as "2.5M" and a round million as "1.0M". */
  lemma MillionsExamples()
    ensures FormatNumber(2500000) == "2.5M"
    ensures FormatNumber(1000000) == "1.0M"
  {
    assert NatToString(2) == "2" && NatToString(1) == "1";
  }

  const InstagramColor: string := "bg-gradient-to-r from-purple-500 to-pink-500"
  const TikTokColor: string := "bg-gradient-to-r from-black to-red-500"
  const YouTubeColor: string := "bg-gradient-to-r from-red-500 to-red-600"
  const TwitterColor: string := "bg-gradient-to-r from-blue-400 to-blue-500"
  const DefaultColor: string := "bg-gradient-to-r from-gray-500 to-gray-600"

  /** The four platforms that have a badge colour of their own. */
  predicate IsKnownPlatform(p: string)
  {
    p == "Instagram" || p == "TikTok" || p == "YouTube" || p == "Twitter"
  }

  /** `getPlatformColor`: the four known platforms get their own class, everything else gray. */
  function PlatformColor(p: string): (r: string)
    ensures IsKnownPlatform(p) <==> r != DefaultColor
    ensures !IsKnownPlatform(p) ==> r == DefaultColor
  {
    match p
    case "Instagram" => InstagramColor
    case "TikTok" => TikTokColor
    case "YouTube" => YouTubeColor
    case "Twitter" => TwitterColor
    case _ => DefaultColor
  }

  /** The four known platforms get four different colour classes. */
  lemma PlatformColorsDistinct(p: string, q: string)
    requires IsKnownPlatform(p) && IsKnownPlatform(q) && p != q
    ensures PlatformColor(p) != PlatformColor(q)
  {
    assert InstagramColor[22] != TikTokColor[22] && InstagramColor[22] != YouTubeColor[22];
    assert InstagramColor[22] != TwitterColor[22] && TikTokColor[24] != TwitterColor[24];
    assert TikTokColor[22] != YouTubeColor[22];
    assert YouTubeColor[22] != TwitterColor[22];
  }
}
