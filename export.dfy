/** The export screen's naming of the downloaded strip: a slug per theme and a file name
    "memoire-<slug>-<timestamp>.jpg", the timestamp being the clock reading in milliseconds
    (an input here). */
module ExportNaming {
  import opened Types

  predicate IsLowerLetter(c: char) { 'a' <= c <= 'z' }
  predicate IsDigit(c: char) { '0' <= c <= '9' }

  /** The slug of a theme in file names. */
  function ThemeSlug(k: ThemeKey): (slug: string)
    ensures |slug| > 0 && forall i :: 0 <= i < |slug| ==> IsLowerLetter(slug[i])
    ensures slug != "memoire"
  {
    match k
    case Valentines => "valentines"
    case Coquette => "coquette"
    case CherryGirl => "cherrygirl"
    case SummerFruits => "summerfruits"
    case BossBabe => "bossbabe"
  }

  /** No two themes share a slug. */
  lemma ThemeSlugInjective(a: ThemeKey, b: ThemeKey)
    ensures ThemeSlug(a) == ThemeSlug(b) <==> a == b
  {
  }

  function DigitChar(d: nat): (c: char)
    requires d < 10
    ensures IsDigit(c) && (c as int) - ('0' as int) == d
  {
    ('0' as int + d) as char
  }

  function DigitValue(c: char): (d: nat)
    requires IsDigit(c)
    ensures d < 10
  {
    (c as int) - ('0' as int)
  }

  /** The decimal numeral of `n`, without leading zeros. */
  function NatToString(n: nat): (s: string)
    ensures |s| > 0 && forall i :: 0 <= i < |s| ==> IsDigit(s[i])
    ensures |s| > 1 ==> s[0] != '0'
    decreases n
  {
    if n < 10 then [DigitChar(n)] else NatToString(n / 10) + [DigitChar(n % 10)]
  }

  /** The value of a decimal numeral. */
  function ParseDecimal(s: string): nat
    requires forall i :: 0 <= i < |s| ==> IsDigit(s[i])
  {
    if s == [] then 0 else ParseDecimal(s[..|s| - 1]) * 10 + DigitValue(s[|s| - 1])
  }

  /** Reading back a numeral gives the number it was written from. */
  lemma {:induction false} ParseNatToString(n: nat)
    ensures ParseDecimal(NatToString(n)) == n
    decreases n
  {
    var s := NatToString(n);
    if n >= 10 {
      ParseNatToString(n / 10);
      assert s[..|s| - 1] == NatToString(n / 10);
    }
  }

  /** The name a downloaded strip is saved under. */
  function DownloadFileName(k: ThemeKey, timestamp: nat): (name: string)
    ensures |name| == 13 + |ThemeSlug(k)| + |NatToString(timestamp)|
    ensures name[..8] == "memoire-" && name[|name| - 4..] == ".jpg"
    ensures name[8..|name| - 4] == ThemeSlug(k) + "-" + NatToString(timestamp)
  {
    var name := "memoire-" + ThemeSlug(k) + "-" + NatToString(timestamp) + ".jpg";
    assert name[8..|name| - 4] == ThemeSlug(k) + "-" + NatToString(timestamp);
    name
  }

  /** The position of the first dash in `s`. */
  function FirstDash(s: string): (k: nat)
    requires '-' in s
    ensures k < |s| && s[k] == '-' && forall i :: 0 <= i < k ==> s[i] != '-'
  {
    if s[0] == '-' then 0 else 1 + FirstDash(s[1..])
  }

  /** In a dash-free string followed by a dash, the first dash is right after the string. */
  lemma {:induction false} FirstDashAfter(a: string, b: string)
    requires forall i :: 0 <= i < |a| ==> a[i] != '-'
    ensures FirstDash(a + "-" + b) == |a|
  {
    if a != [] {
      assert (a + "-" + b)[1..] == a[1..] + "-" + b;
      FirstDashAfter(a[1..], b);
    }
  }

  /** Two strings joined by a dash are determined by the result when the first has no dash. */
  lemma DashSplit(a: string, b: string, c: string, d: string)
    requires forall i :: 0 <= i < |a| ==> a[i] != '-'
    requires forall i :: 0 <= i < |c| ==> c[i] != '-'
    requires a + "-" + b == c + "-" + d
    ensures a == c && b == d
  {
    var x := a + "-" + b;
    FirstDashAfter(a, b);
    FirstDashAfter(c, d);
    assert a == x[..|a|] == c;
    assert b == x[|a| + 1..] == d;
  }

  /** The file name determines both the theme and the timestamp. */
  lemma DownloadFileNameInjective(k1: ThemeKey, t1: nat, k2: ThemeKey, t2: nat)
    ensures DownloadFileName(k1, t1) == DownloadFileName(k2, t2) <==> k1 == k2 && t1 == t2
  {
    if DownloadFileName(k1, t1) == DownloadFileName(k2, t2) {
      var n := DownloadFileName(k1, t1);
      DashSplit(ThemeSlug(k1), NatToString(t1), ThemeSlug(k2), NatToString(t2));
      ThemeSlugInjective(k1, k2);
      ParseNatToString(t1);
      ParseNatToString(t2);
    }
  }
}
