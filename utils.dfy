/**
 * The text helpers of `src/lib/utils.ts`: the French "time ago" caption and
 * truncation with an ellipsis.
 *
 * `formatRelativeTime` reads the clock; here it takes the difference already
 * taken, in whole seconds (`Math.floor` of the milliseconds over 1000).
 */
module Utils {
  import opened Wrappers
  import opened Text

  datatype TimeUnit = Minute | Hour | Day

  function UnitSeconds(unit: TimeUnit): nat {
    match unit
    case Minute => 60
    case Hour => 3600
    case Day => 86400
  }

  function UnitWord(unit: TimeUnit): string {
    match unit
    case Minute => "minute"
    case Hour => "heure"
    case Day => "jour"
  }

  const JustNow: string := "à l'instant"
  const AgoPrefix: string := "il y a "

  /**
   * The count and unit the caption reports: none under a minute; otherwise the
   * largest unit the difference reaches, counted in whole units.
   */
  function Elapsed(diffInSeconds: int): (r: Option<(nat, TimeUnit)>)
    ensures r.None? <==> diffInSeconds < 60
    ensures r.Some? ==> var (count, unit) := r.value;
              1 <= count && count * UnitSeconds(unit) <= diffInSeconds < (count + 1) * UnitSeconds(unit)
    ensures r.Some? && r.value.1 == Minute ==> r.value.0 < 60
    ensures r.Some? && r.value.1 == Hour ==> r.value.0 < 24
    ensures r.Some? && r.value.1 == Day ==> diffInSeconds >= 86400
  {
    if diffInSeconds < 60 then None
    else if diffInSeconds < 3600 then Some((diffInSeconds / 60, Minute))
    else if diffInSeconds < 86400 then Some((diffInSeconds / 3600, Hour))
    else Some((diffInSeconds / 86400, Day))
  }

  /** "il y a N unit", with an `s` when N is more than one. */
  function Ago(count: nat, unit: TimeUnit): string {
    AgoPrefix + NatToString(count) + " " + UnitWord(unit) + (if count > 1 then "s" else "")
  }

  /** `formatRelativeTime` */
  function FormatRelativeTime(diffInSeconds: int): (r: string)
    ensures diffInSeconds < 60 ==> r == JustNow
    ensures diffInSeconds >= 60 ==> r == Ago(Elapsed(diffInSeconds).value.0, Elapsed(diffInSeconds).value.1)
  {
    match Elapsed(diffInSeconds)
    case None => JustNow
    case Some((count, unit)) => Ago(count, unit)
  }

  /** The unit named by a word, with or without the plural `s`. */
  function UnitNamed(word: string): Option<(TimeUnit, bool)> {
    if word == " minute" then Some((Minute, false))
    else if word == " minutes" then Some((Minute, true))
    else if word == " heure" then Some((Hour, false))
    else if word == " heures" then Some((Hour, true))
    else if word == " jour" then Some((Day, false))
    else if word == " jours" then Some((Day, true))
    else None
  }

  /** Reading a caption back: the count and unit of an "il y a" caption, none for anything else. */
  function ReadAgo(caption: string): Option<(nat, TimeUnit)> {
    if |caption| < |AgoPrefix| || caption[..|AgoPrefix|] != AgoPrefix then None
    else
      var digits := LeadingDigits(caption[|AgoPrefix|..]);
      if digits == [] then None
      else match UnitNamed(caption[|AgoPrefix| + |digits|..])
        case None => None
        case Some((unit, plural)) =>
          var count := DigitsValue(digits);
          if plural == (count > 1) then Some((count, unit)) else None
  }

  lemma UnitNamedWord(unit: TimeUnit, plural: bool)
    ensures UnitNamed(" " + UnitWord(unit) + (if plural then "s" else "")) == Some((unit, plural))
  {
    var word := " " + UnitWord(unit) + (if plural then "s" else "");
    match unit
    case Minute =>
      assert word == if plural then " minutes" else " minute";
    case Hour =>
      assert word == if plural then " heures" else " heure";
      assert word[1] == 'h';
    case Day =>
      assert word == if plural then " jours" else " jour";
      assert word[1] == 'j';
  }

  /** An "il y a" caption reads back as the count and unit it was made from. */
  lemma ReadAgoOfAgo(count: nat, unit: TimeUnit)
    requires count >= 1
    ensures ReadAgo(Ago(count, unit)) == Some((count, unit))
  {
    var caption := Ago(count, unit);
    var digits := NatToString(count);
    var tail := " " + UnitWord(unit) + (if count > 1 then "s" else "");
    AgoShape(count, unit);
    assert caption[..|AgoPrefix|] == AgoPrefix;
    assert caption[|AgoPrefix|..] == digits + tail;
    LeadingDigitsOfDigits(digits, tail);
    assert caption[|AgoPrefix| + |digits|..] == tail;
    UnitNamedWord(unit, count > 1);
    NatToStringValue(count);
  }

  lemma AgoShape(count: nat, unit: TimeUnit)
    ensures Ago(count, unit) == AgoPrefix + (NatToString(count) + (" " + UnitWord(unit) + (if count > 1 then "s" else "")))
  {
    var d, w, p := NatToString(count), UnitWord(unit), if count > 1 then "s" else "";
    AppendAssoc(AgoPrefix + d + " ", w, p);
    AppendAssoc(AgoPrefix + d, " ", w + p);
    AppendAssoc(AgoPrefix, d, " " + (w + p));
    AppendAssoc(" ", w, p);
  }

  /**
   * The caption says what the difference is: reading it back gives exactly
   * the count and unit of `Elapsed`, and "à l'instant" reads as nothing.
   */
  lemma FormatRelativeTimeReadsBack(diffInSeconds: int)
    ensures ReadAgo(FormatRelativeTime(diffInSeconds)) == Elapsed(diffInSeconds)
  {
    match Elapsed(diffInSeconds)
    case None =>
      assert JustNow[0] != AgoPrefix[0];
    case Some((count, unit)) =>
      ReadAgoOfAgo(count, unit);
  }

  /** The caption is plural exactly when the count is more than one. */
  lemma PluralWhenMoreThanOne(count: nat, unit: TimeUnit)
    ensures var caption := Ago(count, unit); caption[|caption| - 1] == 's' <==> count > 1
  {
    var caption := Ago(count, unit);
    if count <= 1 {
      assert caption[|caption| - 1] == UnitWord(unit)[|UnitWord(unit)| - 1];
    }
  }

  const Ellipsis: string := "..."

  /**
   * `truncateText`: the text itself when it fits; otherwise its first
   * `maxLength` characters (none when `maxLength` is negative) and "...".
   */
  function TruncateText(text: string, maxLength: int): (r: string)
    ensures |text| <= maxLength ==> r == text
    ensures |text| > maxLength ==>
              var keep := if maxLength < 0 then 0 else maxLength;
              |r| == keep + 3 && r[..keep] == text[..keep] && r[keep..] == Ellipsis
  {
    if |text| <= maxLength then text
    else text[..if maxLength < 0 then 0 else maxLength] + Ellipsis
  }

  /** Truncating a truncated text again changes nothing. */
  lemma TruncateIdempotent(text: string, maxLength: int)
    ensures TruncateText(TruncateText(text, maxLength), maxLength) == TruncateText(text, maxLength)
  {
    var r := TruncateText(text, maxLength);
    if |text| > maxLength {
      var keep := if maxLength < 0 then 0 else maxLength;
      assert |r| > maxLength;
      assert r[..keep] == text[..keep];
    }
  }
}
