/**
 * The message texts of `src/lib/ppv-handler.ts`: the offer sent in place of
 * a command, the text sent once it is paid, the reminder for an unpaid
 * offer, and `replacePPVCommand`, which puts a text in place of a command's
 * raw text in a script.
 */
module PpvMessages {
  import opened Wrappers
  import opened Text
  import opened JsNumber
  import opened PpvCommands

  function Emoji(t: PpvType): char {
    match t
    case Photo => '\U{1F4F8}'
    case Video => '\U{1F3A5}'
    case Bundle => '\U{1F381}'
  }

  /** What the offer says when the command has no (or an empty) description. */
  function DefaultOffer(t: PpvType): string {
    match t
    case Photo => "Exclusive photo set"
    case Video => "Exclusive video"
    case Bundle => "Premium content bundle"
  }

  /** Truthiness of an optional string: absent and empty are falsy. */
  predicate Truthy(o: Option<string>) {
    o.Some? && o.value != ""
  }

  /** Truthiness of an optional number: absent, `NaN` and zero are falsy. */
  predicate IntFieldTruthy(o: Option<JsInt>) {
    o.Some? && IntTruthy(o.value)
  }

  /** `${n}` of a number read by `parseInt`. */
  function RenderInt(n: JsInt): string {
    match n
    case IntNaN => "NaN"
    case Int(v) => IntToString(v)
  }

  /** The line that closes every offer: the price after a dollar sign. */
  function PriceLine(price: Decimal): string {
    PriceLead + RenderDecimal(price)
  }

  const PriceLead: string := "\n\n\U{1F4B0} Unlock for $"

  /** The part of the offer between the emoji and the price line. */
  function OfferText(c: PpvCommand): string {
    if Truthy(c.description) then c.description.value
    else if c.kind == Bundle && IntFieldTruthy(c.photos) && IntFieldTruthy(c.videos) then
      DefaultOffer(Bundle) + " (" + RenderInt(c.photos.value) + " photos + " + RenderInt(c.videos.value) + " videos)"
    else DefaultOffer(c.kind)
  }

  /**
   * `generatePPVMessage`: the type's emoji, a space, the description (or the
   * type's default copy, with the photo and video counts for a bundle that
   * has both), then the price line.
   */
  function GeneratePPVMessage(c: PpvCommand): (r: string)
    ensures |r| >= 2 && r[0] == Emoji(c.kind) && r[1] == ' '
    ensures var tail := PriceLine(c.price);
            |tail| <= |r| && r[|r| - |tail|..] == tail
    ensures Truthy(c.description) ==> r == [Emoji(c.kind), ' '] + c.description.value + PriceLine(c.price)
    ensures !Truthy(c.description) && c.kind == Photo ==> r == "\U{1F4F8} " + "Exclusive photo set" + PriceLine(c.price)
    ensures !Truthy(c.description) && c.kind == Video ==> r == "\U{1F3A5} " + "Exclusive video" + PriceLine(c.price)
    ensures !Truthy(c.description) && c.kind == Bundle ==>
              r == "\U{1F381} " + "Premium content bundle"
                   + (if IntFieldTruthy(c.photos) && IntFieldTruthy(c.videos)
                      then " (" + RenderInt(c.photos.value) + " photos + " + RenderInt(c.videos.value) + " videos)"
                      else "")
                   + PriceLine(c.price)
  {
    if Truthy(c.description) then [Emoji(c.kind), ' '] + OfferText(c) + PriceLine(c.price) else
    DefaultCopy(c);
    [Emoji(c.kind), ' '] + OfferText(c) + PriceLine(c.price)
  }

  /** The opening of an offer without a description: the type's emoji and its default copy. */
  lemma DefaultCopy(c: PpvCommand)
    requires !Truthy(c.description)
    ensures c.kind == Photo ==> [Emoji(c.kind), ' '] + OfferText(c) == "\U{1F4F8} " + "Exclusive photo set"
    ensures c.kind == Video ==> [Emoji(c.kind), ' '] + OfferText(c) == "\U{1F3A5} " + "Exclusive video"
    ensures c.kind == Bundle ==>
              [Emoji(c.kind), ' '] + OfferText(c)
              == "\U{1F381} " + "Premium content bundle"
                 + (if IntFieldTruthy(c.photos) && IntFieldTruthy(c.videos)
                    then " (" + RenderInt(c.photos.value) + " photos + " + RenderInt(c.videos.value) + " videos)"
                    else "")
  {
    var opening := [Emoji(c.kind), ' '];
    match c.kind
    case Photo => assert opening == "\U{1F4F8} ";
    case Video => assert opening == "\U{1F3A5} ";
    case Bundle => assert opening == "\U{1F381} ";
  }

  /** The offer shows the exact price of the command: it ends with the rendered price, which reads back as that price. */
  lemma OfferShowsPrice(c: PpvCommand)
    requires Normal(c.price)
    ensures var r := GeneratePPVMessage(c);
            var shown := RenderDecimal(c.price);
            |shown| <= |r| && r[|r| - |shown|..] == shown && '$' !in shown
            && ParseFloat(shown) == Num(false, c.price)
  {
    var shown := RenderDecimal(c.price);
    SuffixOfSuffix(GeneratePPVMessage(c), PriceLead, shown);
    RenderDecimalHasNoDollar(c.price);
    RenderDecimalParses(c.price);
  }

  /** A rendered price holds digits and '.' only, so no '$'. */
  lemma RenderDecimalHasNoDollar(d: Decimal)
    requires Normal(d)
    ensures '$' !in RenderDecimal(d)
  {
    var w := NatToString(d.whole);
    assert forall i :: 0 <= i < |w| ==> IsDigit(w[i]);
  }

  /** The unlocked padlock and a space that open every unlock text. */
  const UnlockLead: string := "\U{1F513} "
  const PhotoUnlocked: string := UnlockLead + "Here are your exclusive photos! Enjoy babe \U{1F48B}"
  const VideoUnlocked: string := UnlockLead + "Video unlocked! Hope you love it \U{1F618}"
  const BundleUnlocked: string := UnlockLead + "Your premium bundle is ready! Thanks for your support \U{1F495}"

  /** `generateUnlockMessage`: a fixed text per type, each opening with the unlocked padlock. */
  function GenerateUnlockMessage(c: PpvCommand): (r: string)
    ensures |UnlockLead| < |r| && r[..|UnlockLead|] == UnlockLead
  {
    match c.kind
    case Photo => PhotoUnlocked
    case Video => VideoUnlocked
    case Bundle => BundleUnlocked
  }

  /** The unlock text depends on the type only, and tells the three types apart. */
  lemma UnlockMessageByType(c1: PpvCommand, c2: PpvCommand)
    ensures GenerateUnlockMessage(c1) == GenerateUnlockMessage(c2) <==> c1.kind == c2.kind
  {
    assert |PhotoUnlocked| == 46 && |VideoUnlocked| == 36 && |BundleUnlocked| == 57;
  }

  const ReminderLead: string := "Hey! Just wanted to remind you about the "
  const ReminderMiddle: string := " I sent earlier \U{1F60A}\n\nIt's still available for "
  const ReminderClose: string := " if you're interested! \U{2728}"

  /**
   * `generateReminderMessage`: names the type in lower case and repeats the
   * price; the waiting time it is given does not change the text.
   */
  function GenerateReminderMessage(c: PpvCommand, hoursWaiting: int): (r: string)
    ensures var name := ToLower(TypeName(c.kind));
            |ReminderLead| + |name| <= |r| && r[..|ReminderLead| + |name|] == ReminderLead + name
    ensures |ReminderClose| <= |r| && r[|r| - |ReminderClose|..] == ReminderClose
  {
    var opening := ReminderLead + ToLower(TypeName(c.kind));
    var middle := ReminderMiddle + ("$" + RenderDecimal(c.price));
    AppendAssoc(opening, middle, ReminderClose);
    opening + middle + ReminderClose
  }

  /** The reminder names the type in lower case. */
  lemma LowerTypeName(t: PpvType)
    ensures ToLower(TypeName(t)) == match t case Photo => "photo" case Video => "video" case Bundle => "bundle"
  {
    var u := TypeName(t);
    var l := ToLower(u);
    match t
    case Photo => assert l == [LowerChar(u[0]), LowerChar(u[1]), LowerChar(u[2]), LowerChar(u[3]), LowerChar(u[4])];
    case Video => assert l == [LowerChar(u[0]), LowerChar(u[1]), LowerChar(u[2]), LowerChar(u[3]), LowerChar(u[4])];
    case Bundle => assert l == [LowerChar(u[0]), LowerChar(u[1]), LowerChar(u[2]), LowerChar(u[3]), LowerChar(u[4]), LowerChar(u[5])];
  }

  /**
   * The reminder names the type in lower case and, just before its closing
   * words, shows `$` and the rendered price, which reads back as the price.
   */
  lemma ReminderShowsTypeAndPrice(c: PpvCommand, hoursWaiting: int)
    requires Normal(c.price)
    ensures var r := GenerateReminderMessage(c, hoursWaiting);
            var shown := RenderDecimal(c.price);
            var end := |r| - |ReminderClose|;
            |shown| + 1 <= end && r[end - |shown| - 1..end] == "$" + shown
            && '$' !in shown && ParseFloat(shown) == Num(false, c.price)
  {
    var shown := RenderDecimal(c.price);
    var opening := ReminderLead + ToLower(TypeName(c.kind));
    AppendAssoc(opening, ReminderMiddle, "$" + shown);
    Between(opening + ReminderMiddle, "$" + shown, ReminderClose);
    RenderDecimalHasNoDollar(c.price);
    RenderDecimalParses(c.price);
  }

  // ---------------------------------------------------------------------------
  // replacePPVCommand
  // ---------------------------------------------------------------------------

  /**
   * The replacement text of `String.prototype.replace` with a string pattern:
   * `$$` is a dollar sign, `$&` the matched text, `` $` `` the text before
   * the match, `$'` the text after it; any other `$` is kept as it is.
   */
  function Substitute(text: string, matched: string, before: string, after: string): string
    decreases |text|
  {
    if |text| >= 2 && text[0] == '$' && text[1] == '$' then "$" + Substitute(text[2..], matched, before, after)
    else if |text| >= 2 && text[0] == '$' && text[1] == '&' then matched + Substitute(text[2..], matched, before, after)
    else if |text| >= 2 && text[0] == '$' && text[1] == '`' then before + Substitute(text[2..], matched, before, after)
    else if |text| >= 2 && text[0] == '$' && text[1] == '\'' then after + Substitute(text[2..], matched, before, after)
    else if text == [] then []
    else [text[0]] + Substitute(text[1..], matched, before, after)
  }

  /** A replacement text in which no `$` is followed by one of `$&`'` is inserted as it is. */
  lemma {:induction false} SubstitutePlain(text: string, matched: string, before: string, after: string)
    requires forall i :: 0 <= i < |text| - 1 && text[i] == '$' ==> text[i + 1] !in "$&`'"
    ensures Substitute(text, matched, before, after) == text
    decreases |text|
  {
    if text != [] {
      if |text| >= 2 {
        assert text[0] == '$' ==> text[1] !in "$&`'";
      }
      SubstitutePlain(text[1..], matched, before, after);
      assert text == [text[0]] + text[1..];
    }
  }

  /**
   * The four `$` patterns at the head of a replacement text: `$$` gives one
   * dollar sign, `$&` the match, `` $` `` the text before it and `$'` the text
   * after it, and the rest is substituted in turn.
   */
  lemma DollarPatterns(t: string, matched: string, before: string, after: string)
    ensures Substitute("$$" + t, matched, before, after) == "$" + Substitute(t, matched, before, after)
    ensures Substitute("$&" + t, matched, before, after) == matched + Substitute(t, matched, before, after)
    ensures Substitute("$`" + t, matched, before, after) == before + Substitute(t, matched, before, after)
    ensures Substitute("$'" + t, matched, before, after) == after + Substitute(t, matched, before, after)
  {
    assert ("$$" + t)[2..] == t && ("$&" + t)[2..] == t && ("$`" + t)[2..] == t && ("$'" + t)[2..] == t;
  }

  /**
   * `replacePPVCommand`: `scriptContent.replace(command.rawCommand,
   * messageText)`, which replaces the FIRST occurrence of the raw text only.
   */
  function ReplacePPVCommand(script: string, c: PpvCommand, messageText: string): (r: string)
    ensures (forall k: nat :: !OccursAt(script, c.rawCommand, k)) ==> r == script
    ensures forall i: nat :: FirstOccurrence(script, c.rawCommand, i) ==>
              var j := i + |c.rawCommand|;
              r == script[..i] + Substitute(messageText, c.rawCommand, script[..i], script[j..]) + script[j..]
  {
    match IndexOf(script, c.rawCommand, 0)
    case None => script
    case Some(i) =>
      var j := i + |c.rawCommand|;
      script[..i] + Substitute(messageText, c.rawCommand, script[..i], script[j..]) + script[j..]
  }

  /**
   * For a command found in the script, the replaced occurrence is the first
   * one, at or before the command's own position: a text without `$`
   * patterns takes its place and the rest of the script is kept.
   */
  lemma ReplaceFirstOccurrence(script: string, c: PpvCommand, messageText: string)
    requires WellFormedIn(c, script)
    requires forall i :: 0 <= i < |messageText| - 1 && messageText[i] == '$' ==> messageText[i + 1] !in "$&`'"
    ensures IndexOf(script, c.rawCommand, 0).Some?
    ensures var i := IndexOf(script, c.rawCommand, 0).value;
            i <= c.position
            && ReplacePPVCommand(script, c, messageText)
               == script[..i] + messageText + script[i + |c.rawCommand|..]
  {
    assert OccursAt(script, c.rawCommand, c.position);
    var i := IndexOf(script, c.rawCommand, 0).value;
    assert FirstOccurrence(script, c.rawCommand, i);
    ReplacePlainAt(script, c, messageText, i);
  }

  /** At the first occurrence, a text without `$` patterns takes the place of the raw command. */
  lemma ReplacePlainAt(script: string, c: PpvCommand, messageText: string, i: nat)
    requires FirstOccurrence(script, c.rawCommand, i)
    requires forall k :: 0 <= k < |messageText| - 1 && messageText[k] == '$' ==> messageText[k + 1] !in "$&`'"
    ensures ReplacePPVCommand(script, c, messageText) == script[..i] + messageText + script[i + |c.rawCommand|..]
  {
    var j := i + |c.rawCommand|;
    SubstitutePlain(messageText, c.rawCommand, script[..i], script[j..]);
  }
}
