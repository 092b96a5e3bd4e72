/**
 * `validatePPVCommand` of `src/lib/ppv-handler.ts`: the first bracket-form
 * match of a string is checked with the parser's own three tests; without
 * one, the first brace-form match is checked, but its price is read with
 * the pattern `price=(\d+\.?\d*)` rather than through the `key=value`
 * fields the parser uses.
 */
module PpvValidate {
  import opened Wrappers
  import opened Text
  import opened JsNumber
  import opened PpvScan
  import opened PpvCommands

  /** `{ valid: true }` or `{ valid: false, error }`. */
  datatype Validation = Valid | Invalid(error: string)

  const BracketShapeError: string := "Format should be [PPV:type:price:description]"
  const BracketTypeError: string := "Invalid type. Must be photo, video, or bundle"
  const BracketPriceError: string := "Price must be a number greater than 0"
  const UnknownFormatError: string := "Invalid PPV command format. Use [PPV:type:price:description] or {{PPV:TYPE:price=AMOUNT}}"
  const MissingParamsError: string := "Missing required parameters"
  const BraceTypeError: string := "Invalid type. Must be PHOTO, VIDEO, or BUNDLE"
  const MissingPriceError: string := "Missing or invalid price parameter"
  const BracePriceError: string := "Price must be greater than 0"

  /**
   * The bracket branch: at least three fields, a known type, then a price
   * that is not `NaN` and not `<= 0`. It accepts exactly the parameters the
   * parser turns into a command.
   */
  function BracketVerdict(params: string): (r: Validation)
    ensures r == Valid <==> BracketParams(params).Some?
    ensures r.Invalid? ==> r.error in {BracketShapeError, BracketTypeError, BracketPriceError}
    ensures r.Invalid? && |Split(params, ':')| < 3 ==> r.error == BracketShapeError
  {
    var parts := Split(params, ':');
    if |parts| < 3 then Invalid(BracketShapeError)
    else if KindOf(parts[0]).None? then Invalid(BracketTypeError)
    else if !GreaterThanZero(ParseFloat(parts[1])) then Invalid(BracketPriceError)
    else Valid
  }

  const PriceKey: string := "price="

  /** `price=` followed by a digit starts at `p`: where `/price=(\d+\.?\d*)/` can match. */
  predicate PriceAt(params: string, p: nat) {
    OccursAt(params, PriceKey, p) && p + |PriceKey| < |params| && IsDigit(params[p + |PriceKey|])
  }

  /** The leftmost position at or after `from` where the price pattern matches. */
  function FindPrice(params: string, from: nat): (r: Option<nat>)
    ensures r.Some? ==> from <= r.value && PriceAt(params, r.value)
                        && forall p :: from <= p < r.value ==> !PriceAt(params, p)
    ensures r.None? ==> forall p :: from <= p ==> !PriceAt(params, p)
    decreases |params| - from
  {
    if from + |PriceKey| >= |params| then None
    else if PriceAt(params, from) then Some(from)
    else FindPrice(params, from + 1)
  }

  /** The captured group `\d+\.?\d*` at the start of `t`, greedy in each part. */
  function PriceCapture(t: string): (r: string)
    requires t != [] && IsDigit(t[0])
    ensures |r| <= |t| && r == t[..|r|]
  {
    var whole := LeadingDigits(t);
    var rest := t[|whole|..];
    if rest != [] && rest[0] == '.' then whole + "." + LeadingDigits(rest[1..]) else whole
  }

  /** With a fraction: the capture is the whole digits, '.', and the fraction digits. */
  lemma CaptureWithFraction(t: string)
    requires t != [] && IsDigit(t[0])
    requires var whole := LeadingDigits(t); |whole| < |t| && t[|whole|] == '.'
    ensures var whole := LeadingDigits(t);
            var r := PriceCapture(t);
            |whole| <= |r| && LeadingDigits(r) == whole && FractionDigits(r[|whole|..]) == FractionDigits(t[|whole|..])
  {
    var whole := LeadingDigits(t);
    var rest := t[|whole|..];
    var fd := LeadingDigits(rest[1..]);
    var tail := "." + fd;
    assert PriceCapture(t) == whole + tail by {
      AppendAssoc(whole, ".", fd);
    }
    WholeThenFraction(whole, fd);
    assert FractionDigits(rest) == fd;
  }

  /** Digits, '.', digits: the leading digits are the first run, the fraction digits the second. */
  lemma WholeThenFraction(whole: string, fd: string)
    requires AllDigits(whole) && AllDigits(fd)
    ensures var r := whole + ("." + fd);
            LeadingDigits(r) == whole && FractionDigits(r[|whole|..]) == fd
  {
    var tail := "." + fd;
    LeadingDigitsOfDigits(whole, tail);
    assert (whole + tail)[|whole|..] == tail;
    assert tail[1..] == fd + "";
    LeadingDigitsOfDigits(fd, "");
  }

  /** Without a fraction: the capture is the whole digits alone. */
  lemma CaptureWithoutFraction(t: string)
    requires t != [] && IsDigit(t[0])
    requires var whole := LeadingDigits(t); |whole| == |t| || t[|whole|] != '.'
    ensures var whole := LeadingDigits(t);
            var r := PriceCapture(t);
            |whole| <= |r| && LeadingDigits(r) == whole && FractionDigits(r[|whole|..]) == FractionDigits(t[|whole|..])
  {
    var whole := LeadingDigits(t);
    assert PriceCapture(t) == whole + "";
    LeadingDigitsOfDigits(whole, "");
  }

  /** `parseFloat` of the captured price reads the same number as `parseFloat` of everything after `price=`. */
  lemma CaptureReadsAsTail(t: string)
    requires t != [] && IsDigit(t[0])
    ensures ParseFloat(PriceCapture(t)) == ParseFloat(t)
  {
    var r := PriceCapture(t);
    var whole := LeadingDigits(t);
    if |whole| < |t| && t[|whole|] == '.' {
      CaptureWithFraction(t);
    } else {
      CaptureWithoutFraction(t);
    }
    assert r[0] == t[0];
    ParseFloatDigitLed(t);
    ParseFloatDigitLed(r);
  }

  /**
   * The price check of the brace branch: the first `price=<digits>[.<digits>]`
   * anywhere in the parameters, whose value must be greater than zero.
   */
  function PriceVerdict(params: string): (r: Validation)
    ensures r.Invalid? ==> r.error == (if FindPrice(params, 0).None? then MissingPriceError else BracePriceError)
  {
    match FindPrice(params, 0)
    case None => Invalid(MissingPriceError)
    case Some(p) =>
      PriceTailDigitLed(params, p);
      if !GreaterThanZero(ParseFloat(PriceCapture(params[p + |PriceKey|..]))) then Invalid(BracePriceError) else Valid
  }

  /**
   * The price check passes exactly when a `price=<digit>` exists and
   * `parseFloat` of everything after it is above zero: the captured group
   * reads as the same number.
   */
  lemma PriceVerdictReadsTail(params: string)
    ensures PriceVerdict(params) == Valid <==>
              FindPrice(params, 0).Some? && GreaterThanZero(ParseFloat(params[FindPrice(params, 0).value + |PriceKey|..]))
  {
    match FindPrice(params, 0)
    case None =>
    case Some(p) =>
      var tail := params[p + |PriceKey|..];
      PriceTailDigitLed(params, p);
      assert PriceVerdict(params) == if GreaterThanZero(ParseFloat(PriceCapture(tail))) then Valid else Invalid(BracePriceError);
      CaptureReadsAsTail(tail);
  }

  /** After a matched `price=` comes a digit. */
  lemma PriceTailDigitLed(params: string, p: nat)
    requires PriceAt(params, p)
    ensures var tail := params[p + |PriceKey|..];
            tail != [] && IsDigit(tail[0])
  {
  }

  /**
   * The brace branch: at least two fields and a known type, then the price
   * check.
   */
  function BraceVerdict(params: string): (r: Validation)
    ensures var parts := Split(params, ':');
            r == Valid <==> |parts| >= 2 && KindOf(parts[0]).Some? && PriceVerdict(params) == Valid
    ensures r.Invalid? ==> r.error in {MissingParamsError, BraceTypeError, MissingPriceError, BracePriceError}
  {
    var parts := Split(params, ':');
    if |parts| < 2 then Invalid(MissingParamsError)
    else if KindOf(parts[0]).None? then Invalid(BraceTypeError)
    else PriceVerdict(params)
  }

  /**
   * `validatePPVCommand`: the bracket form is tried first and, when it
   * matches, decides alone; the brace form is tried only without one.
   */
  function ValidatePPVCommand(commandString: string): (r: Validation)
    ensures r.Invalid? ==> r.error != []
    ensures FindFrom(Bracket, commandString, 0).Some? ==>
              (r == Valid <==> BracketParams(FindFrom(Bracket, commandString, 0).value.params).Some?)
    ensures FindFrom(Bracket, commandString, 0).None? && FindFrom(Brace, commandString, 0).None? ==>
              r == Invalid(UnknownFormatError)
    ensures FindFrom(Bracket, commandString, 0).None? && FindFrom(Brace, commandString, 0).Some? ==>
              var parts := Split(FindFrom(Brace, commandString, 0).value.params, ':');
              (r == Valid <==> |parts| >= 2 && KindOf(parts[0]).Some?
                               && PriceVerdict(FindFrom(Brace, commandString, 0).value.params) == Valid)
  {
    match FindFrom(Bracket, commandString, 0)
    case Some(m) => BracketVerdict(m.params)
    case None =>
      match FindFrom(Brace, commandString, 0)
      case None => Invalid(UnknownFormatError)
      case Some(m) => BraceVerdict(m.params)
  }

  /** A bracket-form text whose parameters the parser accepts is valid. */
  lemma ValidatesBracketText(raw: string, params: string)
    requires raw == Open(Bracket) + params + Close(Bracket)
    requires params != [] && Stop(Bracket) !in params
    requires BracketParams(params).Some?
    ensures ValidatePPVCommand(raw) == Valid
  {
    assert OccursAt(raw, raw, 0);
    MatchAtComplete(Bracket, raw, 0, params);
    assert FindFrom(Bracket, raw, 0) == MatchAt(Bracket, raw, 0);
  }

  /** The text of a match: opening marker, captured group, closing marker. */
  lemma MatchText(syn: Syntax, s: string, m: Match)
    requires MatchAt(syn, s, m.start) == Some(m)
    ensures m.params != [] && Stop(syn) !in m.params
    ensures s[m.start..m.end] == Open(syn) + m.params + Close(syn)
  {
    var w := Open(syn) + m.params + Close(syn);
    assert OccursAt(s, w, m.start);
  }

  /** The raw text of a command the parser emits for match `m` is valid on its own. */
  lemma ValidatesParsedBracket(s: string, m: Match)
    requires MatchAt(Bracket, s, m.start) == Some(m)
    requires CommandOf(Bracket, s, m).Some?
    ensures ValidatePPVCommand(CommandOf(Bracket, s, m).value.rawCommand) == Valid
  {
    var p := ParamsOf(Bracket, m.params);
    assert p.Some?;
    var raw := Locate(p.value, s, m).rawCommand;
    MatchText(Bracket, s, m);
    ValidatesBracketText(raw, m.params);
  }

  /** Every bracket-form command of `parsePPVCommands` passes the validator. */
  lemma {:induction false} ValidatesAllParsedBrackets(s: string, from: nat)
    ensures forall c :: c in CommandsFrom(Bracket, s, from) ==> ValidatePPVCommand(c.rawCommand) == Valid
    decreases |s| - from
  {
    match FindFrom(Bracket, s, from)
    case None =>
    case Some(m) =>
      if CommandOf(Bracket, s, m).Some? {
        ValidatesParsedBracket(s, m);
      }
      ValidatesAllParsedBrackets(s, m.end);
  }

  // ---------------------------------------------------------------------------
  // Where the validator and the parser read a brace-form price differently
  // ---------------------------------------------------------------------------

  const DotPrice: string := "PHOTO:price=.5"
  const InnerPrice: string := "PHOTO:myprice=5"

  /** `parseFloat` reads a price without whole digits. */
  lemma ParsesLeadingPoint()
    ensures ParseFloat(".5") == Num(false, Decimal(0, "5"))
  {
    assert TrimStart(".5") == ".5";
    assert LeadingDigits(".5") == "";
    assert LeadingDigits("5") == "5";
  }

  /** A brace command with one `key=value` field after its type splits into those two fields. */
  lemma OneFieldSplit(typeToken: string, key: string, value: string)
    requires ':' !in typeToken && ':' !in key && ':' !in value
    ensures Split(typeToken + ":" + key + "=" + value, ':') == [typeToken, key + "=" + value]
  {
    var field := key + "=" + value;
    assert typeToken + ":" + key + "=" + value == typeToken + [':'] + field;
    SplitPair(typeToken, field, ':');
  }

  /** The record of a brace command with one `key=value` field after its type. */
  lemma OneFieldRecord(typeToken: string, key: string, value: string)
    requires key != "" && '=' !in key && '=' !in value
    ensures Fields([typeToken, key + "=" + value]) == map[key := value]
  {
    var parts := [typeToken, key + "=" + value];
    KeyValuePair(key, value);
    assert FieldsUpTo(parts, 1) == map[];
    assert KeyValue(parts[1]) == Some((key, value));
  }

  /** The fields of a brace command with one `key=value` field after its type. */
  lemma OneFieldCommand(typeToken: string, key: string, value: string)
    requires ':' !in typeToken && ':' !in key && ':' !in value
    requires key != "" && '=' !in key && '=' !in value
    ensures var parts := Split(typeToken + ":" + key + "=" + value, ':');
            parts == [typeToken, key + "=" + value] && Fields(parts) == map[key := value]
  {
    OneFieldSplit(typeToken, key, value);
    OneFieldRecord(typeToken, key, value);
  }

  /** A brace command whose only field is its price: the type and that price, nothing else. */
  lemma PriceOnlyFields(typeToken: string, price: string)
    requires KindOf(typeToken).Some? && GreaterThanZero(ParseFloat(price))
    ensures BraceFromFields(typeToken, map["price" := price])
            == Some(Params(KindOf(typeToken).value, ParseFloat(price).magnitude, None, None, None))
  {
    var fields := map["price" := price];
    assert "description" !in fields && "photos" !in fields && "videos" !in fields;
    assert PriceText(fields) == price;
  }

  /** `parseFloat` of a one-digit price. */
  lemma ParsesFive()
    ensures ParseFloat("5") == Num(false, Decimal(5, ""))
  {
    assert TrimStart("5") == "5";
    assert LeadingDigits("5") == "5";
  }

  /** The parser accepts `{{PPV:PHOTO:price=.5}}` as a photo at 0.5. */
  lemma ParserTakesDotPrice()
    ensures BraceParams(DotPrice) == Some(Params(Photo, Decimal(0, "5"), None, None, None))
  {
    assert DotPrice == "PHOTO" + ":" + "price" + "=" + ".5";
    OneFieldCommand("PHOTO", "price", ".5");
    KindOfTypeName(Photo);
    ParsesLeadingPoint();
    PriceOnlyFields("PHOTO", ".5");
  }

  /** The validator finds no `price=<digit>` in `PHOTO:price=.5` and rejects it. */
  lemma ValidatorRefusesDotPrice()
    ensures BraceVerdict(DotPrice) == Invalid(MissingPriceError)
  {
    assert DotPrice == "PHOTO" + ":" + "price" + "=" + ".5";
    OneFieldCommand("PHOTO", "price", ".5");
    KindOfTypeName(Photo);
    NoPriceInDotPrice();
  }

  lemma NoPriceInDotPrice()
    ensures FindPrice(DotPrice, 0).None?
  {
    assert |DotPrice| == 14 && DotPrice[12] == '.';
    forall p | 0 <= p ensures !PriceAt(DotPrice, p) {
      if p < 8 && p != 6 {
        assert p == 0 || p == 1 || p == 2 || p == 3 || p == 4 || p == 5 || p == 7;
        assert DotPrice[p..p + |PriceKey|][0] == DotPrice[p] != 'p';
      }
    }
  }

  /** The parser has no `price` field in `{{PPV:PHOTO:myprice=5}}` and drops it. */
  lemma ParserDropsInnerPrice()
    ensures BraceParams(InnerPrice).None?
  {
    assert InnerPrice == "PHOTO" + ":" + "myprice" + "=" + "5";
    OneFieldCommand("PHOTO", "myprice", "5");
    BraceWithoutPriceDropped(InnerPrice);
  }

  /** The first `price=<digit>` of `PHOTO:myprice=5` is the one inside `myprice`. */
  lemma PriceInsideInnerPrice()
    ensures FindPrice(InnerPrice, 0) == Some(8)
  {
    assert InnerPrice[8..14] == PriceKey;
    assert PriceAt(InnerPrice, 8);
    forall p | 0 <= p < 8 ensures !PriceAt(InnerPrice, p) {
      assert p == 0 || p == 1 || p == 2 || p == 3 || p == 4 || p == 5 || p == 6 || p == 7;
      assert InnerPrice[p..p + |PriceKey|][0] == InnerPrice[p] != 'p';
    }
  }

  /** The price check reads 5 from the `price=5` inside `myprice=5`. */
  lemma InnerPriceChecks()
    ensures PriceVerdict(InnerPrice) == Valid
  {
    PriceInsideInnerPrice();
    assert InnerPrice[14..] == "5";
    ParsesFive();
    PriceVerdictReadsTail(InnerPrice);
  }

  /** The validator reads the `price=5` inside `myprice=5` and accepts it. */
  lemma ValidatorTakesInnerPrice()
    ensures BraceVerdict(InnerPrice) == Valid
  {
    assert InnerPrice == "PHOTO" + ":" + "myprice" + "=" + "5";
    OneFieldSplit("PHOTO", "myprice", "5");
    KindOfTypeName(Photo);
    InnerPriceChecks();
  }
}
