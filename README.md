# Fanvue creator assistant — verified model of its core logic

This project models, in Dafny, the sequential logic beneath the Next.js
interface of a Fanvue creator-assistant application:

- **The PPV command language** (`src/lib/ppv-handler.ts`). Pay-per-view
  offers are written inside chat scripts as `[PPV:type:price:description]` or
  `{{PPV:TYPE:price=AMOUNT:description=TEXT}}`. The model covers:
  - the scanner that finds these commands and keeps the well-formed ones;
  - the segmentation of a script into plain messages and offers;
  - the message templates;
  - the syntax validator;
  - the payment-tracking record.
- **The event and revenue ledger** (`src/lib/webhook-utils.ts`):
  - a newest-first log of webhook events, capped at 100 entries;
  - its queries and statistics;
  - an unbounded revenue log with day/week/month/all windows;
  - the auto-response switch and the scheduler's choice between sending now and later.
- **The Fanvue webhook route** (`src/app/api/webhooks/fanvue/route.ts`):
  - the decision chain of `POST` (signature, secret, digest, then acknowledgement);
  - the dispatch of an event to one of six handlers;
  - what each handler writes to the ledger.
- **Small helpers:**
  - the multi-account list and the session cookie (`src/lib/session.ts`);
  - the French relative-time label and truncation (`src/lib/utils.ts`);
  - the log-level filter and line format (`src/lib/edge-logger.ts`).

Code that changes state step by step is modelled imperatively:
- `ParsePPVCommands` and `ProcessScriptWithPPV` are loops proved against
  specification functions (`Commands`, `Segments`).
- The ledger is a class, `WebhookStore`, whose fields are the module-level
  arrays.
- The route's handlers are methods on that store. Each is proved to leave it
  in the state given by a pure `Effect` function.
- The cookie jar is a class, `CookieStore`.

Expression code is modelled as functions with lemmas about them.

JavaScript semantics are written out where they matter:
- `parseFloat` and `parseInt` over digit strings. Prices are exact decimals,
  with the fraction stored without trailing zeros.
- The rendering of a price back to text.
- `toUpperCase` on the characters that can reach the type names.
- `trim` with the ECMAScript whitespace set.
- `split`/`join` on one character.
- `slice` with negative limits.
- Truthiness of optional fields.
- UTF-8 byte lengths for `timingSafeEqual`.
- Truncation of fractional milliseconds by `new Date`.

Outside inputs become parameters:
- the clock;
- the random ids;
- the HMAC digest;
- `JSON.parse`/`JSON.stringify`;
- JWT signing and verification;
- the `LOG_LEVEL` and `WEBHOOK_SECRET` environment variables.

**Parser and validator disagree on the brace form.** The scanner reads the
price of a brace command from the `price` field's value with `parseFloat`.
The validator instead looks for the first `price=` followed by a digit,
anywhere in the parameters. The model proves two concrete disagreements:
- `{{PPV:PHOTO:price=.5}}` is emitted by the parser with price 0.5 but
  refused by the validator;
- `{{PPV:PHOTO:myprice=5}}` is dropped by the parser but accepted by the
  validator.

For the bracket form the two agree: every bracket command the parser emits
validates.

## Model

| member | source | states |
|---|---|---|
| `Text.TrimStart` | src/lib/ppv-handler.ts:221 | the result is a suffix of the input, what was dropped is all whitespace, and the result does not start with whitespace |
| `Text.TrimEnd` | src/lib/ppv-handler.ts:221 | the result is a prefix of the input, what was dropped is all whitespace, and the result does not end with whitespace |
| `Text.Trim` | src/lib/ppv-handler.ts:221 | `trim()` gives a string neither of whose ends is whitespace, obtained from the text after the leading whitespace by cutting a whitespace-only tail |
| `Text.TrimOfTrimmed` | src/lib/ppv-handler.ts:239 | trimming a string that is already trimmed gives it back |
| `Text.IndexOfChar` | src/lib/ppv-handler.ts:41 | the first index at or after `from` holding the character, or none when no such index exists |
| `Text.IndexOf` | src/lib/ppv-handler.ts:106 | the first position at or after `from` where the pattern occurs, or none when it occurs nowhere there |
| `Text.Split` | src/lib/ppv-handler.ts:41 | `split(sep)` yields at least one part and no part contains the separator |
| `Text.JoinSplit` | src/lib/ppv-handler.ts:46 | joining the parts of a split with the same separator rebuilds the string |
| `Text.SplitJoin` | src/lib/ppv-handler.ts:46 | splitting a join of separator-free parts gives the parts back |
| `Text.SplitHead` | src/lib/ppv-handler.ts:74-76 | the first field, the separator and the re-joined rest rebuild the string (`[key, ...valueParts]`) |
| `Text.SplitTwoHeads` | src/lib/ppv-handler.ts:41-46 | the first two fields and the re-joined rest rebuild the string (`parts.slice(2).join(':')`) |
| `Text.SplitPair` | src/lib/ppv-handler.ts:74 | two separator-free strings around one separator split into exactly those two |
| `Text.SplitConcat` | src/lib/edge-logger.ts:25-28 | splitting `a + sep + b` gives the parts of `a` followed by the parts of `b` |
| `Text.SuffixOfSuffix` | src/lib/ppv-handler.ts:136 | a suffix of a suffix of a string is a suffix of that string |
| `Text.DigitChar` | src/lib/ppv-handler.ts:136 | the character of a digit value is a digit with that value |
| `Text.LeadingDigits` | src/lib/ppv-handler.ts:45 | the longest run of ASCII digits at the start of the string (a prefix, all digits, and maximal) |
| `Text.NatToString` | src/lib/ppv-handler.ts:136 | `String(n)` is a non-empty digit string without a leading zero (except "0" itself) |
| `Text.NatToStringValue` | src/lib/ppv-handler.ts:136 | reading the decimal rendering of a number back gives the number |
| `Text.LeadingDigitsOfDigits` | src/lib/ppv-handler.ts:45 | the leading digits of a digit string followed by a non-digit are that digit string |
| `Text.ToUpper` | src/lib/ppv-handler.ts:44 | `toUpperCase()` keeps the length and maps each character by the upper-case table |
| `Text.ToLower` | src/lib/ppv-handler.ts:158 | `toLowerCase()` keeps the length and maps each character by the lower-case table |
| `JsNumber.StripTrailingZeros` | src/lib/ppv-handler.ts:45 | the result is a prefix of the fraction that does not end in '0', and digits stay digits |
| `JsNumber.FractionDigits` | src/lib/ppv-handler.ts:45 | the fraction digits `parseFloat` reads after a '.' are digits |
| `JsNumber.ParseFloat` | src/lib/ppv-handler.ts:45 | `parseFloat` yields NaN or a decimal in normal form |
| `JsNumber.ParseFloatDigitLed` | src/lib/ppv-handler.ts:45 | for text starting with a digit, `parseFloat` is the leading digits with the trailing-zero-free fraction after an optional '.' |
| `JsNumber.LeadingHexDigits` | src/lib/ppv-handler.ts:84-85 | the hexadecimal digits `parseInt` reads after a `0x` prefix form a prefix of the text |
| `JsNumber.ParseInt` | src/lib/ppv-handler.ts:84-85 | `parseInt` yields a negative number only when the trimmed text starts with '-' |
| `JsNumber.FractionOfRendered` | src/lib/ppv-handler.ts:136 | reading back the rendered fraction gives the fraction |
| `JsNumber.RenderDecimalParses` | src/lib/ppv-handler.ts:136 | `parseFloat` of a rendered price gives that price back (round trip) |
| `PpvScan.MatchShape` | src/lib/ppv-handler.ts:36 | a match consists of the opener, the captured parameters, then a closer starting with the stop character |
| `PpvScan.MatchAt` | src/lib/ppv-handler.ts:36-61 | a match found at `p` starts at `p`, ends after opener, parameters and closer, and satisfies the pattern |
| `PpvScan.MatchAtComplete` | src/lib/ppv-handler.ts:36-61 | the pattern matches at `p` with parameters `q` exactly when `MatchAt` finds that match (the scanner is complete and the capture is unique) |
| `PpvScan.FindFrom` | src/lib/ppv-handler.ts:39-63 | the leftmost match at or after `from`, with no match at any earlier position; none when no position matches |
| `PpvCommands.KindOf` | src/lib/ppv-handler.ts:44-48 | the type is found exactly when the upper-cased token equals PHOTO, VIDEO or BUNDLE |
| `PpvCommands.KindOfTypeName` | src/lib/ppv-handler.ts:48 | each type name is recognised as its own type |
| `PpvCommands.Locate` | src/lib/ppv-handler.ts:53-87 | a command carries the match's position and the exact matched text |
| `PpvCommands.BracketParams` | src/lib/ppv-handler.ts:41-56 | an accepted bracket command has a positive normal price, a description, and no photo or video counts |
| `PpvCommands.KeyValueSplitsAtFirstEquals` | src/lib/ppv-handler.ts:74-76 | a field is a pair exactly when it holds '=' after a non-empty key; the key has no '=' and the value is everything after the first '=' |
| `PpvCommands.KeyValuePair` | src/lib/ppv-handler.ts:74-76 | `key=value` with '='-free parts reads as that pair |
| `PpvCommands.FieldsLastWins` | src/lib/ppv-handler.ts:73-78 | a key is in the record exactly when a field after the type sets it, and its value comes from the last such field |
| `PpvCommands.BraceParams` | src/lib/ppv-handler.ts:65-92 | an accepted brace command has a positive normal price |
| `PpvCommands.BraceFromFields` | src/lib/ppv-handler.ts:80-92 | a command built from the record has a positive normal price |
| `PpvCommands.BraceWithoutPriceDropped` | src/lib/ppv-handler.ts:82-90 | with no `price` field, or an empty one, the price defaults to "0" and the command is dropped |
| `PpvCommands.ParamsOf` | src/lib/ppv-handler.ts:48-90 | whichever syntax, an accepted command has a positive normal price |
| `PpvCommands.CommandOfWellFormed` | src/lib/ppv-handler.ts:49-91 | every emitted command lies inside the script, the script holds its raw text at its position, and its price is positive |
| `PpvCommands.CommandOfPosition` | src/lib/ppv-handler.ts:54-87 | an emitted command's position is the start of its match |
| `PpvCommands.MatchOpens` | src/lib/ppv-handler.ts:36-61 | a match is non-empty, lies inside the script, and starts with its opener's first character |
| `PpvCommands.PrependOrdered` | src/lib/ppv-handler.ts:39 | a command before an ascending run keeps the run ascending and well formed |
| `PpvCommands.CommandsFromOrdered` | src/lib/ppv-handler.ts:39-93 | the commands of one syntax are well formed and in strictly ascending position order |
| `PpvCommands.GroupsDisjoint` | src/lib/ppv-handler.ts:95 | bracket and brace commands never share a position, so the combined list has distinct positions |
| `PpvCommands.CommandsWellFormed` | src/lib/ppv-handler.ts:32-96 | `parsePPVCommands` returns well-formed commands at distinct positions: the bracket ones ascending, then the brace ones ascending |
| `PpvCommands.BracketDescriptionKeepsColons` | src/lib/ppv-handler.ts:46 | the first two fields, then the description, rebuild the parameters, so colons inside a description are kept |
| `PpvCommands.CollectFields` | src/lib/ppv-handler.ts:70-78 | the `for` loop over the fields builds the same record as the specification |
| `PpvCommands.CommandsFromStep` | src/lib/ppv-handler.ts:39-63 | one iteration of the `exec` loop: the command of the found match, then the commands after that match |
| `PpvCommands.ScanBracket` | src/lib/ppv-handler.ts:36-58 | the bracket loop returns exactly the bracket commands of the script |
| `PpvCommands.ScanBrace` | src/lib/ppv-handler.ts:61-93 | the brace loop appends exactly the brace commands of the script |
| `PpvCommands.Commands` | src/lib/ppv-handler.ts:32-96 | the specification of `parsePPVCommands`: every command's raw text sits at its position in the script, its price is positive, and no two commands share a position |
| `PpvCommands.ParsePPVCommands` | src/lib/ppv-handler.ts:32-96 | returns the commands of the specification, well formed and at distinct positions |
| `PpvMessages.GeneratePPVMessage` | src/lib/ppv-handler.ts:112-139 | the message starts with the type's emoji and a space and always ends with the unlock line and the price; between them it carries the description when there is one, otherwise exactly "Exclusive photo set", "Exclusive video" or "Premium content bundle", the bundle followed by " (p photos + v videos)" only when both counts are truthy, and a photo or video offer never shows counts |
| `PpvMessages.DefaultCopy` | src/lib/ppv-handler.ts:120-133 | without a description, the emoji and space are followed by the type's default copy, with the counts for a bundle that has both |
| `PpvMessages.OfferShowsPrice` | src/lib/ppv-handler.ts:136 | the message ends with the rendered price, which has no '$' and reads back as the command's price |
| `PpvMessages.RenderDecimalHasNoDollar` | src/lib/ppv-handler.ts:136 | a rendered price has no '$' |
| `PpvMessages.GenerateUnlockMessage` | src/lib/ppv-handler.ts:144-152 | every unlock message opens with the unlocked padlock and a space |
| `PpvMessages.UnlockMessageByType` | src/lib/ppv-handler.ts:144-152 | two commands get the same unlock message exactly when they have the same type |
| `PpvMessages.GenerateReminderMessage` | src/lib/ppv-handler.ts:157-160 | the reminder opens with "Hey! Just wanted to remind you about the " and the lower-cased type name, and closes with " if you're interested! ✨"; the hours waited are not used |
| `PpvMessages.LowerTypeName` | src/lib/ppv-handler.ts:158 | the reminder names the type in lower case |
| `PpvMessages.ReminderShowsTypeAndPrice` | src/lib/ppv-handler.ts:157-160 | right before its closing words the reminder shows `$` and the rendered price, which has no `$` and reads back as the command's price |
| `PpvMessages.SubstitutePlain` | src/lib/ppv-handler.ts:106 | replacement text without `$` patterns is inserted as it is |
| `PpvMessages.DollarPatterns` | src/lib/ppv-handler.ts:106 | at the head of any replacement text, `$$` inserts `$`, `$&` the matched text, `` $` `` the text before the match and `$'` the text after it, and the rest is expanded in turn |
| `PpvMessages.ReplacePPVCommand` | src/lib/ppv-handler.ts:101-107 | the script is unchanged when the raw command occurs nowhere; when its first occurrence is at i (it occurs at i and at no earlier index), exactly that occurrence is replaced by the expanded text and the rest of the script is kept |
| `PpvMessages.ReplaceFirstOccurrence` | src/lib/ppv-handler.ts:101-107 | for a command of the script and plain text, the first occurrence (at or before the command) is replaced by the text |
| `PpvMessages.ReplacePlainAt` | src/lib/ppv-handler.ts:101-107 | at the first occurrence of the raw command, text without `$` patterns takes its place verbatim |
| `PpvPayment.TimeValue` | src/lib/ppv-handler.ts:179 | `new Date(t)` cuts the fractional milliseconds toward zero |
| `PpvPayment.CreatePaymentTracking` | src/lib/ppv-handler.ts:172-190 | a pending, unpaid record created now that carries its inputs; it expires 24 hours later by default, or after the given whole number of hours |
| `PpvPayment.ExpiresAfterLifetime` | src/lib/ppv-handler.ts:165-179 | a record made with a lifetime of h hours is expired exactly when more than h hours have passed since its creation |
| `PpvPayment.IsPaymentExpired` | src/lib/ppv-handler.ts:165-167 | expired exactly when more time has passed since creation than the record's lifetime |
| `PpvPayment.ExpiredStaysExpired` | src/lib/ppv-handler.ts:165-167 | an expired record stays expired at every later time |
| `PpvPayment.FreshNotExpired` | src/lib/ppv-handler.ts:165-179 | a record with a non-negative lifetime is not expired at its creation |
| `PpvScript.InsertByPosition` | src/lib/ppv-handler.ts:216 | inserting into a sorted list keeps it sorted, and adds exactly that command to its multiset |
| `PpvScript.SortByPosition` | src/lib/ppv-handler.ts:216 | the sort is ordered by position and is a permutation |
| `PpvScript.SortedCommands` | src/lib/ppv-handler.ts:215-216 | the sorted commands are well formed, inside the script, strictly ascending, and as many as before |
| `PpvScript.SameMembersSamePositions` | src/lib/ppv-handler.ts:216 | a permutation of commands at distinct positions still has distinct positions |
| `PpvScript.OnceInDistinct` | src/lib/ppv-handler.ts:216 | among commands at distinct positions, each occurs once |
| `PpvScript.TextBetween` | src/lib/ppv-handler.ts:220-225 | the text before a command yields at most one message, which is trimmed and non-empty |
| `PpvScript.ProcessScriptWithPPV` | src/lib/ppv-handler.ts:196-246 | returns the segments of the specification; with no commands, a single message holding the untrimmed script |
| `PpvScript.WalkCommands` | src/lib/ppv-handler.ts:218-235 | the `for` loop yields the segments up to the last command and the end of the last command |
| `PpvScript.PushCommand` | src/lib/ppv-handler.ts:219-234 | one iteration turns the segments of the first n-1 commands into those of the first n: the text before the command (if any), then its offer |
| `PpvScript.PushTextAfter` | src/lib/ppv-handler.ts:237-243 | the text after the last command is appended when it is non-empty once trimmed |
| `PpvScript.OffersOfAppend` | src/lib/ppv-handler.ts:218-243 | the offers of concatenated segment lists are the offers of each, in order |
| `PpvScript.WellShapedAppend` | src/lib/ppv-handler.ts:218-243 | gluing two well-shaped segment lists stays well shaped when an offer sits at the join |
| `PpvScript.PrefixSnoc` | src/lib/ppv-handler.ts:218 | a prefix one longer is the shorter prefix plus one element |
| `PpvScript.OffersOfMessages` | src/lib/ppv-handler.ts:223-241 | message segments carry no offers |
| `PpvScript.PushedOffers` | src/lib/ppv-handler.ts:228-232 | each iteration pushes exactly one offer, for its own command |
| `PpvScript.PushedWellShaped` | src/lib/ppv-handler.ts:220-232 | each iteration pushes a well-shaped run that ends with an offer |
| `PpvScript.MessagesWellShaped` | src/lib/ppv-handler.ts:222-241 | at most one trimmed non-empty message is well shaped |
| `PpvScript.OfferWellShaped` | src/lib/ppv-handler.ts:228-232 | a single offer is well shaped |
| `PpvScript.SegmentsUpToOffers` | src/lib/ppv-handler.ts:218-235 | after k iterations the offers are the first k commands, in order |
| `PpvScript.SegmentsUpToWellShaped` | src/lib/ppv-handler.ts:218-235 | after k iterations the segments are well shaped and end with an offer |
| `PpvScript.SegmentsOffers` | src/lib/ppv-handler.ts:215-243 | with commands, the offers are the sorted commands: ascending in position, and a permutation of the parsed commands |
| `PpvScript.SegmentsWellShaped` | src/lib/ppv-handler.ts:218-243 | every message segment is trimmed and non-empty, and no two messages are adjacent |
| `PpvValidate.BracketVerdict` | src/lib/ppv-handler.ts:262-281 | a bracket command is valid exactly when the parser would accept it; otherwise one of the three bracket errors, the shape error when there are fewer than three fields |
| `PpvValidate.FindPrice` | src/lib/ppv-handler.ts:303 | the leftmost position of `price=` followed by a digit, or none when there is no such position |
| `PpvValidate.PriceCapture` | src/lib/ppv-handler.ts:303 | the `\d+\.?\d*` capture is a prefix of the text |
| `PpvValidate.CaptureWithFraction` | src/lib/ppv-handler.ts:303-308 | when a '.' follows the digits, the capture has the same whole digits and fraction as the text |
| `PpvValidate.CaptureWithoutFraction` | src/lib/ppv-handler.ts:303-308 | without a '.', the capture has the same whole digits and fraction as the text |
| `PpvValidate.CaptureReadsAsTail` | src/lib/ppv-handler.ts:303-308 | `parseFloat` of the capture equals `parseFloat` of the text from the match on |
| `PpvValidate.PriceVerdict` | src/lib/ppv-handler.ts:303-313 | a failed price check reports the missing-price error when no `price=<digit>` exists, the not-positive error otherwise |
| `PpvValidate.PriceVerdictReadsTail` | src/lib/ppv-handler.ts:303-313 | the price check passes exactly when a `price=<digit>` exists and `parseFloat` of the text after it is above zero |
| `PpvValidate.BraceVerdict` | src/lib/ppv-handler.ts:291-313 | a brace command is valid exactly when it has two fields, a known type and a passing price; otherwise one of the four brace errors |
| `PpvValidate.ValidatePPVCommand` | src/lib/ppv-handler.ts:254-314 | errors are non-empty; a bracket match alone decides, agreeing with the parser; the brace form decides only without a bracket match; neither gives the format error |
| `PpvValidate.ValidatesBracketText` | src/lib/ppv-handler.ts:259-281 | the text of a bracket command the parser accepts validates |
| `PpvValidate.MatchText` | src/lib/ppv-handler.ts:259 | the matched text is opener, parameters and closer, with parameters free of the stop character |
| `PpvValidate.ValidatesParsedBracket` | src/lib/ppv-handler.ts:259-281 | the raw text of each bracket command the parser emits validates |
| `PpvValidate.ValidatesAllParsedBrackets` | src/lib/ppv-handler.ts:259-281 | every bracket command `parsePPVCommands` emits passes `validatePPVCommand` |
| `PpvValidate.ParsesLeadingPoint` | src/lib/ppv-handler.ts:82 | `parseFloat(".5")` is 0.5 |
| `PpvValidate.ParsesFive` | src/lib/ppv-handler.ts:82 | `parseFloat("5")` is 5 |
| `PpvValidate.OneFieldSplit` | src/lib/ppv-handler.ts:65 | a type and one `key=value` field split into those two parts |
| `PpvValidate.OneFieldRecord` | src/lib/ppv-handler.ts:73-78 | one `key=value` field makes the record `{key: value}` |
| `PpvValidate.OneFieldCommand` | src/lib/ppv-handler.ts:65-78 | a brace command with one field parses to that one-entry record |
| `PpvValidate.PriceOnlyFields` | src/lib/ppv-handler.ts:80-92 | a known type with only a positive price field gives a command with that price and nothing else |
| `PpvValidate.ParserTakesDotPrice` | src/lib/ppv-handler.ts:63-92 | the parser accepts `PHOTO:price=.5` with price 0.5 |
| `PpvValidate.NoPriceInDotPrice` | src/lib/ppv-handler.ts:303 | the validator's price pattern finds nothing in `PHOTO:price=.5` |
| `PpvValidate.ValidatorRefusesDotPrice` | src/lib/ppv-handler.ts:303-306 | the validator refuses `PHOTO:price=.5` with the missing-price error, though the parser accepts it |
| `PpvValidate.ParserDropsInnerPrice` | src/lib/ppv-handler.ts:82-90 | the parser drops `PHOTO:myprice=5` (no `price` key, so price 0) |
| `PpvValidate.PriceInsideInnerPrice` | src/lib/ppv-handler.ts:303 | the validator's pattern finds `price=5` inside `myprice=5` |
| `PpvValidate.InnerPriceChecks` | src/lib/ppv-handler.ts:303-311 | the price check passes on `PHOTO:myprice=5` |
| `PpvValidate.ValidatorTakesInnerPrice` | src/lib/ppv-handler.ts:291-313 | the validator accepts `PHOTO:myprice=5`, which the parser drops |
| `WebhookUtils.Logged` | src/lib/webhook-utils.ts:46-51 | after `unshift` and `splice(100)`: the new entry first, length min(old+1, 100), then the previous entries in order with the oldest dropped |
| `WebhookUtils.SliceEnd` | src/lib/webhook-utils.ts:60 | the end index of `slice(0, limit)`: min(limit, n) for a non-negative limit, n minus min(-limit, n) for a negative one |
| `WebhookUtils.Take` | src/lib/webhook-utils.ts:60-69 | `slice(0, limit)` is the prefix of that length |
| `WebhookUtils.OfType` | src/lib/webhook-utils.ts:68 | the filter keeps exactly the entries of that event type, and no more entries than the log has |
| `WebhookUtils.OfTypeAppend` | src/lib/webhook-utils.ts:68 | filtering keeps log order (it distributes over concatenation) |
| `WebhookUtils.CountStatus` | src/lib/webhook-utils.ts:77-78 | a status count is at most the log's length |
| `WebhookUtils.StatusesPartition` | src/lib/webhook-utils.ts:76-78 | successful plus failed entries make up the whole log |
| `WebhookUtils.SumOverOutside` | src/lib/webhook-utils.ts:82 | changing the count of a name not listed leaves the sum over the listed names alone |
| `WebhookUtils.SumOverBump` | src/lib/webhook-utils.ts:82 | incrementing a listed name's count adds one to the sum |
| `WebhookUtils.CountsAddUp` | src/lib/webhook-utils.ts:80-83 | the keys of `eventCounts` are exactly the distinct event names, and the counts add up to the log's length |
| `WebhookUtils.EventCountsCount` | src/lib/webhook-utils.ts:80-83 | a name is a key exactly when it occurs, and its count is its number of occurrences |
| `WebhookUtils.SuccessRate` | src/lib/webhook-utils.ts:89 | for a non-empty log the rate times the total is 100 times the successes, that is `successful / total * 100`; it lies between 0 and 100, is 100 when all succeeded and 0 when none did, including the empty log |
| `WebhookUtils.Since` | src/lib/webhook-utils.ts:214-216 | the kept revenue events are exactly those at or after the window start |
| `WebhookUtils.SinceShrinks` | src/lib/webhook-utils.ts:214-216 | a later start keeps no more events |
| `WebhookUtils.WindowsNest` | src/lib/webhook-utils.ts:200-212 | the day window keeps no more than the week window, which keeps no more than the month window |
| `WebhookUtils.ByTypeAddsUp` | src/lib/webhook-utils.ts:218-222 | the total equals the sum of the per-type amounts, and a type is a key exactly when some event has it |
| `WebhookUtils.GetAutoResponseConfig` | src/lib/webhook-utils.ts:105-111 | the configuration is switched off, with delay 0 and no script |
| `WebhookUtils.ShouldAutoRespondWith` | src/lib/webhook-utils.ts:156-170 | a user gets an auto-response exactly when the configuration is switched on |
| `WebhookUtils.ShouldAutoRespond` | src/lib/webhook-utils.ts:156-170 | with the fixed configuration, no user gets an auto-response |
| `WebhookUtils.DeliveryFor` | src/lib/webhook-utils.ts:124-130 | sent immediately exactly when the delay is at most zero, otherwise after that delay |
| `WebhookUtils.WebhookStore.constructor` | src/lib/webhook-utils.ts:24-25 | the event log and the revenue log start empty |
| `WebhookUtils.WebhookStore.LogWebhookEvent` | src/lib/webhook-utils.ts:31-54 | returns the record with exactly the given fields, puts it at the head of the capped log, and touches nothing else |
| `WebhookUtils.WebhookStore.GetRecentWebhookEvents` | src/lib/webhook-utils.ts:59-61 | the first entries of the log up to the `slice` end for `limit`, 10 of them (or all, if fewer) when the limit is left out |
| `WebhookUtils.WebhookStore.GetWebhookEventsByType` | src/lib/webhook-utils.ts:66-70 | only entries of that type, from the log, in log order, up to the `slice` end for `limit`, 10 when the limit is left out |
| `WebhookUtils.WebhookStore.GetWebhookStats` | src/lib/webhook-utils.ts:75-92 | total is n, successful plus failed is total, the rate follows, and the `forEach` counts add up to total |
| `WebhookUtils.WebhookStore.ClearWebhookEvents` | src/lib/webhook-utils.ts:97-99 | the log is empty afterwards and the revenue log is untouched |
| `WebhookUtils.WebhookStore.ScheduleAutoResponse` | src/lib/webhook-utils.ts:117-131 | one reply is recorded, sent now or after the delay, and sent now when the delay is left out; nothing else changes |
| `WebhookUtils.WebhookStore.LogRevenueEvent` | src/lib/webhook-utils.ts:188-191 | the event is prepended to the unbounded revenue log |
| `WebhookUtils.WebhookStore.GetRevenueStats` | src/lib/webhook-utils.ts:196-229 | the count, total and per-type sums are over the events in the window; the total equals the sum of the per-type amounts |
| `FanvueWebhook.TimingSafeEqual` | src/app/api/webhooks/fanvue/route.ts:47-50 | throws exactly when the UTF-8 lengths differ, and reports equal exactly when the strings are equal |
| `FanvueWebhook.VerifyWebhookSignature` | src/app/api/webhooks/fanvue/route.ts:40-51 | the signature passes exactly when it equals the digest of the body under the secret |
| `FanvueWebhook.PostResponse` | src/app/api/webhooks/fanvue/route.ts:281-339 | a missing signature gives 401 before the secret is consulted; a missing secret gives 500; a length mismatch gives 500; 200 exactly when all checks pass and the body parses, echoing the event |
| `FanvueWebhook.WrongSignatureRefused` | src/app/api/webhooks/fanvue/route.ts:307-314 | a wrong signature of the right length gets 401 "Invalid signature" |
| `FanvueWebhook.HandlerFor` | src/app/api/webhooks/fanvue/route.ts:60-87 | the `switch` picks the handler whose event name matches; an unknown name picks none |
| `FanvueWebhook.DispatchSelectsOwnHandler` | src/app/api/webhooks/fanvue/route.ts:60-84 | each of the six event names selects its own handler |
| `FanvueWebhook.MessageReceivedEffect` | src/app/api/webhooks/fanvue/route.ts:97-127 | no user or no message: no effect; otherwise an immediate reply only if auto-responding, then a success entry; a missing payload logs an error and rethrows |
| `FanvueWebhook.NewSubscriberEffect` | src/app/api/webhooks/fanvue/route.ts:132-154 | no user: no effect; otherwise the welcome (username or "there") after 600000 ms, then a success entry |
| `FanvueWebhook.PaymentEffect` | src/app/api/webhooks/fanvue/route.ts:159-230 | zero or missing amount, or no currency: no effect; otherwise one revenue event of the handler's type, a thank-you sent now exactly when there is a user, then a success entry |
| `FanvueWebhook.RenewedEffect` | src/app/api/webhooks/fanvue/route.ts:235-258 | subscription revenue exactly when amount and currency are truthy; always one entry; failures are not passed on |
| `FanvueWebhook.HandlersWriteAtMostOne` | src/app/api/webhooks/fanvue/route.ts:97-275 | each handler writes at most one entry, one revenue event and one reply; a rethrowing handler has written only its error entry |
| `FanvueWebhook.RevenueTypedByHandler` | src/app/api/webhooks/fanvue/route.ts:171-249 | only tip, purchase and renewal handlers record revenue, each of its own type and stamped now |
| `FanvueWebhook.HandleMessageReceived` | src/app/api/webhooks/fanvue/route.ts:97-127 | the store afterwards is the old store with the handler's effect applied |
| `FanvueWebhook.HandleNewSubscriber` | src/app/api/webhooks/fanvue/route.ts:132-154 | the store afterwards is the old store with the handler's effect applied |
| `FanvueWebhook.HandlePaymentReceived` | src/app/api/webhooks/fanvue/route.ts:159-230 | the store afterwards is the old store with the tip or purchase effect applied |
| `FanvueWebhook.HandleSubscriptionRenewed` | src/app/api/webhooks/fanvue/route.ts:235-258 | the store gets the renewal effect, and the handler always completes |
| `FanvueWebhook.HandleSubscriptionCancelled` | src/app/api/webhooks/fanvue/route.ts:263-275 | the store gets one success entry, and the handler always completes |
| `FanvueWebhook.ProcessWebhookEvent` | src/app/api/webhooks/fanvue/route.ts:56-92 | exactly the matching handler's effect is applied and its failure passed on; an unknown event leaves the store unchanged |
| `FanvueWebhook.Post` | src/app/api/webhooks/fanvue/route.ts:281-339 | the response is the decision chain's; the store changes only on 200, and then by the event's effect under the fixed configuration |
| `Session.AddIfAbsent` | src/lib/session.ts:67-70 | the id is present afterwards; the old list is a prefix; one entry longer exactly when the id was new, and then the new entry is last |
| `Session.AddKeepsIdsUnique` | src/lib/session.ts:67-70 | adding keeps ids unique |
| `Session.RemoveById` | src/lib/session.ts:100 | no entry with the id remains, and exactly the other entries are kept |
| `Session.RemoveDistributes` | src/lib/session.ts:100 | removal distributes over concatenation, so the kept entries stay in order |
| `Session.RemoveAbsent` | src/lib/session.ts:100 | removing an absent id gives the same list |
| `Session.RemoveUndoesAdd` | src/lib/session.ts:67-100 | removing a newly added id gives back the list from before |
| `Session.FindById` | src/lib/session.ts:114 | found exactly when some entry has the id, and then it is the first such entry |
| `Session.FindAfterAdd` | src/lib/session.ts:67-114 | after adding a new id, finding it gives the new entry |
| `Session.FindAfterRemove` | src/lib/session.ts:100-114 | after removing an id, it is not found |
| `Session.AccountsIn` | src/lib/session.ts:83-94 | an absent or empty cookie, or unparsable JSON, gives the empty list; otherwise the parsed list |
| `Session.SessionIn` | src/lib/session.ts:44-54 | no session without a non-empty cookie; a session is what verification of the cookie gives |
| `Session.CookieStore.GetMultiAccounts` | src/lib/session.ts:83-94 | the list read from the store's cookie jar: empty when the cookie is absent, empty or unreadable, otherwise the parsed list |
| `Session.CookieStore.GetSession` | src/lib/session.ts:44-54 | no session without a non-empty session cookie in the jar; otherwise what verification of the cookie gives |
| `Session.StoredListReadsBack` | src/lib/session.ts:71-90 | when `JSON.parse` reads back what `JSON.stringify` writes, a stored list reads back as itself |
| `Session.StoredSessionReadsBack` | src/lib/session.ts:35-50 | a stored token that verifies to a payload reads back as that session |
| `Session.CookieStore.constructor` | src/lib/session.ts:34 | the jar starts empty |
| `Session.CookieStore.SetSession` | src/lib/session.ts:27-42 | the session cookie holds the signed token of the payload and no other cookie changes |
| `Session.CookieStore.ClearSession` | src/lib/session.ts:56-59 | the session cookie is deleted, so no verifier finds a session |
| `Session.CookieStore.AddAccountToMultiSession` | src/lib/session.ts:62-81 | no write when the id exists; otherwise the list cookie holds the old list plus the new entry, which is what reads back |
| `Session.CookieStore.RemoveAccountFromMultiSession` | src/lib/session.ts:96-110 | the list cookie is rewritten with the id removed, which is what reads back |
| `Session.CookieStore.SetActiveAccount` | src/lib/session.ts:112-122 | returns the first account with the id; the session becomes its payload; with no match nothing changes |
| `Utils.Elapsed` | src/lib/utils.ts:29-46 | nothing under 60 s (negative included); otherwise the largest unit reached, counted in whole units (minutes below 60, hours below 24) |
| `Utils.FormatRelativeTime` | src/lib/utils.ts:26-47 | "à l'instant" under a minute, otherwise the "il y a" label of the elapsed count and unit |
| `Utils.ReadAgoOfAgo` | src/lib/utils.ts:37-46 | an "il y a" label reads back as its count and unit |
| `Utils.FormatRelativeTimeReadsBack` | src/lib/utils.ts:26-47 | reading the label back gives exactly the elapsed count and unit; "à l'instant" reads as nothing |
| `Utils.PluralWhenMoreThanOne` | src/lib/utils.ts:37-46 | the label ends in 's' exactly when the count is more than one |
| `Utils.TruncateText` | src/lib/utils.ts:52-55 | unchanged when it fits; otherwise the first `maxLength` characters (none if negative) followed by "...", of length `maxLength`+3 |
| `Utils.TruncateIdempotent` | src/lib/utils.ts:52-55 | truncating twice with the same limit is truncating once |
| `EdgeLogger.Rank` | src/lib/edge-logger.ts:9-15 | ranks run from 0 (error) to 4 (debug) |
| `EdgeLogger.RankInjective` | src/lib/edge-logger.ts:9-15 | different levels have different ranks |
| `EdgeLogger.LevelOf` | src/lib/edge-logger.ts:9-20 | a name has a rank exactly when it is one of the five level names |
| `EdgeLogger.LevelNameLooksUp` | src/lib/edge-logger.ts:9-15 | each level's name looks up that level |
| `EdgeLogger.CurrentLogLevel` | src/lib/edge-logger.ts:17 | never empty: `LOG_LEVEL` when it is set and non-empty, otherwise the name of the info level |
| `EdgeLogger.ShouldLog` | src/lib/edge-logger.ts:19-21 | a level is logged exactly when some level is named by the configured level and ranks at or below it |
| `EdgeLogger.ShouldLogMonotone` | src/lib/edge-logger.ts:19-21 | if a level is logged, every more severe level is logged too |
| `EdgeLogger.ErrorAlwaysLogged` | src/lib/edge-logger.ts:19-21 | under any recognised level, errors are logged |
| `EdgeLogger.DefaultIsInfo` | src/lib/edge-logger.ts:17-21 | with `LOG_LEVEL` absent or empty, exactly error, warn and info are logged |
| `EdgeLogger.ConfiguredLevel` | src/lib/edge-logger.ts:17-21 | under a configured level, a level is logged exactly when its rank is at most that level's |
| `EdgeLogger.UnknownLevelLogsNothing` | src/lib/edge-logger.ts:17-21 | an unrecognised `LOG_LEVEL` logs nothing, not even errors |
| `EdgeLogger.Tag` | src/lib/edge-logger.ts:28 | the tag is `[`, the upper-cased level name, then `]:`; it contains no space |
| `EdgeLogger.FormatMessage` | src/lib/edge-logger.ts:23-29 | the line opens with `<timestamp> [LEVEL]: <message>`; it is exactly that when there are no arguments, and otherwise continues with a space and the arguments joined by spaces |
| `EdgeLogger.FormatMessageFields` | src/lib/edge-logger.ts:23-29 | split on spaces, a line is its timestamp, its tag, the words of the message, then the arguments |
| `EdgeLogger.TagInjective` | src/lib/edge-logger.ts:28 | different levels have different tags, so a line's level can be read back |
| `EdgeLogger.Emit` | src/lib/edge-logger.ts:31-61 | a line is written exactly when the level passes the filter, and it is the formatted message |

## Left out

- Numbers:
  - `parseFloat` exponents, `Infinity` and hexadecimal literals are not modelled. Prices are exact decimals, so floating-point rounding in prices, in `successRate` and in revenue sums is not modelled either.
  - Very large or very small magnitudes, where JavaScript's `toString` switches to exponent notation, are not modelled.
- Lengths: string lengths count code points. JavaScript counts UTF-16 units, so `truncateText` and the slicing positions differ for text outside the Basic Multilingual Plane. Lone surrogates are not modelled.
- `toUpperCase`/`toLowerCase` are modelled only for the characters that can produce or come from the type and level names: ASCII letters, dotless i and long s. Every other character is left unchanged.
- Regular expressions become explicit scanners. The `lastIndex` state is not modelled.
- `ParsePPVCommands` is split into one method per syntax, `ScanBracket` and `ScanBrace`.
- The position sort is a stable insertion sort. The source uses `Array.prototype.sort` with a comparator. Because positions are distinct, both give the same order.
- Side effects of the outside world:
  - The clock, `Math.random` ids, the HMAC-SHA256 digest and `JSON.parse` are parameters.
  - The JWT signer and verifier are parameters too. Token expiry and the cookie options (`httpOnly`, `secure`, `sameSite`, `maxAge`) are not modelled.
  - `console` output is not modelled.
- Timestamps are integer milliseconds, not ISO strings.
- A `JSON.parse` result that is valid JSON but not an object or an array of accounts is not modelled.
- The webhook payload is limited to its declared fields and types.
- Concurrency:
  - `setTimeout` and unawaited promises are not modelled. A scheduled reply is recorded with its delivery, and nothing is sent.
  - `POST` does not wait for processing. The model applies the whole processing before the response, so the interleaving of later webhook deliveries with still-running handlers is not captured.
- Handler failures:
  - The one failure a handler can meet is a missing `data` record. Destructuring it throws a `TypeError`, whose message text is a parameter.
  - `handleSubscriptionCancelled`'s catch block cannot be reached, since nothing in its `try` can throw.
- `FanvueWebhook.Post`: the auto-response configuration is passed into the handlers as a parameter. `Post` supplies the fixed one. This models `shouldAutoRespond` without fixing the configuration inside every handler.
- The `GET` readiness endpoint of the Fanvue route is not modelled. It returns a fixed body with the current time.
- Object keys:
  - `eventCounts` and the revenue `byType` record are maps. Keys that collide with `Object.prototype` members, such as an event named `__proto__`, are not modelled.
  - Likewise, the brace-command record treats `__proto__` as an ordinary key.
- The PPV payment webhook route has no behaviour; it only holds TODO comments. There is no payment-wait, reminder or expiry sequence in the source to model.
- `PpvPayment.CreatePaymentTracking`: the expiry is stated exactly only for a whole number of hours. For fractional hours the contract gives no formula; `TimeValue` gives the rounding.
- `Utils.FormatRelativeTime` takes the difference in whole seconds. Reading the clock and `new Date(date)` parsing are not modelled.
- `EdgeLogger.FormatMessage`: arguments arrive already rendered to strings (`String(arg)` or `JSON.stringify(arg)`).
