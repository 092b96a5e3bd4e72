/**
 * `processScriptWithPPV` of `src/lib/ppv-handler.ts`: a script is cut into
 * the segments sent one after the other. Every command found in it becomes
 * an offer segment; the trimmed, non-empty text between commands becomes a
 * message segment. A script without commands is sent whole, as it is.
 */
module PpvScript {
  import opened Text
  import opened PpvCommands
  import opened PpvMessages

  datatype Segment = Message(content: string) | Ppv(content: string, command: PpvCommand)

  // ---------------------------------------------------------------------------
  // commands.sort((a, b) => a.position - b.position)
  // ---------------------------------------------------------------------------

  ghost predicate SortedByPosition(cs: seq<PpvCommand>) {
    forall i, j :: 0 <= i < j < |cs| ==> cs[i].position <= cs[j].position
  }

  /** Inserts `c` after every element at a position not greater than its own (a stable insertion). */
  function InsertByPosition(c: PpvCommand, cs: seq<PpvCommand>): (r: seq<PpvCommand>)
    requires SortedByPosition(cs)
    ensures SortedByPosition(r)
    ensures multiset(r) == multiset(cs) + multiset{c}
    ensures forall x :: x in r ==> x == c || x in cs
  {
    if cs == [] then [c]
    else if c.position < cs[0].position then
      ConsSorted(c, cs);
      [c] + cs
    else
      var rest := InsertByPosition(c, cs[1..]);
      assert cs == [cs[0]] + cs[1..];
      HeadBelowRest(c, cs, rest);
      ConsSorted(cs[0], rest);
      [cs[0]] + rest
  }

  lemma HeadBelowRest(c: PpvCommand, cs: seq<PpvCommand>, rest: seq<PpvCommand>)
    requires SortedByPosition(cs) && cs != [] && cs[0].position <= c.position
    requires forall x :: x in rest ==> x == c || x in cs[1..]
    ensures forall x :: x in rest ==> cs[0].position <= x.position
  {
    forall x | x in rest
      ensures cs[0].position <= x.position
    {
      if x != c {
        var i :| 0 <= i < |cs[1..]| && cs[1..][i] == x;
        assert cs[i + 1] == x;
      }
    }
  }

  lemma ConsSorted(head: PpvCommand, cs: seq<PpvCommand>)
    requires SortedByPosition(cs)
    requires forall x :: x in cs ==> head.position <= x.position
    ensures SortedByPosition([head] + cs)
  {
    forall i, j | 0 <= i < j < |[head] + cs|
      ensures ([head] + cs)[i].position <= ([head] + cs)[j].position
    {
      if i == 0 {
        assert ([head] + cs)[j] == cs[j - 1];
      }
    }
  }

  /** The commands in ascending position, as the comparator of the source orders them. */
  function SortByPosition(cs: seq<PpvCommand>): (r: seq<PpvCommand>)
    ensures SortedByPosition(r)
    ensures multiset(r) == multiset(cs)
  {
    if cs == [] then []
    else
      var n := |cs| - 1;
      assert cs == cs[..n] + [cs[n]];
      InsertByPosition(cs[n], SortByPosition(cs[..n]))
  }

  /** Sorting keeps well-formedness and, with distinct positions, gives strictly ascending positions. */
  lemma SortedCommands(s: string, cs: seq<PpvCommand>)
    requires AllWellFormed(cs, s) && DistinctPositions(cs)
    ensures var r := SortByPosition(cs);
            AllWellFormed(r, s) && InBounds(r, s) && Ascending(r) && |r| == |cs|
  {
    var r := SortByPosition(cs);
    assert |r| == |multiset(r)| == |multiset(cs)| == |cs|;
    forall i | 0 <= i < |r|
      ensures WellFormedIn(r[i], s)
    {
      assert r[i] in multiset(cs);
    }
    forall i, j | 0 <= i < j < |r|
      ensures r[i].position < r[j].position
    {
      if r[i].position == r[j].position {
        SameMembersSamePositions(cs, r, i, j);
      }
    }
  }

  /** Two different slots of a permutation of a list with distinct positions hold different positions. */
  lemma SameMembersSamePositions(cs: seq<PpvCommand>, r: seq<PpvCommand>, i: nat, j: nat)
    requires DistinctPositions(cs) && multiset(r) == multiset(cs)
    requires i < j < |r|
    ensures r[i].position != r[j].position
  {
    if r[i].position == r[j].position {
      assert r[i] in multiset(cs) && r[j] in multiset(cs);
      var a :| 0 <= a < |cs| && cs[a] == r[i];
      var b :| 0 <= b < |cs| && cs[b] == r[j];
      assert a == b;
      assert r[i] == r[j];
      var rest := r[..i] + r[i + 1..];
      assert r == r[..i] + [r[i]] + r[i + 1..];
      assert r[j] in rest by {
        assert rest[j - 1] == r[j];
      }
      assert multiset(r)[r[i]] >= 2 by {
        assert multiset(r) == multiset(rest) + multiset{r[i]};
      }
      OnceInDistinct(cs, a);
      assert false;
    }
  }

  /** In a list with distinct positions, each element occurs once. */
  lemma OnceInDistinct(cs: seq<PpvCommand>, a: nat)
    requires DistinctPositions(cs) && a < |cs|
    ensures multiset(cs)[cs[a]] == 1
  {
    var x := cs[a];
    assert cs == cs[..a] + [x] + cs[a + 1..];
    assert x !in cs[..a] by {
      forall k | 0 <= k < a ensures cs[..a][k] != x {
        assert cs[k].position != cs[a].position;
      }
    }
    assert x !in cs[a + 1..] by {
      forall k | a < k < |cs| ensures cs[k] != x {
        assert cs[k].position != cs[a].position;
      }
    }
  }

  // ---------------------------------------------------------------------------
  // The segments
  // ---------------------------------------------------------------------------

  /** `scriptContent.substring(from, to).trim()`, pushed as a message when not empty. */
  function TextBetween(s: string, from: nat, to: nat): (r: seq<Segment>)
    requires from <= to <= |s|
    ensures |r| <= 1
    ensures forall i :: 0 <= i < |r| ==> r[i].Message? && r[i].content != [] && IsTrimmed(r[i].content)
  {
    var t := Trim(s[from..to]);
    if t != [] then [Message(t)] else []
  }

  /** Every command's raw text ends inside the script. */
  ghost predicate InBounds(cs: seq<PpvCommand>, s: string) {
    forall i :: 0 <= i < |cs| ==> cs[i].position + |cs[i].rawCommand| <= |s|
  }

  /** `lastPosition` after `k` commands: the end of the k-th command's raw text. */
  function LastEnd(cs: seq<PpvCommand>, k: nat): nat
    requires k <= |cs|
  {
    if k == 0 then 0 else cs[k - 1].position + |cs[k - 1].rawCommand|
  }

  /** The pieces pushed for the k-th command: the text before it, if any, then its offer. */
  function Pushed(s: string, cs: seq<PpvCommand>, k: nat): seq<Segment>
    requires InBounds(cs, s) && 0 < k <= |cs|
  {
    var c := cs[k - 1];
    var last := LastEnd(cs, k - 1);
    (if c.position > last then TextBetween(s, last, c.position) else []) + [Ppv(GeneratePPVMessage(c), c)]
  }

  /** The segments pushed for the first `k` commands of the sorted list. */
  function SegmentsUpTo(s: string, cs: seq<PpvCommand>, k: nat): seq<Segment>
    requires InBounds(cs, s) && k <= |cs|
  {
    if k == 0 then [] else SegmentsUpTo(s, cs, k - 1) + Pushed(s, cs, k)
  }

  lemma SegmentsUpToStep(s: string, cs: seq<PpvCommand>, n: nat)
    requires InBounds(cs, s) && 0 < n <= |cs|
    ensures SegmentsUpTo(s, cs, n) == SegmentsUpTo(s, cs, n - 1) + Pushed(s, cs, n)
  {
  }

  /** The text after the last command, pushed as a message when not empty. */
  function TextAfter(s: string, last: nat): seq<Segment>
    requires last <= |s|
  {
    if last < |s| then TextBetween(s, last, |s|) else []
  }

  /** The result of `processScriptWithPPV`. */
  function Segments(s: string): seq<Segment> {
    var cs := Commands(s);
    if cs == [] then [Message(s)]
    else
      CommandsWellFormed(s);
      SortedCommands(s, cs);
      var sorted := SortByPosition(cs);
      SegmentsUpTo(s, sorted, |sorted|) + TextAfter(s, LastEnd(sorted, |sorted|))
  }

  /** `processScriptWithPPV`: parse, sort, then walk the commands with `lastPosition`. */
  method ProcessScriptWithPPV(script: string) returns (segments: seq<Segment>)
    ensures segments == Segments(script)
    ensures Commands(script) == [] ==> segments == [Message(script)]
  {
    var commands := ParsePPVCommands(script);
    if |commands| == 0 {
      return [Message(script)];
    }
    SortedCommands(script, commands);
    commands := SortByPosition(commands);
    var lastPosition;
    segments, lastPosition := WalkCommands(script, commands);
    segments := PushTextAfter(script, lastPosition, segments);
  }

  /** The loop of `processScriptWithPPV` over the sorted commands. */
  method WalkCommands(script: string, commands: seq<PpvCommand>) returns (segments: seq<Segment>, lastPosition: nat)
    requires InBounds(commands, script)
    ensures segments == SegmentsUpTo(script, commands, |commands|)
    ensures lastPosition == LastEnd(commands, |commands|) && lastPosition <= |script|
  {
    segments := [];
    lastPosition := 0;
    for k := 0 to |commands|
      invariant segments == SegmentsUpTo(script, commands, k)
      invariant lastPosition == LastEnd(commands, k)
    {
      segments := PushCommand(script, commands, k + 1, lastPosition, segments);
      var command := commands[k];
      lastPosition := command.position + |command.rawCommand|;
    }

    if |commands| > 0 {
      assert commands[|commands| - 1].position + |commands[|commands| - 1].rawCommand| <= |script|;
    }
  }

  /** One turn of the loop: the text since `lastPosition`, trimmed and pushed when non-empty, then the offer. */
  method PushCommand(script: string, commands: seq<PpvCommand>, n: nat, lastPosition: nat, segments: seq<Segment>)
    returns (r: seq<Segment>)
    requires InBounds(commands, script) && 0 < n <= |commands| && lastPosition == LastEnd(commands, n - 1)
    requires segments == SegmentsUpTo(script, commands, n - 1)
    ensures r == SegmentsUpTo(script, commands, n)
  {
    var command := commands[n - 1];
    var before: seq<Segment> := [];
    if command.position > lastPosition {
      var beforeText := Trim(script[lastPosition..command.position]);
      if beforeText != [] {
        before := [Message(beforeText)];
      }
      assert before == TextBetween(script, lastPosition, command.position);
    }
    var offer := Ppv(GeneratePPVMessage(command), command);
    assert before + [offer] == Pushed(script, commands, n);
    r := segments + (before + [offer]);
    SegmentsUpToStep(script, commands, n);
  }

  /** The text after the last command, trimmed and pushed when non-empty. */
  method PushTextAfter(script: string, lastPosition: nat, segments: seq<Segment>) returns (r: seq<Segment>)
    requires lastPosition <= |script|
    ensures r == segments + TextAfter(script, lastPosition)
  {
    r := segments;
    if lastPosition < |script| {
      var afterText := Trim(script[lastPosition..]);
      assert script[lastPosition..] == script[lastPosition..|script|];
      if afterText != [] {
        r := r + [Message(afterText)];
      }
    }
  }

  // ---------------------------------------------------------------------------
  // What the segments promise
  // ---------------------------------------------------------------------------

  /** The commands carried by the offer segments, in order. */
  function OffersOf(segs: seq<Segment>): seq<PpvCommand> {
    if segs == [] then []
    else OffersOf(segs[..|segs| - 1])
         + (if segs[|segs| - 1].Ppv? then [segs[|segs| - 1].command] else [])
  }

  lemma {:induction false} OffersOfAppend(a: seq<Segment>, b: seq<Segment>)
    ensures OffersOf(a + b) == OffersOf(a) + OffersOf(b)
    decreases |b|
  {
    if b == [] {
      assert a + b == a;
    } else {
      var n := |b| - 1;
      assert a + b == (a + b[..n]) + [b[n]];
      assert (a + b)[..|a + b| - 1] == a + b[..n];
      OffersOfAppend(a, b[..n]);
    }
  }

  /**
   * Offers carry their command's generated text, messages are trimmed and
   * not empty, and no two messages follow each other.
   */
  ghost predicate WellShaped(segs: seq<Segment>) {
    && (forall i :: 0 <= i < |segs| && segs[i].Ppv? ==> segs[i].content == GeneratePPVMessage(segs[i].command))
    && (forall i :: 0 <= i < |segs| && segs[i].Message? ==> segs[i].content != [] && IsTrimmed(segs[i].content))
    && (forall i :: 0 <= i < |segs| - 1 ==> segs[i].Ppv? || segs[i + 1].Ppv?)
  }

  lemma WellShapedAppend(a: seq<Segment>, b: seq<Segment>)
    requires WellShaped(a) && WellShaped(b)
    requires a == [] || b == [] || a[|a| - 1].Ppv? || b[0].Ppv?
    ensures WellShaped(a + b)
  {
    var ab := a + b;
    forall i | 0 <= i < |ab|
      ensures ab[i] == if i < |a| then a[i] else b[i - |a|]
    {
    }
    forall i | 0 <= i < |ab| - 1
      ensures ab[i].Ppv? || ab[i + 1].Ppv?
    {
      if i + 1 < |a| {
        assert a[i].Ppv? || a[i + 1].Ppv?;
      } else if i >= |a| {
        assert b[i - |a|].Ppv? || b[i - |a| + 1].Ppv?;
      }
    }
  }

  lemma PrefixSnoc<T>(xs: seq<T>, k: nat)
    requires 0 < k <= |xs|
    ensures xs[..k] == xs[..k - 1] + [xs[k - 1]]
  {
  }

  /** Message segments carry no command. */
  lemma {:induction false} OffersOfMessages(segs: seq<Segment>)
    requires forall i :: 0 <= i < |segs| ==> segs[i].Message?
    ensures OffersOf(segs) == []
    decreases |segs|
  {
    if segs != [] {
      OffersOfMessages(segs[..|segs| - 1]);
    }
  }

  lemma PushedOffers(s: string, cs: seq<PpvCommand>, k: nat)
    requires InBounds(cs, s) && 0 < k <= |cs|
    ensures OffersOf(Pushed(s, cs, k)) == [cs[k - 1]]
  {
    var c := cs[k - 1];
    var last := LastEnd(cs, k - 1);
    var between := if c.position > last then TextBetween(s, last, c.position) else [];
    var offer := [Ppv(GeneratePPVMessage(c), c)];
    OffersOfMessages(between);
    OffersOfAppend(between, offer);
    assert offer[..0] == [];
  }

  lemma PushedWellShaped(s: string, cs: seq<PpvCommand>, k: nat)
    requires InBounds(cs, s) && 0 < k <= |cs|
    ensures WellShaped(Pushed(s, cs, k)) && Pushed(s, cs, k)[|Pushed(s, cs, k)| - 1].Ppv?
  {
    var c := cs[k - 1];
    var last := LastEnd(cs, k - 1);
    var between := if c.position > last then TextBetween(s, last, c.position) else [];
    var offer := [Ppv(GeneratePPVMessage(c), c)];
    assert Pushed(s, cs, k) == between + offer;
    MessagesWellShaped(between);
    OfferWellShaped(c);
    WellShapedAppend(between, offer);
  }

  lemma MessagesWellShaped(segs: seq<Segment>)
    requires |segs| <= 1
    requires forall i :: 0 <= i < |segs| ==> segs[i].Message? && segs[i].content != [] && IsTrimmed(segs[i].content)
    ensures WellShaped(segs)
  {
  }

  lemma OfferWellShaped(c: PpvCommand)
    ensures WellShaped([Ppv(GeneratePPVMessage(c), c)])
  {
  }

  /** The offers pushed for the first `k` commands carry exactly those commands, in order. */
  lemma SegmentsUpToOffers(s: string, cs: seq<PpvCommand>, k: nat)
    requires InBounds(cs, s) && k <= |cs|
    ensures OffersOf(SegmentsUpTo(s, cs, k)) == cs[..k]
    decreases k
  {
    if k > 0 {
      SegmentsUpToOffers(s, cs, k - 1);
      OffersStep(s, cs, k);
    }
  }

  /** One more command adds exactly that command to the offers. */
  lemma OffersStep(s: string, cs: seq<PpvCommand>, k: nat)
    requires InBounds(cs, s) && 0 < k <= |cs|
    requires OffersOf(SegmentsUpTo(s, cs, k - 1)) == cs[..k - 1]
    ensures OffersOf(SegmentsUpTo(s, cs, k)) == cs[..k]
  {
    var prev := SegmentsUpTo(s, cs, k - 1);
    var pushed := Pushed(s, cs, k);
    SegmentsUpToStep(s, cs, k);
    PushedOffers(s, cs, k);
    OffersOfAppend(prev, pushed);
    PrefixSnoc(cs, k);
    calc {
      OffersOf(SegmentsUpTo(s, cs, k));
      OffersOf(prev + pushed);
      OffersOf(prev) + OffersOf(pushed);
      cs[..k - 1] + [cs[k - 1]];
    }
  }

  /** The segments pushed for the first `k` commands are well shaped and end with an offer. */
  lemma SegmentsUpToWellShaped(s: string, cs: seq<PpvCommand>, k: nat)
    requires InBounds(cs, s) && k <= |cs|
    ensures var segs := SegmentsUpTo(s, cs, k);
            WellShaped(segs) && (k > 0 ==> |segs| > 0 && segs[|segs| - 1].Ppv?)
    decreases k
  {
    if k > 0 {
      SegmentsUpToWellShaped(s, cs, k - 1);
      SegmentsUpToStep(s, cs, k);
      PushedWellShaped(s, cs, k);
      WellShapedAppend(SegmentsUpTo(s, cs, k - 1), Pushed(s, cs, k));
    }
  }

  /**
   * The offers of a script's segments carry exactly the script's commands in
   * ascending position: a permutation of what `parsePPVCommands` returns.
   */
  lemma SegmentsOffers(s: string)
    requires Commands(s) != []
    ensures OffersOf(Segments(s)) == SortByPosition(Commands(s))
    ensures Ascending(OffersOf(Segments(s)))
    ensures multiset(OffersOf(Segments(s))) == multiset(Commands(s))
  {
    var cs := Commands(s);
    CommandsWellFormed(s);
    SortedCommands(s, cs);
    var sorted := SortByPosition(cs);
    var tail := TextAfter(s, LastEnd(sorted, |sorted|));
    SegmentsUpToOffers(s, sorted, |sorted|);
    assert sorted[..|sorted|] == sorted;
    OffersOfMessages(tail);
    OffersOfAppend(SegmentsUpTo(s, sorted, |sorted|), tail);
  }

  /**
   * Every offer of a script's segments shows its command's generated text,
   * every message is trimmed and not empty, and no two messages follow each
   * other.
   */
  lemma SegmentsWellShaped(s: string)
    requires Commands(s) != []
    ensures WellShaped(Segments(s))
  {
    var sorted := SortByPosition(Commands(s));
    SegmentsOfSorted(s);
    var tail := TextAfter(s, LastEnd(sorted, |sorted|));
    SegmentsUpToWellShaped(s, sorted, |sorted|);
    assert WellShaped(tail);
    WellShapedAppend(SegmentsUpTo(s, sorted, |sorted|), tail);
  }

  /** A script with commands: the segments of its sorted commands, then the text after the last one. */
  lemma SegmentsOfSorted(s: string)
    requires Commands(s) != []
    ensures var sorted := SortByPosition(Commands(s));
            InBounds(sorted, s) && |sorted| > 0
            && Segments(s) == SegmentsUpTo(s, sorted, |sorted|) + TextAfter(s, LastEnd(sorted, |sorted|))
  {
    CommandsWellFormed(s);
    SortedCommands(s, Commands(s));
  }
}
