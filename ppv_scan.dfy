/**
 * The two PPV command patterns of `src/lib/ppv-handler.ts`, as explicit
 * left-to-right scanners instead of regular expressions:
 *
 *   bracket form  /\[PPV:([^\]]+)\]/      an opening `[PPV:`, a non-empty run
 *                                          without `]`, then `]`
 *   brace form    /\{\{PPV:([^}]+)\}\}/   an opening `{{PPV:`, a non-empty run
 *                                          without `}`, then `}}`
 *
 * `MatchAt` is the pattern anchored at one position, `FindFrom` is `exec` with
 * the global flag (the leftmost match at or after `lastIndex`).
 */
module PpvScan {
  import opened Wrappers
  import opened Text

  datatype Syntax = Bracket | Brace

  function Open(syn: Syntax): string {
    match syn
    case Bracket => "[PPV:"
    case Brace => "{{PPV:"
  }

  function Close(syn: Syntax): string {
    match syn
    case Bracket => "]"
    case Brace => "}}"
  }

  /** The character the captured parameters may not contain. */
  function Stop(syn: Syntax): char {
    match syn
    case Bracket => ']'
    case Brace => '}'
  }

  /** One match: `s[start..end]` is the full match, `params` the captured group. */
  datatype Match = Match(start: nat, end: nat, params: string)

  /** The pattern matches at `p` with `params` as its captured group. */
  ghost predicate MatchesWith(syn: Syntax, s: string, p: nat, params: string) {
    params != [] && Stop(syn) !in params && OccursAt(s, Open(syn) + params + Close(syn), p)
  }

  /** The shape of a match at `p`, read off character by character. */
  lemma MatchShape(syn: Syntax, s: string, p: nat, params: string)
    requires MatchesWith(syn, s, p, params)
    ensures var q := p + |Open(syn)| + |params|;
            q + |Close(syn)| <= |s| && OccursAt(s, Open(syn), p) && OccursAt(s, Close(syn), q)
            && s[q] == Stop(syn) && s[p + |Open(syn)|..q] == params
  {
    var open, close := Open(syn), Close(syn);
    var q := p + |open| + |params|;
    var w := open + params + close;
    OccursPiece(s, w, p, 0, |open|);
    assert w[..|open|] == open;
    OccursPiece(s, w, p, |open|, |open| + |params|);
    assert w[|open|..|open| + |params|] == params;
    OccursPiece(s, w, p, |open| + |params|, |w|);
    assert w[|open| + |params|..|w|] == close;
  }

  /**
   * The pattern anchored at `p`: the match spans the opening marker, the
   * captured group and the closing marker.
   */
  function MatchAt(syn: Syntax, s: string, p: nat): (r: Option<Match>)
    ensures r.Some? ==> r.value.start == p
                        && r.value.end == p + |Open(syn)| + |r.value.params| + |Close(syn)|
                        && r.value.end <= |s|
                        && MatchesWith(syn, s, p, r.value.params)
  {
    var open, close, stop := Open(syn), Close(syn), Stop(syn);
    if !OccursAt(s, open, p) then None
    else
      match IndexOfChar(s, stop, p + |open|)
      case None => None
      case Some(q) =>
        var params := s[p + |open|..q];
        if q > p + |open| && OccursAt(s, close, q) then
          assert s[p..q + |close|] == s[p..p + |open|] + params + s[q..q + |close|];
          Some(Match(p, q + |close|, params))
        else None
  }

  /**
   * `MatchAt` is the regular expression anchored at `p`: it reports a match
   * exactly when some captured group makes the pattern match there, and then
   * that group is the only one.
   */
  lemma MatchAtComplete(syn: Syntax, s: string, p: nat, params: string)
    ensures MatchesWith(syn, s, p, params) <==> (MatchAt(syn, s, p).Some? && MatchAt(syn, s, p).value.params == params)
  {
    if MatchesWith(syn, s, p, params) {
      MatchShape(syn, s, p, params);
      var q := p + |Open(syn)| + |params|;
      assert forall j :: p + |Open(syn)| <= j < q ==> s[j] == params[j - p - |Open(syn)|];
      assert IndexOfChar(s, Stop(syn), p + |Open(syn)|) == Some(q);
    }
  }

  /** `exec` with the global flag: the leftmost match starting at or after `from`. */
  function FindFrom(syn: Syntax, s: string, from: nat): (r: Option<Match>)
    ensures r.Some? ==> from <= r.value.start && MatchAt(syn, s, r.value.start) == r
                        && forall p :: from <= p < r.value.start ==> MatchAt(syn, s, p).None?
    ensures r.None? ==> forall p :: from <= p ==> MatchAt(syn, s, p).None?
    decreases |s| - from
  {
    if from > |s| then
      assert forall p :: from <= p ==> MatchAt(syn, s, p).None? by {
        forall p | from <= p ensures MatchAt(syn, s, p).None? {
          assert !OccursAt(s, Open(syn), p);
        }
      }
      None
    else
      match MatchAt(syn, s, from)
      case Some(m) => Some(m)
      case None =>
        var r := FindFrom(syn, s, from + 1);
        NoMatchBelow(syn, s, from, if r.Some? then r.value.start else |s| + 1);
        r
  }

  /** A position without a match extends a match-free range that starts just after it. */
  lemma NoMatchBelow(syn: Syntax, s: string, from: nat, hi: nat)
    requires MatchAt(syn, s, from).None?
    requires forall p :: from + 1 <= p < hi ==> MatchAt(syn, s, p).None?
    ensures forall p :: from <= p < hi ==> MatchAt(syn, s, p).None?
  {
  }
}
