/** Lines and paragraphs of a content, and the character range a line or paragraph range stands for. */
module Segments {
  import opened Hunks
  import opened Text

  datatype Unit = Character | Line | Paragraph

  /** `\r?\n` at `at`: its length, or zero. */
  function NewlineLength(s: Content, at: nat): (n: nat)
    ensures n > 0 ==> at + n <= |s| && s[at + n - 1] == 10
  {
    if at < |s| && s[at] == 10 then 1
    else if at + 1 < |s| && s[at] == 13 && s[at + 1] == 10 then 2
    else 0
  }

  /** The end of the run of spaces and tabs at `at`. */
  function SkipBlanks(s: Content, at: nat): (end: nat)
    requires at <= |s|
    ensures at <= end <= |s|
    decreases |s| - at
  {
    if at < |s| && (s[at] == 32 || s[at] == 9) then SkipBlanks(s, at + 1) else at
  }

  /** The end of the run of blank lines at `at`: `(?:[ \t]*\r?\n)*`, as long as it goes. */
  function SkipBlankLines(s: Content, at: nat): (end: nat)
    requires at <= |s|
    ensures at <= end <= |s|
    decreases |s| - at
  {
    var newline := SkipBlanks(s, at);
    if NewlineLength(s, newline) == 0 then at else SkipBlankLines(s, newline + NewlineLength(s, newline))
  }

  /** The length of the delimiter that starts at `at`, or zero; a paragraph delimiter needs at least one blank line. */
  function DelimiterLength(s: Content, unit: Unit, at: nat): (n: nat)
    requires at <= |s|
    ensures at + n <= |s|
  {
    var newline := NewlineLength(s, at);
    if unit.Line? || newline == 0 then newline
    else
      var end := SkipBlankLines(s, at + newline);
      if end == at + newline then 0 else end - at
  }

  /** No delimiter starts in `[from, to)`. */
  predicate IsUnbroken(s: Content, unit: Unit, from: nat, to: nat)
    requires to <= |s|
  {
    forall k | from <= k < to :: DelimiterLength(s, unit, k) == 0
  }

  /** The spans with the delimiters between them cover `s` from `from` on, and no span holds the start of a delimiter. */
  predicate IsTiling(s: Content, unit: Unit, from: nat, spans: seq<Range>)
    decreases |spans|
  {
    && spans != []
    && spans[0].start == from
    && from <= spans[0].end <= |s|
    && IsUnbroken(s, unit, from, spans[0].end)
    && if |spans| == 1 then spans[0].end == |s|
       else
         && DelimiterLength(s, unit, spans[0].end) > 0
         && IsTiling(s, unit, spans[0].end + DelimiterLength(s, unit, spans[0].end), spans[1..])
  }

  /** There is one way to cut a content. */
  lemma {:induction false} TilingIsUnique(s: Content, unit: Unit, from: nat, a: seq<Range>, b: seq<Range>)
    requires IsTiling(s, unit, from, a) && IsTiling(s, unit, from, b)
    ensures a == b
    decreases |a|
  {
    assert a[0].end == b[0].end;
    if |a| > 1 && |b| > 1 {
      TilingIsUnique(s, unit, a[0].end + DelimiterLength(s, unit, a[0].end), a[1..], b[1..]);
      assert a == [a[0]] + a[1..] && b == [b[0]] + b[1..];
    } else {
      DelimiterFits(s, unit, a[0].end);
    }
  }

  lemma DelimiterFits(s: Content, unit: Unit, at: nat)
    requires at <= |s|
    ensures DelimiterLength(s, unit, at) > 0 ==> at < |s|
  {
  }

  /** The spans from `start` on, when no delimiter starts before `at`. */
  function Cut(s: Content, unit: Unit, start: nat, at: nat): seq<Range>
    requires start <= at <= |s|
    decreases |s| - at
  {
    var length := DelimiterLength(s, unit, at);
    if at == |s| then [Range(start, at)]
    else if length == 0 then Cut(s, unit, start, at + 1)
    else [Range(start, at)] + Cut(s, unit, at + length, at + length)
  }

  /** Cutting at the leftmost delimiters tiles the content. */
  lemma {:induction false} CutTiles(s: Content, unit: Unit, start: nat, at: nat)
    requires start <= at <= |s| && IsUnbroken(s, unit, start, at)
    ensures IsTiling(s, unit, start, Cut(s, unit, start, at))
    decreases |s| - at
  {
    if at == |s| {
      LastSpanTiles(s, unit, start);
    } else if DelimiterLength(s, unit, at) == 0 {
      assert Cut(s, unit, start, at) == Cut(s, unit, start, at + 1);
      CutTiles(s, unit, start, at + 1);
    } else {
      var next := at + DelimiterLength(s, unit, at);
      assert Cut(s, unit, start, at) == [Range(start, at)] + Cut(s, unit, next, next);
      CutTiles(s, unit, next, next);
      TilingWithFirst(s, unit, start, at, Cut(s, unit, next, next));
    }
  }

  lemma LastSpanTiles(s: Content, unit: Unit, start: nat)
    requires start <= |s| && IsUnbroken(s, unit, start, |s|)
    ensures IsTiling(s, unit, start, [Range(start, |s|)])
  {
  }

  lemma TilingWithFirst(s: Content, unit: Unit, start: nat, end: nat, rest: seq<Range>)
    requires start <= end <= |s| && IsUnbroken(s, unit, start, end) && DelimiterLength(s, unit, end) > 0
    requires IsTiling(s, unit, end + DelimiterLength(s, unit, end), rest)
    ensures IsTiling(s, unit, start, [Range(start, end)] + rest)
  {
    assert ([Range(start, end)] + rest)[1..] == rest;
  }

  lemma CutGoesOn(s: Content, unit: Unit, spans: seq<Range>, start: nat, at: nat)
    requires start <= at < |s| && DelimiterLength(s, unit, at) > 0
    ensures var next := at + DelimiterLength(s, unit, at);
      spans + Cut(s, unit, start, at) == spans + [Range(start, at)] + Cut(s, unit, next, next)
  {
  }

  /** `segmentSpans`: the leftmost delimiters, one after the other. */
  method SegmentSpans(content: Content, unit: Unit) returns (spans: seq<Range>)
    requires !unit.Character?
    ensures spans == Cut(content, unit, 0, 0) && IsTiling(content, unit, 0, spans)
  {
    spans := [];
    var start, at := 0, 0;
    while at < |content|
      invariant 0 <= start <= at <= |content|
      invariant spans + Cut(content, unit, start, at) == Cut(content, unit, 0, 0)
    {
      var length := DelimiterLength(content, unit, at);
      if length == 0 {
        at := at + 1;
      } else {
        CutGoesOn(content, unit, spans, start, at);
        spans := spans + [Range(start, at)];
        start, at := at + length, at + length;
      }
    }
    spans := spans + [Range(start, |content|)];
    CutTiles(content, unit, 0, 0);
  }

  lemma {:induction false} SpansAscend(s: Content, unit: Unit, from: nat, spans: seq<Range>, i: nat, j: nat)
    requires IsTiling(s, unit, from, spans) && i <= j < |spans|
    ensures from <= spans[i].start <= spans[i].end <= |s|
    ensures i < j ==> spans[i].end < spans[j].start
    decreases |spans|
  {
    if |spans| > 1 && j > 0 {
      var next := spans[0].end + DelimiterLength(s, unit, spans[0].end);
      SpansAscend(s, unit, next, spans[1..], if i > 0 then i - 1 else 0, j - 1);
      SpansAscend(s, unit, next, spans[1..], j - 1, j - 1);
      assert spans[j] == spans[1..][j - 1] && (i > 0 ==> spans[i] == spans[1..][i - 1]);
    }
  }

  predicate IsSafeInteger(n: int) {
    -MAX_SAFE_INTEGER <= n <= MAX_SAFE_INTEGER
  }

  predicate IsProperRange(range: Range) {
    IsSafeInteger(range.start) && IsSafeInteger(range.end) && 0 <= range.start < range.end
  }

  /** From the start of the first named span to the end of the last; `None` is the range error. */
  function RangeOfSpans(range: Range, spans: seq<Range>): Option<Range> {
    if IsProperRange(range) && range.end <= |spans| then Some(Range(spans[range.start].start, spans[range.end - 1].end)) else None
  }

  /** What a range of characters, lines or paragraphs stands for. */
  function CharacterRange(content: Content, unit: Unit, range: Range): (resolved: Option<Range>)
    ensures resolved.Some? ==> IsWithin(resolved.value, content)
    ensures resolved.Some? && IsEmpty(resolved.value) ==> !unit.Character? && range.end == range.start + 1
  {
    if unit.Character? then
      if IsProperRange(range) && range.end <= |content| then Some(range) else None
    else
      var spans := Cut(content, unit, 0, 0);
      CutTiles(content, unit, 0, 0);
      if IsProperRange(range) && range.end <= |spans| then
        SpansAscend(content, unit, 0, spans, range.start, range.end - 1);
        SpansAscend(content, unit, 0, spans, range.end - 1, range.end - 1);
        RangeOfSpans(range, spans)
      else None
  }

  /** `resolveCharacterRange`: an empty range comes of a single empty line, and of nothing else. */
  method ResolveCharacterRange(content: Content, unit: Unit, range: Range) returns (resolved: Option<Range>)
    ensures resolved == CharacterRange(content, unit, range)
    ensures !unit.Character? ==>
        forall spans | IsTiling(content, unit, 0, spans) :: resolved == RangeOfSpans(range, spans)
    ensures resolved.Some? && IsEmpty(resolved.value) ==> !unit.Character? && range.end == range.start + 1
  {
    if !IsProperRange(range) { return None; }
    if unit.Character? {
      return if range.end > |content| then None else Some(range);
    }
    var spans := SegmentSpans(content, unit);
    forall other | IsTiling(content, unit, 0, other) ensures other == spans {
      TilingIsUnique(content, unit, 0, other, spans);
    }
    if range.end > |spans| { return None; }
    resolved := Some(Range(spans[range.start].start, spans[range.end - 1].end));
  }
}
