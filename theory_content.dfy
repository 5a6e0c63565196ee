/**
 * The lesson text parser of the progressive theory page: the text is cut
 * into sections at "\n---\n"; each section is scanned for `{{type:title|body}}`
 * blocks (abc, grandStaff, guitar, piano, flute) and `{{quiz:question|options|explanation}}`
 * blocks; the blocks are put in text order, and the non-blank text between
 * them becomes html blocks.
 *
 * The two regular expressions are written out as what they match at one
 * position, the way a backtracking engine settles them.
 */
module TheoryContent {
  import opened Wrappers
  import opened Text

  // ---------------------------------------------------------------------
  // Sections
  // ---------------------------------------------------------------------

  const SECTION_BREAK: string := "\n---\n"

  predicate NonEmpty(s: string) { s != "" }

  /** `splitIntoSections`: split at "\n---\n", trim every piece and drop the empty ones. */
  function SplitIntoSections(content: string): (sections: seq<string>)
    ensures |sections| <= |Split(content, SECTION_BREAK)|
    ensures forall s :: s in sections ==> s != ""
  {
    Filter(NonEmpty, Map(Trim, Split(content, SECTION_BREAK)))
  }

  /** Every section is non-empty and already trimmed. */
  lemma SectionsAreTrimmed(content: string)
    ensures forall k :: 0 <= k < |SplitIntoSections(content)| ==>
              var s := SplitIntoSections(content)[k];
              s != "" && Trim(s) == s && !IsBlank(s)
  {
    var pieces := Map(Trim, Split(content, SECTION_BREAK));
    forall k | 0 <= k < |SplitIntoSections(content)|
      ensures var s := SplitIntoSections(content)[k]; s != "" && Trim(s) == s && !IsBlank(s)
    {
      var s := SplitIntoSections(content)[k];
      assert s in SplitIntoSections(content);
      assert s in pieces;
      var i :| 0 <= i < |pieces| && pieces[i] == s;
      TrimIdempotent(Split(content, SECTION_BREAK)[i]);
      TrimRemovesOuterSpace(Split(content, SECTION_BREAK)[i]);
    }
  }

  /** A piece of the split becomes a section exactly when it is not blank. */
  lemma SectionsAreTheNonBlankPieces(content: string)
    ensures forall p :: p in Split(content, SECTION_BREAK) ==>
              (Trim(p) in SplitIntoSections(content) <==> !IsBlank(p))
  {
    var pieces := Map(Trim, Split(content, SECTION_BREAK));
    forall p | p in Split(content, SECTION_BREAK)
      ensures Trim(p) in SplitIntoSections(content) <==> !IsBlank(p)
    {
      var i :| 0 <= i < |Split(content, SECTION_BREAK)| && Split(content, SECTION_BREAK)[i] == p;
      assert pieces[i] == Trim(p);
      TrimRemovesOuterSpace(p);
      assert Trim(p) in pieces;
      assert Trim(p) in SplitIntoSections(content) <==> NonEmpty(Trim(p));
    }
  }

  // ---------------------------------------------------------------------
  // Blocks
  // ---------------------------------------------------------------------

  datatype Instrument = Guitar | Piano | Flute

  /** `ContentBlock`: one entry of a parsed section. */
  datatype Block =
    | Html(content: string)
    | Abc(title: string, content: string)
    | GrandStaff(title: string, content: string)
    | InstrumentBlock(instrument: Instrument, title: string, content: string, notes: seq<string>)
    | Quiz(question: string, options: seq<string>, correctIndex: nat, explanation: Option<string>)

  /** A quiz option marked as the right answer. */
  predicate Starred(option: string) { StartsWith(option, "*") }

  function StripStar(option: string): (r: string)
    ensures Starred(option) ==> option == "*" + r
    ensures !Starred(option) ==> r == option
  {
    if Starred(option) then option[1..] else option
  }

  /** `correctIndex`: the index of the last starred option, or 0 when none is starred. */
  function CorrectIndex(raw: seq<string>): (index: nat)
    ensures (exists i :: 0 <= i < |raw| && Starred(raw[i])) ==>
              index < |raw| && Starred(raw[index]) && forall j :: index < j < |raw| ==> !Starred(raw[j])
    ensures (forall i :: 0 <= i < |raw| ==> !Starred(raw[i])) ==> index == 0
  {
    if raw == [] then 0
    else if Starred(raw[|raw| - 1]) then |raw| - 1
    else
      var init := raw[..|raw| - 1];
      assert forall i :: 0 <= i < |init| ==> init[i] == raw[i];
      CorrectIndex(init)
  }

  /** The quiz block: options split at ';' and trimmed, the star taken off the marked ones. */
  function QuizBlock(question: string, optionsText: string, explanation: Option<string>): (b: Block)
    ensures b.Quiz? && b.question == question && b.explanation == explanation
    ensures var raw := Map(Trim, Split(optionsText, ";"));
            |b.options| == |raw| && b.correctIndex == CorrectIndex(raw)
            && forall i :: 0 <= i < |raw| ==> (if Starred(raw[i]) then raw[i] == "*" + b.options[i] else b.options[i] == raw[i])
  {
    var raw := Map(Trim, Split(optionsText, ";"));
    Quiz(question, Map(StripStar, raw), CorrectIndex(raw), explanation)
  }

  /** The block for a `{{type:title|body}}` match: instruments also get the body's comma-separated, trimmed notes. */
  function TypedBlock(blockType: string, title: string, body: string): (b: Block)
    ensures !b.Html? && !b.Quiz?
    ensures b.InstrumentBlock? ==> b.notes == Map(Trim, Split(body, ","))
  {
    if blockType == "guitar" then InstrumentBlock(Guitar, title, body, Map(Trim, Split(body, ",")))
    else if blockType == "piano" then InstrumentBlock(Piano, title, body, Map(Trim, Split(body, ",")))
    else if blockType == "flute" then InstrumentBlock(Flute, title, body, Map(Trim, Split(body, ",")))
    else if blockType == "grandStaff" then GrandStaff(title, body)
    else Abc(title, body)
  }

  // ---------------------------------------------------------------------
  // The two patterns at one position
  // ---------------------------------------------------------------------

  /** `MatchInfo`: where a match starts, how long it is and the block it stands for. */
  datatype MatchInfo = MatchInfo(index: nat, length: nat, block: Block)

  datatype Pattern = BlockPattern | QuizPattern

  const BLOCK_TYPES: seq<string> := ["abc", "grandStaff", "guitar", "piano", "flute"]

  /** The alternation `(abc|grandStaff|guitar|piano|flute):` at `i`, tried in order. */
  function BlockTypeAt(content: string, i: nat, k: nat): (t: Option<string>)
    requires k <= |BLOCK_TYPES|
    ensures t.Some? ==> t.value in BLOCK_TYPES && OccursAt(content, t.value + ":", i)
    ensures t.Some? ==> i < |content| && content[i] != 'q'
    decreases |BLOCK_TYPES| - k
  {
    if k == |BLOCK_TYPES| then None
    else if OccursAt(content, BLOCK_TYPES[k] + ":", i) then
      assert content[i] == (BLOCK_TYPES[k] + ":")[0] == BLOCK_TYPES[k][0];
      Some(BLOCK_TYPES[k])
    else BlockTypeAt(content, i, k + 1)
  }

  /** `s.indexOf(c, from)`: the first `c` at or after `from`, or -1. */
  function FindChar(s: string, c: char, from: nat): (j: int)
    ensures j == -1 || (from <= j < |s| && s[j] == c)
    ensures forall k :: from <= k < |s| && (j == -1 || k < j) ==> s[k] != c
    decreases |s| - from
  {
    if from >= |s| then -1 else if s[from] == c then from else FindChar(s, c, from + 1)
  }

  /** The two characters at `j` are both `c` ("{{" or "}}"). */
  predicate DoubleAt(s: string, c: char, j: int)
  {
    0 <= j && j + 1 < |s| && s[j] == c && s[j + 1] == c
  }

  /** The first `cc` at or after `from`, or -1. */
  function FindDouble(s: string, c: char, from: nat): (j: int)
    ensures j == -1 || (from <= j && DoubleAt(s, c, j))
    ensures forall k :: from <= k && (j == -1 || k < j) ==> !DoubleAt(s, c, k)
    decreases |s| - from
  {
    if from + 1 >= |s| then -1 else if DoubleAt(s, c, from) then from else FindDouble(s, c, from + 1)
  }

  /** The last `cc` starting in `[lo, hi)`, or -1. */
  function LastDouble(s: string, c: char, lo: nat, hi: nat): (j: int)
    ensures j == -1 || (lo <= j < hi && DoubleAt(s, c, j))
    ensures forall k :: lo <= k < hi && (j == -1 || j < k) ==> !DoubleAt(s, c, k)
    decreases hi
  {
    if hi <= lo then -1
    else if DoubleAt(s, c, hi - 1) then hi - 1
    else LastDouble(s, c, lo, hi - 1)
  }

  /**
   * `/\{\{(abc|grandStaff|guitar|piano|flute):([^|]+)\|([\s\S]+?)\}\}/` at `i`:
   * the title runs to the first '|' and is not empty; the lazy body ends at
   * the first "}}" at least one character after that '|'.
   */
  function BlockMatchAt(content: string, i: nat): (m: Option<MatchInfo>)
    ensures m.Some? ==> m.value.index == i && m.value.length >= 9 && i + m.value.length <= |content|
    ensures m.Some? ==> DoubleAt(content, '{', i) && DoubleAt(content, '}', i + m.value.length - 2)
    ensures m.Some? ==> content[i + 2] != 'q'
    ensures m.Some? ==> !m.value.block.Html? && !m.value.block.Quiz?
  {
    if !DoubleAt(content, '{', i) then None
    else
      match BlockTypeAt(content, i + 2, 0)
      case None => None
      case Some(t) =>
        var titleStart := i + 2 + |t| + 1;
        var bar := FindChar(content, '|', titleStart);
        if bar <= titleStart then None
        else
          var close := FindDouble(content, '}', bar + 2);
          if close < 0 then None
          else
            assert |t| >= 3;
            Some(MatchInfo(i, close + 2 - i, TypedBlock(t, Trim(content[titleStart..bar]), Trim(content[bar + 1..close]))))
  }

  /** The options group `([^|]+)` followed by `(?:\|([^}]+))?\}\}`: where the options end, where the match ends, and the explanation. */
  datatype QuizTail = QuizTail(optionsEnd: nat, matchEnd: nat, explanation: Option<string>)

  /**
   * The options run greedily to the next '|' (or the end of the text). With
   * a '|' there, an explanation of non-'}' characters closed by "}}"
   * completes the match; otherwise the engine gives options back until a
   * "}}" follows them, taking the last such place.
   */
  function QuizTailAt(content: string, optionsStart: nat): (t: Option<QuizTail>)
    ensures t.Some? ==> optionsStart < t.value.optionsEnd < t.value.matchEnd <= |content|
    ensures t.Some? ==> DoubleAt(content, '}', t.value.matchEnd - 2)
    ensures t.Some? && t.value.explanation.None? ==> t.value.matchEnd == t.value.optionsEnd + 2
  {
    var bar := FindChar(content, '|', optionsStart);
    var greedyEnd := if bar < 0 then |content| else bar;
    var close := if bar < 0 then -1 else FindChar(content, '}', bar + 1);
    if bar > optionsStart && close > bar + 1 && DoubleAt(content, '}', close) then
      Some(QuizTail(bar, close + 2, Some(Trim(content[bar + 1..close]))))
    else
      var back := LastDouble(content, '}', optionsStart + 1, greedyEnd);
      if back < 0 then None else Some(QuizTail(back, back + 2, None))
  }

  /** `/\{\{quiz:([^|]+)\|([^|]+)(?:\|([^}]+))?\}\}/` at `i`. */
  function QuizMatchAt(content: string, i: nat): (m: Option<MatchInfo>)
    ensures m.Some? ==> m.value.index == i && m.value.length >= 12 && i + m.value.length <= |content|
    ensures m.Some? ==> OccursAt(content, "{{quiz:", i)
    ensures m.Some? ==> content[i + 2] == 'q'
    ensures m.Some? ==> m.value.block.Quiz?
  {
    if !OccursAt(content, "{{quiz:", i) then None
    else
      assert content[i + 2] == content[i..i + 7][2] == 'q';
      var questionStart := i + 7;
      var bar := FindChar(content, '|', questionStart);
      if bar <= questionStart then None
      else
        match QuizTailAt(content, bar + 1)
        case None => None
        case Some(tail) =>
          var length := tail.matchEnd - i;
          var block := QuizBlock(Trim(content[questionStart..bar]), Trim(content[bar + 1..tail.optionsEnd]), tail.explanation);
          Some(MatchInfo(i, length, block))
  }

  function MatchAt(p: Pattern, content: string, i: nat): (m: Option<MatchInfo>)
    ensures m.Some? ==> m.value.index == i && m.value.length >= 1 && i + m.value.length <= |content|
    ensures m.Some? ==> !m.value.block.Html?
  {
    match p
    case BlockPattern => BlockMatchAt(content, i)
    case QuizPattern => QuizMatchAt(content, i)
  }

  /** No position starts both a typed block and a quiz: "{{quiz:" is not "{{" followed by a block type. */
  lemma PatternsStartApart(content: string, i: nat)
    ensures BlockMatchAt(content, i).None? || QuizMatchAt(content, i).None?
  {
  
  }

  // ---------------------------------------------------------------------
  // The `exec` loops
  // ---------------------------------------------------------------------

  /** A matcher for a pattern over a text of `size` characters: a match found at `i` starts at `i`, is not empty and fits. */
  ghost predicate Anchored(matcher: nat -> Option<MatchInfo>, size: nat)
  {
    forall i: nat :: matcher(i).Some? ==> matcher(i).value.index == i && matcher(i).value.length >= 1 && i + matcher(i).value.length <= size
  }

  /** The pattern's matcher over `content`. */
  function Matcher(p: Pattern, content: string): (matcher: nat -> Option<MatchInfo>)
    ensures Anchored(matcher, |content|)
  {
    (i: nat) => MatchAt(p, content, i)
  }

  /**
   * What the global `exec` loop collects from `from` on: the leftmost match,
   * then the search resumes where it ended.
   */
  function Scan(matcher: nat -> Option<MatchInfo>, size: nat, from: nat): (ms: seq<MatchInfo>)
    requires Anchored(matcher, size)
    ensures forall k :: 0 <= k < |ms| ==> from <= ms[k].index && matcher(ms[k].index) == Some(ms[k])
    ensures forall k :: 0 <= k < |ms| - 1 ==> ms[k].index + ms[k].length <= ms[k + 1].index
    decreases size - from
  {
    if from >= size then []
    else
      match matcher(from)
      case Some(m) => [m] + Scan(matcher, size, from + m.length)
      case None => Scan(matcher, size, from + 1)
  }

  /** Position `j` lies inside one of the matches `ms`. */
  ghost predicate Covered(ms: seq<MatchInfo>, j: nat)
  {
    exists k :: 0 <= k < |ms| && ms[k].index <= j < ms[k].index + ms[k].length
  }

  lemma CoveredCons(m: MatchInfo, rest: seq<MatchInfo>, j: nat)
    requires Covered(rest, j)
    ensures Covered([m] + rest, j)
  {
    var k :| 0 <= k < |rest| && rest[k].index <= j < rest[k].index + rest[k].length;
    assert ([m] + rest)[k + 1] == rest[k];
  }

  /** Nothing is missed: every place the pattern matches starts a collected match or lies inside one. */
  lemma {:induction false} ScanIsLeftmost(matcher: nat -> Option<MatchInfo>, size: nat, from: nat, j: nat)
    requires Anchored(matcher, size)
    requires from <= j && matcher(j).Some?
    ensures Covered(Scan(matcher, size, from), j)
    decreases size - from
  {
    match matcher(from)
    case Some(m) =>
      var rest := Scan(matcher, size, from + m.length);
      assert Scan(matcher, size, from) == [m] + rest;
      if j < from + m.length {
        assert ([m] + rest)[0] == m;
      } else {
        ScanIsLeftmost(matcher, size, from + m.length, j);
        CoveredCons(m, rest, j);
      }
    case None =>
      ScanIsLeftmost(matcher, size, from + 1, j);
  }

  /** The matches of a pattern in a section, in text order. */
  function Matches(p: Pattern, content: string): (ms: seq<MatchInfo>)
  {
    Scan(Matcher(p, content), |content|, 0)
  }

  /** `while ((match = pattern.exec(content)) !== null) allMatches.push(...)` */
  method ScanMatches(matcher: nat -> Option<MatchInfo>, size: nat) returns (ms: seq<MatchInfo>)
    requires Anchored(matcher, size)
    ensures ms == Scan(matcher, size, 0)
  {
    ms := [];
    var lastIndex := 0;
    while lastIndex < size
      invariant ms + Scan(matcher, size, lastIndex) == Scan(matcher, size, 0)
      decreases size - lastIndex
    {
      var m := matcher(lastIndex);
      if m.Some? {
        ms := ms + [m.value];
        lastIndex := lastIndex + m.value.length;
      } else {
        lastIndex := lastIndex + 1;
      }
    }
  }

  // ---------------------------------------------------------------------
  // Sorting by index
  // ---------------------------------------------------------------------

  predicate SortedByIndex(ms: seq<MatchInfo>)
  {
    forall i, j :: 0 <= i < j < |ms| ==> ms[i].index <= ms[j].index
  }

  predicate StrictlyByIndex(ms: seq<MatchInfo>)
  {
    forall i, j :: 0 <= i < j < |ms| ==> ms[i].index < ms[j].index
  }

  /**
   * `allMatches.sort((a, b) => a.index - b.index)` on the block matches
   * followed by the quiz matches: a stable merge of the two lists.
   */
  function MergeByIndex(a: seq<MatchInfo>, b: seq<MatchInfo>): (r: seq<MatchInfo>)
    ensures multiset(r) == multiset(a) + multiset(b)
    decreases |a| + |b|
  {
    if a == [] then b
    else if b == [] then a
    else if a[0].index <= b[0].index then
      assert a == [a[0]] + a[1..];
      [a[0]] + MergeByIndex(a[1..], b)
    else
      assert b == [b[0]] + b[1..];
      [b[0]] + MergeByIndex(a, b[1..])
  }

  /** Every element of the merge has an index at least `bound` when every element of both lists has. */
  lemma MergeIndexAbove(a: seq<MatchInfo>, b: seq<MatchInfo>, bound: int)
    requires forall x :: x in a ==> bound <= x.index
    requires forall x :: x in b ==> bound <= x.index
    ensures forall x :: x in MergeByIndex(a, b) ==> bound <= x.index
  {
    forall x | x in MergeByIndex(a, b) ensures bound <= x.index {
      assert x in multiset(MergeByIndex(a, b));
      assert x in multiset(a) || x in multiset(b);
    }
  }

  /** No index of `a` is an index of `b`. */
  predicate DisjointIndices(a: seq<MatchInfo>, b: seq<MatchInfo>)
  {
    forall i, j :: 0 <= i < |a| && 0 <= j < |b| ==> a[i].index != b[j].index
  }

  /** Dropping the first element keeps a list strictly rising and disjoint from another. */
  lemma DropFirst(a: seq<MatchInfo>, b: seq<MatchInfo>)
    requires a != [] && StrictlyByIndex(a) && DisjointIndices(a, b)
    ensures StrictlyByIndex(a[1..]) && DisjointIndices(a[1..], b) && DisjointIndices(b, a[1..])
    ensures forall x :: x in a[1..] ==> a[0].index < x.index
  {
    forall x | x in a[1..] ensures a[0].index < x.index {
      var i :| 0 <= i < |a[1..]| && a[1..][i] == x;
      assert a[i + 1] == x;
    }
  }

  /** A strictly rising list whose first index is above `bound` has every index above it. */
  lemma AboveFirst(b: seq<MatchInfo>, bound: int)
    requires b != [] && StrictlyByIndex(b) && bound < b[0].index
    ensures forall x :: x in b ==> bound < x.index
  {
    forall x | x in b ensures bound < x.index {
      var j :| 0 <= j < |b| && b[j] == x;
      if j > 0 { assert b[0].index < b[j].index; }
    }
  }

  /** An element below every element of a strictly rising list can go in front of it. */
  lemma StrictlyCons(first: MatchInfo, rest: seq<MatchInfo>)
    requires StrictlyByIndex(rest) && forall x :: x in rest ==> first.index < x.index
    ensures StrictlyByIndex([first] + rest)
  {
    var r := [first] + rest;
    forall i, j | 0 <= i < j < |r| ensures r[i].index < r[j].index {
      assert r[j] == rest[j - 1] && rest[j - 1] in rest;
      if i > 0 { assert r[i] == rest[i - 1]; }
    }
  }

  /** Merging two lists that have no index in common, each in rising index order, gives a list in rising index order. */
  lemma {:induction false} MergeStrictly(a: seq<MatchInfo>, b: seq<MatchInfo>)
    requires StrictlyByIndex(a) && StrictlyByIndex(b) && DisjointIndices(a, b)
    ensures StrictlyByIndex(MergeByIndex(a, b))
    decreases |a| + |b|
  {
    if a != [] && b != [] {
      if a[0].index <= b[0].index {
        DropFirst(a, b);
        MergeStrictly(a[1..], b);
        assert a[0].index < b[0].index;
        AboveFirst(b, a[0].index);
        MergeIndexAbove(a[1..], b, a[0].index + 1);
        StrictlyCons(a[0], MergeByIndex(a[1..], b));
      } else {
        assert DisjointIndices(b, a);
        DropFirst(b, a);
        MergeStrictly(a, b[1..]);
        AboveFirst(a, b[0].index);
        MergeIndexAbove(a, b[1..], b[0].index + 1);
        StrictlyCons(b[0], MergeByIndex(a, b[1..]));
      }
    }
  }

  /** A list in index order and a list in strictly rising index order with the same elements start with the same element. */
  lemma SameHead(a: seq<MatchInfo>, b: seq<MatchInfo>)
    requires SortedByIndex(a) && StrictlyByIndex(b) && multiset(a) == multiset(b) && a != []
    ensures b != [] && a[0] == b[0]
  {
    assert a[0] in multiset(b);
    var i :| 0 <= i < |b| && b[i] == a[0];
    assert b[0] in multiset(a);
    var j :| 0 <= j < |a| && a[j] == b[0];
    assert i == 0;
  }

  /** Removing one shared first element keeps two multisets equal. */
  lemma SameTail(a: seq<MatchInfo>, b: seq<MatchInfo>)
    requires a != [] && b != [] && a[0] == b[0] && multiset(a) == multiset(b)
    ensures multiset(a[1..]) == multiset(b[1..])
  {
    assert a == [a[0]] + a[1..];
    assert b == [b[0]] + b[1..];
    assert multiset(a) == multiset{a[0]} + multiset(a[1..]);
    assert multiset(b) == multiset{b[0]} + multiset(b[1..]);
    assert multiset(a[1..]) == multiset(a) - multiset{a[0]};
    assert multiset(b[1..]) == multiset(b) - multiset{b[0]};
  }

  /**
   * A list in strictly rising index order is fixed by its elements: any
   * ordering of the same elements by index is that list.
   */
  lemma {:induction false} OrderedByIndexIsUnique(a: seq<MatchInfo>, b: seq<MatchInfo>)
    requires SortedByIndex(a) && StrictlyByIndex(b) && multiset(a) == multiset(b)
    ensures a == b
    decreases |a|
  {
    if a == [] {
      assert |b| == |multiset(b)| == 0;
    } else {
      SameHead(a, b);
      SameTail(a, b);
      OrderedByIndexIsUnique(a[1..], b[1..]);
      assert a == [a[0]] + a[1..];
      assert b == [b[0]] + b[1..];
    }
  }

  // ---------------------------------------------------------------------
  // The sorted list of matches
  // ---------------------------------------------------------------------

  /** Indices that rise from each element to the next rise across the whole list. */
  lemma {:induction false} ChainRises(ms: seq<MatchInfo>, i: nat, j: nat)
    requires forall k :: 0 <= k < |ms| - 1 ==> ms[k].index < ms[k + 1].index
    requires i < j < |ms|
    ensures ms[i].index < ms[j].index
    decreases j - i
  {
    if i + 1 < j {
      ChainRises(ms, i + 1, j);
    }
  }

  /** The matches one scan collects rise strictly in index. */
  lemma ScanStrictly(matcher: nat -> Option<MatchInfo>, size: nat, from: nat)
    requires Anchored(matcher, size)
    ensures StrictlyByIndex(Scan(matcher, size, from))
  {
    var ms := Scan(matcher, size, from);
    forall k | 0 <= k < |ms| - 1 ensures ms[k].index < ms[k + 1].index {
      assert matcher(ms[k].index) == Some(ms[k]);
    }
    forall i, j | 0 <= i < j < |ms| ensures ms[i].index < ms[j].index {
      ChainRises(ms, i, j);
    }
  }

  /** No block match and no quiz match of a section start at the same place. */
  lemma MatchesStartApart(content: string)
    ensures forall i, j :: 0 <= i < |Matches(BlockPattern, content)| && 0 <= j < |Matches(QuizPattern, content)| ==>
              Matches(BlockPattern, content)[i].index != Matches(QuizPattern, content)[j].index
  {
    var a := Matches(BlockPattern, content);
    var b := Matches(QuizPattern, content);
    forall i, j | 0 <= i < |a| && 0 <= j < |b| ensures a[i].index != b[j].index {
      assert Matcher(BlockPattern, content)(a[i].index) == Some(a[i]);
      assert Matcher(QuizPattern, content)(b[j].index) == Some(b[j]);
      PatternsStartApart(content, a[i].index);
    }
  }

  /** `allMatches` after the sort: block matches and quiz matches merged by index. */
  function SortedMatches(content: string): (ms: seq<MatchInfo>)
  {
    MergeByIndex(Matches(BlockPattern, content), Matches(QuizPattern, content))
  }

  /**
   * The sort has a single possible outcome: every ordering by index of the
   * block matches and quiz matches together is the merge, whatever the
   * sorting algorithm does with ties, and it rises strictly in index.
   */
  lemma SortIsMerge(content: string, s: seq<MatchInfo>)
    requires SortedByIndex(s)
    requires multiset(s) == multiset(Matches(BlockPattern, content) + Matches(QuizPattern, content))
    ensures s == SortedMatches(content) && StrictlyByIndex(s)
  {
    var a := Matches(BlockPattern, content);
    var b := Matches(QuizPattern, content);
    ScanStrictly(Matcher(BlockPattern, content), |content|, 0);
    ScanStrictly(Matcher(QuizPattern, content), |content|, 0);
    MatchesStartApart(content);
    MergeStrictly(a, b);
    OrderedByIndexIsUnique(s, MergeByIndex(a, b));
  }

  /** A block match yields an abc, grand-staff or instrument block. */
  lemma BlockMatchKinds(content: string)
    ensures forall m :: m in Matches(BlockPattern, content) ==> !m.block.Html? && !m.block.Quiz?
  {
    var a := Matches(BlockPattern, content);
    forall m | m in a ensures !m.block.Html? && !m.block.Quiz? {
      var k :| 0 <= k < |a| && a[k] == m;
      assert Matcher(BlockPattern, content)(m.index) == Some(m);
    }
  }

  /** A quiz match yields a quiz block. */
  lemma QuizMatchKinds(content: string)
    ensures forall m :: m in Matches(QuizPattern, content) ==> m.block.Quiz?
  {
    var b := Matches(QuizPattern, content);
    forall m | m in b ensures m.block.Quiz? {
      var k :| 0 <= k < |b| && b[k] == m;
      assert Matcher(QuizPattern, content)(m.index) == Some(m);
    }
  }

  /** No match yields an html block. */
  lemma SortedMatchKinds(content: string)
    ensures forall m :: m in SortedMatches(content) ==> !m.block.Html?
  {
    BlockMatchKinds(content);
    QuizMatchKinds(content);
    forall m | m in SortedMatches(content) ensures !m.block.Html? {
      assert m in multiset(SortedMatches(content));
    }
  }

  // ---------------------------------------------------------------------
  // Assembling the blocks of a section
  // ---------------------------------------------------------------------

  /** `content.slice(from, to)`: both ends clamped to the text. */
  function Slice(s: string, from: nat, to: nat): (r: string)
    ensures |r| <= |s|
  {
    var f := if from < |s| then from else |s|;
    var t := if to < |s| then to else |s|;
    if f < t then s[f..t] else ""
  }

  /** The html block for a stretch of text outside the matches; dropped when `text.trim()` is empty. */
  function HtmlPiece(text: string): (bs: seq<Block>)
  {
    if Trim(text) != "" then [Html(text)] else []
  }

  /** The html block, if any, for the text between the cursor `lastIndex` and the match `m`. */
  function Gap(content: string, lastIndex: nat, m: MatchInfo): (bs: seq<Block>)
  {
    if m.index > lastIndex then HtmlPiece(Slice(content, lastIndex, m.index)) else []
  }

  /** The html block, if any, for the text after the cursor `lastIndex`. */
  function Tail(content: string, lastIndex: nat): (bs: seq<Block>)
  {
    if lastIndex < |content| then HtmlPiece(content[lastIndex..]) else []
  }

  /**
   * The `for (const matchInfo of allMatches)` loop and the tail after it,
   * from the match list `ms` on with the cursor at `lastIndex`.
   */
  function Assemble(content: string, ms: seq<MatchInfo>, lastIndex: nat): (bs: seq<Block>)
    decreases |ms|
  {
    if ms == [] then Tail(content, lastIndex)
    else Gap(content, lastIndex, ms[0]) + [ms[0].block] + Assemble(content, ms[1..], ms[0].index + ms[0].length)
  }

  /** The blocks `parseSectionContent` returns for a section. */
  function SectionBlocks(content: string): (bs: seq<Block>)
    ensures HtmlNotBlank(bs)
  {
    SortedMatchKinds(content);
    AssembleHtmlNotBlank(content, SortedMatches(content), 0);
    Assemble(content, SortedMatches(content), 0)
  }

  /** The loop over the sorted matches, emitting the html between them and each match's block. */
  method AssembleBlocks(content: string, ms: seq<MatchInfo>) returns (blocks: seq<Block>)
    ensures blocks == Assemble(content, ms, 0)
  {
    blocks := [];
    var lastIndex: nat := 0;
    for k := 0 to |ms|
      invariant blocks + Assemble(content, ms[k..], lastIndex) == Assemble(content, ms, 0)
    {
      var m := ms[k];
      AssembleStep(content, ms, k, lastIndex, blocks);
      blocks := PushGap(blocks, content, lastIndex, m);
      blocks := blocks + [m.block];
      lastIndex := m.index + m.length;
    }
    assert ms[|ms|..] == [];
    blocks := PushTail(blocks, content, lastIndex);
  }

  /** One turn of the assembly loop: the match's gap and block move from the rest to the blocks so far. */
  lemma AssembleStep(content: string, ms: seq<MatchInfo>, k: nat, lastIndex: nat, before: seq<Block>)
    requires k < |ms|
    ensures before + Assemble(content, ms[k..], lastIndex)
         == before + Gap(content, lastIndex, ms[k]) + [ms[k].block] + Assemble(content, ms[k + 1..], ms[k].index + ms[k].length)
  {
    var gap := Gap(content, lastIndex, ms[k]);
    var rest := Assemble(content, ms[k + 1..], ms[k].index + ms[k].length);
    assert Assemble(content, ms[k..], lastIndex) == gap + [ms[k].block] + rest by {
      assert ms[k..][1..] == ms[k + 1..];
    }
    Regroup(before, gap, [ms[k].block], rest);
  }

  lemma Regroup<T>(a: seq<T>, b: seq<T>, c: seq<T>, d: seq<T>)
    ensures a + (b + c + d) == a + b + c + d
  {
  }

  /** The html block for the text between the cursor and the match, pushed when it is not blank. */
  method PushGap(blocks: seq<Block>, content: string, lastIndex: nat, m: MatchInfo) returns (r: seq<Block>)
    ensures r == blocks + Gap(content, lastIndex, m)
  {
    r := blocks;
    if m.index > lastIndex {
      var htmlContent := Slice(content, lastIndex, m.index);
      if Trim(htmlContent) != "" {
        r := r + [Html(htmlContent)];
      }
    }
  }

  /** The html block for the text after the last match, pushed when it is not blank. */
  method PushTail(blocks: seq<Block>, content: string, lastIndex: nat) returns (r: seq<Block>)
    ensures r == blocks + Tail(content, lastIndex)
  {
    r := blocks;
    if lastIndex < |content| {
      var htmlContent := content[lastIndex..];
      if Trim(htmlContent) != "" {
        r := r + [Html(htmlContent)];
      }
    }
  }

  /**
   * `parseSectionContent`: collect the block matches, then the quiz matches,
   * sort them by index and assemble the blocks.
   */
  method ParseSectionContent(content: string) returns (blocks: seq<Block>)
    ensures blocks == SectionBlocks(content)
  {
    var blockMatches := ScanMatches(Matcher(BlockPattern, content), |content|);
    var quizMatches := ScanMatches(Matcher(QuizPattern, content), |content|);
    var allMatches := MergeByIndex(blockMatches, quizMatches);
    blocks := AssembleBlocks(content, allMatches);
  }

  /** `sectionHasQuiz`: some block is a quiz. */
  predicate SectionHasQuiz(blocks: seq<Block>)
  {
    exists k :: 0 <= k < |blocks| && blocks[k].Quiz?
  }

  predicate IsMatchedBlock(b: Block)
  {
    !b.Html?
  }

  /** The blocks of the matches `ms`, in order. */
  function BlocksOf(ms: seq<MatchInfo>): (bs: seq<Block>)
    ensures |bs| == |ms| && forall k :: 0 <= k < |ms| ==> bs[k] == ms[k].block
  {
    if ms == [] then [] else [ms[0].block] + BlocksOf(ms[1..])
  }

  /** A section without any match is one html block of its whole text, or nothing when it is blank. */
  lemma AssembleWithoutMatches(content: string)
    ensures Assemble(content, [], 0) == if IsBlank(content) then [] else [Html(content)]
  {
    TrimRemovesOuterSpace(content);
    assert content[0..] == content;
  }

  /** Leaving out the html blocks gives back the matches' blocks, in the order of the matches. */
  lemma {:induction false} AssembleKeepsMatchBlocks(content: string, ms: seq<MatchInfo>, lastIndex: nat)
    requires forall m :: m in ms ==> !m.block.Html?
    ensures Filter(IsMatchedBlock, Assemble(content, ms, lastIndex)) == BlocksOf(ms)
    decreases |ms|
  {
    if ms != [] {
      var m := ms[0];
      AssembleKeepsMatchBlocks(content, ms[1..], m.index + m.length);
      AssembleUnfold(content, ms, lastIndex);
      assert !m.block.Html? by {
        assert m in ms;
      }
      GapIsHtml(content, lastIndex, m);
      FilterAroundMatch(Gap(content, lastIndex, m), m.block, Assemble(content, ms[1..], m.index + m.length));
    } else {
      TailIsHtml(content, lastIndex);
      NoMatchedBlock(Tail(content, lastIndex));
    }
  }

  lemma GapIsHtml(content: string, lastIndex: nat, m: MatchInfo)
    ensures forall b :: b in Gap(content, lastIndex, m) ==> b.Html?
  {
  }

  lemma TailIsHtml(content: string, lastIndex: nat)
    ensures forall b :: b in Tail(content, lastIndex) ==> b.Html?
  {
  }

  /** A list of html blocks only has no matched block. */
  lemma {:induction false} NoMatchedBlock(bs: seq<Block>)
    requires forall b :: b in bs ==> b.Html?
    ensures Filter(IsMatchedBlock, bs) == []
  {
    if bs != [] {
      assert bs[0] in bs;
      NoMatchedBlock(bs[1..]);
    }
  }

  /** Around a matched block, only that block survives from the html before it. */
  lemma FilterAroundMatch(gap: seq<Block>, block: Block, rest: seq<Block>)
    requires forall b :: b in gap ==> b.Html?
    requires !block.Html?
    ensures Filter(IsMatchedBlock, gap + [block] + rest) == [block] + Filter(IsMatchedBlock, rest)
  {
    var front := gap + [block];
    FilterAppend(IsMatchedBlock, front, rest);
    FilterAppend(IsMatchedBlock, gap, [block]);
    NoMatchedBlock(gap);
    assert Filter(IsMatchedBlock, [block]) == [block];
    assert Filter(IsMatchedBlock, front) == [block];
  }

  /** Every html block among `bs` holds text that is not blank. */
  predicate HtmlNotBlank(bs: seq<Block>)
  {
    forall b :: b in bs && b.Html? ==> !IsBlank(b.content)
  }

  lemma HtmlNotBlankJoin(gap: seq<Block>, block: Block, rest: seq<Block>)
    requires HtmlNotBlank(gap) && !block.Html? && HtmlNotBlank(rest)
    ensures HtmlNotBlank(gap + [block] + rest)
  {
    forall b | b in gap + [block] + rest && b.Html? ensures !IsBlank(b.content) {
      assert b in gap || b in rest;
    }
  }

  lemma {:induction false} AssembleHtmlNotBlank(content: string, ms: seq<MatchInfo>, lastIndex: nat)
    requires forall m :: m in ms ==> !m.block.Html?
    ensures HtmlNotBlank(Assemble(content, ms, lastIndex))
    decreases |ms|
  {
    if ms != [] {
      var m := ms[0];
      AssembleHtmlNotBlank(content, ms[1..], m.index + m.length);
      AssembleUnfold(content, ms, lastIndex);
      assert !m.block.Html? by {
        assert m in ms;
      }
      GapNotBlank(content, lastIndex, m);
      HtmlNotBlankJoin(Gap(content, lastIndex, m), m.block, Assemble(content, ms[1..], m.index + m.length));
    } else {
      TailNotBlank(content, lastIndex);
    }
  }

  lemma GapNotBlank(content: string, lastIndex: nat, m: MatchInfo)
    ensures HtmlNotBlank(Gap(content, lastIndex, m))
  {
    if m.index > lastIndex {
      HtmlPieceNotBlank(Slice(content, lastIndex, m.index));
    }
  }

  lemma TailNotBlank(content: string, lastIndex: nat)
    ensures HtmlNotBlank(Tail(content, lastIndex))
  {
    if lastIndex < |content| {
      HtmlPieceNotBlank(content[lastIndex..]);
    }
  }

  /** The assembly from a non-empty match list: the gap before the first match, its block, then the rest. */
  lemma AssembleUnfold(content: string, ms: seq<MatchInfo>, lastIndex: nat)
    requires ms != []
    ensures Assemble(content, ms, lastIndex)
            == Gap(content, lastIndex, ms[0]) + [ms[0].block] + Assemble(content, ms[1..], ms[0].index + ms[0].length)
  {
  }

  /** The html piece of a text, when there is one, is that text and it is not blank. */
  lemma HtmlPieceNotBlank(text: string)
    ensures HtmlNotBlank(HtmlPiece(text))
  {
    TrimRemovesOuterSpace(text);
  }

  /**
   * The blocks of a section: without the html blocks they are the matches'
   * blocks in text order, and every html block is non-blank text.
   */
  lemma SectionBlocksFollowMatches(content: string)
    ensures Filter(IsMatchedBlock, SectionBlocks(content)) == BlocksOf(SortedMatches(content))
    ensures forall b :: b in SectionBlocks(content) && b.Html? ==> !IsBlank(b.content)
  {
    SortedMatchKinds(content);
    AssembleKeepsMatchBlocks(content, SortedMatches(content), 0);
    AssembleHtmlNotBlank(content, SortedMatches(content), 0);
  }

  /** Some match in `ms` carries a quiz block. */
  predicate HasQuizMatch(ms: seq<MatchInfo>)
  {
    exists i :: 0 <= i < |ms| && ms[i].block.Quiz?
  }

  /** Blocks whose matched blocks are those of `ms` hold a quiz exactly when `ms` does. */
  lemma QuizSurvivesFilter(bs: seq<Block>, ms: seq<MatchInfo>)
    requires Filter(IsMatchedBlock, bs) == BlocksOf(ms)
    ensures SectionHasQuiz(bs) <==> HasQuizMatch(ms)
  {
    if SectionHasQuiz(bs) {
      var k :| 0 <= k < |bs| && bs[k].Quiz?;
      assert bs[k] in Filter(IsMatchedBlock, bs);
      var i :| 0 <= i < |ms| && BlocksOf(ms)[i] == bs[k];
    }
    if HasQuizMatch(ms) {
      var i :| 0 <= i < |ms| && ms[i].block.Quiz?;
      assert BlocksOf(ms)[i] in Filter(IsMatchedBlock, bs);
      var k :| 0 <= k < |bs| && bs[k] == ms[i].block;
    }
  }

  /** A reordering of non-quiz matches `a` and quiz matches `b` has a quiz match exactly when `b` is not empty. */
  lemma QuizInReordering(s: seq<MatchInfo>, a: seq<MatchInfo>, b: seq<MatchInfo>)
    requires multiset(s) == multiset(a) + multiset(b)
    requires forall m :: m in a ==> !m.block.Quiz?
    requires forall m :: m in b ==> m.block.Quiz?
    ensures HasQuizMatch(s) <==> b != []
  {
    if HasQuizMatch(s) {
      var i :| 0 <= i < |s| && s[i].block.Quiz?;
      assert s[i] in multiset(s);
      assert s[i] !in a;
    }
    if b != [] {
      assert b[0] in multiset(s);
      var i :| 0 <= i < |s| && s[i] == b[0];
    }
  }

  /** A section has a quiz block exactly when the quiz pattern matches somewhere in it. */
  lemma SectionHasQuizIffQuizMatch(content: string)
    ensures SectionHasQuiz(SectionBlocks(content)) <==> Matches(QuizPattern, content) != []
  {
    SectionBlocksFollowMatches(content);
    QuizSurvivesFilter(SectionBlocks(content), SortedMatches(content));
    BlockMatchKinds(content);
    QuizMatchKinds(content);
    QuizInReordering(SortedMatches(content), Matches(BlockPattern, content), Matches(QuizPattern, content));
  }

  // ---------------------------------------------------------------------
  // Markdown tables
  // ---------------------------------------------------------------------

  datatype Align = Left | Center | Right

  function AlignName(a: Align): string
  {
    match a
    case Left => "left"
    case Center => "center"
    case Right => "right"
  }

  /** `(c) => c.trim()` used as a filter: the cell has some non-space text. */
  predicate FilledCell(c: string)
  {
    Trim(c) != ""
  }

  /** `line.split('|').filter((c) => c.trim()).map((c) => c.trim())` */
  function Cells(line: string): (cells: seq<string>)
  {
    Map(Trim, Filter(FilledCell, Split(line, "|")))
  }

  /** The alignment a trimmed separator cell asks for: `:-:` centre, `-:` right, anything else left. */
  function AlignOf(cell: string): (a: Align)
  {
    if StartsWith(cell, ":") && EndsWith(cell, ":") then Center
    else if EndsWith(cell, ":") then Right
    else Left
  }

  /** `separatorCells[i] || 'left'` */
  function AlignAt(aligns: seq<Align>, i: nat): (a: Align)
  {
    if i < |aligns| then aligns[i] else Left
  }

  /** A table as read from its markdown: header cells, column alignments and the cells of each data line. */
  datatype Table = Table(header: seq<string>, aligns: seq<Align>, rows: seq<seq<string>>)

  /** The trimmed text has a second line, and that line holds "---": the shape of a table. */
  predicate HasSeparatorLine(tableText: string)
  {
    var lines := Split(Trim(tableText), "\n");
    |lines| >= 2 && Contains(lines[1], "---")
  }

  /** The table in `tableText`, or None when it has fewer than two lines or its second line has no "---". */
  function ReadTable(tableText: string): (t: Option<Table>)
    ensures t.None? <==> !HasSeparatorLine(tableText)
    ensures '\n' !in Trim(tableText) ==> t.None?
    ensures t.Some? ==> forall c :: c in t.value.header ==> c != "" && Trim(c) == c && '|' !in c
  {
    var lines := Split(Trim(tableText), "\n");
    if |lines| < 2 || !Contains(lines[1], "---") then None
    else
      SplitFindsSeparator(Trim(tableText), "\n");
      CellsAreClean(lines[0]);
      Some(Table(Cells(lines[0]), Map(AlignOf, Cells(lines[1])), Map(Cells, lines[2..])))
  }

  function CellHtml(tag: string, align: Align, text: string): string
  {
    "<" + tag + " style=\"text-align: " + AlignName(align) + "\">" + text + "</" + tag + ">"
  }

  /** The cells of one row, each aligned as its column asks, joined with no separator. */
  function RowHtml(tag: string, aligns: seq<Align>, cells: seq<string>): string
  {
    Concat(seq(|cells|, i requires 0 <= i < |cells| => CellHtml(tag, AlignAt(aligns, i), cells[i])))
  }

  function DataRowHtml(aligns: seq<Align>, cells: seq<string>): string
  {
    "<tr>" + RowHtml("td", aligns, cells) + "</tr>"
  }

  /** The html the table becomes; the header's `<thead>` is wrapped in a second `<thead>`, as the source writes it. */
  function RenderTable(t: Table): string
  {
    var thead := "<thead><tr>" + RowHtml("th", t.aligns, t.header) + "</tr></thead>";
    var tbody := Concat(Map((cells: seq<string>) => DataRowHtml(t.aligns, cells), t.rows));
    "<table><thead>" + thead + "</thead><tbody>" + tbody + "</tbody></table>"
  }

  /** `parseMarkdownTable` */
  function ParseMarkdownTable(tableText: string): (html: string)
    ensures !HasSeparatorLine(tableText) ==> html == tableText
    ensures '\n' !in Trim(tableText) ==> html == tableText
  {
    match ReadTable(tableText)
    case None => tableText
    case Some(t) => RenderTable(t)
  }

  /** The characters of `Trim(s)` are characters of `s`. */
  lemma TrimKeepsChars(s: string, c: char)
    requires c in Trim(s)
    ensures c in s
  {
    TrimStartRemovesLeadingSpace(s);
    TrimEndRemovesTrailingSpace(TrimStart(s));
    var t := TrimStart(s);
    var i :| 0 <= i < |Trim(s)| && Trim(s)[i] == c;
    assert t[i] == c;
    assert s[|s| - |t| + i] == c;
  }

  /** Every cell of a line is non-empty, has no space at either end and contains no '|'. */
  lemma CellsAreClean(line: string)
    ensures forall c :: c in Cells(line) ==> c != "" && Trim(c) == c && '|' !in c
  {
    var pieces := Split(line, "|");
    SplitPartsAvoidSeparator(line, "|");
    forall c | c in Cells(line) ensures c != "" && Trim(c) == c && '|' !in c {
      var k :| 0 <= k < |Cells(line)| && Cells(line)[k] == c;
      var p := Filter(FilledCell, pieces)[k];
      assert p in pieces;
      var j :| 0 <= j < |pieces| && pieces[j] == p;
      TrimIdempotent(p);
      assert !Contains(p, "|");
      forall x | 0 <= x < |p| ensures p[x] != '|' {
        assert OccursAt(p, [p[x]], x);
      }
      forall ch | ch in c ensures ch in p {
        TrimKeepsChars(p, ch);
      }
    }
  }

  /** Clean cells joined with '|' are read back as the same cells. */
  lemma CellsRoundTrip(cells: seq<string>)
    requires cells != []
    requires forall k :: 0 <= k < |cells| ==> cells[k] != "" && Trim(cells[k]) == cells[k] && '|' !in cells[k]
    ensures Cells(Join(cells, "|")) == cells
  {
    SplitJoin(cells, '|');
    FilterKeepsAll(FilledCell, cells);
  }

  /** The alignment markers of a separator line. */
  lemma AlignExamples()
    ensures AlignOf(":---:") == Center && AlignOf("---:") == Right
    ensures AlignOf(":---") == Left && AlignOf("---") == Left
    ensures AlignAt([Center], 3) == Left
  {
    assert ":---:"[..1] == ":" && ":---:"[4..] == ":";
    assert "---:"[..1][0] != ':' && "---:"[3..] == ":";
    assert ":---"[3..][0] != ':' && "---"[2..][0] != ':';
  }
}
