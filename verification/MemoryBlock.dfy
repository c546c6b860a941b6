/** Memory blocks in replies: `ExtractMemoryBlock` and `StripMemoryBlock` of src/agent/agent_loop.cpp.
    Character classes are those of the C locale. */
module MemoryBlock {
  import opened Options

  /** The literals of the two operations. */
  datatype Tags = Tags(start: string, end: string, openPrefix: string, closePrefix: string)

  const KABOT_TAGS := Tags("<kabot_memory>", "</kabot_memory>", "<kabot_memory", "</kabot_memory")

  predicate NoUpper(s: string) {
    forall k :: 0 <= k < |s| ==> LowerChar(s[k]) == s[k]
  }

  predicate IsTag(tag: string, prefix: string) {
    prefix != "" && prefix[0] == '<' && NoUpper(tag) && tag == prefix + ">"
  }

  /** All that the laws below need to know of the literals. */
  predicate AreTags(t: Tags) {
    IsTag(t.start, t.openPrefix) && IsTag(t.end, t.closePrefix)
  }

  lemma KabotTagsAreTags()
    ensures AreTags(KABOT_TAGS)
  {
  }

  // ---------------------------------------------------------------------------------------------
  // String operations
  // ---------------------------------------------------------------------------------------------

  predicate Matches(s: string, pattern: string, i: nat) {
    i + |pattern| <= |s| && forall j :: 0 <= j < |pattern| ==> s[i + j] == pattern[j]
  }

  /** `s.find(pattern, from)`. */
  function Find(s: string, pattern: string, from: nat): (r: Option<nat>)
    ensures r.Some? ==> from <= r.value && r.value + |pattern| <= |s|
    decreases |s| - from
  {
    if from > |s| then None
    else if Matches(s, pattern, from) then Some(from)
    else Find(s, pattern, from + 1)
  }

  lemma {:induction false} FindMatches(s: string, pattern: string, from: nat)
    requires Find(s, pattern, from).Some?
    ensures Matches(s, pattern, Find(s, pattern, from).value)
    decreases |s| - from
  {
    if from <= |s| && !Matches(s, pattern, from) {
      FindMatches(s, pattern, from + 1);
    }
  }

  lemma {:induction false} FindIsFirst(s: string, pattern: string, from: nat, k: nat)
    requires from <= k
    requires var r := Find(s, pattern, from); r.Some? ==> k < r.value
    ensures !Matches(s, pattern, k)
    decreases |s| - from
  {
    if from < k && from <= |s| {
      FindIsFirst(s, pattern, from + 1, k);
    }
  }

  function LowerChar(c: char): char {
    if 'A' <= c <= 'Z' then c - 'A' + 'a' else c
  }

  function Lower(s: string): (r: string)
    ensures |r| == |s|
  {
    seq(|s|, i requires 0 <= i < |s| => LowerChar(s[i]))
  }

  /** `s.erase(i, n)`. */
  function Erase(s: string, i: nat, n: nat): (r: string)
    requires i + n <= |s|
    ensures |r| == |s| - n
  {
    s[..i] + s[i + n..]
  }

  predicate IsSpace(c: char) {
    c in {' ', '\t', '\n', '\r', '\U{000B}', '\U{000C}'}
  }

  function TrimLeft(s: string): string {
    if s != [] && IsSpace(s[0]) then TrimLeft(s[1..]) else s
  }

  function TrimRight(s: string): string {
    if s != [] && IsSpace(s[|s| - 1]) then TrimRight(s[..|s| - 1]) else s
  }

  function Trim(s: string): string {
    TrimRight(TrimLeft(s))
  }

  // ---------------------------------------------------------------------------------------------
  // The two operations
  // ---------------------------------------------------------------------------------------------

  function Extract(content: string, t: Tags): string {
    var start := Find(content, t.start, 0);
    if start.None? then ""
    else
      var end := Find(content, t.end, start.value + |t.start|);
      if end.None? then "" else Trim(content[start.value + |t.start|..end.value])
  }

  function ExtractMemoryBlock(content: string): string {
    Extract(content, KABOT_TAGS)
  }

  /** First loop: blocks, tags and torn tags that open with `<kabot_memory`. */
  function StripOpen(s: string, t: Tags): string
    requires t.openPrefix != ""
    decreases |s|
  {
    var start := Find(Lower(s), t.openPrefix, 0);
    if start.None? then s else StripOpen(OpenErased(s, start.value, t), t)
  }

  function OpenErased(s: string, start: nat, t: Tags): (r: string)
    requires t.openPrefix != "" && start + |t.openPrefix| <= |s|
    ensures |r| < |s|
  {
    Erase(s, start, OpenLength(s, start, t))
  }

  /** How much the first loop erases at `start`. */
  function OpenLength(s: string, start: nat, t: Tags): (n: nat)
    requires t.openPrefix != "" && start + |t.openPrefix| <= |s|
    ensures 0 < n && start + n <= |s|
  {
    var tagEnd := Find(s, ">", start + |t.openPrefix|);
    if tagEnd.None? then |t.openPrefix|
    else
      var end := Find(Lower(s), t.end, tagEnd.value + 1);
      if end.None? then tagEnd.value - start + 1 else end.value - start + |t.end|
  }

  /** Second loop: what is left of closing tags. */
  function StripClose(s: string, t: Tags): string
    requires t.closePrefix != ""
    decreases |s|
  {
    var pos := Find(Lower(s), t.closePrefix, 0);
    if pos.None? then s else StripClose(CloseErased(s, pos.value, t), t)
  }

  function CloseErased(s: string, pos: nat, t: Tags): (r: string)
    requires t.closePrefix != "" && pos + |t.closePrefix| <= |s|
    ensures |r| < |s|
  {
    Erase(s, pos, CloseLength(s, pos, t))
  }

  /** How much the second loop erases at `pos`. */
  function CloseLength(s: string, pos: nat, t: Tags): (n: nat)
    requires t.closePrefix != "" && pos + |t.closePrefix| <= |s|
    ensures 0 < n && pos + n <= |s|
  {
    var tagEnd := Find(s, ">", pos + |t.closePrefix|);
    if tagEnd.None? then |t.closePrefix| else tagEnd.value - pos + 1
  }

  /** Third and fourth loop: every occurrence of a tag, in any case. */
  function RemoveAll(s: string, tag: string): string
    requires tag != ""
    decreases |s|
  {
    var pos := Find(Lower(s), tag, 0);
    if pos.None? then s else RemoveAll(Erase(s, pos.value, |tag|), tag)
  }

  /** What the four loops leave, before trimming. */
  function Stripped(content: string, t: Tags): string
    requires AreTags(t)
  {
    RemoveAll(RemoveAll(StripClose(StripOpen(content, t), t), t.start), t.end)
  }

  method StripOpenLoop(content: string, t: Tags) returns (stripped: string)
    requires t.openPrefix != ""
    ensures stripped == StripOpen(content, t)
  {
    stripped := content;
    while true
      invariant StripOpen(stripped, t) == StripOpen(content, t)
      decreases |stripped|
    {
      var start := Find(Lower(stripped), t.openPrefix, 0);
      if start.None? {
        break;
      }
      stripped := EraseOpen(stripped, start.value, t);
    }
  }

  /** The rest of the first loop's body. */
  method EraseOpen(s: string, start: nat, t: Tags) returns (stripped: string)
    requires t.openPrefix != "" && start + |t.openPrefix| <= |s|
    ensures stripped == OpenErased(s, start, t)
  {
    var tagEnd := Find(s, ">", start + |t.openPrefix|);
    if tagEnd.None? {
      return Erase(s, start, |t.openPrefix|);
    }
    var end := Find(Lower(s), t.end, tagEnd.value + 1);
    if end.None? {
      return Erase(s, start, tagEnd.value - start + 1);
    }
    stripped := Erase(s, start, end.value - start + |t.end|);
  }

  method StripCloseLoop(content: string, t: Tags) returns (stripped: string)
    requires t.closePrefix != ""
    ensures stripped == StripClose(content, t)
  {
    stripped := content;
    while true
      invariant StripClose(stripped, t) == StripClose(content, t)
      decreases |stripped|
    {
      var pos := Find(Lower(stripped), t.closePrefix, 0);
      if pos.None? {
        break;
      }
      stripped := EraseClose(stripped, pos.value, t);
    }
  }

  /** The rest of the second loop's body. */
  method EraseClose(s: string, pos: nat, t: Tags) returns (stripped: string)
    requires t.closePrefix != "" && pos + |t.closePrefix| <= |s|
    ensures stripped == CloseErased(s, pos, t)
  {
    var tagEnd := Find(s, ">", pos + |t.closePrefix|);
    if tagEnd.None? {
      return Erase(s, pos, |t.closePrefix|);
    }
    stripped := Erase(s, pos, tagEnd.value - pos + 1);
  }

  method RemoveLoop(s: string, tag: string) returns (rest: string)
    requires tag != ""
    ensures rest == RemoveAll(s, tag)
  {
    rest := s;
    while true
      invariant RemoveAll(rest, tag) == RemoveAll(s, tag)
      decreases |rest|
    {
      var pos := Find(Lower(rest), tag, 0);
      if pos.None? {
        break;
      }
      rest := Erase(rest, pos.value, |tag|);
    }
  }

  method Strip(content: string, t: Tags) returns (result: string)
    requires AreTags(t)
    ensures result == Trim(Stripped(content, t))
  {
    var stripped := StripOpenLoop(content, t);
    stripped := StripCloseLoop(stripped, t);
    stripped := RemoveLoop(stripped, t.start);
    stripped := RemoveLoop(stripped, t.end);
    result := Trim(stripped);
  }

  /** What `StripMemoryBlock` makes of a reply. */
  function StripOf(content: string): string {
    KabotTagsAreTags();
    Trim(Stripped(content, KABOT_TAGS))
  }

  method StripMemoryBlock(content: string) returns (result: string)
    ensures result == StripOf(content)
  {
    KabotTagsAreTags();
    result := Strip(content, KABOT_TAGS);
  }

  // ---------------------------------------------------------------------------------------------
  // The result is part of the input
  // ---------------------------------------------------------------------------------------------

  predicate IsSubsequence(a: string, b: string)
    decreases |b|
  {
    a == [] || (b != [] && (if a[0] == b[0] then IsSubsequence(a[1..], b[1..]) else IsSubsequence(a, b[1..])))
  }

  /** Skipping a character that could have been matched never hurts. */
  lemma {:induction false} SubsequenceTail(a: string, b: string)
    requires a != [] && IsSubsequence(a, b)
    ensures IsSubsequence(a[1..], b)
    decreases |b|
  {
    if a[0] == b[0] {
      if |a| > 1 {
        if a[1] == b[0] {
          SubsequenceTail(a[1..], b[1..]);
        }
      }
    } else {
      SubsequenceTail(a, b[1..]);
      if |a| > 1 && a[1] == b[0] {
        SubsequenceTail(a[1..], b[1..]);
      }
    }
  }

  lemma {:induction false} SubsequenceTrans(a: string, b: string, c: string)
    requires IsSubsequence(a, b) && IsSubsequence(b, c)
    ensures IsSubsequence(a, c)
    decreases |c|
  {
    if a != [] {
      if b[0] == c[0] {
        if a[0] == b[0] {
          SubsequenceTrans(a[1..], b[1..], c[1..]);
        } else {
          SubsequenceTrans(a, b[1..], c[1..]);
        }
      } else {
        SubsequenceTrans(a, b, c[1..]);
        if a[0] == c[0] {
          SubsequenceTail(a, c[1..]);
        }
      }
    }
  }

  lemma {:induction false} SuffixIsSubsequence(s: string, n: nat)
    requires n <= |s|
    ensures IsSubsequence(s[n..], s)
    decreases |s| - n
  {
    if n == |s| {
    } else {
      SuffixIsSubsequence(s, n + 1);
      SuffixStep(s, n);
    }
  }

  lemma {:induction false} SuffixStep(s: string, n: nat)
    requires n < |s|
    ensures IsSubsequence(s[n..], s)
    decreases |s|
  {
    if n == 0 {
      assert s[0..] == s;
      SameIsSubsequence(s);
    } else {
      assert s[n..] == s[1..][n - 1..];
      SuffixStep(s[1..], n - 1);
      if s[n] == s[0] {
        SubsequenceTail(s[n..], s[1..]);
      }
    }
  }

  lemma {:induction false} SameIsSubsequence(s: string)
    ensures IsSubsequence(s, s)
  {
    if s != [] {
      SameIsSubsequence(s[1..]);
    }
  }

  lemma {:induction false} EraseIsSubsequence(s: string, i: nat, n: nat)
    requires i + n <= |s|
    ensures IsSubsequence(Erase(s, i, n), s)
    decreases i
  {
    if i == 0 {
      assert Erase(s, 0, n) == s[n..];
      SuffixIsSubsequence(s, n);
    } else {
      EraseIsSubsequence(s[1..], i - 1, n);
      assert Erase(s, i, n)[1..] == Erase(s[1..], i - 1, n);
    }
  }

  lemma OpenErasedIsSubsequence(s: string, start: nat, t: Tags)
    requires t.openPrefix != "" && start + |t.openPrefix| <= |s|
    ensures IsSubsequence(OpenErased(s, start, t), s)
  {
    EraseIsSubsequence(s, start, OpenLength(s, start, t));
  }

  lemma {:induction false} StripOpenIsSubsequence(s: string, t: Tags)
    requires t.openPrefix != ""
    ensures IsSubsequence(StripOpen(s, t), s)
    decreases |s|
  {
    var start := Find(Lower(s), t.openPrefix, 0);
    if start.None? {
      SameIsSubsequence(s);
    } else {
      var shorter := OpenErased(s, start.value, t);
      OpenErasedIsSubsequence(s, start.value, t);
      StripOpenIsSubsequence(shorter, t);
      SubsequenceTrans(StripOpen(shorter, t), shorter, s);
    }
  }

  lemma CloseErasedIsSubsequence(s: string, pos: nat, t: Tags)
    requires t.closePrefix != "" && pos + |t.closePrefix| <= |s|
    ensures IsSubsequence(CloseErased(s, pos, t), s)
  {
    EraseIsSubsequence(s, pos, CloseLength(s, pos, t));
  }

  lemma {:induction false} StripCloseIsSubsequence(s: string, t: Tags)
    requires t.closePrefix != ""
    ensures IsSubsequence(StripClose(s, t), s)
    decreases |s|
  {
    var pos := Find(Lower(s), t.closePrefix, 0);
    if pos.None? {
      SameIsSubsequence(s);
    } else {
      var shorter := CloseErased(s, pos.value, t);
      CloseErasedIsSubsequence(s, pos.value, t);
      StripCloseIsSubsequence(shorter, t);
      SubsequenceTrans(StripClose(shorter, t), shorter, s);
    }
  }

  lemma {:induction false} RemoveAllIsSubsequence(s: string, tag: string)
    requires tag != ""
    ensures IsSubsequence(RemoveAll(s, tag), s)
    decreases |s|
  {
    SameIsSubsequence(s);
    var pos := Find(Lower(s), tag, 0);
    if pos.Some? {
      var shorter := Erase(s, pos.value, |tag|);
      EraseIsSubsequence(s, pos.value, |tag|);
      RemoveAllIsSubsequence(shorter, tag);
      SubsequenceTrans(RemoveAll(s, tag), shorter, s);
    }
  }

  /** Trimming keeps a slice. */
  lemma {:induction false} TrimLeftIsSuffix(s: string) returns (lo: nat)
    ensures lo <= |s| && TrimLeft(s) == s[lo..]
  {
    if s != [] && IsSpace(s[0]) {
      lo := TrimLeftIsSuffix(s[1..]);
      lo := lo + 1;
    } else {
      lo := 0;
    }
  }

  lemma {:induction false} TrimRightIsPrefix(s: string) returns (hi: nat)
    ensures hi <= |s| && TrimRight(s) == s[..hi]
  {
    if s != [] && IsSpace(s[|s| - 1]) {
      hi := TrimRightIsPrefix(s[..|s| - 1]);
    } else {
      hi := |s|;
    }
  }

  lemma TrimIsSlice(s: string) returns (lo: nat, hi: nat)
    ensures lo <= hi <= |s| && Trim(s) == s[lo..hi]
  {
    lo := TrimLeftIsSuffix(s);
    var n := TrimRightIsPrefix(s[lo..]);
    hi := lo + n;
  }

  lemma PrefixIsSubsequence(s: string, n: nat)
    requires n <= |s|
    ensures IsSubsequence(s[..n], s)
  {
    EraseIsSubsequence(s, n, |s| - n);
    assert s[|s|..] == [];
    assert Erase(s, n, |s| - n) == s[..n];
  }

  lemma SliceIsSubsequence(s: string, lo: nat, hi: nat)
    requires lo <= hi <= |s|
    ensures IsSubsequence(s[lo..hi], s)
  {
    var tail := s[lo..];
    SuffixIsSubsequence(s, lo);
    PrefixIsSubsequence(tail, hi - lo);
    assert tail[..hi - lo] == s[lo..hi];
    SubsequenceTrans(tail[..hi - lo], tail, s);
  }

  lemma FourLoops(content: string, t: Tags)
    requires AreTags(t)
    ensures IsSubsequence(Stripped(content, t), content)
  {
    var s1 := StripOpen(content, t);
    var s2 := StripClose(s1, t);
    var s3 := RemoveAll(s2, t.start);
    StripOpenIsSubsequence(content, t);
    StripCloseIsSubsequence(s1, t);
    SubsequenceTrans(s2, s1, content);
    RemoveAllIsSubsequence(s2, t.start);
    SubsequenceTrans(s3, s2, content);
    RemoveAllIsSubsequence(s3, t.end);
    SubsequenceTrans(RemoveAll(s3, t.end), s3, content);
  }

  /** For every input the result is a subsequence of it. */
  lemma StrippedIsSubsequence(content: string, t: Tags)
    requires AreTags(t)
    ensures IsSubsequence(Trim(Stripped(content, t)), content)
  {
    FourLoops(content, t);
    var s := Stripped(content, t);
    var lo, hi := TrimIsSlice(s);
    SliceIsSubsequence(s, lo, hi);
    SubsequenceTrans(Trim(s), s, content);
  }

  // ---------------------------------------------------------------------------------------------
  // No tag is left
  // ---------------------------------------------------------------------------------------------

  lemma {:induction false} RemoveAllRemoves(s: string, tag: string)
    requires tag != ""
    ensures Find(Lower(RemoveAll(s, tag)), tag, 0).None?
    decreases |s|
  {
    var pos := Find(Lower(s), tag, 0);
    if pos.Some? {
      RemoveAllRemoves(Erase(s, pos.value, |tag|), tag);
    }
  }

  lemma SliceMatches(s: string, lo: nat, hi: nat, tag: string, k: nat)
    requires lo <= hi <= |s| && Matches(s[lo..hi], tag, k)
    ensures Matches(s, tag, lo + k)
  {
    forall j | 0 <= j < |tag|
      ensures s[lo + k + j] == tag[j]
    {
      assert s[lo..hi][k + j] == tag[j];
    }
  }

  lemma SliceHasNoTag(s: string, lo: nat, hi: nat, tag: string)
    requires lo <= hi <= |s| && Find(Lower(s), tag, 0).None?
    ensures Find(Lower(s[lo..hi]), tag, 0).None?
  {
    var lower := Lower(s);
    assert Lower(s[lo..hi]) == lower[lo..hi];
    var r := Find(lower[lo..hi], tag, 0);
    if r.Some? {
      FindMatches(lower[lo..hi], tag, 0);
      SliceMatches(lower, lo, hi, tag, r.value);
      FindIsFirst(lower, tag, 0, lo + r.value);
    }
  }

  /** For every input the result holds no closing tag, in any case. */
  lemma NoClosingTagIsLeft(content: string)
    ensures Find(Lower(StripOf(content)), KABOT_TAGS.end, 0).None?
  {
    KabotTagsAreTags();
    var t := KABOT_TAGS;
    var s3 := RemoveAll(StripClose(StripOpen(content, t), t), t.start);
    RemoveAllRemoves(s3, t.end);
    var lo, hi := TrimIsSlice(Stripped(content, t));
    SliceHasNoTag(Stripped(content, t), lo, hi, t.end);
  }

  // ---------------------------------------------------------------------------------------------
  // How many `<` it takes to leave an opening tag
  // ---------------------------------------------------------------------------------------------

  /** The number of `<` in `s`. */
  function Brackets(s: string): nat {
    if s == [] then 0 else (if s[0] == '<' then 1 else 0) + Brackets(s[1..])
  }

  lemma {:induction false} BracketsOfConcat(a: string, b: string)
    ensures Brackets(a + b) == Brackets(a) + Brackets(b)
  {
    if a == [] {
      assert a + b == b;
    } else {
      assert (a + b)[1..] == a[1..] + b;
      BracketsOfConcat(a[1..], b);
    }
  }

  lemma BracketsOfParts(s: string, i: nat, n: nat)
    requires i + n <= |s|
    ensures Brackets(s) == Brackets(s[..i]) + Brackets(s[i..i + n]) + Brackets(s[i + n..])
  {
    assert s == (s[..i] + s[i..i + n]) + s[i + n..];
    BracketsOfConcat(s[..i] + s[i..i + n], s[i + n..]);
    BracketsOfConcat(s[..i], s[i..i + n]);
  }

  lemma EraseLosesBracket(s: string, i: nat, n: nat)
    requires 0 < n && i + n <= |s| && s[i] == '<'
    ensures Brackets(Erase(s, i, n)) < Brackets(s)
  {
    BracketsOfParts(s, i, n);
    BracketsOfConcat(s[..i], s[i + n..]);
    assert s[i..i + n][0] == '<';
  }

  lemma FoundAtBracket(s: string, pattern: string)
    requires pattern != "" && pattern[0] == '<' && Find(Lower(s), pattern, 0).Some?
    ensures s[Find(Lower(s), pattern, 0).value] == '<'
  {
    FindMatches(Lower(s), pattern, 0);
    var i := Find(Lower(s), pattern, 0).value;
    assert Lower(s)[i + 0] == pattern[0];
  }

  lemma {:induction false} OpenLosesBrackets(s: string, t: Tags)
    requires AreTags(t)
    ensures Brackets(StripOpen(s, t)) <= Brackets(s)
    ensures Find(Lower(StripOpen(s, t)), t.openPrefix, 0).None?
    decreases |s|
  {
    var start := Find(Lower(s), t.openPrefix, 0);
    if start.Some? {
      FoundAtBracket(s, t.openPrefix);
      EraseLosesBracket(s, start.value, OpenLength(s, start.value, t));
      OpenLosesBrackets(OpenErased(s, start.value, t), t);
    }
  }

  lemma {:induction false} CloseLosesBrackets(s: string, t: Tags)
    requires AreTags(t)
    ensures StripClose(s, t) == s || Brackets(StripClose(s, t)) < Brackets(s)
    ensures Find(Lower(StripClose(s, t)), t.closePrefix, 0).None?
    decreases |s|
  {
    var pos := Find(Lower(s), t.closePrefix, 0);
    if pos.Some? {
      FoundAtBracket(s, t.closePrefix);
      EraseLosesBracket(s, pos.value, CloseLength(s, pos.value, t));
      CloseLosesBrackets(CloseErased(s, pos.value, t), t);
    }
  }

  lemma {:induction false} RemoveLosesBrackets(s: string, tag: string)
    requires tag != "" && tag[0] == '<'
    ensures RemoveAll(s, tag) == s || Brackets(RemoveAll(s, tag)) < Brackets(s)
    decreases |s|
  {
    var pos := Find(Lower(s), tag, 0);
    if pos.Some? {
      FoundAtBracket(s, tag);
      EraseLosesBracket(s, pos.value, |tag|);
      RemoveLosesBrackets(Erase(s, pos.value, |tag|), tag);
    }
  }

  /** Where a tag is, its prefix is. */
  lemma TagHasPrefix(s: string, tag: string, prefix: string)
    requires tag == prefix + ">" && Find(Lower(s), tag, 0).Some?
    ensures Find(Lower(s), prefix, 0).Some?
  {
    FindMatches(Lower(s), tag, 0);
    var i := Find(Lower(s), tag, 0).value;
    PrefixMatches(Lower(s), prefix, tag, i);
    if Find(Lower(s), prefix, 0).None? {
      FindIsFirst(Lower(s), prefix, 0, i);
    }
  }

  lemma {:induction false} BracketIsCounted(s: string, i: nat)
    requires i < |s| && s[i] == '<'
    ensures Brackets(s) > 0
  {
    if i > 0 {
      BracketIsCounted(s[1..], i - 1);
    }
  }

  /** An opening tag that is left has cost a bracket in each of the last three loops, and has one itself. */
  lemma LeftTagCostsFour(content: string, t: Tags)
    requires AreTags(t) && Find(Lower(Stripped(content, t)), t.start, 0).Some?
    ensures Brackets(content) >= 4
  {
    var s1 := StripOpen(content, t);
    var s2 := StripClose(s1, t);
    var s3 := RemoveAll(s2, t.start);
    var s4 := RemoveAll(s3, t.end);
    FoundAtBracket(s4, t.start);
    BracketIsCounted(s4, Find(Lower(s4), t.start, 0).value);
    RemoveAllRemoves(s2, t.start);
    RemoveLosesBrackets(s3, t.end);
    assert Brackets(s3) >= 2;
    TagHasPrefix(s3, t.end, t.closePrefix);
    CloseLosesBrackets(s1, t);
    RemoveLosesBrackets(s2, t.start);
    assert Brackets(s2) >= 3;
    TagHasPrefix(s2, t.start, t.openPrefix);
    OpenLosesBrackets(content, t);
    assert Brackets(s1) >= 4;
  }

  /** With fewer than four `<` no opening tag is left, in any case. */
  lemma NoOpeningTagIsLeft(content: string)
    requires Brackets(content) < 4
    ensures Find(Lower(StripOf(content)), KABOT_TAGS.start, 0).None?
  {
    KabotTagsAreTags();
    var t := KABOT_TAGS;
    if Find(Lower(Stripped(content, t)), t.start, 0).Some? {
      LeftTagCostsFour(content, t);
    }
    var lo, hi := TrimIsSlice(Stripped(content, t));
    SliceHasNoTag(Stripped(content, t), lo, hi, t.start);
  }

  // ---------------------------------------------------------------------------------------------
  // With four it takes a tag torn in four
  // ---------------------------------------------------------------------------------------------

  /** A `<` and no other. */
  predicate IsWord(s: string) {
    |s| > 1 && s[0] == '<' && forall k :: 1 <= k < |s| ==> s[k] != '<'
  }

  predicate OnlyBrackets(s: string) {
    forall k :: 0 <= k < |s| ==> s[k] == '<'
  }

  lemma MatchShifts(x: string, y: string, pattern: string, k: nat)
    ensures Matches(x + y, pattern, |x| + k) <==> Matches(y, pattern, k)
  {
    if k + |pattern| <= |y| {
      forall j | 0 <= j < |pattern|
        ensures (x + y)[|x| + k + j] == pattern[j] <==> y[k + j] == pattern[j]
      {
      }
    }
  }

  lemma {:induction false} FindShifts(x: string, y: string, pattern: string, from: nat)
    ensures Find(x + y, pattern, |x| + from) ==
            match Find(y, pattern, from) case Some(i) => Some(|x| + i) case None => None
    decreases |y| - from
  {
    MatchShifts(x, y, pattern, from);
    if from <= |y| && !Matches(y, pattern, from) {
      FindShifts(x, y, pattern, from + 1);
    }
  }

  lemma {:induction false} FindSkips(s: string, pattern: string, from: nat, to: nat)
    requires from <= to <= |s| && forall k :: from <= k < to ==> !Matches(s, pattern, k)
    ensures Find(s, pattern, from) == Find(s, pattern, to)
    decreases |s| - from
  {
    if from < to {
      FindSkips(s, pattern, from + 1, to);
    }
  }

  lemma Differs(s: string, pattern: string, k: nat, j: nat)
    requires j < |pattern| && (k + j < |s| ==> s[k + j] != pattern[j])
    ensures !Matches(s, pattern, k)
  {
    if k + |pattern| <= |s| {
      assert s[k + j] != pattern[j];
    }
  }

  /** A search goes past a word that differs from the pattern at `j`. */
  lemma WordIsPassed(x: string, y: string, pattern: string, j: nat)
    requires IsWord(x) && IsWord(pattern) && j < |pattern| && (j < |x + y| ==> (x + y)[j] != pattern[j])
    ensures Find(x + y, pattern, 0) == match Find(y, pattern, 0) case Some(i) => Some(|x| + i) case None => None
  {
    forall k | 0 <= k < |x|
      ensures !Matches(x + y, pattern, k)
    {
      Differs(x + y, pattern, k, if k == 0 then j else 0);
    }
    FindSkips(x + y, pattern, 0, |x|);
    FindShifts(x, y, pattern, 0);
  }

  /** The pattern is longer than the word and meets another `<`. */
  lemma CutShortIsPassed(x: string, y: string, pattern: string)
    requires IsWord(x) && IsWord(pattern) && |x| < |pattern| && y != "" && y[0] == '<'
    ensures Find(x + y, pattern, 0) == match Find(y, pattern, 0) case Some(i) => Some(|x| + i) case None => None
  {
    WordIsPassed(x, y, pattern, |x|);
  }

  lemma OtherWordIsPassed(x: string, y: string, pattern: string)
    requires IsWord(x) && IsWord(pattern) && x[1] != pattern[1]
    ensures Find(x + y, pattern, 0) == match Find(y, pattern, 0) case Some(i) => Some(|x| + i) case None => None
  {
    WordIsPassed(x, y, pattern, 1);
  }

  lemma NoWordInTail(x: string, y: string, pattern: string, k: nat)
    requires Plain(x) && OnlyBrackets(y) && IsWord(pattern)
    ensures !Matches(x + y, pattern, k)
  {
    Differs(x + y, pattern, k, if k < |x| then 0 else 1);
  }

  lemma TailHasNoWord(x: string, y: string, pattern: string)
    requires Plain(x) && OnlyBrackets(y) && IsWord(pattern)
    ensures Find(x + y, pattern, 0).None?
  {
    var r := Find(x + y, pattern, 0);
    if r.Some? {
      NoWordInTail(x, y, pattern, r.value);
      FindMatches(x + y, pattern, 0);
    }
  }

  lemma FoundInFront(pattern: string, y: string)
    ensures Find(pattern + y, pattern, 0) == Some(0)
  {
  }

  lemma ErasedBehind(x: string, word: string, y: string)
    ensures Erase(x + (word + y), |x|, |word|) == x + y
  {
  }

  lemma LowerIsSame(s: string)
    requires NoUpper(s)
    ensures Lower(s) == s
  {
  }

  /** Both prefixes torn in front of their last, common part: `a` + `b` and `c` + `b`. */
  predicate AreTorn(t: Tags, a: string, c: string, b: string) {
    && AreTags(t) && t.openPrefix == a + b && t.closePrefix == c + b
    && IsWord(a) && IsWord(c) && a[1] != c[1] && b != "" && Plain(b)
    && NoUpper(a) && NoUpper(c) && NoUpper(b)
  }

  /** What stands behind the torn tags: `n` last parts and some `<`. */
  function Ends(b: string, n: nat): (r: string)
    ensures Plain(b) ==> Plain(r)
    ensures NoUpper(b) ==> NoUpper(r)
  {
    if n == 0 then "" else b + ">" + Ends(b, n - 1)
  }

  lemma WordsOf(t: Tags, a: string, c: string, b: string)
    requires AreTorn(t, a, c, b)
    ensures IsWord(t.openPrefix) && IsWord(t.closePrefix) && IsWord(t.start) && IsWord(t.end)
    ensures t.openPrefix[1] == t.start[1] == a[1] && t.closePrefix[1] == t.end[1] == c[1]
    ensures t.start == a + (b + ">") && t.end == c + (b + ">")
  {
  }

  lemma EndsAre(b: string, n: nat, r: string)
    ensures (b + ">") + (Ends(b, n) + r) == Ends(b, n + 1) + r
  {
  }

  /** The first loop finds no prefix ... */
  lemma FirstLoop(t: Tags, a: string, c: string, b: string, r: string)
    requires AreTorn(t, a, c, b) && OnlyBrackets(r)
    ensures Find(a + (c + (a + (t.end + (Ends(b, 3) + r)))), t.openPrefix, 0).None?
  {
    WordsOf(t, a, c, b);
    var tail := Ends(b, 3) + r;
    TailHasNoWord(Ends(b, 3), r, t.openPrefix);
    OtherWordIsPassed(t.end, tail, t.openPrefix);
    CutShortIsPassed(a, t.end + tail, t.openPrefix);
    OtherWordIsPassed(c, a + (t.end + tail), t.openPrefix);
    CutShortIsPassed(a, c + (a + (t.end + tail)), t.openPrefix);
  }

  /** ... the second finds one closing tag ... */
  lemma SecondLoop(a: string, c: string, closePrefix: string, tail: string)
    requires IsWord(a) && IsWord(c) && IsWord(closePrefix) && |c| < |closePrefix| && closePrefix[1] == c[1] != a[1]
    ensures Find(a + (c + (a + (closePrefix + tail))), closePrefix, 0) == Some(|a + c + a|)
  {
    FoundInFront(closePrefix, tail);
    OtherWordIsPassed(a, closePrefix + tail, closePrefix);
    CutShortIsPassed(c, a + (closePrefix + tail), closePrefix);
    OtherWordIsPassed(a, c + (a + (closePrefix + tail)), closePrefix);
  }

  lemma SecondLoopEnds(a: string, c: string, closePrefix: string, start: string, tail: string)
    requires IsWord(a) && IsWord(c) && IsWord(closePrefix) && |c| < |closePrefix| && closePrefix[1] == c[1] != a[1]
    requires IsWord(start) && start[1] == a[1] && Find(tail, closePrefix, 0).None?
    ensures Find(a + (c + (start + tail)), closePrefix, 0).None?
  {
    OtherWordIsPassed(start, tail, closePrefix);
    CutShortIsPassed(c, start + tail, closePrefix);
    OtherWordIsPassed(a, c + (start + tail), closePrefix);
  }

  /** ... the third the opening tag that this makes ... */
  lemma ThirdLoop(a: string, c: string, start: string, tail: string)
    requires IsWord(a) && IsWord(c) && IsWord(start) && |a| < |start| && start[1] == a[1] != c[1]
    ensures Find(a + (c + (start + tail)), start, 0) == Some(|a + c|)
  {
    FoundInFront(start, tail);
    OtherWordIsPassed(c, start + tail, start);
    CutShortIsPassed(a, c + (start + tail), start);
  }

  lemma ThirdLoopEnds(t: Tags, a: string, c: string, b: string, r: string)
    requires AreTorn(t, a, c, b) && OnlyBrackets(r)
    ensures Find(a + (t.end + (Ends(b, 1) + r)), t.start, 0).None?
  {
    WordsOf(t, a, c, b);
    TailHasNoWord(Ends(b, 1), r, t.start);
    OtherWordIsPassed(t.end, Ends(b, 1) + r, t.start);
    CutShortIsPassed(a, t.end + (Ends(b, 1) + r), t.start);
  }

  /** ... and the fourth the closing tag that this makes, which makes an opening tag. */
  lemma FourthLoop(t: Tags, a: string, c: string, b: string, r: string)
    requires AreTorn(t, a, c, b) && OnlyBrackets(r)
    ensures Find(a + (t.end + (Ends(b, 1) + r)), t.end, 0) == Some(|a|)
    ensures Find(t.start + r, t.end, 0).None?
  {
    WordsOf(t, a, c, b);
    FoundInFront(t.end, Ends(b, 1) + r);
    OtherWordIsPassed(a, t.end + (Ends(b, 1) + r), t.end);
    TailHasNoWord("", r, t.end);
    assert "" + r == r;
    OtherWordIsPassed(t.start, r, t.end);
  }

  lemma FirstPass(t: Tags, a: string, c: string, b: string, r: string)
    requires AreTorn(t, a, c, b) && OnlyBrackets(r)
    ensures var s := a + (c + (a + (t.end + (Ends(b, 3) + r)))); StripOpen(s, t) == s
  {
    var s := a + (c + (a + (t.end + (Ends(b, 3) + r))));
    WordsOf(t, a, c, b);
    assert NoUpper(s);
    LowerIsSame(s);
    FirstLoop(t, a, c, b, r);
  }

  lemma TagCloses(x: string, prefix: string, y: string)
    ensures Find(x + ((prefix + ">") + y), ">", |x| + |prefix|) == Some(|x| + |prefix|)
  {
    var s := x + ((prefix + ">") + y);
    assert s[|x| + |prefix|] == '>';
  }

  lemma ClosingTagLength(t: Tags, s: string, pos: nat)
    requires AreTags(t) && pos + |t.end| <= |s| && Find(s, ">", pos + |t.closePrefix|) == Some(pos + |t.closePrefix|)
    ensures CloseLength(s, pos, t) == |t.end|
  {
  }

  lemma ClosesOnce(t: Tags, s: string, pos: nat, rest: string)
    requires t.closePrefix != "" && pos + |t.closePrefix| <= |s|
    requires Find(Lower(s), t.closePrefix, 0) == Some(pos) && CloseErased(s, pos, t) == rest
    ensures StripClose(s, t) == StripClose(rest, t)
  {
  }

  /** A closing tag at `|x|` goes whole. */
  lemma ClosingTagErased(t: Tags, x: string, y: string, s: string)
    requires AreTags(t) && NoUpper(s) && s == x + (t.end + y) && Find(s, t.closePrefix, 0) == Some(|x|)
    ensures StripClose(s, t) == StripClose(x + y, t)
  {
    LowerIsSame(s);
    TagCloses(x, t.closePrefix, y);
    ClosingTagLength(t, s, |x|);
    ErasedBehind(x, t.end, y);
    ClosesOnce(t, s, |x|, x + y);
  }

  lemma NoClosingTagErased(t: Tags, s: string)
    requires t.closePrefix != "" && NoUpper(s) && Find(s, t.closePrefix, 0).None?
    ensures StripClose(s, t) == s
  {
    LowerIsSame(s);
  }

  lemma SecondPass(t: Tags, a: string, c: string, b: string, r: string)
    requires AreTorn(t, a, c, b) && OnlyBrackets(r)
    ensures StripClose(a + (c + (a + (t.end + (Ends(b, 3) + r)))), t) == a + (c + (t.start + (Ends(b, 2) + r)))
  {
    var tail := Ends(b, 3) + r;
    WordsOf(t, a, c, b);
    SecondLoop(a, c, t.closePrefix, ">" + tail);
    Regroup(t.closePrefix, ">", tail);
    RegroupThree(a, c, a, t.end + tail);
    ClosingTagErased(t, a + c + a, tail, a + c + a + (t.end + tail));
    RegroupThree(a, c, a, tail);
    SecondPassEnds(t, a, c, b, r);
  }

  lemma SecondPassEnds(t: Tags, a: string, c: string, b: string, r: string)
    requires AreTorn(t, a, c, b) && OnlyBrackets(r)
    ensures StripClose(a + (c + (a + (Ends(b, 3) + r))), t) == a + (c + (t.start + (Ends(b, 2) + r)))
  {
    var tail := Ends(b, 2) + r;
    WordsOf(t, a, c, b);
    EndsAre(b, 2, r);
    Regroup(a, b + ">", tail);
    TailHasNoWord(Ends(b, 2), r, t.closePrefix);
    SecondLoopEnds(a, c, t.closePrefix, t.start, tail);
    NoClosingTagErased(t, a + (c + (t.start + tail)));
  }

  lemma Regroup(x: string, y: string, z: string)
    ensures (x + y) + z == x + (y + z)
  {
  }

  lemma RegroupThree(x: string, y: string, z: string, s: string)
    ensures (x + y + z) + s == x + (y + (z + s))
  {
    Regroup(x + y, z, s);
    Regroup(x, y, z + s);
  }

  lemma RemovesOne(x: string, tag: string, y: string)
    requires tag != "" && NoUpper(x) && NoUpper(tag) && NoUpper(y)
    requires Find(x + (tag + y), tag, 0) == Some(|x|)
    ensures RemoveAll(x + (tag + y), tag) == RemoveAll(x + y, tag)
  {
    LowerIsSame(x + (tag + y));
    ErasedBehind(x, tag, y);
  }

  lemma RemovesNone(s: string, tag: string)
    requires tag != "" && NoUpper(s) && Find(s, tag, 0).None?
    ensures RemoveAll(s, tag) == s
  {
    LowerIsSame(s);
  }

  lemma ThirdPass(t: Tags, a: string, c: string, b: string, r: string)
    requires AreTorn(t, a, c, b) && OnlyBrackets(r)
    ensures RemoveAll(a + (c + (t.start + (Ends(b, 2) + r))), t.start) == a + (t.end + (Ends(b, 1) + r))
  {
    var tail := Ends(b, 2) + r;
    WordsOf(t, a, c, b);
    ThirdLoop(a, c, t.start, tail);
    Regroup(a, c, t.start + tail);
    RemovesOne(a + c, t.start, tail);
    ThirdLoopEnds(t, a, c, b, r);
    EndsAre(b, 1, r);
    Regroup(a, c, tail);
    Regroup(c, b + ">", Ends(b, 1) + r);
    RemovesNone(a + (t.end + (Ends(b, 1) + r)), t.start);
  }

  lemma FourthPass(t: Tags, a: string, c: string, b: string, r: string)
    requires AreTorn(t, a, c, b) && OnlyBrackets(r)
    ensures RemoveAll(a + (t.end + (Ends(b, 1) + r)), t.end) == t.start + r
  {
    var tail := Ends(b, 1) + r;
    WordsOf(t, a, c, b);
    FourthLoop(t, a, c, b, r);
    RemovesOne(a, t.end, tail);
    EndsAre(b, 0, r);
    assert "" + r == r;
    Regroup(a, b + ">", r);
    RemovesNone(t.start + r, t.end);
  }

  lemma TrimKeeps(s: string)
    requires s != "" && !IsSpace(s[0]) && !IsSpace(s[|s| - 1])
    ensures Trim(s) == s
  {
  }

  /** Two tags torn in two each, and the ends that the four loops join to them. */
  function TornTags(r: string): string {
    "<kabot_" + ("</kabot_" + ("<kabot_" + ("</kabot_memory>" + (Ends("memory", 3) + r))))
  }

  lemma KabotTagsAreTorn()
    ensures AreTorn(KABOT_TAGS, "<kabot_", "</kabot_", "memory")
  {
    KabotTagsAreTags();
    KabotPartsAreWords();
  }

  lemma KabotPartsAreWords()
    ensures IsWord("<kabot_") && NoUpper("<kabot_") && IsWord("</kabot_") && NoUpper("</kabot_")
    ensures Plain("memory") && NoUpper("memory")
  {
  }

  /** The opening tag is left whole. */
  lemma TornTagsLeaveTag(r: string)
    requires OnlyBrackets(r)
    ensures StripOf(TornTags(r)) == KABOT_TAGS.start + r
  {
    var t, a, c, b := KABOT_TAGS, "<kabot_", "</kabot_", "memory";
    KabotTagsAreTorn();
    FirstPass(t, a, c, b, r);
    SecondPass(t, a, c, b, r);
    ThirdPass(t, a, c, b, r);
    FourthPass(t, a, c, b, r);
    TrimKeeps(t.start + r);
  }

  lemma {:induction false} BracketsOfPlain(s: string)
    requires Plain(s)
    ensures Brackets(s) == 0
  {
    if s != "" {
      BracketsOfPlain(s[1..]);
    }
  }

  lemma BracketsOfWord(s: string)
    requires IsWord(s)
    ensures Brackets(s) == 1
  {
    BracketsOfPlain(s[1..]);
  }

  function Opens(n: nat): (r: string)
    ensures OnlyBrackets(r) && Brackets(r) == n
  {
    if n == 0 then "" else "<" + Opens(n - 1)
  }

  lemma BracketsOfTorn(a: string, c: string, end: string, tail: string, r: string)
    requires IsWord(a) && IsWord(c) && IsWord(end) && Plain(tail)
    ensures Brackets(a + (c + (a + (end + (tail + r))))) == 4 + Brackets(r)
  {
    BracketsOfWord(a);
    BracketsOfWord(c);
    BracketsOfWord(end);
    BracketsOfPlain(tail);
    BracketsOfConcat(tail, r);
    BracketsOfConcat(end, tail + r);
    BracketsOfConcat(a, end + (tail + r));
    BracketsOfConcat(c, a + (end + (tail + r)));
    BracketsOfConcat(a, c + (a + (end + (tail + r))));
  }

  /** The shortest of them: `<kabot_</kabot_<kabot_</kabot_memory>memory>memory>memory>` is answered as
      `<kabot_memory>`. */
  lemma OpeningTagIsLeft()
    ensures var content := "<kabot_" + "</kabot_" + "<kabot_" + "</kabot_memory>" + "memory>" + "memory>" + "memory>";
            Brackets(content) == 4 && StripOf(content) == "<kabot_memory>"
  {
    ShortestTorn("<kabot_", "</kabot_", "</kabot_memory>", "memory", "memory>");
    OpeningTagIsLeftOf(0);
    TornTagsLeaveTag("");
  }

  lemma ShortestTorn(a: string, c: string, end: string, b: string, m: string)
    requires m == b + ">"
    ensures a + c + a + end + m + m + m == a + (c + (a + (end + (Ends(b, 3) + ""))))
  {
    assert Ends(b, 1) == m;
    assert Ends(b, 2) == m + m;
    Regroup(m, m, m);
    assert Ends(b, 3) == m + m + m;
    assert Ends(b, 3) + "" == m + m + m;
    RegroupThree(a + c + a + end, m, m, m);
    RegroupThree(a, c, a, end + (m + m + m));
  }

  lemma OpeningTagIsLeftOf(n: nat)
    ensures Brackets(TornTags(Opens(n))) == 4 + n
    ensures Find(Lower(StripOf(TornTags(Opens(n)))), KABOT_TAGS.start, 0).Some?
  {
    var t, a, c, b, r := KABOT_TAGS, "<kabot_", "</kabot_", "memory", Opens(n);
    KabotTagsAreTorn();
    WordsOf(t, a, c, b);
    BracketsOfTorn(a, c, t.end, Ends(b, 3), r);
    TornTagsLeaveTag(r);
    LowerIsSame(t.start + r);
    FoundInFront(t.start, r);
  }

  /** No reply with `n` of `<` keeps an opening tag: this holds of every number up to three, and of none above. */
  lemma NoOpeningTagIsLeftIff(n: nat)
    ensures (forall content :: Brackets(content) == n ==>
                                 Find(Lower(StripOf(content)), KABOT_TAGS.start, 0).None?) <==> n < 4
  {
    if n < 4 {
      forall content | Brackets(content) == n
        ensures Find(Lower(StripOf(content)), KABOT_TAGS.start, 0).None?
      {
        NoOpeningTagIsLeft(content);
      }
    } else {
      OpeningTagIsLeftOf(n - 4);
    }
  }

  // ---------------------------------------------------------------------------------------------
  // A well-formed block
  // ---------------------------------------------------------------------------------------------

  predicate PlainIn(s: string, lo: nat, hi: nat) {
    hi <= |s| && forall k :: lo <= k < hi ==> s[k] != '<'
  }

  predicate Plain(s: string) {
    PlainIn(s, 0, |s|)
  }

  /** Plain text, an opening tag at `i`, plain text, a closing tag at `j`. */
  predicate HasBlock(s: string, start: string, end: string, i: nat, j: nat) {
    && i + |start| <= j && PlainIn(s, 0, i) && Matches(s, start, i)
    && PlainIn(s, i + |start|, j) && Matches(s, end, j)
  }

  lemma FindIs(s: string, pattern: string, from: nat, i: nat)
    requires from <= i && Matches(s, pattern, i) && pattern != ""
    requires forall k :: from <= k < i ==> s[k] != pattern[0]
    ensures Find(s, pattern, from) == Some(i)
  {
    var r := Find(s, pattern, from);
    if r.None? || i < r.value {
      FindIsFirst(s, pattern, from, i);
    }
    FindMatches(s, pattern, from);
    assert pattern[0] == s[r.value + 0];
  }

  lemma LowerKeepsPlain(s: string, lo: nat, hi: nat)
    requires PlainIn(s, lo, hi)
    ensures PlainIn(Lower(s), lo, hi)
  {
  }

  lemma LowerKeepsMatch(s: string, pattern: string, i: nat)
    requires Matches(s, pattern, i) && NoUpper(pattern)
    ensures Matches(Lower(s), pattern, i)
  {
  }

  lemma TagsFound(s: string, start: string, end: string, i: nat, j: nat)
    requires HasBlock(s, start, end, i, j) && start != "" && start[0] == '<' && end != "" && end[0] == '<'
    ensures Find(s, start, 0) == Some(i) && Find(s, end, i + |start|) == Some(j)
  {
    FindIs(s, start, 0, i);
    FindIs(s, end, i + |start|, j);
  }

  /** A tag is found by its prefix, and closed right behind it. */
  lemma PrefixFound(s: string, prefix: string, tag: string, i: nat)
    requires IsTag(tag, prefix) && PlainIn(s, 0, i) && Matches(s, tag, i)
    ensures Find(Lower(s), prefix, 0) == Some(i) && Find(s, ">", i + |prefix|) == Some(i + |prefix|)
  {
    LowerKeepsPlain(s, 0, i);
    LowerKeepsMatch(s, tag, i);
    PrefixMatches(Lower(s), prefix, tag, i);
    FindIs(Lower(s), prefix, 0, i);
    PrefixMatches(s, prefix, tag, i);
    FindIs(s, ">", i + |prefix|, i + |prefix|);
  }

  lemma PrefixMatches(s: string, prefix: string, tag: string, i: nat)
    requires tag == prefix + ">" && Matches(s, tag, i)
    ensures Matches(s, prefix, i) && Matches(s, ">", i + |prefix|)
  {
    forall j | 0 <= j < |prefix|
      ensures s[i + j] == prefix[j]
    {
      assert tag[j] == prefix[j];
    }
    assert tag[|prefix|] == '>';
  }

  /** Three plain parts and the two tags between them make up such a reply. */
  lemma JoinHasBlock(pre: string, start: string, body: string, end: string, post: string, s: string)
    requires Plain(pre) && Plain(body) && Plain(post) && s == pre + start + body + end + post
    ensures var i, j := |pre|, |pre| + |start| + |body|;
            && HasBlock(s, start, end, i, j) && PlainIn(s, j + |end|, |s|)
            && s[..i] == pre && s[i + |start|..j] == body && s[j + |end|..] == post
  {
    forall k | 0 <= k < |body|
      ensures s[|pre| + |start| + k] == body[k]
    {
    }
    forall k | 0 <= k < |post|
      ensures s[|s| - |post| + k] == post[k]
    {
    }
  }

  /** On a reply with one well-formed block, the block is the text between the tags ... */
  lemma ExtractsTheBlock(s: string, t: Tags, i: nat, j: nat)
    requires AreTags(t) && HasBlock(s, t.start, t.end, i, j)
    ensures Extract(s, t) == Trim(s[i + |t.start|..j])
  {
    TagsFound(s, t.start, t.end, i, j);
  }

  lemma LowerHasBlock(s: string, start: string, end: string, i: nat, j: nat)
    requires HasBlock(s, start, end, i, j) && NoUpper(start) && NoUpper(end)
    ensures HasBlock(Lower(s), start, end, i, j)
  {
    LowerKeepsPlain(s, 0, i);
    LowerKeepsPlain(s, i + |start|, j);
    LowerKeepsMatch(s, start, i);
    LowerKeepsMatch(s, end, j);
  }

  /** ... which the first loop finds ... */
  lemma BlockFound(s: string, start: string, end: string, prefix: string, i: nat, j: nat)
    requires IsTag(start, prefix) && NoUpper(end) && end != "" && end[0] == '<' && HasBlock(s, start, end, i, j)
    ensures Find(Lower(s), prefix, 0) == Some(i)
    ensures Find(s, ">", i + |prefix|) == Some(i + |prefix|)
    ensures Find(Lower(s), end, i + |prefix| + 1) == Some(j)
  {
    PrefixFound(s, prefix, start, i);
    LowerHasBlock(s, start, end, i, j);
    TagsFound(Lower(s), start, end, i, j);
  }

  /** ... and erases whole ... */
  lemma BlockErased(s: string, t: Tags, i: nat, j: nat)
    requires AreTags(t) && HasBlock(s, t.start, t.end, i, j)
    ensures Find(Lower(s), t.openPrefix, 0) == Some(i)
    ensures OpenLength(s, i, t) == j - i + |t.end|
  {
    BlockFound(s, t.start, t.end, t.openPrefix, i, j);
    WholeErased(s, t, i, j);
  }

  lemma WholeErased(s: string, t: Tags, i: nat, j: nat)
    requires t.openPrefix != "" && i + |t.openPrefix| < j && j + |t.end| <= |s|
    requires Find(s, ">", i + |t.openPrefix|) == Some(i + |t.openPrefix|)
    requires Find(Lower(s), t.end, i + |t.openPrefix| + 1) == Some(j)
    ensures OpenLength(s, i, t) == j - i + |t.end|
  {
  }

  lemma PlainHasNoTag(s: string, pattern: string)
    requires Plain(s) && pattern != "" && pattern[0] == '<'
    ensures Find(Lower(s), pattern, 0).None?
  {
    LowerKeepsPlain(s, 0, |s|);
    var r := Find(Lower(s), pattern, 0);
    if r.Some? {
      NoMatchInPlain(Lower(s), pattern, r.value);
      FindMatches(Lower(s), pattern, 0);
    }
  }

  lemma NoMatchInPlain(s: string, pattern: string, i: nat)
    requires Plain(s) && pattern != "" && pattern[0] == '<'
    ensures !Matches(s, pattern, i)
  {
    if i < |s| {
      assert s[i + 0] != pattern[0];
    }
  }

  lemma PlainStays(s: string, t: Tags)
    requires AreTags(t) && Plain(s)
    ensures Stripped(s, t) == s
  {
    PlainHasNoTag(s, t.openPrefix);
    PlainHasNoTag(s, t.closePrefix);
    PlainHasNoTag(s, t.start);
    PlainHasNoTag(s, t.end);
  }

  lemma OneBlock(s: string, i: nat, t: Tags, rest: string)
    requires AreTags(t) && Find(Lower(s), t.openPrefix, 0) == Some(i) && i + |t.openPrefix| <= |s|
    requires OpenErased(s, i, t) == rest
    ensures Stripped(s, t) == Stripped(rest, t)
  {
  }

  /** ... and what is left is the text around it. */
  lemma StripsTheBlock(s: string, t: Tags, i: nat, j: nat)
    requires AreTags(t) && HasBlock(s, t.start, t.end, i, j) && PlainIn(s, j + |t.end|, |s|)
    ensures Trim(Stripped(s, t)) == Trim(s[..i] + s[j + |t.end|..])
  {
    var rest := s[..i] + s[j + |t.end|..];
    BlockErased(s, t, i, j);
    OneBlock(s, i, t, rest);
    PlainStays(rest, t);
  }

  lemma CutsOutTheBlock(s: string, t: Tags, i: nat, j: nat, pre: string, body: string, post: string)
    requires AreTags(t) && HasBlock(s, t.start, t.end, i, j) && PlainIn(s, j + |t.end|, |s|)
    requires s[..i] == pre && s[i + |t.start|..j] == body && s[j + |t.end|..] == post
    ensures Extract(s, t) == Trim(body) && Trim(Stripped(s, t)) == Trim(pre + post)
  {
    ExtractsTheBlock(s, t, i, j);
    StripsTheBlock(s, t, i, j);
  }

  /** A block between plain texts is cut out: its text is what is stored, and the texts around it, joined,
      are what is answered. */
  lemma BlockIsCutOut(pre: string, body: string, post: string, s: string)
    requires Plain(pre) && Plain(body) && Plain(post)
    requires s == pre + KABOT_TAGS.start + body + KABOT_TAGS.end + post
    ensures ExtractMemoryBlock(s) == Trim(body) && StripOf(s) == Trim(pre + post)
  {
    KabotTagsAreTags();
    var i, j := |pre|, |pre| + |KABOT_TAGS.start| + |body|;
    JoinHasBlock(pre, KABOT_TAGS.start, body, KABOT_TAGS.end, post, s);
    CutsOutTheBlock(s, KABOT_TAGS, i, j, pre, body, post);
  }

  // ---------------------------------------------------------------------------------------------
  // Torn and dressed tags
  // ---------------------------------------------------------------------------------------------

  predicate LacksIn(s: string, c: char, lo: nat, hi: nat) {
    hi <= |s| && forall k :: lo <= k < hi ==> s[k] != c
  }

  lemma NoMatchBehind(s: string, pattern: string, from: nat, k: nat)
    requires pattern != "" && LacksIn(s, pattern[0], from, |s|) && from <= k
    ensures !Matches(s, pattern, k)
  {
    Differs(s, pattern, k, 0);
  }

  lemma FindsNoneBehind(s: string, pattern: string, from: nat)
    requires pattern != "" && LacksIn(s, pattern[0], from, |s|)
    ensures Find(s, pattern, from).None?
  {
    var r := Find(s, pattern, from);
    if r.Some? {
      NoMatchBehind(s, pattern, from, r.value);
      FindMatches(s, pattern, from);
    }
  }

  lemma NoTagBehind(s: string, pattern: string, from: nat)
    requires PlainIn(s, from, |s|) && pattern != "" && pattern[0] == '<'
    ensures Find(Lower(s), pattern, from).None?
  {
    LowerKeepsPlain(s, from, |s|);
    FindsNoneBehind(Lower(s), pattern, from);
  }

  lemma NoUpperPrefix(tag: string, prefix: string)
    requires IsTag(tag, prefix)
    ensures NoUpper(prefix)
  {
    forall k | 0 <= k < |prefix|
      ensures LowerChar(prefix[k]) == prefix[k]
    {
      assert tag[k] == prefix[k];
    }
  }

  lemma FirstPrefix(s: string, tag: string, prefix: string, i: nat)
    requires IsTag(tag, prefix) && PlainIn(s, 0, i) && Matches(s, prefix, i)
    ensures Find(Lower(s), prefix, 0) == Some(i)
  {
    NoUpperPrefix(tag, prefix);
    LowerKeepsPlain(s, 0, i);
    LowerKeepsMatch(s, prefix, i);
    FindIs(Lower(s), prefix, 0, i);
  }

  lemma FirstBracket(s: string, from: nat, e: nat)
    requires from <= e < |s| && s[e] == '>' && LacksIn(s, '>', from, e)
    ensures Find(s, ">", from) == Some(e)
  {
    FindIs(s, ">", from, e);
  }

  lemma RestIsPlain(s: string, i: nat, j: nat)
    requires i <= j <= |s| && PlainIn(s, 0, i) && PlainIn(s, j, |s|)
    ensures Plain(s[..i] + s[j..]) && Erase(s, i, j - i) == s[..i] + s[j..]
  {
  }

  lemma OpensOnce(s: string, t: Tags, i: nat, j: nat)
    requires AreTags(t) && PlainIn(s, 0, i) && Matches(s, t.openPrefix, i) && i <= j <= |s| && PlainIn(s, j, |s|)
    requires OpenLength(s, i, t) == j - i
    ensures Trim(Stripped(s, t)) == Trim(s[..i] + s[j..])
  {
    FirstPrefix(s, t.start, t.openPrefix, i);
    RestIsPlain(s, i, j);
    OneBlock(s, i, t, s[..i] + s[j..]);
    PlainStays(s[..i] + s[j..], t);
  }

  lemma TagErased(s: string, t: Tags, i: nat, e: nat, end: Option<nat>)
    requires t.openPrefix != "" && i + |t.openPrefix| <= e < |s|
    requires Find(s, ">", i + |t.openPrefix|) == Some(e) && Find(Lower(s), t.end, e + 1) == end
    ensures OpenLength(s, i, t) == if end.None? then e + 1 - i else end.value + |t.end| - i
  {
    hide Find, Lower;
  }

  /** An opening tag without a closing one goes with what stands in it, and the text behind it stays. */
  lemma LoneOpeningTagIsCutOut(s: string, t: Tags, i: nat, e: nat)
    requires AreTags(t) && PlainIn(s, 0, i) && Matches(s, t.openPrefix, i) && PlainIn(s, e + 1, |s|)
    requires i + |t.openPrefix| <= e < |s| && s[e] == '>' && LacksIn(s, '>', i + |t.openPrefix|, e)
    ensures Trim(Stripped(s, t)) == Trim(s[..i] + s[e + 1..])
  {
    hide Find, Lower, OpenLength, Trim, Stripped, Erase;
    FirstBracket(s, i + |t.openPrefix|, e);
    NoTagBehind(s, t.end, e + 1);
    TagErased(s, t, i, e, None);
    OpensOnce(s, t, i, e + 1);
  }

  /** A torn opening tag goes, and what stands behind it stays. */
  lemma TornOpeningTagIsCutOut(s: string, t: Tags, i: nat)
    requires AreTags(t) && PlainIn(s, 0, i) && Matches(s, t.openPrefix, i) && PlainIn(s, i + |t.openPrefix|, |s|)
    requires LacksIn(s, '>', i + |t.openPrefix|, |s|)
    ensures Trim(Stripped(s, t)) == Trim(s[..i] + s[i + |t.openPrefix|..])
  {
    hide Find, Lower, Trim, Stripped, Erase;
    FindsNoneBehind(s, ">", i + |t.openPrefix|);
    OpensOnce(s, t, i, i + |t.openPrefix|);
  }

  lemma EndAt(s: string, end: string, from: nat, j: nat)
    requires from <= j && PlainIn(s, from, j) && Matches(s, end, j) && NoUpper(end) && end != "" && end[0] == '<'
    ensures Find(Lower(s), end, from) == Some(j)
  {
    LowerKeepsPlain(s, from, j);
    LowerKeepsMatch(s, end, j);
    FindIs(Lower(s), end, from, j);
  }

  /** A block whose opening tag holds more than its name goes whole. */
  lemma DressedBlockIsCutOut(s: string, t: Tags, i: nat, e: nat, j: nat)
    requires AreTags(t) && PlainIn(s, 0, i) && Matches(s, t.openPrefix, i)
    requires i + |t.openPrefix| <= e < j <= |s| && s[e] == '>' && LacksIn(s, '>', i + |t.openPrefix|, e)
    requires PlainIn(s, e + 1, j) && Matches(s, t.end, j) && PlainIn(s, j + |t.end|, |s|)
    ensures Trim(Stripped(s, t)) == Trim(s[..i] + s[j + |t.end|..])
  {
    hide Find, Lower, OpenLength, Trim, Stripped, Erase;
    FirstBracket(s, i + |t.openPrefix|, e);
    EndAt(s, t.end, e + 1, j);
    TagErased(s, t, i, e, Some(j));
    OpensOnce(s, t, i, j + |t.end|);
  }

  /** The two prefixes part at their second character, and hold one `<` each. */
  predicate ArePrefixes(t: Tags) {
    && AreTags(t) && |t.openPrefix| > 1 && |t.closePrefix| > 1 && t.openPrefix[1] != t.closePrefix[1]
    && forall k :: 1 <= k < |t.closePrefix| ==> t.closePrefix[k] != '<'
  }

  lemma KabotPrefixes()
    ensures ArePrefixes(KABOT_TAGS)
  {
    KabotTagsAreTags();
  }

  /** The one `<` opens a closing tag. */
  predicate OnlyCloses(s: string, t: Tags, i: nat) {
    PlainIn(s, 0, i) && Matches(s, t.closePrefix, i) && PlainIn(s, i + |t.closePrefix|, |s|)
  }

  lemma NoOpeningAt(s: string, t: Tags, i: nat, k: nat)
    requires ArePrefixes(t) && OnlyCloses(s, t, i)
    ensures !Matches(Lower(s), t.openPrefix, k)
  {
    NoUpperPrefix(t.end, t.closePrefix);
    LowerKeepsPlain(s, 0, i);
    LowerKeepsPlain(s, i + |t.closePrefix|, |s|);
    LowerKeepsMatch(s, t.closePrefix, i);
    if i < k < i + |t.closePrefix| {
      assert Lower(s)[i + (k - i)] == t.closePrefix[k - i];
    }
    if k == i {
      assert Lower(s)[i + 1] == t.closePrefix[1];
    }
    Differs(Lower(s), t.openPrefix, k, if k == i then 1 else 0);
  }

  lemma NoOpening(s: string, t: Tags, i: nat)
    requires ArePrefixes(t) && OnlyCloses(s, t, i)
    ensures Find(Lower(s), t.openPrefix, 0).None?
  {
    var r := Find(Lower(s), t.openPrefix, 0);
    if r.Some? {
      NoOpeningAt(s, t, i, r.value);
      FindMatches(Lower(s), t.openPrefix, 0);
    }
  }

  lemma ClosesFirst(s: string, t: Tags, i: nat, j: nat)
    requires ArePrefixes(t) && OnlyCloses(s, t, i) && i + |t.closePrefix| <= j <= |s|
    requires CloseLength(s, i, t) == j - i
    ensures Trim(Stripped(s, t)) == Trim(s[..i] + s[j..])
  {
    var rest := s[..i] + s[j..];
    NoOpening(s, t, i);
    FirstPrefix(s, t.end, t.closePrefix, i);
    RestIsPlain(s, i, j);
    ClosesOnce(t, s, i, rest);
    PlainStays(rest, t);
    PlainHasNoTag(rest, t.openPrefix);
    PlainHasNoTag(rest, t.closePrefix);
  }

  /** A closing tag without an opening one goes with what stands in it. */
  lemma LoneClosingTagIsCutOut(s: string, t: Tags, i: nat, e: nat)
    requires ArePrefixes(t) && OnlyCloses(s, t, i)
    requires i + |t.closePrefix| <= e < |s| && s[e] == '>' && LacksIn(s, '>', i + |t.closePrefix|, e)
    ensures Trim(Stripped(s, t)) == Trim(s[..i] + s[e + 1..])
  {
    FirstBracket(s, i + |t.closePrefix|, e);
    ClosesFirst(s, t, i, e + 1);
  }

  /** A torn closing tag goes, and what stands behind it stays. */
  lemma TornClosingTagIsCutOut(s: string, t: Tags, i: nat)
    requires ArePrefixes(t) && OnlyCloses(s, t, i) && LacksIn(s, '>', i + |t.closePrefix|, |s|)
    ensures Trim(Stripped(s, t)) == Trim(s[..i] + s[i + |t.closePrefix|..])
  {
    FindsNoneBehind(s, ">", i + |t.closePrefix|);
    ClosesFirst(s, t, i, i + |t.closePrefix|);
  }

  // ---------------------------------------------------------------------------------------------
  // What is extracted from any reply
  // ---------------------------------------------------------------------------------------------

  /** The block is the trimmed text between the first opening tag and the first closing tag behind it ... */
  lemma ExtractsFirstBlock(content: string, t: Tags, i: nat, j: nat)
    requires Matches(content, t.start, i) && (forall k: nat :: k < i ==> !Matches(content, t.start, k))
    requires i + |t.start| <= j && Matches(content, t.end, j)
    requires forall k: nat :: i + |t.start| <= k < j ==> !Matches(content, t.end, k)
    ensures Extract(content, t) == Trim(content[i + |t.start|..j])
  {
    FirstIsFound(content, t.start, 0, i);
    FirstIsFound(content, t.end, i + |t.start|, j);
  }

  /** ... and without such a pair there is none. */
  lemma ExtractsNothing(content: string, t: Tags)
    requires forall i: nat, j: nat :: Matches(content, t.start, i) && i + |t.start| <= j ==> !Matches(content, t.end, j)
    ensures Extract(content, t) == ""
  {
    var start := Find(content, t.start, 0);
    if start.Some? {
      FindMatches(content, t.start, 0);
      var end := Find(content, t.end, start.value + |t.start|);
      if end.Some? {
        FindMatches(content, t.end, start.value + |t.start|);
      }
    }
  }

  lemma FirstIsFound(s: string, pattern: string, from: nat, i: nat)
    requires from <= i && Matches(s, pattern, i) && forall k: nat :: from <= k < i ==> !Matches(s, pattern, k)
    ensures Find(s, pattern, from) == Some(i)
  {
    var r := Find(s, pattern, from);
    if r.None? || i < r.value {
      FindIsFirst(s, pattern, from, i);
    }
    FindMatches(s, pattern, from);
  }

  // ---------------------------------------------------------------------------------------------
  // Blanks and capitals
  // ---------------------------------------------------------------------------------------------

  predicate IsBlank(c: char) {
    c == ' ' || c == '\t' || c == '\n' || c == '\r' || c == '\U{000B}' || c == '\U{000C}'
  }

  lemma {:induction false} LeftTrimmed(s: string) returns (lo: nat)
    ensures lo <= |s| && TrimLeft(s) == s[lo..] && (lo < |s| ==> !IsBlank(s[lo]))
    ensures forall k :: 0 <= k < lo ==> IsBlank(s[k])
  {
    if s != [] && IsSpace(s[0]) {
      lo := LeftTrimmed(s[1..]);
      lo := lo + 1;
      assert forall k :: 1 <= k < lo ==> s[k] == s[1..][k - 1];
    } else {
      lo := 0;
    }
  }

  lemma {:induction false} RightTrimmed(s: string) returns (hi: nat)
    ensures hi <= |s| && TrimRight(s) == s[..hi] && (0 < hi ==> !IsBlank(s[hi - 1]))
    ensures forall k :: hi <= k < |s| ==> IsBlank(s[k])
  {
    if s != [] && IsSpace(s[|s| - 1]) {
      hi := RightTrimmed(s[..|s| - 1]);
    } else {
      hi := |s|;
    }
  }

  /** Trimming takes the blanks off both ends and nothing else. */
  lemma TrimIs(s: string) returns (lo: nat, hi: nat)
    ensures lo <= hi <= |s| && Trim(s) == s[lo..hi]
    ensures (forall k :: 0 <= k < lo ==> IsBlank(s[k])) && (forall k :: hi <= k < |s| ==> IsBlank(s[k]))
    ensures lo < hi ==> !IsBlank(s[lo]) && !IsBlank(s[hi - 1])
  {
    lo := LeftTrimmed(s);
    var rest := s[lo..];
    var n := RightTrimmed(rest);
    hi := lo + n;
    assert forall k :: hi <= k < |s| ==> s[k] == rest[k - lo];
    assert n > 0 ==> rest[n - 1] == s[hi - 1];
  }

  lemma TrimIsEmptyIff(s: string)
    ensures Trim(s) == "" <==> forall k :: 0 <= k < |s| ==> IsBlank(s[k])
  {
    var lo, hi := TrimIs(s);
    if Trim(s) == "" {
      assert lo == hi;
    } else {
      assert lo < hi;
    }
  }

  /** `c` is the character, or its capital. */
  predicate IsLetter(c: char, small: char) {
    c == small || ('A' <= c <= 'Z' && c as int - 'A' as int == small as int - 'a' as int)
  }

  /** `word`, which has no capitals, stands at `k` in any case of letters. */
  predicate StandsAt(s: string, word: string, k: nat) {
    && k + |word| <= |s|
    && forall j :: 0 <= j < |word| ==> IsLetter(s[k + j], word[j])
  }

  lemma MatchesInAnyCase(s: string, word: string, k: nat)
    requires forall j :: 0 <= j < |word| ==> !('A' <= word[j] <= 'Z')
    ensures Matches(Lower(s), word, k) <==> StandsAt(s, word, k)
  {
    if k + |word| <= |s| {
      forall j | 0 <= j < |word|
        ensures Lower(s)[k + j] == word[j] <==> IsLetter(s[k + j], word[j])
      {
      }
    }
  }

  /** Read letter by letter: no closing tag is left in any reply, in any case, and no opening tag in one with fewer
      than four `<`. */
  lemma NoTagStands(content: string, k: nat)
    ensures !StandsAt(StripOf(content), "</kabot_memory>", k)
    ensures Brackets(content) < 4 ==> !StandsAt(StripOf(content), "<kabot_memory>", k)
  {
    var s := StripOf(content);
    NoClosingTagIsLeft(content);
    MatchesInAnyCase(s, KABOT_TAGS.end, k);
    FindIsFirst(Lower(s), KABOT_TAGS.end, 0, k);
    if Brackets(content) < 4 {
      NoOpeningTagIsLeft(content);
      MatchesInAnyCase(s, KABOT_TAGS.start, k);
      FindIsFirst(Lower(s), KABOT_TAGS.start, 0, k);
    }
  }
}
