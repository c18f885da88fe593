/** Recovering the JSON object from a model answer (app/core/llm_router.py, _repair_json). */
module RepairJson {
  import opened Wrappers
  import opened Text

  const OPEN_TAG := "<think>"
  const CLOSE_TAG := "</think>"
  const CAP: nat := 100_000

  predicate FenceAhead(s: string) {
    |s| >= 3 && s[0] == '`' && s[1] == '`' && s[2] == '`'
  }

  predicate JsonFenceAhead(s: string) {
    FenceAhead(s) && |s| >= 7 && s[3] == 'j' && s[4] == 's' && s[5] == 'o' && s[6] == 'n'
  }

  /** `re.sub` of a code fence, with or without its `json` label, by the empty string. */
  function StripFences(s: string): string
    decreases |s|
  {
    if s == "" then ""
    else if JsonFenceAhead(s) then StripFences(s[7..])
    else if FenceAhead(s) then StripFences(s[3..])
    else [s[0]] + StripFences(s[1..])
  }

  /** What is left of the text once the chain of thought is gone. */
  function DropThought(text: string): string {
    var close := RFind(text, CLOSE_TAG);
    var open := Find(text, OPEN_TAG);
    if close.Some? then text[close.value + |CLOSE_TAG|..]
    else if open.Some? then text[..open.value]
    else text
  }

  function Capped(s: string): string {
    if |s| <= CAP then s else s[..CAP]
  }

  /** The outermost braces of `s`, or all of `s` when there are none. */
  function OuterObject(s: string): string {
    var start := FindChar(s, '{');
    var end := RFindChar(s, '}');
    if start.Some? && end.Some? && end.value > start.value then s[start.value..end.value + 1] else s
  }

  function Repaired(text: string): string {
    OuterObject(Capped(Strip(StripFences(DropThought(text)))))
  }

  method RepairJson(text: string) returns (r: string)
    ensures r == Repaired(text)
  {
    r := text;
    var close := RFind(r, CLOSE_TAG);
    if close.Some? {
      r := r[close.value + |CLOSE_TAG|..];
    } else {
      var open := Find(r, OPEN_TAG);
      if open.Some? {
        r := r[..open.value];
      }
    }
    assert r == DropThought(text);
    r := Strip(StripFences(r));
    ghost var stripped := r;
    if |r| > CAP {
      r := r[..CAP];
    }
    assert r == Capped(stripped);
    var start, end := FindChar(r, '{'), RFindChar(r, '}');
    if start.Some? && end.Some? && end.value > start.value {
      r := r[start.value..end.value + 1];
    }
    assert r == OuterObject(Capped(stripped));
  }

  // ------------------------------------------------------------------ wrapping

  predicate BraceFree(s: string) {
    forall i :: 0 <= i < |s| ==> s[i] != '{' && s[i] != '}'
  }

  ghost predicate TagFree(s: string) {
    !Contains(s, OPEN_TAG) && !Contains(s, CLOSE_TAG)
  }

  /** A JSON object as text: braces at both ends, no fence and no tag inside. */
  ghost predicate ObjectText(s: string) {
    |s| >= 2 && s[0] == '{' && s[|s| - 1] == '}' && FenceFree(s) && TagFree(s)
  }

  /** The prose left before the object still leaves room for it under the cap. */
  predicate Room(before: string, s: string) {
    |LStrip(StripFences(before))| + |s| <= CAP
  }

  /** No occurrence of a word made of the letters `letters` straddles the seam between `a` and `b`. */
  predicate Seam(a: string, b: string, letters: string) {
    a == "" || b == "" || a[|a| - 1] !in letters || b[0] !in letters
  }

  lemma CharAt(s: string, sub: string, i: int, k: int)
    requires OccursAt(s, sub, i) && 0 <= k < |sub|
    ensures s[i + k] == sub[k]
  {
    assert s[i..i + |sub|][k] == s[i + k];
  }

  /** An occurrence on one side of a concatenation is an occurrence in that side. */
  lemma OccursInPart(a: string, b: string, sub: string, i: int)
    ensures i + |sub| <= |a| ==> (OccursAt(a + b, sub, i) <==> OccursAt(a, sub, i))
    ensures i >= |a| ==> (OccursAt(a + b, sub, i) <==> OccursAt(b, sub, i - |a|))
  {
    if 0 <= i && i + |sub| <= |a| {
      assert a[i..i + |sub|] == (a + b)[i..i + |sub|];
    }
    if i >= |a| && i + |sub| <= |a + b| {
      assert b[i - |a|..i - |a| + |sub|] == (a + b)[i..i + |sub|];
    }
  }

  lemma OccursInConcat(a: string, b: string, sub: string, i: int)
    requires |sub| >= 1 && Seam(a, b, sub) && OccursAt(a + b, sub, i)
    ensures OccursAt(a, sub, i) || OccursAt(b, sub, i - |a|)
  {
    var t := a + b;
    OccursInPart(a, b, sub, i);
    if i < |a| < i + |sub| {
      CharAt(t, sub, i, |a| - 1 - i);
      CharAt(t, sub, i, |a| - i);
      assert false;
    }
  }

  lemma ConcatFree(a: string, b: string, sub: string)
    requires |sub| >= 1 && Seam(a, b, sub) && !Contains(a, sub) && !Contains(b, sub)
    ensures !Contains(a + b, sub)
  {
    if Contains(a + b, sub) {
      var i :| OccursAt(a + b, sub, i);
      OccursInConcat(a, b, sub, i);
    }
  }

  predicate InFence(c: char) {
    c == '`' || c == 'j' || c == 's' || c == 'o' || c == 'n'
  }

  predicate FenceSeam(a: string, b: string) {
    a == "" || b == "" || !InFence(a[|a| - 1]) || !InFence(b[0])
  }

  lemma FenceAheadConcat(a: string, b: string)
    requires a != "" && FenceSeam(a, b)
    ensures FenceAhead(a + b) <==> FenceAhead(a)
    ensures JsonFenceAhead(a + b) <==> JsonFenceAhead(a)
  {
    var t := a + b;
    assert forall i :: 0 <= i < |a| ==> t[i] == a[i];
    assert b != "" ==> t[|a|] == b[0];
  }

  /** Fences are removed piece by piece across a seam that no fence can straddle. */
  lemma {:induction false} StripFencesConcat(a: string, b: string)
    requires FenceSeam(a, b)
    ensures StripFences(a + b) == StripFences(a) + StripFences(b)
    decreases |a|
  {
    if a == "" {
      assert a + b == b;
    } else {
      FenceAheadConcat(a, b);
      var n := if JsonFenceAhead(a) then 7 else if FenceAhead(a) then 3 else 1;
      assert (a + b)[n..] == a[n..] + b;
      StripFencesConcat(a[n..], b);
      if n == 1 {
        assert StripFences(a + b) == [a[0]] + (StripFences(a[1..]) + StripFences(b));
      }
    }
  }

  predicate FenceFree(s: string) {
    forall i :: 0 <= i < |s| ==> !FenceAhead(s[i..])
  }

  lemma {:induction false} StripFencesNoFence(s: string)
    requires FenceFree(s)
    ensures StripFences(s) == s
    decreases |s|
  {
    if s != "" {
      assert !FenceAhead(s) by {
        assert s[0..] == s;
      }
      forall i | 0 <= i < |s[1..]| ensures !FenceAhead(s[1..][i..]) {
        assert s[1..][i..] == s[i + 1..];
      }
      StripFencesNoFence(s[1..]);
    }
  }

  lemma {:induction false} StripFencesBraceFree(s: string)
    requires BraceFree(s)
    ensures BraceFree(StripFences(s))
    decreases |s|
  {
    if s != "" {
      var n := if JsonFenceAhead(s) then 7 else if FenceAhead(s) then 3 else 1;
      StripFencesBraceFree(s[n..]);
    }
  }

  lemma {:induction false} LStripConcat(a: string, b: string)
    requires b != "" && !IsSpace(b[0])
    ensures LStrip(a + b) == LStrip(a) + b
  {
    if a == "" {
      assert a + b == b;
    } else if IsSpace(a[0]) {
      assert (a + b)[1..] == a[1..] + b;
      LStripConcat(a[1..], b);
    }
  }

  lemma {:induction false} RStripConcat(a: string, b: string)
    requires a != "" && !IsSpace(a[|a| - 1])
    ensures RStrip(a + b) == a + RStrip(b)
  {
    if b == "" {
      assert a + b == a;
    } else if IsSpace(b[|b| - 1]) {
      assert (a + b)[..|a + b| - 1] == a + b[..|b| - 1];
      RStripConcat(a, b[..|b| - 1]);
    }
  }

  lemma {:induction false} StripBraceFree(s: string)
    requires BraceFree(s)
    ensures BraceFree(LStrip(s)) && BraceFree(RStrip(s))
    decreases |s|
  {
    if s != "" {
      StripBraceFree(s[1..]);
      StripBraceFree(s[..|s| - 1]);
    }
  }

  /** Taking the outermost braces of a capped `p + s + q` gives `s` back exactly when the cap leaves `s` whole. */
  lemma OuterObjectOfWrapped(p: string, s: string, q: string)
    requires ObjectText(s) && BraceFree(p) && BraceFree(q)
    ensures OuterObject(Capped(p + s + q)) == s <==> |p| + |s| <= CAP
  {
    var t := Capped(p + s + q);
    var start, end := FindChar(t, '{'), RFindChar(t, '}');
    if |p| + |s| <= CAP {
      assert t == p + s + t[|p| + |s|..];
      assert t[|p|] == s[0] && t[|p| + |s| - 1] == s[|s| - 1];
      assert '{' !in t[..|p|] && '}' !in t[|p| + |s|..];
      assert start.value == |p| && end.value == |p| + |s| - 1;
      assert t[|p|..|p| + |s|] == s;
    } else {
      assert |t| == CAP;
      if start.Some? && end.Some? && end.value > start.value {
        assert t[start.value] == '{';
        assert start.value >= |p|;
        assert |OuterObject(t)| <= CAP - |p|;
      } else {
        assert |p| > 0 ==> t[0] == p[0] && s[0] != p[0];
      }
    }
  }

  lemma StripAround(p: string, s: string, q: string)
    requires ObjectText(s) && BraceFree(p) && BraceFree(q)
    ensures Strip(p + s + q) == LStrip(p) + s + RStrip(q)
    ensures BraceFree(LStrip(p)) && BraceFree(RStrip(q))
  {
    assert p + s + q == p + (s + q);
    LStripConcat(p, s + q);
    assert LStrip(p) + (s + q) == (LStrip(p) + s) + q;
    RStripConcat(LStrip(p) + s, q);
    StripBraceFree(p);
    StripBraceFree(q);
  }

  /** Fences go from the prose, and the object stays. */
  lemma FencesAround(before: string, s: string, after: string)
    requires ObjectText(s)
    ensures StripFences(before + s + after) == StripFences(before) + s + StripFences(after)
  {
    ObjectSeams(before, s, after);
    StripFencesConcat(before + s, after);
    StripFencesConcat(before, s);
    StripFencesNoFence(s);
  }

  /** No fence straddles a brace. */
  lemma ObjectSeams(before: string, s: string, after: string)
    requires ObjectText(s)
    ensures FenceSeam(before, s) && FenceSeam(before + s, after) && FenceFree(s)
  {
    assert (before + s)[|before + s| - 1] == s[|s| - 1];
  }

  lemma RepairedBody(before: string, s: string, after: string)
    requires ObjectText(s) && BraceFree(before) && BraceFree(after)
    ensures OuterObject(Capped(Strip(StripFences(before + s + after)))) == s <==> Room(before, s)
  {
    var p, q := StripFences(before), StripFences(after);
    FencesAround(before, s, after);
    StripFencesBraceFree(before);
    StripFencesBraceFree(after);
    StripAround(p, s, q);
    OuterObjectOfWrapped(LStrip(p), s, RStrip(q));
  }

  lemma LastCloseTag(thought: string, rest: string)
    requires !Contains(rest, CLOSE_TAG)
    ensures DropThought(thought + CLOSE_TAG + rest) == rest
  {
    var t := thought + CLOSE_TAG + rest;
    assert t[|thought|..|thought| + |CLOSE_TAG|] == CLOSE_TAG;
    assert OccursAt(t, CLOSE_TAG, |thought|);
    forall j | j > |thought| ensures !OccursAt(t, CLOSE_TAG, j) {
      OccursInPart(thought + CLOSE_TAG, rest, CLOSE_TAG, j);
      if OccursAt(t, CLOSE_TAG, j) {
        CharAt(t, CLOSE_TAG, j, 0);
        assert false;
      }
    }
    assert t[|thought| + |CLOSE_TAG|..] == rest;
  }

  /** Unwrapping undoes wrapping, with or without a closed reasoning block, exactly when the cap leaves room. */
  lemma UnwrapUndoesWrap(thought: string, before: string, s: string, after: string)
    requires ObjectText(s)
    requires BraceFree(before) && BraceFree(after) && TagFree(before) && TagFree(after)
    ensures Repaired(before + s + after) == s <==> Room(before, s)
    ensures Repaired(thought + CLOSE_TAG + (before + s + after)) == s <==> Room(before, s)
  {
    var body := before + s + after;
    ConcatFree(before, s, CLOSE_TAG);
    ConcatFree(before + s, after, CLOSE_TAG);
    ConcatFree(before, s, OPEN_TAG);
    ConcatFree(before + s, after, OPEN_TAG);
    RepairedBody(before, s, after);
    LastCloseTag(thought, body);
  }

  /** When the reasoning was cut off, nothing from the open tag on reaches the result. */
  lemma NothingSurvivesUnclosedTag(before: string, thought: string)
    requires TagFree(before) && !Contains(before + OPEN_TAG + thought, CLOSE_TAG)
    ensures Repaired(before + OPEN_TAG + thought) == Repaired(before)
  {
    var t := before + OPEN_TAG + thought;
    assert t[|before|..|before| + |OPEN_TAG|] == OPEN_TAG;
    assert OccursAt(t, OPEN_TAG, |before|);
    var first := Find(t, OPEN_TAG).value;
    assert t[|before|] == '<';
    assert t == before + (OPEN_TAG + thought);
    OccursInPart(before, OPEN_TAG + thought, OPEN_TAG, first);
    if first < |before| {
      CharAt(t, OPEN_TAG, first, |before| - first);
      assert false;
    }
    assert t[..first] == before;
  }

  // ------------------------------------------------------------------ the pieces

  /** A fence goes, with its `json` label or without one, and what is around it stays. */
  lemma FenceGoes(a: string, b: string)
    requires a == "" || !InFence(a[|a| - 1])
    ensures StripFences(a + ("```json" + b)) == StripFences(a) + StripFences(b)
    ensures !JsonFenceAhead("```" + b) ==> StripFences(a + ("```" + b)) == StripFences(a) + StripFences(b)
  {
    StripFencesConcat(a, "```json" + b);
    StripFencesConcat(a, "```" + b);
    assert ("```json" + b)[7..] == b && ("```" + b)[3..] == b;
    assert JsonFenceAhead("```json" + b) && FenceAhead("```" + b);
  }

  /** A plain text without braces, fences and tags, and within the cap, passes as it is. */
  lemma PlainTextPasses(text: string)
    requires BraceFree(text) && FenceFree(text) && TagFree(text) && Strip(text) == text && |text| <= CAP
    ensures Repaired(text) == text
  {
    StripFencesNoFence(text);
  }
}
