/**
 * The feature list of the forge form (`components/forge/forge-form.tsx`):
 * toggling one of the suggested features, and folding the lines of the
 * custom-instructions box into the list when the box loses focus.
 */
module FeatureEditing {
  import opened Text

  // =====================================================================
  // Sequence vocabulary

  /** `xs.filter((item) => item !== x)`. */
  function RemoveAll(xs: seq<string>, x: string): (r: seq<string>)
    ensures x !in r
    ensures |r| <= |xs|
  {
    if xs == [] then [] else (if xs[0] == x then [] else [xs[0]]) + RemoveAll(xs[1..], x)
  }

  /** `a` is `b` with some elements deleted and the rest kept in order. */
  predicate IsSubsequence(a: seq<string>, b: seq<string>)
  {
    if a == [] then true
    else if b == [] then false
    else if a[0] == b[0] then IsSubsequence(a[1..], b[1..])
    else IsSubsequence(a, b[1..])
  }

  predicate NoDuplicates(xs: seq<string>)
  {
    forall i, j :: 0 <= i < j < |xs| ==> xs[i] != xs[j]
  }

  /**
   * Removing every occurrence of `x` keeps every other element, as often as
   * it occurred and in its original order, and leaves no `x` behind.
   */
  lemma RemoveAllSpec(xs: seq<string>, x: string)
    ensures x !in RemoveAll(xs, x)
    ensures multiset(RemoveAll(xs, x)) == multiset(xs)[x := 0]
    ensures IsSubsequence(RemoveAll(xs, x), xs)
  {
    RemoveAllCounts(xs, x);
    RemoveAllKeepsOrder(xs, x);
  }

  /** Every element other than `x` keeps its number of occurrences. */
  lemma {:induction false} RemoveAllCounts(xs: seq<string>, x: string)
    ensures multiset(RemoveAll(xs, x)) == multiset(xs)[x := 0]
  {
    if xs != [] {
      RemoveAllCounts(xs[1..], x);
      assert xs == [xs[0]] + xs[1..];
      assert multiset(xs) == multiset{xs[0]} + multiset(xs[1..]);
    }
  }

  /** The elements kept are in their original order. */
  lemma {:induction false} RemoveAllKeepsOrder(xs: seq<string>, x: string)
    ensures IsSubsequence(RemoveAll(xs, x), xs)
  {
    if xs != [] {
      RemoveAllKeepsOrder(xs[1..], x);
      var rest := RemoveAll(xs[1..], x);
      if xs[0] != x {
        assert RemoveAll(xs, x) == [xs[0]] + rest;
        assert RemoveAll(xs, x)[1..] == rest;
      } else {
        assert RemoveAll(xs, x) == rest;
        SubsequenceOfTail(rest, xs);
      }
    }
  }

  /** A subsequence of the tail is a subsequence of the whole list. */
  lemma {:induction false} SubsequenceOfTail(a: seq<string>, b: seq<string>)
    requires b != [] && IsSubsequence(a, b[1..])
    ensures IsSubsequence(a, b)
    decreases |b|, 0
  {
    if a != [] && a[0] == b[0] {
      SubsequenceDropHead(a, b[1..]);
    }
  }

  /** Dropping the first element of a subsequence leaves a subsequence. */
  lemma {:induction false} SubsequenceDropHead(a: seq<string>, b: seq<string>)
    requires a != [] && IsSubsequence(a, b)
    ensures IsSubsequence(a[1..], b)
    decreases |b|, 1
  {
    if a[0] == b[0] {
      SubsequenceOfTail(a[1..], b);
    } else {
      SubsequenceDropHead(a, b[1..]);
      SubsequenceOfTail(a[1..], b);
    }
  }

  /** The filtered list holds exactly the elements other than `x`. */
  lemma {:induction false} RemoveAllMembers(xs: seq<string>, x: string)
    ensures forall y :: y in RemoveAll(xs, x) <==> y in xs && y != x
  {
    if xs != [] {
      RemoveAllMembers(xs[1..], x);
      assert xs == [xs[0]] + xs[1..];
    }
  }

  /** Removing an element that is not there changes nothing. */
  lemma {:induction false} RemoveAllAbsent(xs: seq<string>, x: string)
    requires x !in xs
    ensures RemoveAll(xs, x) == xs
  {
    if xs != [] {
      assert x !in xs[1..];
      RemoveAllAbsent(xs[1..], x);
    }
  }

  /** Filtering distributes over concatenation. */
  lemma {:induction false} RemoveAllAppend(a: seq<string>, b: seq<string>, x: string)
    ensures RemoveAll(a + b, x) == RemoveAll(a, x) + RemoveAll(b, x)
  {
    if a != [] {
      assert (a + b)[1..] == a[1..] + b;
      RemoveAllAppend(a[1..], b, x);
    } else {
      assert a + b == b;
    }
  }

  // =====================================================================
  // toggleFeature

  /** `toggleFeature`: a present feature is filtered out, an absent one appended. */
  function Toggled(features: seq<string>, feature: string): (r: seq<string>)
    ensures feature in r <==> feature !in features
  {
    if feature in features then RemoveAll(features, feature) else features + [feature]
  }

  /**
   * Toggling a present feature removes every occurrence of it and keeps all
   * other features, with their multiplicities, in their original order.
   */
  lemma ToggleRemovesPresent(features: seq<string>, feature: string)
    requires feature in features
    ensures feature !in Toggled(features, feature)
    ensures multiset(Toggled(features, feature)) == multiset(features)[feature := 0]
    ensures IsSubsequence(Toggled(features, feature), features)
  {
    RemoveAllSpec(features, feature);
  }

  /** Toggling an absent feature appends it, once, after the unchanged list. */
  lemma ToggleAppendsAbsent(features: seq<string>, feature: string)
    requires feature !in features
    ensures Toggled(features, feature)[..|features|] == features
    ensures |Toggled(features, feature)| == |features| + 1
    ensures multiset(Toggled(features, feature))[feature] == 1
  {
  }

  /** Toggling an absent feature twice gives back the original list. */
  lemma ToggleTwiceRestores(features: seq<string>, feature: string)
    requires feature !in features
    ensures Toggled(Toggled(features, feature), feature) == features
  {
    RemoveAllAppend(features, [feature], feature);
    RemoveAllAbsent(features, feature);
    assert RemoveAll([feature], feature) == [];
  }

  // =====================================================================
  // The custom-instructions merge

  /** `value.split("\n").map((line) => line.trim())`. */
  function TrimmedLines(text: string): (lines: seq<string>)
    ensures |lines| == |Split(text, '\n')|
    ensures forall i :: 0 <= i < |lines| ==> lines[i] == Trim(Split(text, '\n')[i])
  {
    var pieces := Split(text, '\n');
    seq(|pieces|, i requires 0 <= i < |pieces| => Trim(pieces[i]))
  }

  /** `value.split("\n").map((line) => line.trim()).filter(Boolean)`. */
  function CustomLines(text: string): (lines: seq<string>)
    ensures "" !in lines
    ensures |lines| <= |Split(text, '\n')|
  {
    RemoveAll(TrimmedLines(text), "")
  }

  /** A line as the merge keeps it: non-empty, no whitespace at either end, no line break. */
  predicate CleanLine(l: string)
  {
    l != [] && !IsJsWhitespace(l[0]) && !IsJsWhitespace(l[|l| - 1]) && '\n' !in l
  }

  /** Trimming a piece without line breaks gives a clean line unless the piece is blank. */
  lemma TrimClean(piece: string)
    requires '\n' !in piece && Trim(piece) != []
    ensures CleanLine(Trim(piece))
  {
    TrimKeepsCharacters(piece);
  }

  /** The trimmed `i`th line, when not empty, is clean. */
  lemma TrimmedLineClean(text: string, i: nat)
    requires i < |TrimmedLines(text)| && TrimmedLines(text)[i] != []
    ensures CleanLine(TrimmedLines(text)[i])
  {
    TrimClean(Split(text, '\n')[i]);
  }

  /** Every line the merge keeps is clean. */
  lemma CustomLinesAreTrimmed(text: string)
    ensures forall l :: l in CustomLines(text) ==> CleanLine(l)
  {
    var trimmed := TrimmedLines(text);
    RemoveAllMembers(trimmed, "");
    forall l | l in CustomLines(text) ensures CleanLine(l) {
      var i :| 0 <= i < |trimmed| && trimmed[i] == l;
      TrimmedLineClean(text, i);
    }
  }

  /** Every line of the text that is not blank is kept, trimmed. */
  lemma CustomLinesKeepNonBlank(text: string, i: nat)
    requires i < |Split(text, '\n')| && !AllWhitespace(Split(text, '\n')[i])
    ensures Trim(Split(text, '\n')[i]) in CustomLines(text)
  {
    var trimmed := TrimmedLines(text);
    RemoveAllMembers(trimmed, "");
    assert trimmed[i] == Trim(Split(text, '\n')[i]) != [];
    assert trimmed[i] in trimmed;
  }

  /** Trimming only removes characters. */
  lemma TrimKeepsCharacters(s: string)
    ensures forall c :: c in Trim(s) ==> c in s
  {
    TrimStartKeepsCharacters(s);
    TrimEndKeepsCharacters(TrimStart(s));
  }

  /** Dropping leading whitespace only removes characters. */
  lemma TrimStartKeepsCharacters(s: string)
    ensures forall c :: c in TrimStart(s) ==> c in s
  {
    var t := TrimStart(s);
    forall c | c in t ensures c in s {
      var k :| 0 <= k < |t| && t[k] == c;
      assert s[|s| - |t| + k] == c;
    }
  }

  /** Dropping trailing whitespace only removes characters. */
  lemma TrimEndKeepsCharacters(s: string)
    ensures forall c :: c in TrimEnd(s) ==> c in s
  {
    var t := TrimEnd(s);
    forall c | c in t ensures c in s {
      var k :| 0 <= k < |t| && t[k] == c;
      assert s[k] == c;
    }
  }

  /** `Array.from(new Set(xs))`: each element once, in order of first occurrence. */
  function Dedup(xs: seq<string>): (r: seq<string>)
    ensures |r| <= |xs|
    ensures forall x :: x in r ==> x in xs
  {
    if xs == [] then []
    else
      var kept := Dedup(xs[..|xs| - 1]);
      if xs[|xs| - 1] in kept then kept else kept + [xs[|xs| - 1]]
  }

  /** Deduplication keeps exactly the elements of the list, each once. */
  lemma {:induction false} DedupSpec(xs: seq<string>)
    ensures NoDuplicates(Dedup(xs))
    ensures forall x :: x in Dedup(xs) <==> x in xs
  {
    if xs != [] {
      var init := xs[..|xs| - 1];
      DedupSpec(init);
      assert xs == init + [xs[|xs| - 1]];
    }
  }

  /** Deduplicating a longer list only appends to the deduplicated prefix. */
  lemma {:induction false} DedupPrefix(a: seq<string>, b: seq<string>)
    ensures Dedup(a) <= Dedup(a + b)
  {
    if b == [] {
      assert a + b == a;
    } else {
      var b' := b[..|b| - 1];
      DedupPrefix(a, b');
      assert (a + b)[..|a + b| - 1] == a + b';
    }
  }

  /** Appending elements already present changes nothing. */
  lemma {:induction false} DedupCovered(a: seq<string>, b: seq<string>)
    requires forall x :: x in b ==> x in a
    ensures Dedup(a + b) == Dedup(a)
  {
    if b == [] {
      assert a + b == a;
    } else {
      var b' := b[..|b| - 1];
      DedupCovered(a, b');
      assert (a + b)[..|a + b| - 1] == a + b';
      DedupSpec(a + b');
      assert b[|b| - 1] in a;
    }
  }

  /** A list without duplicates is its own deduplication. */
  lemma {:induction false} DedupDistinct(xs: seq<string>)
    requires NoDuplicates(xs)
    ensures Dedup(xs) == xs
  {
    if xs != [] {
      var init := xs[..|xs| - 1];
      DedupDistinct(init);
      DedupSpec(init);
      assert xs == init + [xs[|xs| - 1]];
    }
  }

  /** The `onBlur` handler: the features with the new lines folded in, or the features as they were when no line is left. */
  function MergeCustom(features: seq<string>, text: string): (r: seq<string>)
    ensures |r| <= |features| + |CustomLines(text)|
    ensures forall x :: x in r ==> x in features || x in CustomLines(text)
  {
    var lines := CustomLines(text);
    if |lines| > 0 then Dedup(features + lines) else features
  }

  /**
   * After a merge that found lines: no feature is listed twice, every kept
   * line is listed, nothing else is added, and the list starts with the old
   * features, each once, in their first-occurrence order.
   */
  lemma MergeCustomSpec(features: seq<string>, text: string)
    requires CustomLines(text) != []
    ensures NoDuplicates(MergeCustom(features, text))
    ensures forall l :: l in CustomLines(text) ==> l in MergeCustom(features, text)
    ensures forall x :: x in MergeCustom(features, text) ==> x in features || x in CustomLines(text)
    ensures Dedup(features) <= MergeCustom(features, text)
  {
    DedupSpec(features + CustomLines(text));
    DedupPrefix(features, CustomLines(text));
  }

  /** Leaving the box a second time with the same text changes nothing. */
  lemma MergeCustomIdempotent(features: seq<string>, text: string)
    ensures MergeCustom(MergeCustom(features, text), text) == MergeCustom(features, text)
  {
    var lines := CustomLines(text);
    if lines != [] {
      var merged := Dedup(features + lines);
      DedupSpec(features + lines);
      DedupCovered(merged, lines);
      DedupDistinct(merged);
    }
  }

  // =====================================================================
  // The form state

  /** The form's `features` value, which both handlers write back with `setValue`. */
  class FeatureForm {
    var features: seq<string>

    /** The form starts from the default feature list. */
    constructor (defaults: seq<string>)
      ensures features == defaults
    {
      features := defaults;
    }

    /** Clicking a suggested feature. */
    method ToggleFeature(feature: string)
      modifies this
      ensures features == Toggled(old(features), feature)
      ensures feature in features <==> feature !in old(features)
    {
      var next := if feature in features then RemoveAll(features, feature) else features + [feature];
      features := next;
    }

    /** Leaving the custom-instructions box. */
    method MergeCustomInstructions(text: string)
      modifies this
      ensures features == MergeCustom(old(features), text)
      ensures CustomLines(text) == [] ==> features == old(features)
    {
      var value := CustomLines(text);
      if |value| > 0 {
        features := Dedup(features + value);
      }
    }
  }
}
