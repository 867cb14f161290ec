// The C-string list helpers used to merge extension and feature name lists.
// A `const char*` is either null or points at some text; two pointers are
// "the same name" when their texts are equal, whatever their addresses.
// The text type is a parameter: extension names are strings, feature names
// are Features.FeatureName values.

module HelpersStd {

  datatype CStr<T> = Null | Ptr(addr: nat, text: T)

  /** Texts of the non-null entries of a list (std::unordered_set<std::string> of them). */
  function Texts<T(==)>(s: seq<CStr<T>>): set<T>
  {
    if s == [] then {}
    else Texts(s[..|s| - 1]) + (if s[|s| - 1].Ptr? then {s[|s| - 1].text} else {})
  }

  lemma {:induction false} TextsMember<T>(s: seq<CStr<T>>, t: T)
    ensures t in Texts(s) <==> exists i :: 0 <= i < |s| && s[i].Ptr? && s[i].text == t
  {
    if s != [] {
      var init := s[..|s| - 1];
      TextsMember(init, t);
      if t in Texts(init) {
        var i :| 0 <= i < |init| && init[i].Ptr? && init[i].text == t;
        assert s[i] == init[i];
      }
      if exists i :: 0 <= i < |s| && s[i].Ptr? && s[i].text == t {
        var i :| 0 <= i < |s| && s[i].Ptr? && s[i].text == t;
        if i < |init| {
          assert init[i] == s[i];
        }
      }
    }
  }

  lemma TextsAppend<T>(s: seq<CStr<T>>, c: CStr<T>)
    ensures Texts(s + [c]) == Texts(s) + (if c.Ptr? then {c.text} else {})
  {
    assert (s + [c])[..|s|] == s;
  }

  lemma {:induction false} TextsConcat<T>(a: seq<CStr<T>>, b: seq<CStr<T>>)
    ensures Texts(a + b) == Texts(a) + Texts(b)
    decreases |b|
  {
    if b != [] {
      var init := b[..|b| - 1];
      var last := b[|b| - 1];
      assert b == init + [last];
      assert a + b == (a + init) + [last];
      TextsConcat(a, init);
      TextsAppend(a + init, last);
      TextsAppend(init, last);
      calc {
        Texts(a + b);
        Texts((a + init) + [last]);
        Texts(a + init) + (if last.Ptr? then {last.text} else {});
        Texts(a) + Texts(init) + (if last.Ptr? then {last.text} else {});
        Texts(a) + Texts(b);
      }
    } else {
      assert a + b == a;
    }
  }

  /**
   * The entries of s, in order, that are non-null and whose text is not in
   * `seen` and has not appeared earlier in s: what a left-to-right pass with
   * a growing "seen" set keeps.
   */
  function Fresh<T(==)>(seen: set<T>, s: seq<CStr<T>>): seq<CStr<T>>
  {
    if s == [] then []
    else
      var kept := Fresh(seen, s[..|s| - 1]);
      var c := s[|s| - 1];
      if c.Null? || c.text in seen + Texts(kept) then kept else kept + [c]
  }

  /** No null entry and no two entries with the same text. */
  ghost predicate DistinctNames<T>(s: seq<CStr<T>>)
  {
    (forall i :: 0 <= i < |s| ==> s[i].Ptr?) &&
    (forall i, j :: 0 <= i < j < |s| ==> s[i].text != s[j].text)
  }

  /** s[k] is the first non-null occurrence of its text in s and its text is not in `seen`. */
  ghost predicate FirstOccurrence<T>(seen: set<T>, s: seq<CStr<T>>, k: nat)
    requires k < |s|
  {
    s[k].Ptr? && s[k].text !in seen &&
    forall j :: 0 <= j < k ==> s[j].Null? || s[j].text != s[k].text
  }

  /** Reference definition: filter s by FirstOccurrence, scanning indices 0..n-1. */
  ghost function FirstOccurrences<T>(seen: set<T>, s: seq<CStr<T>>, n: nat): seq<CStr<T>>
    requires n <= |s|
  {
    if n == 0 then []
    else FirstOccurrences(seen, s, n - 1) + (if FirstOccurrence(seen, s, n - 1) then [s[n - 1]] else [])
  }

  /** What a left-to-right pass over s with "seen" has kept: distinct names, exactly the new texts, entries of s. */
  ghost predicate KeptOk<T>(seen: set<T>, s: seq<CStr<T>>, kept: seq<CStr<T>>)
  {
    DistinctNames(kept) && Texts(kept) == Texts(s) - seen &&
    |kept| <= |s| && (forall x :: x in kept ==> x in s)
  }

  /** What Fresh keeps: no nulls, no repeats, nothing already seen, and it covers every new text. */
  lemma FreshProperties<T>(seen: set<T>, s: seq<CStr<T>>)
    ensures DistinctNames(Fresh(seen, s))
    ensures Texts(Fresh(seen, s)) == Texts(s) - seen
    ensures |Fresh(seen, s)| <= |s|
    ensures forall c :: c in Fresh(seen, s) ==> c in s
  {
    FreshKeptOk(seen, s);
  }

  lemma {:induction false} FreshKeptOk<T>(seen: set<T>, s: seq<CStr<T>>)
    ensures KeptOk(seen, s, Fresh(seen, s))
  {
    if s != [] {
      var init := s[..|s| - 1];
      var c := s[|s| - 1];
      FreshKeptOk(seen, init);
      FreshStep(seen, init, c);
      assert init + [c] == s;
    }
  }

  /** One step of Fresh: appending c keeps the properties of the kept list. */
  lemma FreshStep<T>(seen: set<T>, init: seq<CStr<T>>, c: CStr<T>)
    requires KeptOk(seen, init, Fresh(seen, init))
    ensures KeptOk(seen, init + [c], Fresh(seen, init + [c]))
  {
    FreshSnoc(seen, init, c);
    KeptStep(seen, init, Fresh(seen, init), c);
  }

  /** The same step, stated over any kept list rather than Fresh's. */
  lemma KeptStep<T>(seen: set<T>, init: seq<CStr<T>>, kept: seq<CStr<T>>, c: CStr<T>)
    requires KeptOk(seen, init, kept)
    ensures KeptOk(seen, init + [c], if c.Null? || c.text in seen + Texts(kept) then kept else kept + [c])
  {
    if c.Null? || c.text in seen + Texts(kept) {
      KeptSkip(seen, init, kept, c);
    } else {
      KeptAdd(seen, init, kept, c);
    }
  }

  /** Skipping c: its text, if any, was seen or is already among the kept texts. */
  lemma KeptSkip<T>(seen: set<T>, init: seq<CStr<T>>, kept: seq<CStr<T>>, c: CStr<T>)
    requires KeptOk(seen, init, kept)
    requires c.Null? || c.text in seen + Texts(kept)
    ensures KeptOk(seen, init + [c], kept)
  {
    TextsAppend(init, c);
    if c.Ptr? {
      assert Texts(init + [c]) == Texts(init) + {c.text};
    }
  }

  /** Keeping c: a non-null entry with a new text. */
  lemma KeptAdd<T>(seen: set<T>, init: seq<CStr<T>>, kept: seq<CStr<T>>, c: CStr<T>)
    requires KeptOk(seen, init, kept)
    requires c.Ptr? && c.text !in seen + Texts(kept)
    ensures KeptOk(seen, init + [c], kept + [c])
  {
    DistinctAppend(kept, c);
    KeptAddTexts(seen, init, kept, c);
    KeptAddMembers(init, kept, c);
  }

  lemma KeptAddTexts<T>(seen: set<T>, init: seq<CStr<T>>, kept: seq<CStr<T>>, c: CStr<T>)
    requires Texts(kept) == Texts(init) - seen
    requires c.Ptr? && c.text !in seen
    ensures Texts(kept + [c]) == Texts(init + [c]) - seen
  {
    TextsAppend(init, c);
    TextsAppend(kept, c);
    assert Texts(kept + [c]) == Texts(kept) + {c.text};
    assert Texts(init + [c]) == Texts(init) + {c.text};
  }

  lemma KeptAddMembers<T>(init: seq<CStr<T>>, kept: seq<CStr<T>>, c: CStr<T>)
    requires |kept| <= |init| && forall x :: x in kept ==> x in init
    ensures |kept + [c]| <= |init + [c]| && forall x :: x in kept + [c] ==> x in init + [c]
  {
    assert forall x :: x in kept + [c] ==> x in kept || x == c;
  }

  /** A non-null entry with a new text can be appended to a list of distinct names. */
  lemma DistinctAppend<T>(s: seq<CStr<T>>, c: CStr<T>)
    requires DistinctNames(s)
    requires c.Ptr? && c.text !in Texts(s)
    ensures DistinctNames(s + [c])
  {
    forall i | 0 <= i < |s| ensures s[i].text != c.text {
      TextsMember(s, s[i].text);
    }
  }

  /** Fresh agrees with the independent first-occurrence filter. */
  lemma {:induction false} FreshIsFirstOccurrences<T>(seen: set<T>, s: seq<CStr<T>>, n: nat)
    requires n <= |s|
    ensures Fresh(seen, s[..n]) == FirstOccurrences(seen, s, n)
  {
    if n > 0 {
      var init := s[..n - 1];
      assert s[..n][..n - 1] == init;
      assert s[..n][n - 1] == s[n - 1];
      FreshIsFirstOccurrences(seen, s, n - 1);
      KeepsIffFirst(seen, s, n);
    }
  }

  /** Fresh drops entry n-1 exactly when it is not a first occurrence. */
  lemma KeepsIffFirst<T>(seen: set<T>, s: seq<CStr<T>>, n: nat)
    requires 0 < n <= |s|
    ensures var c := s[n - 1];
            (c.Null? || c.text in seen + Texts(Fresh(seen, s[..n - 1]))) == !FirstOccurrence(seen, s, n - 1)
  {
    var init := s[..n - 1];
    FreshProperties(seen, init);
    var c := s[n - 1];
    if c.Ptr? {
      TextsMember(init, c.text);
      if c.text in Texts(init) {
        var j :| 0 <= j < |init| && init[j].Ptr? && init[j].text == c.text;
        assert s[j] == init[j];
      } else {
        forall j | 0 <= j < n - 1 ensures s[j].Null? || s[j].text != c.text {
          assert init[j] == s[j];
        }
      }
    }
  }

  /** A list that already has distinct non-null names passes through unchanged. */
  lemma {:induction false} FreshOfDistinct<T>(seen: set<T>, s: seq<CStr<T>>)
    requires DistinctNames(s)
    requires Texts(s) !! seen
    ensures Fresh(seen, s) == s
  {
    if s != [] {
      var init := s[..|s| - 1];
      var c := s[|s| - 1];
      TextsAppend(init, c);
      assert init + [c] == s;
      FreshOfDistinct(seen, init);
      TextsMember(init, c.text);
    }
  }

  /** Specification of deduplicateVectorCstring. */
  function Deduplicated<T(==)>(content: seq<CStr<T>>): seq<CStr<T>>
  {
    Fresh({}, content)
  }

  /**
   * deduplicateVectorCstring: keeps, in input order, the first pointer of
   * every distinct non-null text and drops nulls and later repeats.
   */
  method DeduplicateVectorCstring<T(==)>(content: seq<CStr<T>>) returns (result: seq<CStr<T>>)
    ensures result == Deduplicated(content)
    ensures DistinctNames(result)
    ensures Texts(result) == Texts(content)
    ensures |result| <= |content|
  {
    var seen: set<T> := {};
    result := [];
    var i := 0;
    while i < |content|
      invariant 0 <= i <= |content|
      invariant result == Fresh({}, content[..i])
      invariant seen == Texts(result)
    {
      var c := content[i];
      assert content[..i + 1] == content[..i] + [c];
      assert content[..i + 1][..i] == content[..i];
      if c.Ptr? && c.text !in seen {
        TextsAppend(result, c);
        result := result + [c];
        seen := seen + {c.text};
      }
      i := i + 1;
    }
    assert content[..i] == content;
    FreshProperties({}, content);
  }

  /** Deduplicating twice changes nothing more. */
  lemma DeduplicatedIdempotent<T>(content: seq<CStr<T>>)
    ensures Deduplicated(Deduplicated(content)) == Deduplicated(content)
  {
    FreshProperties({}, content);
    FreshOfDistinct({}, Deduplicated(content));
  }

  /** The kept entries are exactly the first occurrences, in input order. */
  lemma DeduplicatedKeepsFirstOccurrences<T>(content: seq<CStr<T>>)
    ensures Deduplicated(content) == FirstOccurrences({}, content, |content|)
  {
    assert content[..|content|] == content;
    FreshIsFirstOccurrences({}, content, |content|);
  }

  /** Specification of insertUniqueCStrings: dest followed by the new texts of src. */
  function InsertedUnique<T(==)>(dest: seq<CStr<T>>, src: seq<CStr<T>>): seq<CStr<T>>
  {
    dest + Fresh(Texts(dest), src)
  }

  /** The first loop of insertUniqueCStrings: the set of texts dest already holds. */
  method CollectTexts<T(==)>(dest: seq<CStr<T>>) returns (seen: set<T>)
    ensures seen == Texts(dest)
  {
    seen := {};
    var j := 0;
    while j < |dest|
      invariant 0 <= j <= |dest|
      invariant seen == Texts(dest[..j])
    {
      assert dest[..j + 1] == dest[..j] + [dest[j]];
      TextsAppend(dest[..j], dest[j]);
      if dest[j].Ptr? {
        seen := seen + {dest[j].text};
      }
      j := j + 1;
    }
    assert dest[..j] == dest;
  }

  /** Fresh on s + [c] keeps Fresh(seen, s) and then c, unless c is null or its text was seen or kept. */
  lemma FreshSnoc<T>(seen: set<T>, s: seq<CStr<T>>, c: CStr<T>)
    ensures Fresh(seen, s + [c]) ==
            if c.Null? || c.text in seen + Texts(Fresh(seen, s)) then Fresh(seen, s) else Fresh(seen, s) + [c]
  {
    assert (s + [c])[..|s + [c]| - 1] == s;
  }

  /** Scanning one more entry of s: Fresh of the longer prefix in terms of the shorter one. */
  lemma FreshAdvance<T>(seen: set<T>, s: seq<CStr<T>>, i: nat)
    requires i < |s|
    ensures Fresh(seen, s[..i + 1]) ==
            if s[i].Null? || s[i].text in seen + Texts(Fresh(seen, s[..i])) then Fresh(seen, s[..i])
            else Fresh(seen, s[..i]) + [s[i]]
  {
    assert s[..i + 1] == s[..i] + [s[i]];
    FreshSnoc(seen, s[..i], s[i]);
  }

  /** One iteration of AppendFresh: whether src[i] is kept, and what keeping it adds. */
  lemma AppendFreshStep<T>(dest: seq<CStr<T>>, added: seq<CStr<T>>, src: seq<CStr<T>>, i: nat)
    requires i < |src| && added == Fresh(Texts(dest), src[..i])
    ensures var c := src[i];
            Fresh(Texts(dest), src[..i + 1]) ==
            if c.Ptr? && c.text !in Texts(dest) + Texts(added) then added + [c] else added
    ensures var c := src[i];
            c.Ptr? ==> Texts(added + [c]) == Texts(added) + {c.text} && (dest + added) + [c] == dest + (added + [c])
  {
    FreshAdvance(Texts(dest), src, i);
    TextsAppend(added, src[i]);
    AppendAssoc(dest, added, src[i]);
  }

  lemma AppendAssoc<T>(a: seq<T>, b: seq<T>, x: T)
    ensures (a + b) + [x] == a + (b + [x])
  {
  }

  /** The second loop of insertUniqueCStrings: append each new non-null text of src, remembering it in `seen`. */
  method AppendFresh<T(==)>(dest: seq<CStr<T>>, seen0: set<T>, src: seq<CStr<T>>) returns (result: seq<CStr<T>>)
    requires seen0 == Texts(dest)
    ensures result == dest + Fresh(Texts(dest), src)
  {
    var seen := seen0;
    ghost var added: seq<CStr<T>> := [];
    result := dest;
    var i := 0;
    while i < |src|
      invariant 0 <= i <= |src|
      invariant added == Fresh(Texts(dest), src[..i])
      invariant result == dest + added
      invariant seen == Texts(dest) + Texts(added)
    {
      var c := src[i];
      AppendFreshStep(dest, added, src, i);
      if c.Ptr? && c.text !in seen {
        added := added + [c];
        result := result + [c];
        seen := seen + {c.text};
      }
      i := i + 1;
    }
    assert src[..i] == src;
  }

  /**
   * insertUniqueCStrings: appends to dest each non-null src entry whose text
   * is neither in dest nor already appended; dest's own entries stay as they are.
   */
  method InsertUniqueCStrings<T(==)>(dest: seq<CStr<T>>, src: seq<CStr<T>>) returns (result: seq<CStr<T>>)
    ensures result == InsertedUnique(dest, src)
    ensures result[..|dest|] == dest
    ensures Texts(result) == Texts(dest) + Texts(src)
    ensures forall k :: |dest| <= k < |result| ==> result[k].Ptr? && result[k].text !in Texts(dest)
  {
    var seen := CollectTexts(dest);
    result := AppendFresh(dest, seen, src);
    ghost var added := Fresh(Texts(dest), src);
    FreshProperties(Texts(dest), src);
    TextsConcat(dest, added);
    assert result[..|dest|] == dest;
    forall k | |dest| <= k < |result| ensures result[k].Ptr? && result[k].text !in Texts(dest) {
      assert result[k] == added[k - |dest|];
      TextsMember(added, added[k - |dest|].text);
    }
  }

  /** Inserting a list whose texts are all present already leaves dest as it is. */
  lemma InsertedUniqueNoNew<T>(dest: seq<CStr<T>>, src: seq<CStr<T>>)
    requires Texts(src) <= Texts(dest)
    ensures InsertedUnique(dest, src) == dest
  {
    FreshProperties(Texts(dest), src);
  }
}
