/** Text primitives of the triage classifier: ASCII lower-casing, substring
    search (`String.prototype.includes`) and "some keyword is included"
    (`Array.prototype.some` over a keyword list). */
module Strings {

  predicate IsAsciiUpper(c: char) {
    'A' <= c <= 'Z'
  }

  /** Lower-cases one ASCII letter; every other character is left alone. */
  function LowerChar(c: char): char {
    if IsAsciiUpper(c) then (c as int + 32) as char else c
  }

  /** `s.toLowerCase()`, restricted to the ASCII letters. */
  function ToLower(s: string): (r: string)
    ensures |r| == |s|
    ensures forall i :: 0 <= i < |s| ==> r[i] == LowerChar(s[i])
  {
    if s == [] then [] else [LowerChar(s[0])] + ToLower(s[1..])
  }

  /** s holds no upper-case ASCII letter. */
  ghost predicate NoUpper(s: string) {
    forall c :: c in s ==> !IsAsciiUpper(c)
  }

  /** Lower-casing leaves a string without upper-case letters as it is. */
  lemma ToLowerOfNoUpper(s: string)
    requires NoUpper(s)
    ensures ToLower(s) == s
  {
  }

  /** Lower-casing yields no upper-case ASCII letter, so a second pass changes nothing. */
  lemma ToLowerIdempotent(s: string)
    ensures forall i :: 0 <= i < |s| ==> !IsAsciiUpper(ToLower(s)[i])
    ensures ToLower(ToLower(s)) == ToLower(s)
  {
  }

  /** Lower-casing works character by character, so it distributes over concatenation. */
  lemma ToLowerConcat(a: string, b: string)
    ensures ToLower(a + b) == ToLower(a) + ToLower(b)
  {
  }

  /** The reference meaning of "kw occurs in text at position i". */
  ghost predicate OccursAt(kw: string, text: string, i: int) {
    0 <= i && i + |kw| <= |text| && text[i..i + |kw|] == kw
  }

  /** The reference meaning of "kw is a substring of text". */
  ghost predicate Occurs(kw: string, text: string) {
    exists i :: OccursAt(kw, text, i)
  }

  /** When text does not start with kw, kw occurs in text exactly when it
      occurs in text without its first character. */
  lemma OccursPastFirst(text: string, kw: string)
    requires |kw| <= |text| && text[..|kw|] != kw
    ensures Occurs(kw, text) <==> Occurs(kw, text[1..])
  {
    var rest := text[1..];
    if Occurs(kw, rest) {
      var i :| OccursAt(kw, rest, i);
      assert rest[i..i + |kw|] == text[i + 1..i + 1 + |kw|];
      assert OccursAt(kw, text, i + 1);
    }
    if Occurs(kw, text) {
      var i :| OccursAt(kw, text, i);
      assert i != 0;
      assert rest[i - 1..i - 1 + |kw|] == text[i..i + |kw|];
      assert OccursAt(kw, rest, i - 1);
    }
  }

  /** `text.includes(kw)`: tries every start position from left to right, and
      finds kw exactly when kw occurs somewhere in text. */
  function Includes(text: string, kw: string): (r: bool)
    ensures r <==> Occurs(kw, text)
    decreases |text|
  {
    if |kw| > |text| then false
    else if text[..|kw|] == kw then assert OccursAt(kw, text, 0); true
    else OccursPastFirst(text, kw); Includes(text[1..], kw)
  }

  /** The reference meaning of "some keyword of kws is a substring of text". */
  ghost predicate Mentions(text: string, kws: seq<string>) {
    exists k :: 0 <= k < |kws| && Occurs(kws[k], text)
  }

  /** `kws.some((kw) => text.includes(kw))`: holds exactly when some keyword
      of the list occurs in text. */
  function IncludesAny(text: string, kws: seq<string>): (r: bool)
    ensures r <==> exists k :: 0 <= k < |kws| && Includes(text, kws[k])
    ensures r <==> Mentions(text, kws)
  {
    if kws == [] then false
    else Includes(text, kws[0]) || IncludesAny(text, kws[1..])
  }

  /** An occurrence survives lower-casing of both the pattern and the text. */
  lemma OccursLowered(w: string, s: string)
    requires Occurs(w, s)
    ensures Occurs(ToLower(w), ToLower(s))
  {
    var i :| OccursAt(w, s, i);
    assert ToLower(s)[i..i + |w|] == ToLower(w) by {
      assert forall j :: 0 <= j < |w| ==> ToLower(s)[i..i + |w|][j] == ToLower(w)[j];
    }
    assert OccursAt(ToLower(w), ToLower(s), i);
  }

  /** An occurrence in a prefix is an occurrence in the whole text. */
  lemma OccursInPrefix(w: string, a: string, b: string)
    requires Occurs(w, a)
    ensures Occurs(w, a + b)
  {
    var i :| OccursAt(w, a, i);
    assert (a + b)[i..i + |w|] == a[i..i + |w|];
    assert OccursAt(w, a + b, i);
  }

  /** An occurrence of a keyword of three or more characters starts with its first three characters. */
  lemma OccursAtStart(kw: string, text: string, i: int)
    requires |kw| >= 3
    ensures OccursAt(kw, text, i) ==> text[i] == kw[0] && text[i + 1] == kw[1] && text[i + 2] == kw[2]
  {
    if OccursAt(kw, text, i) {
      assert text[i..i + |kw|][0] == text[i];
    }
  }

  /** Every space in kw is followed by a character, and that character is not c. */
  ghost predicate SpaceNotBefore(kw: string, c: char) {
    forall j :: 0 <= j < |kw| && kw[j] == ' ' ==> j + 1 < |kw| && kw[j + 1] != c
  }

  /** Where an occurrence in a + " " + rest can lie: inside a, inside " " + rest,
      or across the joining space, which then sits in kw right before rest[0]
      or at the end of kw. */
  lemma OccurrenceAtJoint(kw: string, a: string, rest: string, i: int)
    requires OccursAt(kw, a + " " + rest, i)
    ensures || OccursAt(kw, a, i)
            || OccursAt(kw, " " + rest, i - |a|)
            || (&& i < |a| < i + |kw|
                && kw[|a| - i] == ' '
                && (|a| - i + 1 == |kw| || (|rest| >= 1 && kw[|a| - i + 1] == rest[0])))
  {
    var text := a + " " + rest;
    if i + |kw| <= |a| {
      assert text[i..i + |kw|] == a[i..i + |kw|];
    } else if i >= |a| {
      assert text[i..i + |kw|] == (" " + rest)[i - |a|..i - |a| + |kw|];
    } else {
      assert kw[|a| - i] == text[|a|];
      if |a| - i + 1 < |kw| {
        assert kw[|a| - i + 1] == text[|a| + 1];
      }
    }
  }

  /** A keyword none of whose spaces precedes c cannot straddle the joint of
      a + " " + rest when rest starts with c: an occurrence lies in a or in " " + rest. */
  lemma OccursAcrossSpace(kw: string, a: string, rest: string)
    requires |rest| >= 1 && SpaceNotBefore(kw, rest[0])
    ensures Occurs(kw, a + " " + rest) ==> Occurs(kw, a) || Occurs(kw, " " + rest)
  {
    if Occurs(kw, a + " " + rest) {
      var i :| OccursAt(kw, a + " " + rest, i);
      OccurrenceAtJoint(kw, a, rest, i);
    }
  }

  /** No keyword of kws occurs in text. */
  ghost predicate NoneOccur(kws: seq<string>, text: string) {
    forall k, i :: 0 <= k < |kws| ==> !OccursAt(kws[k], text, i)
  }

  /** Joining a with " " + rest creates no mention of kws when neither part has
      one and no keyword can straddle the joint. */
  lemma NoMentionAcrossSpace(kws: seq<string>, a: string, rest: string)
    requires |rest| >= 1
    requires forall k :: 0 <= k < |kws| ==> SpaceNotBefore(kws[k], rest[0])
    requires !Mentions(a, kws) && NoneOccur(kws, " " + rest)
    ensures !Mentions(a + " " + rest, kws)
  {
    forall k | 0 <= k < |kws| ensures !Occurs(kws[k], a + " " + rest) {
      OccursAcrossSpace(kws[k], a, rest);
    }
  }
}
