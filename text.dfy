/** The handful of Python `str` operations the backend relies on, over `string`:
    whitespace splitting and joining, ASCII case mapping, stripping, substring
    search and the first-underscore split of a task key. */
module PyText {

  /** `str.isspace()` on one character: the separators `str.split()` and
      `str.strip()` use when called without arguments. */
  predicate IsSpace(c: char) {
    || c == ' '
    || ('\t' <= c <= '\r')
    || ('\U{1c}' <= c <= '\U{1f}')
    || c == '\U{85}' || c == '\U{a0}' || c == '\U{1680}'
    || ('\U{2000}' <= c <= '\U{200a}')
    || c == '\U{2028}' || c == '\U{2029}' || c == '\U{202f}' || c == '\U{205f}' || c == '\U{3000}'
  }

  predicate AllSpace(s: string) {
    forall i :: 0 <= i < |s| ==> IsSpace(s[i])
  }

  predicate NoSpace(s: string) {
    forall i :: 0 <= i < |s| ==> !IsSpace(s[i])
  }

  /** Case mapping on ASCII letters (Python's `lower()`/`upper()` restricted to ASCII). */
  function LowerChar(c: char): char {
    if 'A' <= c <= 'Z' then (c as int - 'A' as int + 'a' as int) as char else c
  }

  function UpperChar(c: char): char {
    if 'a' <= c <= 'z' then (c as int - 'a' as int + 'A' as int) as char else c
  }

  function ToLower(s: string): string {
    seq(|s|, i requires 0 <= i < |s| => LowerChar(s[i]))
  }

  function ToUpper(s: string): string {
    seq(|s|, i requires 0 <= i < |s| => UpperChar(s[i]))
  }

  /** Whether `needle` occurs in `hay` at position `i`. */
  predicate OccursAt(needle: string, hay: string, i: nat) {
    i + |needle| <= |hay| && hay[i..i + |needle|] == needle
  }

  /** Python's `needle in hay` on two strings. */
  predicate Contains(hay: string, needle: string) {
    exists i: nat | i <= |hay| :: OccursAt(needle, hay, i)
  }

  /** `s.split("_")[0]`: everything before the first underscore. */
  function BeforeUnderscore(s: string): (r: string)
    ensures r <= s && '_' !in r
    ensures |r| < |s| ==> s[|r|] == '_'
  {
    if s == [] || s[0] == '_' then [] else [s[0]] + BeforeUnderscore(s[1..])
  }

  /** The end of the run of non-space characters that starts at `i`. */
  function WordEnd(s: string, i: nat): (j: nat)
    requires i <= |s|
    ensures i <= j <= |s|
    ensures forall k :: i <= k < j ==> !IsSpace(s[k])
    ensures j == |s| || IsSpace(s[j])
    decreases |s| - i
  {
    if i == |s| || IsSpace(s[i]) then i else WordEnd(s, i + 1)
  }

  /** `str.split()` without a separator: the maximal runs of non-space characters. */
  function Split(s: string): seq<string>
    decreases |s|
  {
    if s == [] then []
    else if IsSpace(s[0]) then Split(s[1..])
    else
      var j := WordEnd(s, 0);
      [s[..j]] + Split(s[j..])
  }

  /** `' '.join(words)`. */
  function Join(words: seq<string>): string {
    if words == [] then []
    else if |words| == 1 then words[0]
    else words[0] + " " + Join(words[1..])
  }

  /** `str.strip()` without arguments. */
  function Strip(s: string): (r: string)
    decreases |s|
  {
    if s != [] && IsSpace(s[0]) then Strip(s[1..])
    else if s != [] && IsSpace(s[|s| - 1]) then Strip(s[..|s| - 1])
    else s
  }

  // ---------------------------------------------------------------------------
  // Properties of splitting, joining and the normalisation built from them

  lemma {:induction false} WordEndAppend(a: string, b: string, i: nat)
    requires i <= |a|
    ensures WordEnd(a, i) < |a| ==> WordEnd(a + b, i) == WordEnd(a, i)
    ensures WordEnd(a, i) == |a| && (b == [] || IsSpace(b[0])) ==> WordEnd(a + b, i) == |a|
    decreases |a| - i
  {
    if i < |a| && !IsSpace(a[i]) {
      assert (a + b)[i] == a[i];
      WordEndAppend(a, b, i + 1);
    } else if i == |a| && b != [] {
      assert (a + b)[i] == b[0];
    }
  }

  /** Splitting distributes over a concatenation whose seam is whitespace. */
  lemma {:induction false} SplitAppend(a: string, b: string)
    requires a == [] || b == [] || IsSpace(a[|a| - 1]) || IsSpace(b[0])
    ensures Split(a + b) == Split(a) + Split(b)
    decreases |a|, 1
  {
    if a == [] {
      assert a + b == b;
    } else if IsSpace(a[0]) {
      SplitAppendSpace(a, b);
    } else {
      var k := WordEnd(a, 0);
      if k < |a| {
        SplitAppendWord(a, b, k);
      } else {
        SplitAppendWhole(a, b);
      }
    }
  }

  lemma {:induction false} SplitAppendSpace(a: string, b: string)
    requires a != [] && IsSpace(a[0])
    requires b == [] || IsSpace(a[|a| - 1]) || IsSpace(b[0])
    ensures Split(a + b) == Split(a) + Split(b)
    decreases |a|, 0
  {
    assert (a + b)[1..] == a[1..] + b;
    if a[1..] == [] {
      assert a + b == [a[0]] + b;
    } else {
      SplitAppend(a[1..], b);
    }
  }

  lemma {:induction false} SplitAppendWord(a: string, b: string, k: nat)
    requires a != [] && !IsSpace(a[0]) && k == WordEnd(a, 0) < |a|
    requires b == [] || IsSpace(a[|a| - 1]) || IsSpace(b[0])
    ensures Split(a + b) == Split(a) + Split(b)
    decreases |a|, 0
  {
    SplitAppendInner(a, b, k);
    assert a[k..][|a[k..]| - 1] == a[|a| - 1];
    SplitAppend(a[k..], b);
  }

  lemma SplitAppendInner(a: string, b: string, k: nat)
    requires a != [] && !IsSpace(a[0]) && k == WordEnd(a, 0) < |a|
    ensures Split(a + b) == [a[..k]] + Split(a[k..] + b)
  {
    WordEndAppend(a, b, 0);
    assert (a + b)[..k] == a[..k];
    assert (a + b)[k..] == a[k..] + b by {
      forall m | 0 <= m < |a| + |b| - k ensures (a + b)[k..][m] == (a[k..] + b)[m] {
        if m < |a| - k { assert (a + b)[k + m] == a[k + m]; }
      }
    }
  }

  lemma SplitAppendWhole(a: string, b: string)
    requires a != [] && !IsSpace(a[0]) && WordEnd(a, 0) == |a|
    requires b == [] || IsSpace(a[|a| - 1]) || IsSpace(b[0])
    ensures Split(a + b) == Split(a) + Split(b)
  {
    assert !IsSpace(a[|a| - 1]);
    WordEndAppend(a, b, 0);
    assert (a + b)[..|a|] == a;
    assert (a + b)[|a|..] == b;
    assert Split(a) == [a] by {
      assert a[..|a|] == a;
      assert a[|a|..] == [];
    }
  }

  lemma {:induction false} SplitAllSpace(w: string)
    requires AllSpace(w)
    ensures Split(w) == []
    decreases |w|
  {
    if w != [] {
      SplitAllSpace(w[1..]);
    }
  }

  /** Every word `str.split()` returns is non-empty, has no whitespace, and is a
      piece of its input. */
  lemma {:induction false} SplitWords(s: string)
    ensures forall w :: w in Split(s) ==> w != [] && NoSpace(w) && forall c :: c in w ==> c in s
    decreases |s|
  {
    if s == [] {
    } else if IsSpace(s[0]) {
      SplitWords(s[1..]);
    } else {
      var j := WordEnd(s, 0);
      SplitWords(s[j..]);
      forall w | w in Split(s) ensures w != [] && NoSpace(w) && forall c :: c in w ==> c in s {
        if w == s[..j] {
        } else {
          assert w in Split(s[j..]);
          forall c | c in w ensures c in s {
            var m :| 0 <= m < |s[j..]| && s[j..][m] == c;
            assert s[j + m] == c;
          }
        }
      }
    }
  }

  lemma {:induction false} SplitJoin(words: seq<string>)
    requires forall w :: w in words ==> w != [] && NoSpace(w)
    ensures Split(Join(words)) == words
    decreases |words|
  {
    if |words| == 1 {
      assert words[0] in words;
      SplitWord(words[0]);
    } else if |words| > 1 {
      var w := words[0];
      var rest := Join(words[1..]);
      assert forall v :: v in words[1..] ==> v in words;
      SplitJoin(words[1..]);
      assert words[0] in words;
      assert Join(words) == w + (" " + rest);
      SplitWordThenSpace(w, rest);
    }
  }

  /** A word followed by a space and more text splits into the word and the
      words of the rest. */
  lemma SplitWordThenSpace(w: string, rest: string)
    requires w != [] && NoSpace(w)
    ensures Split(w + (" " + rest)) == [w] + Split(rest)
  {
    SplitAppend(w, " " + rest);
    SplitWord(w);
    SplitLeadingSpace(rest);
  }

  /** A single word splits into itself. */
  lemma SplitWord(w: string)
    requires w != [] && NoSpace(w)
    ensures Split(w) == [w] && Join([w]) == w
  {
    NoSpaceWordEnd(w, 0);
    assert w[..WordEnd(w, 0)] == w;
    assert w[|w|..] == [];
  }

  lemma SplitLeadingSpace(rest: string)
    ensures Split(" " + rest) == Split(rest)
  {
    assert (" " + rest)[1..] == rest;
  }

  lemma {:induction false} NoSpaceWordEnd(w: string, i: nat)
    requires i <= |w| && NoSpace(w)
    ensures WordEnd(w, i) == |w|
    decreases |w| - i
  {
    if i < |w| {
      NoSpaceWordEnd(w, i + 1);
    }
  }

  /** No whitespace except single `' '` separators between non-space characters:
      no leading, trailing or doubled space, no tab or newline. */
  predicate SingleSpaced(t: string) {
    forall i :: 0 <= i < |t| && IsSpace(t[i]) ==>
      t[i] == ' ' && 0 < i < |t| - 1 && !IsSpace(t[i - 1]) && !IsSpace(t[i + 1])
  }

  lemma {:induction false} JoinSingleSpaced(words: seq<string>)
    requires forall w :: w in words ==> w != [] && NoSpace(w)
    ensures SingleSpaced(Join(words))
    ensures words != [] ==> Join(words) != [] && !IsSpace(Join(words)[0]) && !IsSpace(Join(words)[|Join(words)| - 1])
    decreases |words|
  {
    if |words| == 1 {
      assert words[0] in words;
    } else if |words| > 1 {
      var w := words[0];
      assert w in words;
      assert forall v :: v in words[1..] ==> v in words;
      var rest := Join(words[1..]);
      JoinSingleSpaced(words[1..]);
      var t := Join(words);
      assert t == w + " " + rest;
      assert t[0] == w[0];
      assert t[|t| - 1] == rest[|rest| - 1];
      forall i | 0 <= i < |t| && IsSpace(t[i])
        ensures t[i] == ' ' && 0 < i < |t| - 1 && !IsSpace(t[i - 1]) && !IsSpace(t[i + 1])
      {
        if i == |w| {
          assert t[i - 1] == w[|w| - 1];
          assert t[i + 1] == rest[0];
        } else if i > |w| {
          var j := i - |w| - 1;
          assert t[i] == rest[j];
          assert rest[j] == ' ' && 0 < j < |rest| - 1;
          assert t[i - 1] == rest[j - 1];
          assert t[i + 1] == rest[j + 1];
        }
      }
    }
  }

  predicate Lowered(s: string) {
    forall i :: 0 <= i < |s| ==> LowerChar(s[i]) == s[i]
  }

  lemma {:induction false} JoinLowered(words: seq<string>)
    requires forall w :: w in words ==> Lowered(w)
    ensures Lowered(Join(words))
    decreases |words|
  {
    if |words| == 1 {
      assert words[0] in words;
    } else if |words| > 1 {
      var w := words[0];
      assert w in words;
      assert forall v :: v in words[1..] ==> v in words;
      var rest := Join(words[1..]);
      JoinLowered(words[1..]);
      var t := Join(words);
      assert t == w + " " + rest;
      forall i | 0 <= i < |t| ensures LowerChar(t[i]) == t[i] {
        if i < |w| {
          assert t[i] == w[i];
        } else if i > |w| {
          assert t[i] == rest[i - |w| - 1];
        }
      }
    }
  }

  lemma ToLowerConcat(a: string, b: string)
    ensures ToLower(a + b) == ToLower(a) + ToLower(b)
  {
  }
}
