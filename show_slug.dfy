/** The show slug of index.ts (`getShowAbbreviation`): the show name
    lower-cased, every run of whitespace replaced by one `-`, and the
    characters `! ? , ' : .` removed. The slug names the show's logo file. */
module ShowSlug {

  /** A character of JavaScript's regular-expression class `\s`. */
  predicate IsWhitespace(c: char) {
    var n := c as int;
    || (0x09 <= n <= 0x0D) || n == 0x20 || n == 0xA0 || n == 0x1680
    || (0x2000 <= n <= 0x200A) || n == 0x2028 || n == 0x2029 || n == 0x202F
    || n == 0x205F || n == 0x3000 || n == 0xFEFF
  }

  predicate IsAsciiUpper(c: char) {
    'A' <= c <= 'Z'
  }

  /** A character of the class `[!\?,':\.]`, which the slug drops. */
  predicate IsDropped(c: char) {
    c == '!' || c == '?' || c == ',' || c == '\'' || c == ':' || c == '.'
  }

  predicate NoWhitespace(s: string) {
    forall i :: 0 <= i < |s| ==> !IsWhitespace(s[i])
  }

  predicate NoAsciiUpper(s: string) {
    forall i :: 0 <= i < |s| ==> !IsAsciiUpper(s[i])
  }

  predicate NoDropped(s: string) {
    forall i :: 0 <= i < |s| ==> !IsDropped(s[i])
  }

  predicate AllWhitespace(s: string) {
    forall i :: 0 <= i < |s| ==> IsWhitespace(s[i])
  }

  function LowerChar(c: char): (d: char)
    ensures !IsAsciiUpper(d)
    ensures IsAsciiUpper(c) ==> d as int == c as int + 32
    ensures !IsAsciiUpper(c) ==> d == c
  {
    if IsAsciiUpper(c) then (c as int + 32) as char else c
  }

  /** `toLowerCase()`, on the ASCII letters. */
  function Lower(s: string): (r: string)
    ensures |r| == |s|
    ensures forall i :: 0 <= i < |s| ==> r[i] == LowerChar(s[i])
  {
    seq(|s|, i requires 0 <= i < |s| => LowerChar(s[i]))
  }

  /** The longest suffix of `s` that does not start with whitespace. */
  function DropWhitespace(s: string): (r: string)
    ensures |r| <= |s| && r == s[|s| - |r|..]
    ensures r == [] || !IsWhitespace(r[0])
    ensures AllWhitespace(s[..|s| - |r|])
  {
    if s != [] && IsWhitespace(s[0]) then
      var r := DropWhitespace(s[1..]);
      DropOneMore(s, r);
      r
    else s
  }

  /** Dropping one more leading whitespace character keeps the dropped
      prefix all whitespace. */
  lemma DropOneMore(s: string, r: string)
    requires s != [] && IsWhitespace(s[0])
    requires |r| <= |s| - 1 && r == s[1..][|s| - 1 - |r|..]
    requires AllWhitespace(s[1..][..|s| - 1 - |r|])
    ensures r == s[|s| - |r|..]
    ensures AllWhitespace(s[..|s| - |r|])
  {
    assert s[..|s| - |r|] == [s[0]] + s[1..][..|s| - 1 - |r|];
  }

  /** `replace(/\s+/g, "-")`: every maximal run of whitespace becomes one `-`. */
  function CollapseWhitespace(s: string): (r: string)
    ensures NoWhitespace(r)
    ensures |r| <= |s|
    ensures NoAsciiUpper(s) ==> NoAsciiUpper(r)
    decreases |s|
  {
    if s == [] then []
    else if IsWhitespace(s[0]) then "-" + CollapseWhitespace(DropWhitespace(s))
    else [s[0]] + CollapseWhitespace(s[1..])
  }

  /** `replaceAll(/[!\?,':\.]/g, "")`. */
  function StripDropped(s: string): (r: string)
    ensures NoDropped(r)
    ensures |r| <= |s|
    ensures forall c :: c in r <==> c in s && !IsDropped(c)
    ensures NoAsciiUpper(s) ==> NoAsciiUpper(r)
    ensures NoWhitespace(s) ==> NoWhitespace(r)
  {
    if s == [] then []
    else if IsDropped(s[0]) then StripDropped(s[1..])
    else [s[0]] + StripDropped(s[1..])
  }

  /** `getShowAbbreviation(showName)`. */
  function Slug(showName: string): (r: string)
    ensures NoWhitespace(r) && NoAsciiUpper(r) && NoDropped(r)
    ensures |r| <= |showName|
  {
    StripDropped(CollapseWhitespace(Lower(showName)))
  }

  lemma Assoc(a: string, b: string, c: string)
    ensures a + (b + c) == a + b + c
  {
  }

  /** A character that is not whitespace passes through the collapse. */
  lemma CollapseCons(c: char, t: string)
    requires !IsWhitespace(c)
    ensures CollapseWhitespace([c] + t) == [c] + CollapseWhitespace(t)
  {
    assert ([c] + t)[0] == c && ([c] + t)[1..] == t;
  }

  /** Text without whitespace passes through the run collapse unchanged. */
  lemma {:induction false} CollapseWord(w: string, rest: string)
    requires NoWhitespace(w)
    ensures CollapseWhitespace(w + rest) == w + CollapseWhitespace(rest)
  {
    if w != [] {
      var tail := w[1..] + rest;
      assert w + rest == [w[0]] + tail;
      CollapseCons(w[0], tail);
      CollapseWord(w[1..], rest);
      assert [w[0]] + (w[1..] + CollapseWhitespace(rest)) == w + CollapseWhitespace(rest);
    } else {
      assert w + rest == rest;
    }
  }

  lemma {:induction false} DropWhitespaceRun(run: string, rest: string)
    requires AllWhitespace(run)
    requires rest == [] || !IsWhitespace(rest[0])
    ensures DropWhitespace(run + rest) == rest
  {
    if run != [] {
      assert (run + rest)[1..] == run[1..] + rest;
      DropWhitespaceRun(run[1..], rest);
    }
  }

  /** A maximal non-empty run of whitespace becomes exactly one `-`. */
  lemma CollapseRun(run: string, rest: string)
    requires run != [] && AllWhitespace(run)
    requires rest == [] || !IsWhitespace(rest[0])
    ensures CollapseWhitespace(run + rest) == "-" + CollapseWhitespace(rest)
  {
    DropWhitespaceRun(run, rest);
    assert (run + rest)[0] == run[0];
  }

  lemma {:induction false} LowerIdentity(s: string)
    requires NoAsciiUpper(s)
    ensures Lower(s) == s
  {
    assert forall i :: 0 <= i < |s| ==> Lower(s)[i] == s[i];
  }

  lemma {:induction false} StripIdentity(s: string)
    requires NoDropped(s)
    ensures StripDropped(s) == s
  {
    if s != [] {
      StripIdentity(s[1..]);
    }
  }

  /** Removal of the dropped characters distributes over concatenation. */
  lemma {:induction false} StripConcat(a: string, b: string)
    ensures StripDropped(a + b) == StripDropped(a) + StripDropped(b)
  {
    if a == [] {
      assert a + b == b;
    } else {
      var ab := a + b;
      assert ab[0] == a[0] && ab[1..] == a[1..] + b;
      StripConcat(a[1..], b);
      var rest := StripDropped(a[1..]) + StripDropped(b);
      if IsDropped(a[0]) {
        assert StripDropped(ab) == rest;
      } else {
        assert StripDropped(ab) == [a[0]] + rest;
        assert [a[0]] + rest == ([a[0]] + StripDropped(a[1..])) + StripDropped(b);
      }
    }
  }

  /** The slug is a fixed point: slugging a slug changes nothing. */
  lemma SlugIdempotent(showName: string)
    ensures Slug(Slug(showName)) == Slug(showName)
  {
    var s := Slug(showName);
    LowerIdentity(s);
    CollapseWord(s, []);
    assert s + [] == s;
    StripIdentity(s);
  }

  /** Lower-casing works character by character, so it distributes over
      concatenation. */
  lemma LowerConcat(a: string, b: string)
    ensures Lower(a + b) == Lower(a) + Lower(b)
  {
    assert forall i :: 0 <= i < |a + b| ==> Lower(a + b)[i] == (Lower(a) + Lower(b))[i];
  }

  /** Lower-casing never turns a character into whitespace. */
  lemma {:induction false} LowerKeepsNoWhitespace(w: string)
    requires NoWhitespace(w)
    ensures NoWhitespace(Lower(w))
  {
    forall i | 0 <= i < |w| ensures !IsWhitespace(Lower(w)[i]) {
      assert Lower(w)[i] == LowerChar(w[i]);
      if IsAsciiUpper(w[i]) {
        assert 'a' as int <= Lower(w)[i] as int <= 'z' as int;
      }
    }
  }

  lemma CollapseOfTwoWords(w1: string, run: string, w2: string)
    requires NoWhitespace(w1) && NoWhitespace(w2)
    requires run != [] && AllWhitespace(run)
    ensures CollapseWhitespace(w1 + (run + w2)) == w1 + ("-" + w2)
  {
    CollapseWord(w1, run + w2);
    CollapseRun(run, w2);
    CollapseWord(w2, []);
    assert w2 + [] == w2;
  }

  lemma StripOfDashJoin(w1: string, w2: string)
    requires NoDropped(w1) && NoDropped(w2)
    ensures StripDropped(w1 + ("-" + w2)) == w1 + ("-" + w2)
  {
    StripOfJoin(w1, w2);
    StripIdentity(w1);
    StripIdentity(w2);
    Assoc(w1, "-", w2);
  }

  /** Lower-casing two whitespace-free words around a whitespace run lowers
      the words, keeps the run, and leaves the words whitespace-free. */
  lemma LowerOfTwoWords(w1: string, run: string, w2: string)
    requires NoWhitespace(w1) && NoWhitespace(w2) && AllWhitespace(run)
    ensures Lower(w1 + run + w2) == Lower(w1) + (run + Lower(w2))
    ensures NoWhitespace(Lower(w1)) && NoWhitespace(Lower(w2))
  {
    LowerConcat(w1 + run, w2);
    LowerConcat(w1, run);
    LowerIdentity(run);
    LowerKeepsNoWhitespace(w1);
    LowerKeepsNoWhitespace(w2);
  }

  /** A slug of a whitespace-free word is the word lowered and stripped. */
  lemma SlugOfWord(w: string)
    requires NoWhitespace(w)
    ensures Slug(w) == StripDropped(Lower(w))
  {
    LowerKeepsNoWhitespace(w);
    CollapseWord(Lower(w), []);
    assert Lower(w) + [] == Lower(w);
  }

  /** A character that is not dropped survives the strip. */
  lemma StripCons(c: char, t: string)
    requires !IsDropped(c)
    ensures StripDropped([c] + t) == [c] + StripDropped(t)
  {
    assert ([c] + t)[0] == c && ([c] + t)[1..] == t;
  }

  /** Stripping a `-` join strips each side and keeps the `-`. */
  lemma StripOfJoin(a: string, b: string)
    ensures StripDropped(a + ("-" + b)) == StripDropped(a) + "-" + StripDropped(b)
  {
    StripConcat(a, "-" + b);
    StripCons('-', b);
    Assoc(StripDropped(a), "-", StripDropped(b));
  }

  /** Two words separated by a whitespace run of any length give the two
      words' own slugs joined by a single `-`: "My  Show" and "My Show"
      both become "my-show". */
  lemma SlugOfTwoWords(w1: string, run: string, w2: string)
    requires NoWhitespace(w1) && NoWhitespace(w2)
    requires run != [] && AllWhitespace(run)
    ensures Slug(w1 + run + w2) == Slug(w1) + "-" + Slug(w2)
  {
    var l1, l2 := Lower(w1), Lower(w2);
    LowerOfTwoWords(w1, run, w2);
    CollapseOfTwoWords(l1, run, l2);
    StripOfJoin(l1, l2);
    SlugOfWord(w1);
    SlugOfWord(w2);
  }
}
