/**
 * The string operations the OBJ reader applies to each line of the file:
 * strip(), split('#', 1)[0], split() with no argument, lower(), the substring
 * test `in`, and list.index(). Strings are sequences of chars, so startswith()
 * is the prefix test `<=` on sequences.
 */
module Text {

  /** The characters str.isspace() accepts, which is what str.split() and str.strip() use. */
  predicate IsSpace(c: char) {
    || ('\t' <= c <= '\r')
    || ('\U{001C}' <= c <= '\U{001F}')
    || c == ' ' || c == '\U{0085}' || c == '\U{00A0}' || c == '\U{1680}'
    || ('\U{2000}' <= c <= '\U{200A}')
    || c == '\U{2028}' || c == '\U{2029}' || c == '\U{202F}' || c == '\U{205F}' || c == '\U{3000}'
  }

  predicate AllSpace(s: string) {
    forall i :: 0 <= i < |s| ==> IsSpace(s[i])
  }

  /** A token produced by split(): non-empty, without whitespace. */
  predicate IsToken(t: string) {
    t != [] && forall i :: 0 <= i < |t| ==> !IsSpace(t[i])
  }

  /** s.split(sep, 1)[0]: the text before the first `sep`, or all of `s` when there is none. */
  function TakeUntil(s: string, sep: char): (r: string)
    ensures |r| <= |s|
  {
    if s == [] || s[0] == sep then [] else [s[0]] + TakeUntil(s[1..], sep)
  }

  /** s.find(c): the position of the first `c` in `s`, or -1 when there is none. */
  function Find(s: string, c: char): (r: int)
    ensures r == -1 <==> c !in s
    ensures r != -1 ==> 0 <= r < |s| && s[r] == c && c !in s[..r]
  {
    if s == [] then -1
    else if s[0] == c then 0
    else
      var i := Find(s[1..], c);
      if i == -1 then -1 else i + 1
  }

  /** s.lstrip() */
  function StripLeft(s: string): (r: string)
    ensures |r| <= |s|
  {
    if s != [] && IsSpace(s[0]) then StripLeft(s[1..]) else s
  }

  /** s.rstrip() */
  function StripRight(s: string): (r: string)
    ensures |r| <= |s|
  {
    if s != [] && IsSpace(s[|s| - 1]) then StripRight(s[..|s| - 1]) else s
  }

  /** s.strip() */
  function Strip(s: string): string {
    StripRight(StripLeft(s))
  }

  /** The longest prefix of `s` without whitespace. */
  function Word(s: string): (w: string)
    ensures |w| <= |s|
  {
    if s == [] || IsSpace(s[0]) then [] else [s[0]] + Word(s[1..])
  }

  /** s.split(): the maximal runs of non-whitespace characters, in order. */
  function Split(s: string): seq<string>
    decreases |s|
  {
    if s == [] then []
    else if IsSpace(s[0]) then Split(s[1..])
    else
      var w := Word(s);
      [w] + Split(s[|w|..])
  }

  /** The tokens of one line of the file, as the reader computes them:
      line.strip().split('#', 1)[0].split() */
  function LineTokens(line: string): seq<string> {
    Split(TakeUntil(Strip(line), '#'))
  }

  /** ' '.join(ws), the inverse partner of Split. */
  function Join(ws: seq<string>): string {
    if ws == [] then []
    else if |ws| == 1 then ws[0]
    else ws[0] + " " + Join(ws[1..])
  }

  /** c.lower() on ASCII letters; every other character is kept. */
  function LowerChar(c: char): char {
    if 'A' <= c <= 'Z' then (c as int + 32) as char else c
  }

  /** s.lower(), character by character. */
  function Lower(s: string): string {
    seq(|s|, i requires 0 <= i < |s| => LowerChar(s[i]))
  }

  /** A lower-case letter and its capital are the two characters lower() maps to it. */
  lemma LowerCharIs(c: char, lo: char, up: char)
    requires 'A' <= up <= 'Z' && lo as int == up as int + 32
    ensures LowerChar(c) == lo <==> c == lo || c == up
  {
  }

  /** After lower() no capital letter is left. */
  lemma LowerHasNoCapitals(s: string)
    ensures forall i :: 0 <= i < |Lower(s)| ==> !('A' <= Lower(s)[i] <= 'Z')
  {
  }

  /** lower() is idempotent. */
  lemma LowerIdempotent(s: string)
    ensures Lower(Lower(s)) == Lower(s)
  {
  }

  /** pat in s, for strings. */
  predicate Contains(s: string, pat: string)
    decreases |s|
  {
    pat <= s || (s != [] && Contains(s[1..], pat))
  }

  /** xs.index(x): the position of the first element equal to x. */
  function FirstIndex<T(==)>(xs: seq<T>, x: T): (r: nat)
    requires x in xs
    ensures r < |xs| && xs[r] == x
    ensures forall j :: 0 <= j < r ==> xs[j] != x
  {
    if xs[0] == x then 0 else 1 + FirstIndex(xs[1..], x)
  }

  // ---------------------------------------------------------------------
  // Properties of the tokeniser

  /** split(sep, 1)[0] is the part of `s` before its first `sep`. */
  lemma {:induction false} TakeUntilShape(s: string, sep: char)
    ensures TakeUntil(s, sep) <= s
    ensures sep !in TakeUntil(s, sep)
    ensures |TakeUntil(s, sep)| < |s| ==> s[|TakeUntil(s, sep)|] == sep
  {
    if s != [] && s[0] != sep {
      TakeUntilShape(s[1..], sep);
    }
  }

  /** lstrip() removes a whitespace prefix and stops at the first other character. */
  lemma {:induction false} StripLeftShape(s: string)
    ensures StripLeft(s) == s[|s| - |StripLeft(s)|..]
    ensures AllSpace(s[..|s| - |StripLeft(s)|])
    ensures StripLeft(s) == [] || !IsSpace(StripLeft(s)[0])
  {
    if s != [] && IsSpace(s[0]) {
      StripLeftShape(s[1..]);
      var n := |s| - |StripLeft(s)|;
      assert s[1..][n - 1..] == s[n..];
      forall i | 0 <= i < n ensures IsSpace(s[..n][i]) {
        if i > 0 { assert s[..n][i] == s[1..][..n - 1][i - 1]; }
      }
    }
  }

  /** rstrip() removes a whitespace suffix and stops at the last other character. */
  lemma {:induction false} StripRightShape(s: string)
    ensures StripRight(s) <= s
    ensures AllSpace(s[|StripRight(s)|..])
    ensures StripRight(s) == [] || !IsSpace(StripRight(s)[|StripRight(s)| - 1])
  {
    if s != [] && IsSpace(s[|s| - 1]) {
      var t := s[..|s| - 1];
      StripRightShape(t);
      var n := |StripRight(s)|;
      assert s[..n] == t[..n];
      forall i | 0 <= i < |s| - n ensures IsSpace(s[n..][i]) {
        if n + i < |t| { assert s[n..][i] == t[n..][i]; }
      }
    } else {
      assert s[|s|..] == [];
    }
  }

  /** The first word of `s` is a whitespace-free prefix followed by whitespace or the end. */
  lemma {:induction false} WordShape(s: string)
    ensures Word(s) <= s
    ensures forall i :: 0 <= i < |Word(s)| ==> !IsSpace(Word(s)[i])
    ensures |Word(s)| < |s| ==> IsSpace(s[|Word(s)|])
  {
    if s != [] && !IsSpace(s[0]) {
      WordShape(s[1..]);
      var w := Word(s);
      forall i | 0 <= i < |w| ensures !IsSpace(w[i]) {
        if i > 0 { assert w[i] == Word(s[1..])[i - 1]; }
      }
    }
  }

  /** Every token split() produces is non-empty and free of whitespace. */
  lemma {:induction false} SplitTokens(s: string)
    ensures forall i :: 0 <= i < |Split(s)| ==> IsToken(Split(s)[i])
    decreases |s|
  {
    if s != [] {
      if IsSpace(s[0]) {
        SplitTokens(s[1..]);
      } else {
        var w := Word(s);
        WordShape(s);
        assert w != [];
        SplitTokens(s[|w|..]);
        forall i | 0 <= i < |Split(s)| ensures IsToken(Split(s)[i]) {
          if i > 0 { assert Split(s)[i] == Split(s[|w|..])[i - 1]; }
        }
      }
    }
  }

  /** A prefix that holds no `sep` is kept whole by TakeUntil. */
  lemma {:induction false} TakeUntilPast(p: string, q: string, sep: char)
    requires sep !in p
    ensures TakeUntil(p + q, sep) == p + TakeUntil(q, sep)
  {
    if p != [] {
      assert (p + q)[0] == p[0] && p[0] != sep;
      assert (p + q)[1..] == p[1..] + q;
      TakeUntilPast(p[1..], q, sep);
      assert p == [p[0]] + p[1..];
    } else {
      assert p + q == q;
    }
  }

  /** A text without `sep` is its own TakeUntil. */
  lemma TakeUntilWhole(s: string, sep: char)
    requires sep !in s
    ensures TakeUntil(s, sep) == s
  {
    TakeUntilPast(s, [], sep);
    assert s + [] == s;
  }

  /** Cutting at s.find(c), as the face reader does, keeps what s.split(c, 1)[0] keeps. */
  lemma FindCutsLikeSplit(s: string, c: char)
    ensures (if Find(s, c) == -1 then s else s[..Find(s, c)]) == TakeUntil(s, c)
  {
    var f := Find(s, c);
    var r := TakeUntil(s, c);
    TakeUntilShape(s, c);
    if f == -1 {
      TakeUntilWhole(s, c);
    } else {
      assert r == s[..|r|];
      assert s[f] == c && c !in s[..f];
      assert |r| <= f by {
        assert c !in r;
        assert forall i :: 0 <= i < |r| ==> s[i] == r[i];
      }
      assert |r| >= f by {
        assert forall i :: 0 <= i < f ==> s[..f][i] == s[i];
      }
    }
  }

  /** Everything after the first `sep` is irrelevant to TakeUntil. */
  lemma TakeUntilStops(p: string, q: string, sep: char)
    ensures TakeUntil(p + [sep] + q, sep) == TakeUntil(p, sep)
  {
    var s := p + [sep] + q;
    var r := TakeUntil(s, sep);
    var u := TakeUntil(p, sep);
    TakeUntilShape(s, sep);
    TakeUntilShape(p, sep);
    if sep in p {
      assert s[|u|] == p[|u|] == sep;
      assert |r| == |u|;
    } else {
      assert u == p;
      assert s[|p|] == sep;
      assert |r| == |p|;
    }
    assert r == s[..|r|] && u == p[..|u|];
  }

  /** A token followed by nothing or by whitespace is the word split() reads first. */
  lemma WordOfToken(w: string, rest: string)
    requires IsToken(w)
    requires rest == [] || IsSpace(rest[0])
    ensures Word(w + rest) == w
  {
    var s := w + rest;
    var r := Word(s);
    WordShape(s);
    assert |w| < |s| ==> s[|w|] == rest[0];
    assert |r| == |w|;
    assert r == s[..|r|];
  }

  /** split() finds no token exactly when the text is all whitespace (a blank line). */
  lemma {:induction false} SplitEmptyIffBlank(s: string)
    ensures Split(s) == [] <==> AllSpace(s)
    decreases |s|
  {
    if s != [] {
      if IsSpace(s[0]) {
        SplitEmptyIffBlank(s[1..]);
        assert AllSpace(s) <==> AllSpace(s[1..]) by {
          if AllSpace(s[1..]) {
            forall i | 0 <= i < |s| ensures IsSpace(s[i]) {
              if i > 0 { assert s[i] == s[1..][i - 1]; }
            }
          }
        }
      }
    }
  }

  /** Leading whitespace does not change the tokens. */
  lemma {:induction false} SplitSkipsLeading(sp: string, s: string)
    requires AllSpace(sp)
    ensures Split(sp + s) == Split(s)
    decreases |sp|
  {
    if sp != [] {
      assert (sp + s)[0] == sp[0] && IsSpace(sp[0]);
      assert (sp + s)[1..] == sp[1..] + s;
      assert AllSpace(sp[1..]) by {
        forall i | 0 <= i < |sp[1..]| ensures IsSpace(sp[1..][i]) { assert sp[1..][i] == sp[i + 1]; }
      }
      SplitSkipsLeading(sp[1..], s);
    } else {
      assert sp + s == s;
    }
  }

  /** Trailing whitespace does not change the tokens. */
  lemma {:induction false} SplitSkipsTrailing(s: string, sp: string)
    requires AllSpace(sp)
    ensures Split(s + sp) == Split(s)
    decreases |s|
  {
    if s == [] {
      assert s + sp == sp;
      SplitEmptyIffBlank(sp);
    } else if IsSpace(s[0]) {
      assert (s + sp)[0] == s[0];
      assert (s + sp)[1..] == s[1..] + sp;
      SplitSkipsTrailing(s[1..], sp);
    } else {
      var w := Word(s);
      WordShape(s);
      assert (s + sp)[0] == s[0];
      assert IsToken(w);
      if |w| < |s| {
        assert s == w + s[|w|..];
        assert s + sp == w + (s[|w|..] + sp);
        WordOfToken(w, s[|w|..] + sp);
        assert (s + sp)[|w|..] == s[|w|..] + sp;
        SplitSkipsTrailing(s[|w|..], sp);
      } else {
        assert w == s;
        WordOfToken(s, sp);
        assert (s + sp)[|s|..] == sp;
        SplitEmptyIffBlank(sp);
        assert s[|s|..] == [];
      }
    }
  }

  /** No whitespace character is '#'. */
  lemma SpacesHoldNoHash(sp: string)
    requires AllSpace(sp)
    ensures '#' !in sp
  {
    assert !IsSpace('#');
  }

  /** After rstrip() the comment cut yields the same tokens as before it. */
  lemma RightStripIsIrrelevant(l: string)
    ensures Split(TakeUntil(StripRight(l), '#')) == Split(TakeUntil(l, '#'))
  {
    var m := StripRight(l);
    StripRightShape(l);
    var trail := l[|m|..];
    assert l == m + trail;
    SpacesHoldNoHash(trail);
    if '#' in m {
      var i :| 0 <= i < |m| && m[i] == '#';
      assert m == m[..i] + ['#'] + m[i + 1..];
      assert l == m[..i] + ['#'] + (m[i + 1..] + trail);
      TakeUntilStops(m[..i], m[i + 1..] + trail, '#');
      TakeUntilStops(m[..i], m[i + 1..], '#');
    } else {
      TakeUntilPast(m, trail, '#');
      TakeUntilWhole(trail, '#');
      TakeUntilWhole(m, '#');
      SplitSkipsTrailing(m, trail);
    }
  }

  /** strip() before the comment cut does not change the tokens of a line. */
  lemma StripIsIrrelevant(line: string)
    ensures LineTokens(line) == Split(TakeUntil(line, '#'))
  {
    var l := StripLeft(line);
    StripLeftShape(line);
    var lead := line[..|line| - |l|];
    assert line == lead + l;
    SpacesHoldNoHash(lead);
    TakeUntilPast(lead, l, '#');
    SplitSkipsLeading(lead, TakeUntil(l, '#'));
    RightStripIsIrrelevant(l);
  }

  /** Comment stripping: everything from the first '#' on is dropped before tokenising. */
  lemma CommentIsDropped(text: string, comment: string)
    requires '#' !in text
    ensures LineTokens(text + "#" + comment) == Split(text)
  {
    StripIsIrrelevant(text + "#" + comment);
    TakeUntilStops(text, comment, '#');
    TakeUntilWhole(text, '#');
  }

  /** pat occurs in s at position i. */
  predicate OccursAt(s: string, pat: string, i: int) {
    0 <= i <= |s| - |pat| && s[i..i + |pat|] == pat
  }

  /** `pat in s` holds exactly when pat occurs in s at some position. */
  lemma {:induction false} ContainsSpec(s: string, pat: string)
    ensures Contains(s, pat) <==> exists i :: OccursAt(s, pat, i)
    decreases |s|
  {
    if pat <= s {
      assert OccursAt(s, pat, 0);
    }
    if s == [] {
      if exists i :: OccursAt(s, pat, i) {
        var i :| OccursAt(s, pat, i);
        assert pat == [];
      }
    } else {
      ContainsSpec(s[1..], pat);
      if exists i :: OccursAt(s, pat, i) {
        var i :| OccursAt(s, pat, i);
        if i > 0 {
          OccursShift(s, pat, i - 1);
        } else {
          assert pat <= s;
        }
      }
      if exists i :: OccursAt(s[1..], pat, i) {
        var i :| OccursAt(s[1..], pat, i);
        OccursShift(s, pat, i);
      }
    }
  }

  /** An occurrence in the tail of s is an occurrence in s one position later. */
  lemma OccursShift(s: string, pat: string, i: int)
    requires s != [] && 0 <= i
    ensures OccursAt(s[1..], pat, i) <==> OccursAt(s, pat, i + 1)
  {
    if i <= |s| - 1 - |pat| {
      assert s[1..][i..i + |pat|] == s[i + 1..i + 1 + |pat|];
    }
  }

  /** Round trip: splitting tokens joined by single spaces gives the tokens back. */
  lemma {:induction false} SplitJoin(ws: seq<string>)
    requires forall i :: 0 <= i < |ws| ==> IsToken(ws[i])
    ensures Split(Join(ws)) == ws
  {
    if |ws| == 1 {
      WordOfToken(ws[0], []);
      assert ws[0] + [] == ws[0];
      assert ws[0][|ws[0]|..] == [];
    } else if |ws| > 1 {
      var w, rest := ws[0], Join(ws[1..]);
      var s := w + " " + rest;
      assert s == w + (" " + rest);
      WordOfToken(w, " " + rest);
      assert s[|w|..] == " " + rest;
      assert (" " + rest)[1..] == rest;
      SplitJoin(ws[1..]);
    }
  }
}
