/**
 * The string operations the program takes from JavaScript: case mapping,
 * `includes`, `split` on one character, the global `replace` calls, and the
 * decimal rendering of a page number.
 */
module Text {
  import Seqs

  /** A character matched by `\s` in a JavaScript regular expression. */
  predicate IsWhitespace(c: char)
  {
    c == ' ' || c == '\t' || c == '\n' || c == '\U{B}' || c == '\U{C}' || c == '\r'
    || c == '\U{A0}' || c == '\U{1680}' || ('\U{2000}' <= c <= '\U{200A}')
    || c == '\U{2028}' || c == '\U{2029}' || c == '\U{202F}' || c == '\U{205F}'
    || c == '\U{3000}' || c == '\U{FEFF}'
  }

  /** `toLowerCase` on one character, for the ASCII and Latin-1 letters. */
  function LowerChar(c: char): char
  {
    if 'A' <= c <= 'Z' || ('\U{C0}' <= c <= '\U{DE}' && c != '\U{D7}') then (c as int + 32) as char else c
  }

  /** `toUpperCase` on one character, for the ASCII and Latin-1 letters that map to one letter. */
  function UpperChar(c: char): char
  {
    if 'a' <= c <= 'z' || ('\U{E0}' <= c <= '\U{FE}' && c != '\U{F7}') then (c as int - 32) as char else c
  }

  function ToLower(s: string): (r: string)
    ensures |r| == |s|
    ensures forall i :: 0 <= i < |s| ==> r[i] == LowerChar(s[i])
  {
    Seqs.Map(s, LowerChar)
  }

  function ToUpper(s: string): (r: string)
    ensures |r| == |s|
    ensures forall i :: 0 <= i < |s| ==> r[i] == UpperChar(s[i])
  {
    Seqs.Map(s, UpperChar)
  }

  /** Lower-casing twice is lower-casing once, so filters may lower-case a term again. */
  lemma ToLowerIdempotent(s: string)
    ensures ToLower(ToLower(s)) == ToLower(s)
  {
  }

  /** `sub` starts at index `i` of `s`. */
  ghost predicate OccursAt(s: string, sub: string, i: int)
  {
    0 <= i && i + |sub| <= |s| && s[i..i + |sub|] == sub
  }

  /** `s.includes(sub)`. */
  predicate Contains(s: string, sub: string)
    decreases |s|
  {
    sub <= s || (s != [] && Contains(s[1..], sub))
  }

  /** `includes` holds exactly when `sub` occurs somewhere in `s`. */
  lemma {:induction false} ContainsIffOccurs(s: string, sub: string)
    ensures Contains(s, sub) <==> exists i :: OccursAt(s, sub, i)
  {
    if sub <= s {
      assert s[0..|sub|] == sub;
      assert OccursAt(s, sub, 0);
    } else if s != [] {
      ContainsIffOccurs(s[1..], sub);
      if exists i :: OccursAt(s[1..], sub, i) {
        var i :| OccursAt(s[1..], sub, i);
        assert s[i + 1..i + 1 + |sub|] == s[1..][i..i + |sub|];
        assert OccursAt(s, sub, i + 1);
      }
      if exists i :: OccursAt(s, sub, i) {
        var i :| OccursAt(s, sub, i);
        if i > 0 {
          assert s[1..][i - 1..i - 1 + |sub|] == s[i..i + |sub|];
          assert OccursAt(s[1..], sub, i - 1);
        }
      }
    }
  }

  /** `sub` sits right after `a` in `a + sub + b`. */
  lemma OccursBetween(a: string, sub: string, b: string)
    ensures OccursAt(a + sub + b, sub, |a|)
  {
    assert (a + sub + b)[|a|..|a| + |sub|] == sub;
  }

  /** Appending text keeps an occurrence where it was. */
  lemma OccursExtend(u: string, v: string, x: string, i: int)
    requires OccursAt(u, x, i)
    ensures OccursAt(u + v, x, i)
  {
    assert (u + v)[i..i + |x|] == u[i..i + |x|];
  }

  /** `x` occurs at the end of `u + x`. */
  lemma OccursEnd(u: string, x: string)
    ensures OccursAt(u + x, x, |u|)
  {
    assert (u + x)[|u|..|u| + |x|] == x;
  }

  /** In `h + x1 + l2 + x2 + l3 + x3 + l4 + x4 + t` each `xk` occurs where the text before it ends. */
  lemma FourFields(h: string, x1: string, l2: string, x2: string, l3: string, x3: string, l4: string, x4: string, t: string)
    ensures var s := h + x1 + l2 + x2 + l3 + x3 + l4 + x4 + t;
      OccursAt(s, x1, |h|) && OccursAt(s, x2, |h + x1 + l2|)
      && OccursAt(s, x3, |h + x1 + l2 + x2 + l3|) && OccursAt(s, x4, |h + x1 + l2 + x2 + l3 + x3 + l4|)
  {
    var w0 := h + x1;
    var w1 := w0 + l2;
    var w2 := w1 + x2;
    var w3 := w2 + l3;
    var w4 := w3 + x3;
    var w5 := w4 + l4;
    var w6 := w5 + x4;
    OccursEnd(h, x1);
    OccursExtend(w0, l2, x1, |h|);
    OccursExtend(w1, x2, x1, |h|);
    OccursEnd(w1, x2);
    OccursExtend(w2, l3, x1, |h|);
    OccursExtend(w2, l3, x2, |w1|);
    OccursExtend(w3, x3, x1, |h|);
    OccursExtend(w3, x3, x2, |w1|);
    OccursEnd(w3, x3);
    OccursExtend(w4, l4, x1, |h|);
    OccursExtend(w4, l4, x2, |w1|);
    OccursExtend(w4, l4, x3, |w3|);
    OccursExtend(w5, x4, x1, |h|);
    OccursExtend(w5, x4, x2, |w1|);
    OccursExtend(w5, x4, x3, |w3|);
    OccursEnd(w5, x4);
    OccursExtend(w6, t, x1, |h|);
    OccursExtend(w6, t, x2, |w1|);
    OccursExtend(w6, t, x3, |w3|);
    OccursExtend(w6, t, x4, |w5|);
  }

  /** Putting text in front moves an occurrence by the length of that text. */
  lemma OccursShift(p: string, s: string, x: string, i: int)
    requires OccursAt(s, x, i)
    ensures OccursAt(p + s, x, |p| + i)
  {
    assert (p + s)[|p| + i..|p| + i + |x|] == s[i..i + |x|];
  }

  /** `s.includes(sub)` when `s` is `a + sub + b`. */
  lemma ContainsMiddle(a: string, sub: string, b: string)
    ensures Contains(a + sub + b, sub)
  {
    var s := a + sub + b;
    assert s[|a|..|a| + |sub|] == sub;
    assert OccursAt(s, sub, |a|);
    ContainsIffOccurs(s, sub);
  }

  /** `s.split(sep)` for a one-character separator; like JavaScript it always yields at least one piece. */
  function Split(s: string, sep: char): (r: seq<string>)
    ensures |r| >= 1
    decreases |s|
  {
    if s == [] then [[]]
    else
      var rest := Split(s[1..], sep);
      if s[0] == sep then [[]] + rest else [[s[0]] + rest[0]] + rest[1..]
  }

  /** `parts.join(sep)`. */
  function Join(parts: seq<string>, sep: char): string
    requires |parts| >= 1
  {
    if |parts| == 1 then parts[0] else parts[0] + [sep] + Join(parts[1..], sep)
  }

  /** Joining the pieces with the separator gives back the text: no character is lost or added. */
  lemma {:induction false} JoinSplit(s: string, sep: char)
    ensures Join(Split(s, sep), sep) == s
  {
    if s != [] {
      var rest := Split(s[1..], sep);
      JoinSplit(s[1..], sep);
      if s[0] == sep {
        assert Split(s, sep)[1..] == rest;
      } else if |rest| == 1 {
        assert Join(Split(s, sep), sep) == [s[0]] + rest[0];
      } else {
        assert Split(s, sep)[1..] == rest[1..];
        assert Join(rest, sep) == rest[0] + [sep] + Join(rest[1..], sep);
      }
    }
  }

  /** No piece contains the separator. */
  lemma {:induction false} SplitPiecesHaveNoSeparator(s: string, sep: char)
    ensures forall i :: 0 <= i < |Split(s, sep)| ==> sep !in Split(s, sep)[i]
  {
    if s != [] {
      SplitPiecesHaveNoSeparator(s[1..], sep);
      var rest := Split(s[1..], sep);
      if s[0] != sep {
        assert sep !in rest[0];
        assert sep !in [s[0]] + rest[0];
      }
    }
  }

  /** A text without the separator is one piece. */
  lemma {:induction false} SplitWithoutSeparator(s: string, sep: char)
    requires sep !in s
    ensures Split(s, sep) == [s]
  {
    if s != [] {
      SplitWithoutSeparator(s[1..], sep);
      assert [s[0]] + s[1..] == s;
    }
  }

  /** Splitting `a + sep + b` splits `a` and `b` independently: explicit line breaks are kept. */
  lemma {:induction false} SplitAround(a: string, b: string, sep: char)
    ensures Split(a + [sep] + b, sep) == Split(a, sep) + Split(b, sep)
  {
    var s := a + [sep] + b;
    if a == [] {
      assert s[1..] == b;
    } else {
      assert s[1..] == a[1..] + [sep] + b;
      SplitAround(a[1..], b, sep);
    }
  }

  /** `s || fallback` on strings: the text itself unless it is empty. */
  function OrElse(s: string, fallback: string): (r: string)
    ensures s != "" ==> r == s
    ensures s == "" ==> r == fallback
  {
    if s == "" then fallback else s
  }

  function IsNot(c: char): char -> bool
  {
    (x: char) => x != c
  }

  /** `s.replace(/c/g, '')`. */
  function RemoveAll(s: string, c: char): (r: string)
    ensures c !in r
  {
    Seqs.Filter(s, IsNot(c))
  }

  /**
   * Only the character is removed: what is left keeps the order of `s`, and
   * it is shorter by exactly the number of times `c` occurs, so every other
   * character stays.
   */
  lemma RemoveAllKeepsRest(s: string, c: char)
    ensures Seqs.IsSubsequence(RemoveAll(s, c), s)
    ensures |RemoveAll(s, c)| + Seqs.Count(s, (x: char) => x == c) == |s|
  {
    Seqs.FilterIsSubsequence(s, IsNot(c));
    Seqs.CountComplement(s, (x: char) => x == c, IsNot(c));
  }

  /** Removing from a concatenation removes from each part. */
  lemma RemoveAllAppend(a: string, b: string, c: char)
    ensures RemoveAll(a + b, c) == RemoveAll(a, c) + RemoveAll(b, c)
  {
    Seqs.FilterAppend(a, b, IsNot(c));
  }

  /** An occurrence of the removed character leaves nothing behind. */
  lemma RemoveDropsOne(a: string, b: string, c: char)
    ensures RemoveAll(a + [c] + b, c) == RemoveAll(a + b, c)
  {
    var x, y := RemoveAll(a, c), RemoveAll(b, c);
    RemoveAllAppend(a + [c], b, c);
    RemoveAllAppend(a, [c], c);
    RemoveAllAppend(a, b, c);
    RemoveSingle(c);
    assert x + [] + y == x + y;
  }

  lemma RemoveSingle(c: char)
    ensures RemoveAll([c], c) == []
  {
    assert [c][1..] == [];
  }

  /** Removing a character the text does not hold leaves it as it is. */
  lemma RemoveAbsent(s: string, c: char)
    requires c !in s
    ensures RemoveAll(s, c) == s
  {
    Seqs.FilterKeepsAll(s, IsNot(c));
  }

  /** `s.replace(/pat/g, rep)`: occurrences are replaced left to right, without overlap. */
  function ReplaceAll(s: string, pat: string, rep: string): string
    requires pat != []
    decreases |s|
  {
    if s == [] then []
    else if pat <= s then rep + ReplaceAll(s[|pat|..], pat, rep)
    else [s[0]] + ReplaceAll(s[1..], pat, rep)
  }

  /** Replacing introduces only characters of the replacement. */
  lemma {:induction false} ReplaceAllKeepsAbsent(s: string, pat: string, rep: string, c: char)
    requires pat != []
    requires c !in s && c !in rep
    ensures c !in ReplaceAll(s, pat, rep)
    decreases |s|
  {
    if s != [] {
      if pat <= s {
        ReplaceAllKeepsAbsent(s[|pat|..], pat, rep, c);
      } else {
        ReplaceAllKeepsAbsent(s[1..], pat, rep, c);
      }
    }
  }

  /**
   * Every "%0A" becomes one line break and the text around it is replaced on
   * its own: no prefix of "%0A" is also a suffix of it, so no occurrence can
   * straddle the one in the middle.
   */
  lemma {:induction false} ReplaceAround(a: string, b: string)
    ensures ReplaceAll(a + "%0A" + b, "%0A", "\n") == ReplaceAll(a, "%0A", "\n") + "\n" + ReplaceAll(b, "%0A", "\n")
    decreases |a|
  {
    var pat := "%0A";
    var s := a + pat + b;
    if a == [] {
      assert s == pat + b && s[3..] == b;
    } else if pat <= a {
      assert s[3..] == a[3..] + pat + b;
      ReplaceAround(a[3..], b);
    } else {
      assert !(pat <= s) by {
        if |a| >= 3 {
          assert s[..3] == a[..3];
        } else if |a| == 1 {
          assert s[1] == '%';
        } else {
          assert s[2] == '%';
        }
      }
      assert s[1..] == a[1..] + pat + b;
      ReplaceAround(a[1..], b);
    }
  }

  /** What `s.replace(/%0A/g, '\n')` starts with, when that is not a line break, comes from `s` itself. */
  lemma UnescapedHead(s: string, c: char)
    requires c != '%' && c != '\n'
    requires ReplaceAll(s, "%0A", "\n") != [] && ReplaceAll(s, "%0A", "\n")[0] == c
    ensures s != [] && s[0] == c && ReplaceAll(s, "%0A", "\n") == [c] + ReplaceAll(s[1..], "%0A", "\n")
  {
  }

  /** A replaced text that starts with "0A" comes from a text that starts with "0A". */
  lemma UnescapedPair(s: string)
    ensures var r := ReplaceAll(s, "%0A", "\n");
      |r| >= 2 && r[0] == '0' && r[1] == 'A' ==> |s| >= 2 && s[0] == '0' && s[1] == 'A'
  {
    var r := ReplaceAll(s, "%0A", "\n");
    if |r| >= 2 && r[0] == '0' && r[1] == 'A' {
      UnescapedHead(s, '0');
      UnescapedHead(s[1..], 'A');
    }
  }

  /** After `replace(/%0A/g, '\n')` no escaped line break is left, whatever the text was. */
  lemma {:induction false} NoEscapedNewlineLeft(s: string)
    ensures !Contains(ReplaceAll(s, "%0A", "\n"), "%0A")
    decreases |s|
  {
    var pat := "%0A";
    var r := ReplaceAll(s, pat, "\n");
    if s == [] {
    } else if pat <= s {
      NoEscapedNewlineLeft(s[3..]);
      assert r == "\n" + ReplaceAll(s[3..], pat, "\n");
      assert r[1..] == ReplaceAll(s[3..], pat, "\n");
      assert r[0] == '\n' != pat[0];
    } else {
      var t := ReplaceAll(s[1..], pat, "\n");
      NoEscapedNewlineLeft(s[1..]);
      assert r == [s[0]] + t && r[1..] == t;
      UnescapedPair(s[1..]);
    }
  }

  /** `s` without its leading run of characters satisfying `p`. */
  function DropLeading(s: string, p: char -> bool): (r: string)
    ensures |r| <= |s|
    ensures s != [] && p(s[0]) ==> |r| < |s|
  {
    if s != [] && p(s[0]) then DropLeading(s[1..], p) else s
  }

  /** Every maximal run of characters satisfying `p` becomes one `rep`. */
  function ReplaceRuns(s: string, p: char -> bool, rep: string): string
    decreases |s|
  {
    if s == [] then []
    else if p(s[0]) then rep + ReplaceRuns(DropLeading(s, p), p, rep)
    else [s[0]] + ReplaceRuns(s[1..], p, rep)
  }

  /** `s.replace(/\s+/g, rep)`: every maximal run of whitespace becomes one `rep`. */
  function ReplaceWhitespaceRuns(s: string, rep: string): string
  {
    ReplaceRuns(s, IsWhitespace, rep)
  }

  /** No character of `s` satisfies `p`. */
  predicate NoneIn(s: string, p: char -> bool)
  {
    forall i :: 0 <= i < |s| ==> !p(s[i])
  }

  /** `s` holds no whitespace character. */
  predicate NoWhitespace(s: string)
  {
    NoneIn(s, IsWhitespace)
  }

  lemma NoneInAppend(a: string, b: string, p: char -> bool)
    requires NoneIn(a, p) && NoneIn(b, p)
    ensures NoneIn(a + b, p)
  {
    forall i | 0 <= i < |a + b|
      ensures !p((a + b)[i])
    {
      if i >= |a| {
        assert (a + b)[i] == b[i - |a|];
      }
    }
  }

  lemma NoWhitespaceAppend(a: string, b: string)
    requires NoWhitespace(a) && NoWhitespace(b)
    ensures NoWhitespace(a + b)
  {
    NoneInAppend(a, b, IsWhitespace);
  }

  /** With a replacement free of run characters, none is left. */
  lemma {:induction false} NoneLeft(s: string, p: char -> bool, rep: string)
    requires NoneIn(rep, p)
    ensures NoneIn(ReplaceRuns(s, p, rep), p)
    decreases |s|
  {
    if s != [] {
      if p(s[0]) {
        NoneLeft(DropLeading(s, p), p, rep);
        NoneInAppend(rep, ReplaceRuns(DropLeading(s, p), p, rep), p);
      } else {
        NoneLeft(s[1..], p, rep);
        NoneInAppend([s[0]], ReplaceRuns(s[1..], p, rep), p);
      }
    }
  }

  /** A text without run characters is left as it is. */
  lemma {:induction false} NoneUnchanged(s: string, p: char -> bool, rep: string)
    requires NoneIn(s, p)
    ensures ReplaceRuns(s, p, rep) == s
  {
    if s != [] {
      NoneUnchanged(s[1..], p, rep);
      assert [s[0]] + s[1..] == s;
    }
  }

  /** With a replacement that is not whitespace, no whitespace is left. */
  lemma NoWhitespaceLeft(s: string, rep: string)
    requires NoWhitespace(rep)
    ensures NoWhitespace(ReplaceWhitespaceRuns(s, rep))
  {
    NoneLeft(s, IsWhitespace, rep);
  }

  /** A text without whitespace is left as it is. */
  lemma NoWhitespaceUnchanged(s: string, rep: string)
    requires NoWhitespace(s)
    ensures ReplaceWhitespaceRuns(s, rep) == s
  {
    NoneUnchanged(s, IsWhitespace, rep);
  }

  /** Every character of `w` satisfies `p`. */
  predicate AllIn(w: string, p: char -> bool)
  {
    forall i :: 0 <= i < |w| ==> p(w[i])
  }

  /** Dropping a whole run reaches the first character after it. */
  lemma {:induction false} DropRun(w: string, b: string, p: char -> bool)
    requires AllIn(w, p) && (b == [] || !p(b[0]))
    ensures DropLeading(w + b, p) == b
  {
    if w == [] {
      assert w + b == b;
    } else {
      assert (w + b)[1..] == w[1..] + b;
      DropRun(w[1..], b, p);
    }
  }

  /** A text ending outside a run keeps its last character, and what follows it, when its leading run is dropped. */
  lemma {:induction false} DropLeadingAppend(a: string, t: string, p: char -> bool)
    requires a != [] && !p(a[|a| - 1])
    ensures DropLeading(a + t, p) == DropLeading(a, p) + t
    ensures var r := DropLeading(a, p); r != [] && r[|r| - 1] == a[|a| - 1]
  {
    if p(a[0]) {
      assert (a + t)[1..] == a[1..] + t;
      DropLeadingAppend(a[1..], t, p);
    }
  }

  /**
   * One whole run between two characters outside it becomes one `rep`, and
   * the text on either side is treated on its own.
   */
  lemma {:induction false} ReplaceRunAround(a: string, w: string, b: string, p: char -> bool, rep: string)
    requires a == [] || !p(a[|a| - 1])
    requires w != [] && AllIn(w, p)
    requires b == [] || !p(b[0])
    ensures ReplaceRuns(a + w + b, p, rep) == ReplaceRuns(a, p, rep) + rep + ReplaceRuns(b, p, rep)
    decreases |a|, 1
  {
    if a == [] {
      RunFirst(w, b, p, rep);
      assert a + w + b == w + b;
    } else if p(a[0]) {
      RunAfterLeading(a, w, b, p, rep);
    } else {
      RunAfterVisible(a, w, b, p, rep);
    }
  }

  /** A run at the start becomes one `rep`. */
  lemma RunFirst(w: string, b: string, p: char -> bool, rep: string)
    requires w != [] && AllIn(w, p) && (b == [] || !p(b[0]))
    ensures ReplaceRuns(w + b, p, rep) == rep + ReplaceRuns(b, p, rep)
  {
    assert (w + b)[0] == w[0];
    DropRun(w, b, p);
  }

  /** A leading run of `a` is replaced before the rest of `a`, which is shorter. */
  lemma {:induction false} RunAfterLeading(a: string, w: string, b: string, p: char -> bool, rep: string)
    requires a != [] && p(a[0]) && !p(a[|a| - 1])
    requires w != [] && AllIn(w, p)
    requires b == [] || !p(b[0])
    ensures ReplaceRuns(a + w + b, p, rep) == ReplaceRuns(a, p, rep) + rep + ReplaceRuns(b, p, rep)
    decreases |a|, 0
  {
    var d := DropLeading(a, p);
    DropLeadingAppend(a, w + b, p);
    ReplaceRunAround(d, w, b, p, rep);
    assert a + w + b == a + (w + b) && d + (w + b) == d + w + b;
    assert (a + (w + b))[0] == a[0];
    Regroup(rep, ReplaceRuns(d, p, rep), rep, ReplaceRuns(b, p, rep));
  }

  /** A visible first character of `a` is kept before the rest of `a`. */
  lemma {:induction false} RunAfterVisible(a: string, w: string, b: string, p: char -> bool, rep: string)
    requires a != [] && !p(a[0]) && !p(a[|a| - 1])
    requires w != [] && AllIn(w, p)
    requires b == [] || !p(b[0])
    ensures ReplaceRuns(a + w + b, p, rep) == ReplaceRuns(a, p, rep) + rep + ReplaceRuns(b, p, rep)
    decreases |a|, 0
  {
    var t := a[1..];
    assert t == [] || t[|t| - 1] == a[|a| - 1];
    ReplaceRunAround(t, w, b, p, rep);
    var s := a + w + b;
    assert s[0] == a[0] && s[1..] == t + w + b;
    VisibleHead(s, p, rep);
    VisibleHead(a, p, rep);
    Regroup([a[0]], ReplaceRuns(t, p, rep), rep, ReplaceRuns(b, p, rep));
  }

  lemma VisibleHead(s: string, p: char -> bool, rep: string)
    requires s != [] && !p(s[0])
    ensures ReplaceRuns(s, p, rep) == [s[0]] + ReplaceRuns(s[1..], p, rep)
  {
  }

  lemma Regroup(h: string, x: string, m: string, y: string)
    ensures h + (x + m + y) == (h + x) + m + y
  {
  }

  /** `replace(/\s+/g, rep)` on two texts joined by one run of whitespace: one `rep` between their replacements. */
  lemma ReplaceWhitespaceRunAround(a: string, w: string, b: string, rep: string)
    requires a == [] || !IsWhitespace(a[|a| - 1])
    requires w != [] && AllIn(w, IsWhitespace)
    requires b == [] || !IsWhitespace(b[0])
    ensures ReplaceWhitespaceRuns(a + w + b, rep) == ReplaceWhitespaceRuns(a, rep) + rep + ReplaceWhitespaceRuns(b, rep)
  {
    ReplaceRunAround(a, w, b, IsWhitespace, rep);
  }

  function DigitChar(d: nat): char
    requires d < 10
  {
    ('0' as int + d) as char
  }

  /** The decimal digits of `n`, as `String(n)` writes a non-negative integer. */
  function NatToString(n: nat): (r: string)
    ensures |r| >= 1
    ensures forall i :: 0 <= i < |r| ==> '0' <= r[i] <= '9'
  {
    if n < 10 then [DigitChar(n)] else NatToString(n / 10) + [DigitChar(n % 10)]
  }

  /** The number a text of decimal digits denotes, most significant digit first. */
  function DecimalValue(s: string): nat
    requires forall i :: 0 <= i < |s| ==> '0' <= s[i] <= '9'
  {
    if s == [] then 0 else DecimalValue(s[..|s| - 1]) * 10 + (s[|s| - 1] as int - '0' as int)
  }

  /** Reading back the digits written for `n` gives `n`. */
  lemma {:induction false} NatToStringValue(n: nat)
    ensures DecimalValue(NatToString(n)) == n
    decreases n
  {
    var r := NatToString(n);
    if n >= 10 {
      NatToStringValue(n / 10);
      assert r[..|r| - 1] == NatToString(n / 10);
    }
  }
}
