/**
 * The ASCII part of the JavaScript string operations the program uses:
 * `toUpperCase`, `toLowerCase`, `trim`, `replace(/\s+/g, …)`, `replace(/[^…]/g, '')`
 * and `includes`. Case mapping and whitespace are restricted to ASCII.
 */
module Ascii {

  /** JavaScript's `\s`, restricted to ASCII: space, tab, line feed, vertical tab, form feed, carriage return. */
  predicate IsSpace(c: char) {
    c == ' ' || c == '\t' || c == '\n' || c == '\r' || c as int == 0x0B || c as int == 0x0C
  }

  predicate IsLower(c: char) { 'a' <= c <= 'z' }

  predicate IsUpper(c: char) { 'A' <= c <= 'Z' }

  predicate IsDigit(c: char) { '0' <= c <= '9' }

  function UpperChar(c: char): (d: char)
    ensures !IsLower(d)
    ensures IsLower(c) ==> IsUpper(d)
    ensures !IsLower(c) ==> d == c
  {
    if IsLower(c) then (c as int - 32) as char else c
  }

  /** Upper-casing neither makes nor removes whitespace. */
  lemma UpperSpace(c: char)
    ensures IsSpace(UpperChar(c)) == IsSpace(c)
  {
  }

  function LowerChar(c: char): (d: char)
    ensures !IsUpper(d)
    ensures IsUpper(c) ==> IsLower(d)
    ensures !IsUpper(c) ==> d == c
  {
    if IsUpper(c) then (c as int + 32) as char else c
  }

  /** `s.toUpperCase()` on ASCII letters. */
  function ToUpper(s: string): (r: string)
    ensures |r| == |s|
    ensures forall i :: 0 <= i < |s| ==> r[i] == UpperChar(s[i])
  {
    if s == [] then [] else [UpperChar(s[0])] + ToUpper(s[1..])
  }

  /** `ToUpper` is determined character by character. */
  lemma UpperOfEach(s: string, t: string)
    requires |s| == |t| && forall k :: 0 <= k < |s| ==> UpperChar(s[k]) == t[k]
    ensures ToUpper(s) == t
  {
    var u := ToUpper(s);
    assert forall k :: 0 <= k < |u| ==> u[k] == t[k];
  }

  /** `s.toLowerCase()` on ASCII letters. */
  function ToLower(s: string): (r: string)
    ensures |r| == |s|
    ensures forall i :: 0 <= i < |s| ==> r[i] == LowerChar(s[i])
  {
    if s == [] then [] else [LowerChar(s[0])] + ToLower(s[1..])
  }

  /** Drops the leading whitespace of `s`. */
  function TrimStart(s: string): (r: string)
    ensures |r| <= |s| && r == s[|s| - |r|..]
    ensures r == [] || !IsSpace(r[0])
    ensures forall i :: 0 <= i < |s| - |r| ==> IsSpace(s[i])
  {
    if |s| > 0 && IsSpace(s[0]) then TrimStart(s[1..]) else s
  }

  /** Drops the trailing whitespace of `s`. */
  function TrimEnd(s: string): (r: string)
    ensures |r| <= |s| && r == s[..|r|]
    ensures r == [] || !IsSpace(r[|r| - 1])
    ensures forall i :: |r| <= i < |s| ==> IsSpace(s[i])
  {
    if |s| > 0 && IsSpace(s[|s| - 1]) then TrimEnd(s[..|s| - 1]) else s
  }

  /** `s.trim()`. */
  function Trim(s: string): (r: string)
    ensures |r| <= |s|
    ensures r == [] || (!IsSpace(r[0]) && !IsSpace(r[|r| - 1]))
  {
    TrimEnd(TrimStart(s))
  }

  /** `s.replace(/\s+/g, sep)`: every maximal run of whitespace becomes the single character `sep`. */
  function ReplaceSpaceRuns(s: string, sep: char): (r: string)
    ensures |r| <= |s|
    ensures forall i :: 0 <= i < |r| ==> !IsSpace(r[i]) || r[i] == sep
    ensures forall c :: c in r ==> c in s || c == sep
    decreases |s|
  {
    if s == [] then []
    else if IsSpace(s[0]) then [sep] + ReplaceSpaceRuns(TrimStart(s), sep)
    else [s[0]] + ReplaceSpaceRuns(s[1..], sep)
  }

  /** `s.replace(/[^…]/g, '')`: the characters of `s` that satisfy `keep`, in order. */
  function Retain(s: string, keep: char -> bool): (r: string)
    ensures |r| <= |s|
    ensures forall i :: 0 <= i < |r| ==> keep(r[i])
  {
    if s == [] then [] else (if keep(s[0]) then [s[0]] else []) + Retain(s[1..], keep)
  }

  predicate NotPeriod(c: char) { c != '.' }

  /**
   * `s` is already in the shape trimming and whitespace collapsing produce: its only whitespace
   * is the plain space, with none at either end and never two in a row.
   */
  ghost predicate Tidy(s: string) {
    && (forall k :: 0 <= k < |s| ==> IsSpace(s[k]) ==> s[k] == ' ')
    && (s == [] || (s[0] != ' ' && s[|s| - 1] != ' '))
    && (forall k :: 0 < k < |s| ==> !(s[k - 1] == ' ' && s[k] == ' '))
  }

  lemma TidyUpper(s: string)
    requires Tidy(s)
    ensures Tidy(ToUpper(s))
  {
    var u := ToUpper(s);
    forall k | 0 < k < |u|
      ensures !(u[k - 1] == ' ' && u[k] == ' ')
    {
      assert u[k - 1] == UpperChar(s[k - 1]) && u[k] == UpperChar(s[k]);
    }
  }

  lemma TidyTrim(s: string)
    requires Tidy(s)
    ensures Trim(s) == s
  {
  }

  /** Collapsing whitespace runs changes nothing when every run is already one plain space. */
  lemma {:induction false} SingleSpacesUnchanged(s: string)
    requires forall k :: 0 <= k < |s| ==> IsSpace(s[k]) ==> s[k] == ' '
    requires forall k :: 0 < k < |s| ==> !(s[k - 1] == ' ' && s[k] == ' ')
    ensures ReplaceSpaceRuns(s, ' ') == s
    decreases |s|
  {
    if s != [] {
      SingleSpacesUnchanged(s[1..]);
      if IsSpace(s[0]) {
        assert TrimStart(s) == s[1..];
      }
    }
  }

  /** Filtering keeps everything when every character passes. */
  lemma {:induction false} RetainAll(s: string, keep: char -> bool)
    requires forall k :: 0 <= k < |s| ==> keep(s[k])
    ensures Retain(s, keep) == s
  {
    if s != [] {
      RetainAll(s[1..], keep);
    }
  }

  /** Filtering keeps only characters of the input. */
  lemma {:induction false} RetainFrom(s: string, keep: char -> bool)
    ensures forall c :: c in Retain(s, keep) ==> c in s
  {
    if s != [] {
      RetainFrom(s[1..], keep);
    }
  }

  /** Filtering a string none of whose characters pass gives the empty string. */
  lemma {:induction false} RetainNone(s: string, keep: char -> bool)
    requires forall k :: 0 <= k < |s| ==> !keep(s[k])
    ensures Retain(s, keep) == []
  {
    if s != [] {
      RetainNone(s[1..], keep);
    }
  }

  /** Filtering a string with a first character. */
  lemma RetainCons(c: char, s: string, keep: char -> bool)
    ensures Retain([c] + s, keep) == (if keep(c) then [c] else []) + Retain(s, keep)
  {
    assert ([c] + s)[0] == c && ([c] + s)[1..] == s;
  }

  /** A kept character followed by a dropped period keeps only the character. */
  lemma KeptThenPeriod(c: char, keep: char -> bool)
    requires keep(c) && !keep('.')
    ensures Retain([c, '.'], keep) == [c]
  {
    assert [c, '.'][1..] == ['.'];
  }

  /** Two dotted initials in front of a rest that is kept whole: only the periods go. */
  lemma DropInitialPeriods(x: char, y: char, rest: string, keep: char -> bool)
    requires keep(x) && keep(y) && !keep('.')
    requires forall k :: 0 <= k < |rest| ==> keep(rest[k])
    ensures Retain([x, '.', y, '.'] + rest, keep) == [x, y] + rest
  {
    TwoInitialsKept(x, y, keep);
    RetainAppend([x, '.', y, '.'], rest, keep);
    RetainAll(rest, keep);
  }

  lemma TwoInitialsKept(x: char, y: char, keep: char -> bool)
    requires keep(x) && keep(y) && !keep('.')
    ensures Retain([x, '.', y, '.'], keep) == [x, y]
  {
    var first, second := [x, '.'], [y, '.'];
    assert [x, '.', y, '.'] == first + second;
    KeptThenPeriod(x, keep);
    KeptThenPeriod(y, keep);
    RetainAppend(first, second, keep);
  }

  /** Filtering distributes over concatenation. */
  lemma {:induction false} RetainAppend(a: string, b: string, keep: char -> bool)
    ensures Retain(a + b, keep) == Retain(a, keep) + Retain(b, keep)
  {
    if a == [] {
      assert a + b == b;
    } else {
      assert (a + b)[0] == a[0] && (a + b)[1..] == a[1..] + b;
      RetainAppend(a[1..], b, keep);
    }
  }

  /** Filtering with two tests that agree on every character of `s` gives the same result. */
  lemma {:induction false} RetainAgree(s: string, keep: char -> bool, same: char -> bool)
    requires forall k :: 0 <= k < |s| ==> keep(s[k]) == same(s[k])
    ensures Retain(s, keep) == Retain(s, same)
  {
    if s != [] {
      RetainAgree(s[1..], keep, same);
    }
  }

  /** Filtering twice is filtering once by both tests. */
  lemma {:induction false} RetainRetain(s: string, first: char -> bool, second: char -> bool, both: char -> bool)
    requires forall c :: both(c) == (first(c) && second(c))
    ensures Retain(Retain(s, first), second) == Retain(s, both)
  {
    if s != [] {
      RetainRetain(s[1..], first, second, both);
      var rest := Retain(s[1..], first);
      if first(s[0]) {
        assert Retain(s, first) == [s[0]] + rest;
        RetainCons(s[0], rest, second);
      } else {
        assert Retain(s, first) == rest;
      }
    }
  }

  /** `keep` passes no whitespace character. */
  predicate DropsSpace(keep: char -> bool) {
    forall c :: IsSpace(c) ==> !keep(c)
  }

  /** Trimming the front loses nothing a whitespace-dropping filter keeps. */
  lemma RetainTrimStart(s: string, keep: char -> bool)
    requires DropsSpace(keep)
    ensures Retain(TrimStart(s), keep) == Retain(s, keep)
  {
    var r := TrimStart(s);
    var dropped := s[..|s| - |r|];
    assert s == dropped + r;
    RetainAppend(dropped, r, keep);
    RetainNone(dropped, keep);
  }

  /** Trimming the back loses nothing a whitespace-dropping filter keeps. */
  lemma RetainTrimEnd(s: string, keep: char -> bool)
    requires DropsSpace(keep)
    ensures Retain(TrimEnd(s), keep) == Retain(s, keep)
  {
    var r := TrimEnd(s);
    var dropped := s[|r|..];
    assert s == r + dropped;
    RetainAppend(r, dropped, keep);
    RetainNone(dropped, keep);
  }

  /** `trim` loses nothing a whitespace-dropping filter keeps. */
  lemma RetainTrim(s: string, keep: char -> bool)
    requires DropsSpace(keep)
    ensures Retain(Trim(s), keep) == Retain(s, keep)
  {
    RetainTrimStart(s, keep);
    RetainTrimEnd(TrimStart(s), keep);
  }

  /**
   * Collapsing whitespace runs changes nothing a filter keeps when that filter drops whitespace
   * and the separator: the other characters all survive, in order.
   */
  lemma {:induction false} RetainSpaceRuns(s: string, sep: char, keep: char -> bool)
    requires DropsSpace(keep) && !keep(sep)
    ensures Retain(ReplaceSpaceRuns(s, sep), keep) == Retain(s, keep)
    decreases |s|
  {
    if s != [] {
      if IsSpace(s[0]) {
        var t := TrimStart(s);
        RetainSpaceRuns(t, sep, keep);
        RetainCons(sep, ReplaceSpaceRuns(t, sep), keep);
        RetainTrimStart(s, keep);
      } else {
        RetainSpaceRuns(s[1..], sep, keep);
        assert [s[0]] + s[1..] == s;
        RetainCons(s[0], s[1..], keep);
      }
    }
  }

  /** Leading whitespace ending before `b` is trimmed away entirely. */
  lemma {:induction false} TrimStartSpaces(w: string, b: string)
    requires forall k :: 0 <= k < |w| ==> IsSpace(w[k])
    requires b == [] || !IsSpace(b[0])
    ensures TrimStart(w + b) == b
  {
    if w == [] {
      assert w + b == b;
    } else {
      assert (w + b)[1..] == w[1..] + b;
      TrimStartSpaces(w[1..], b);
    }
  }

  /** Trimming the front of `a + b` stays inside `a` when `a` ends with a non-space. */
  lemma {:induction false} TrimStartAppend(a: string, b: string)
    requires a != [] && !IsSpace(a[|a| - 1])
    ensures TrimStart(a + b) == TrimStart(a) + b
  {
    if IsSpace(a[0]) {
      assert (a + b)[1..] == a[1..] + b;
      TrimStartAppend(a[1..], b);
    }
  }

  /** Collapsing distributes over a concatenation whose cut is not inside a whitespace run. */
  lemma {:induction false} SpaceRunsAppend(a: string, b: string, sep: char)
    requires a == [] || !IsSpace(a[|a| - 1])
    ensures ReplaceSpaceRuns(a + b, sep) == ReplaceSpaceRuns(a, sep) + ReplaceSpaceRuns(b, sep)
    decreases |a|
  {
    if a == [] {
      assert a + b == b;
    } else if IsSpace(a[0]) {
      var t := TrimStart(a);
      TrimStartAppend(a, b);
      assert t[|t| - 1] == a[|a| - 1];
      SpaceRunsAppend(t, b, sep);
      SpaceRunStep(a, b, t, sep);
    } else {
      SpaceRunsAppend(a[1..], b, sep);
      CharStep(a, b, sep);
    }
  }

  lemma SpaceRunStep(a: string, b: string, t: string, sep: char)
    requires a != [] && IsSpace(a[0]) && t == TrimStart(a) && TrimStart(a + b) == t + b
    requires ReplaceSpaceRuns(t + b, sep) == ReplaceSpaceRuns(t, sep) + ReplaceSpaceRuns(b, sep)
    ensures ReplaceSpaceRuns(a + b, sep) == ReplaceSpaceRuns(a, sep) + ReplaceSpaceRuns(b, sep)
  {
    assert (a + b)[0] == a[0];
    UnfoldSpace(a + b, sep);
    UnfoldSpace(a, sep);
    ConcatAssoc([sep], ReplaceSpaceRuns(t, sep), ReplaceSpaceRuns(b, sep));
  }

  lemma CharStep(a: string, b: string, sep: char)
    requires a != [] && !IsSpace(a[0])
    requires ReplaceSpaceRuns(a[1..] + b, sep) == ReplaceSpaceRuns(a[1..], sep) + ReplaceSpaceRuns(b, sep)
    ensures ReplaceSpaceRuns(a + b, sep) == ReplaceSpaceRuns(a, sep) + ReplaceSpaceRuns(b, sep)
  {
    var s := a + b;
    assert s[0] == a[0] && s[1..] == a[1..] + b;
    UnfoldChar(s, sep);
    UnfoldChar(a, sep);
    ConcatAssoc([a[0]], ReplaceSpaceRuns(a[1..], sep), ReplaceSpaceRuns(b, sep));
  }

  lemma UnfoldSpace(s: string, sep: char)
    requires s != [] && IsSpace(s[0])
    ensures ReplaceSpaceRuns(s, sep) == [sep] + ReplaceSpaceRuns(TrimStart(s), sep)
  {
  }

  lemma UnfoldChar(s: string, sep: char)
    requires s != [] && !IsSpace(s[0])
    ensures ReplaceSpaceRuns(s, sep) == [s[0]] + ReplaceSpaceRuns(s[1..], sep)
  {
  }

  lemma ConcatAssoc(p: string, x: string, y: string)
    ensures p + (x + y) == (p + x) + y
  {
  }

  /** A whitespace run in front of a non-space becomes exactly one separator. */
  lemma SpaceRunCollapses(w: string, b: string, sep: char)
    requires w != [] && forall k :: 0 <= k < |w| ==> IsSpace(w[k])
    requires b == [] || !IsSpace(b[0])
    ensures ReplaceSpaceRuns(w + b, sep) == [sep] + ReplaceSpaceRuns(b, sep)
  {
    assert (w + b)[0] == w[0];
    TrimStartSpaces(w, b);
  }

  /**
   * A maximal whitespace run `w` between `a` and `b` becomes exactly one separator, and the
   * parts on either side are collapsed on their own.
   */
  lemma SpaceRunJoin(a: string, w: string, b: string, sep: char)
    requires a == [] || !IsSpace(a[|a| - 1])
    requires w != [] && forall k :: 0 <= k < |w| ==> IsSpace(w[k])
    requires b == [] || !IsSpace(b[0])
    ensures ReplaceSpaceRuns(a + w + b, sep) == ReplaceSpaceRuns(a, sep) + [sep] + ReplaceSpaceRuns(b, sep)
  {
    ConcatAssoc(a, w, b);
    SpaceRunsAppend(a, w + b, sep);
    SpaceRunCollapses(w, b, sep);
    ConcatAssoc(ReplaceSpaceRuns(a, sep), [sep], ReplaceSpaceRuns(b, sep));
  }

  /** A string with no whitespace at either end is its own trim. */
  lemma TrimmedUnchanged(s: string)
    requires s == [] || (!IsSpace(s[0]) && !IsSpace(s[|s| - 1]))
    ensures Trim(s) == s
  {
  }

  /** Upper-casing distributes over concatenation. */
  lemma UpperAppend(a: string, b: string)
    ensures ToUpper(a + b) == ToUpper(a) + ToUpper(b)
  {
    var u := ToUpper(a) + ToUpper(b);
    assert forall k :: 0 <= k < |a + b| ==> UpperChar((a + b)[k]) == u[k] by {
      forall k | 0 <= k < |a + b|
        ensures UpperChar((a + b)[k]) == u[k]
      {
        if k < |a| {
          assert (a + b)[k] == a[k];
        } else {
          assert (a + b)[k] == b[k - |a|];
        }
      }
    }
    var l := ToUpper(a + b);
    assert forall k :: 0 <= k < |l| ==> l[k] == u[k];
  }

  /** Lower-casing distributes over concatenation. */
  lemma LowerAppend(a: string, b: string)
    ensures ToLower(a + b) == ToLower(a) + ToLower(b)
  {
    var u := ToLower(a) + ToLower(b);
    assert forall k :: 0 <= k < |a + b| ==> LowerChar((a + b)[k]) == u[k] by {
      forall k | 0 <= k < |a + b|
        ensures LowerChar((a + b)[k]) == u[k]
      {
        if k < |a| {
          assert (a + b)[k] == a[k];
        } else {
          assert (a + b)[k] == b[k - |a|];
        }
      }
    }
    var l := ToLower(a + b);
    assert forall k :: 0 <= k < |l| ==> l[k] == u[k];
  }

  /** Filtering around a kept middle character. */
  lemma RetainAround(x: string, c: char, y: string, keep: char -> bool)
    requires keep(c)
    ensures Retain(x + [c] + y, keep) == Retain(x, keep) + [c] + Retain(y, keep)
  {
    RetainAppend(x + [c], y, keep);
    RetainAppend(x, [c], keep);
    assert Retain([c], keep) == [c];
  }

  /** Every character of a contained string occurs in the containing one. */
  lemma {:induction false} ContainsKeepsChars(hay: string, needle: string, c: char)
    requires Contains(hay, needle) && c in needle
    ensures c in hay
  {
    if !(needle <= hay) {
      ContainsKeepsChars(hay[1..], needle, c);
    }
  }

  /** A character of `needle` that `hay` lacks shows that `hay` does not contain `needle`. */
  lemma MissingCharNotContained(hay: string, needle: string, c: char)
    requires c in needle && c !in hay
    ensures !Contains(hay, needle)
  {
    if Contains(hay, needle) {
      ContainsKeepsChars(hay, needle, c);
    }
  }

  /** `hay.includes(needle)`: `needle` occurs in `hay` at some position. */
  predicate Contains(hay: string, needle: string) {
    needle <= hay || (hay != [] && Contains(hay[1..], needle))
  }

  /** `needle` occurs in `hay` starting at position `i`. */
  predicate OccursAt(hay: string, needle: string, i: int) {
    0 <= i <= |hay| - |needle| && hay[i..i + |needle|] == needle
  }

  /** `Contains` agrees with the positional definition of an occurrence. */
  lemma {:induction false} ContainsIsOccurrence(hay: string, needle: string)
    ensures Contains(hay, needle) <==> exists i :: OccursAt(hay, needle, i)
  {
    if hay == [] {
      if exists i :: OccursAt(hay, needle, i) {
        var i :| OccursAt(hay, needle, i);
        assert needle == [] && needle <= hay;
      }
      if Contains(hay, needle) {
        assert OccursAt(hay, needle, 0);
      }
    } else {
      ContainsIsOccurrence(hay[1..], needle);
      if needle <= hay {
        assert OccursAt(hay, needle, 0);
      } else if Contains(hay, needle) {
        var i :| OccursAt(hay[1..], needle, i);
        assert OccursAt(hay, needle, i + 1);
      }
      if exists i :: OccursAt(hay, needle, i) {
        var i :| OccursAt(hay, needle, i);
        if i > 0 {
          assert OccursAt(hay[1..], needle, i - 1);
        } else {
          assert needle <= hay;
        }
      }
    }
  }
}
