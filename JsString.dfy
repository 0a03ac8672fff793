/**
 * The JavaScript string operations the core relies on: `trim`, a global regular-expression
 * `replace` of a literal pattern by the empty string, and `Array.prototype.join`.
 */
module JsString {

  /** The characters `String.prototype.trim` removes: WhiteSpace and LineTerminator code points. */
  predicate IsSpace(c: char)
  {
    var n := c as int;
    (0x09 <= n <= 0x0D) || n == 0x20 || n == 0xA0 || n == 0x1680
    || (0x2000 <= n <= 0x200A) || n == 0x2028 || n == 0x2029 || n == 0x202F
    || n == 0x205F || n == 0x3000 || n == 0xFEFF
  }

  /** The number of whitespace characters `s` starts with. */
  function LeadingSpace(s: string): (n: nat)
    ensures n <= |s|
    ensures forall i :: 0 <= i < n ==> IsSpace(s[i])
    ensures n < |s| ==> !IsSpace(s[n])
  {
    if s != [] && IsSpace(s[0]) then 1 + LeadingSpace(s[1..]) else 0
  }

  /** The number of whitespace characters `s` ends with. */
  function TrailingSpace(s: string): (n: nat)
    ensures n <= |s|
    ensures forall i :: |s| - n <= i < |s| ==> IsSpace(s[i])
    ensures n < |s| ==> !IsSpace(s[|s| - 1 - n])
  {
    if s != [] && IsSpace(s[|s| - 1]) then 1 + TrailingSpace(s[..|s| - 1]) else 0
  }

  /** `s.trim()`: `s` without its leading and trailing whitespace. */
  function Trim(s: string): (r: string)
    ensures |r| <= |s|
    ensures r != [] ==> !IsSpace(r[0]) && !IsSpace(r[|r| - 1])
  {
    var t := s[LeadingSpace(s)..];
    t[..|t| - TrailingSpace(t)]
  }

  /** Trimming only deletes: no character occurs more often afterwards. */
  lemma TrimDeletes(s: string)
    ensures multiset(Trim(s)) <= multiset(s)
  {
    var t := s[LeadingSpace(s)..];
    assert s == s[..LeadingSpace(s)] + t;
    assert t == Trim(s) + t[|t| - TrailingSpace(t)..];
  }

  /** What `trim` keeps is a contiguous part of its input, and only whitespace is dropped. */
  lemma TrimIsSlice(s: string)
    ensures exists a, b :: (0 <= a <= b <= |s| && Trim(s) == s[a..b]
                            && (forall i :: 0 <= i < a ==> IsSpace(s[i]))
                            && (forall i :: b <= i < |s| ==> IsSpace(s[i])))
  {
    var a := LeadingSpace(s);
    var t := s[a..];
    var b := a + |t| - TrailingSpace(t);
    assert Trim(s) == s[a..b];
    assert forall i :: b <= i < |s| ==> s[i] == t[i - a];
  }

  /** A string that neither starts nor ends with whitespace is left as it is. */
  lemma TrimTrimmed(s: string)
    requires s != [] ==> !IsSpace(s[0]) && !IsSpace(s[|s| - 1])
    ensures Trim(s) == s
  {
    assert LeadingSpace(s) == 0;
    assert s[0..] == s;
    assert TrailingSpace(s) == 0;
  }

  /** `trim` is idempotent. */
  lemma TrimIdempotent(s: string)
    ensures Trim(Trim(s)) == Trim(s)
  {
    TrimTrimmed(Trim(s));
  }

  /** `pat` occurs in `s` starting at index `i`. */
  predicate OccursAt(s: string, pat: string, i: int)
  {
    0 <= i <= |s| && pat <= s[i..]
  }

  /** `pat` occurs nowhere in `s`. */
  predicate Absent(s: string, pat: string)
  {
    forall i :: 0 <= i < |s| ==> !OccursAt(s, pat, i)
  }

  /**
   * `s.replace(/pat/g, '')` for a literal, non-empty pattern: the text is scanned from the left,
   * each leftmost occurrence is dropped and the scan resumes after it. Occurrences that only
   * form once an earlier one has been dropped are not dropped.
   */
  function RemoveAll(s: string, pat: string): (r: string)
    requires pat != []
    ensures |r| <= |s|
    decreases |s|
  {
    if s == [] then []
    else if pat <= s then RemoveAll(s[|pat|..], pat)
    else [s[0]] + RemoveAll(s[1..], pat)
  }

  /** A global replace with `''` only deletes: no character occurs more often afterwards. */
  lemma {:induction false} RemoveAllDeletes(s: string, pat: string)
    requires pat != []
    ensures multiset(RemoveAll(s, pat)) <= multiset(s)
    decreases |s|
  {
    if s == [] {
    } else if pat <= s {
      assert s == s[..|pat|] + s[|pat|..];
      RemoveAllDeletes(s[|pat|..], pat);
    } else {
      assert s == [s[0]] + s[1..];
      RemoveAllDeletes(s[1..], pat);
    }
  }

  /** Index `i + 1` of `[c] + t` is index `i` of `t`, for occurrences. */
  lemma OccursAtCons(c: char, t: string, pat: string, i: int)
    requires 0 <= i < |t|
    ensures OccursAt([c] + t, pat, i + 1) <==> OccursAt(t, pat, i)
  {
    assert ([c] + t)[i + 1..] == t[i..];
  }

  /** Removing a pattern that does not occur changes nothing. */
  lemma {:induction false} RemoveAbsent(s: string, pat: string)
    requires pat != []
    requires Absent(s, pat)
    ensures RemoveAll(s, pat) == s
    decreases |s|
  {
    if s != [] {
      assert s[0..] == s;
      assert !OccursAt(s, pat, 0);
      forall i | 0 <= i < |s[1..]|
        ensures !OccursAt(s[1..], pat, i)
      {
        assert s == [s[0]] + s[1..];
        OccursAtCons(s[0], s[1..], pat, i);
      }
      RemoveAbsent(s[1..], pat);
      assert s == [s[0]] + s[1..];
    }
  }

  const Fence: string := "```"

  /** The number of backticks `s` starts with. */
  function LeadingTicks(s: string): nat
  {
    if s != [] && s[0] == '`' then 1 + LeadingTicks(s[1..]) else 0
  }

  /** A global removal of the fence leaves `LeadingTicks % 3` backticks at the front. */
  lemma {:induction false} RemoveFenceLeadingTicks(s: string)
    ensures LeadingTicks(RemoveAll(s, Fence)) == LeadingTicks(s) % 3
    decreases |s|
  {
    if s == [] {
    } else if Fence <= s {
      RemoveFenceLeadingTicks(s[3..]);
      assert s[..3] == Fence;
      assert s[0] == '`' && s[1] == '`' && s[2] == '`';
      assert s[1..][1..] == s[2..] && s[2..][1..] == s[3..];
      assert LeadingTicks(s[2..]) == 1 + LeadingTicks(s[3..]);
      assert LeadingTicks(s[1..]) == 1 + LeadingTicks(s[2..]);
      assert LeadingTicks(s) == 1 + LeadingTicks(s[1..]);
    } else {
      RemoveFenceLeadingTicks(s[1..]);
    }
  }

  /**
   * After a global removal of the fence, no three consecutive backticks remain: no new
   * fence can form where an occurrence was dropped.
   */
  lemma {:induction false} RemoveFenceAbsent(s: string)
    ensures Absent(RemoveAll(s, Fence), Fence)
    decreases |s|
  {
    if s == [] {
    } else if Fence <= s {
      RemoveFenceAbsent(s[3..]);
    } else {
      var t := RemoveAll(s[1..], Fence);
      RemoveFenceAbsent(s[1..]);
      RemoveFenceLeadingTicks(s[1..]);
      assert RemoveAll(s, Fence) == [s[0]] + t;
      forall i | 0 <= i < |[s[0]] + t|
        ensures !OccursAt([s[0]] + t, Fence, i)
      {
        if i > 0 {
          OccursAtCons(s[0], t, Fence, i - 1);
        }
      }
    }
  }

  /** A string without backticks contains no occurrence of a pattern that starts with one. */
  lemma NoTicksAbsent(s: string, pat: string)
    requires pat != [] && pat[0] == '`'
    requires '`' !in s
    ensures Absent(s, pat)
  {
    forall i | 0 <= i < |s|
      ensures !OccursAt(s, pat, i)
    {
      assert s[i..][0] == s[i];
    }
  }

  /** A pattern absent from `s` is absent from every slice of `s`. */
  lemma AbsentSlice(s: string, pat: string, a: int, b: int)
    requires 0 <= a <= b <= |s|
    requires pat != []
    requires Absent(s, pat)
    ensures Absent(s[a..b], pat)
  {
    forall i | 0 <= i < b - a
      ensures !OccursAt(s[a..b], pat, i)
    {
      if OccursAt(s[a..b], pat, i) {
        assert s[a..b][i..] == s[a + i..b];
        assert s[a + i..][..|pat|] == s[a + i..b][..|pat|];
        assert OccursAt(s, pat, a + i);
        assert false;
      }
    }
  }

  /** An occurrence of a longer pattern that starts with `pat` is an occurrence of `pat`. */
  lemma AbsentPrefix(s: string, pat: string, longer: string)
    requires pat <= longer
    requires Absent(s, pat)
    ensures Absent(s, longer)
  {
    forall i | 0 <= i < |s|
      ensures !OccursAt(s, longer, i)
    {
      if OccursAt(s, longer, i) {
        assert longer[..|pat|] == pat;
        assert s[i..][..|pat|] == pat;
        assert OccursAt(s, pat, i);
      }
    }
  }

  /** The two halves of a concatenation are found again by slicing at the seam. */
  lemma Concat(a: string, b: string)
    ensures (a + b)[..|a|] == a && (a + b)[|a|..] == b
  {
  }

  /** `parts.join(sep)`: the parts separated by `sep`; `""` for no parts. */
  function Join(parts: seq<string>, sep: string): (r: string)
    ensures |parts| == 1 ==> r == parts[0]
    ensures |parts| > 1 ==> r == parts[0] + sep + Join(parts[1..], sep)
  {
    if |parts| == 0 then ""
    else if |parts| == 1 then parts[0]
    else parts[0] + sep + Join(parts[1..], sep)
  }

  const ListSeparator: string := ", "

  /** Splits `s` at every `", "`; `current` is the part read so far. */
  function SplitFrom(s: string, current: string): (r: seq<string>)
    ensures |r| >= 1
    decreases |s|
  {
    if s == [] then [current]
    else if ListSeparator <= s then [current] + SplitFrom(s[2..], "")
    else SplitFrom(s[1..], current + [s[0]])
  }

  /** `s.split(", ")`. */
  function Split(s: string): seq<string>
  {
    SplitFrom(s, "")
  }

  /** True when no part contains a comma. */
  predicate CommaFree(parts: seq<string>)
  {
    forall k, i :: 0 <= k < |parts| && 0 <= i < |parts[k]| ==> parts[k][i] != ','
  }

  /** Splitting runs straight through a part that holds no comma. */
  lemma {:induction false} SplitThroughPart(part: string, rest: string, current: string)
    requires forall i :: 0 <= i < |part| ==> part[i] != ','
    ensures SplitFrom(part + rest, current) == SplitFrom(rest, current + part)
    decreases |part|
  {
    if part == [] {
      assert part + rest == rest;
      assert current + part == current;
    } else {
      var s := part + rest;
      assert s[0] == part[0] != ',';
      assert !(ListSeparator <= s);
      assert s[1..] == part[1..] + rest;
      SplitThroughPart(part[1..], rest, current + [part[0]]);
      assert current + [part[0]] + part[1..] == current + part;
    }
  }

  /** Splitting a join of comma-free parts gives the parts back, the first one extended by `current`. */
  lemma {:induction false} SplitJoinFrom(parts: seq<string>, current: string)
    requires |parts| >= 1
    requires CommaFree(parts)
    ensures SplitFrom(Join(parts, ListSeparator), current) == [current + parts[0]] + parts[1..]
    decreases |parts|
  {
    assert forall i :: 0 <= i < |parts[0]| ==> parts[0][i] != ',';
    if |parts| == 1 {
      SplitThroughPart(parts[0], "", current);
      assert parts[0] + "" == parts[0];
    } else {
      var tail := Join(parts[1..], ListSeparator);
      assert Join(parts, ListSeparator) == parts[0] + (ListSeparator + tail);
      SplitThroughPart(parts[0], ListSeparator + tail, current);
      assert (ListSeparator + tail)[2..] == tail;
      assert CommaFree(parts[1..]) by {
        forall k, i | 0 <= k < |parts[1..]| && 0 <= i < |parts[1..][k]|
          ensures parts[1..][k][i] != ','
        {
          assert parts[1..][k] == parts[k + 1];
        }
      }
      SplitJoinFrom(parts[1..], "");
      assert "" + parts[1..][0] == parts[1];
      assert [parts[1]] + parts[1..][1..] == parts[1..];
    }
  }

  /** `join(", ")` is undone by `split(", ")` when no part contains a comma. */
  lemma SplitJoin(parts: seq<string>)
    requires |parts| >= 1
    requires CommaFree(parts)
    ensures Split(Join(parts, ListSeparator)) == parts
  {
    SplitJoinFrom(parts, "");
    assert "" + parts[0] == parts[0];
    assert [parts[0]] + parts[1..] == parts;
  }
}
