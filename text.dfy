/** The Python string operations the meal planner relies on, stated over
    `string` (that is, `seq<char>`): `str.lower`, `str.strip`, the substring
    test `p in s`, `sep.join(xs)` and `s.split(c)` for a one-character
    separator. */
module Text {
  import opened Seqs

  /** Lower-case mapping of one character. Python's `str.lower` follows the
      full Unicode tables; this model covers the letters the catalog and its
      users write: ASCII A-Z, Cyrillic А-Я, the Cyrillic block Ѐ-Џ (which
      holds the Ukrainian Є, І, Ї) and Ґ. Every other character is its own
      lower case. */
  function LowerChar(c: char): char
  {
    if 'A' <= c <= 'Z' then (c as int + 32) as char
    else if '\U{0410}' <= c <= '\U{042F}' then (c as int + 32) as char
    else if '\U{0400}' <= c <= '\U{040F}' then (c as int + 80) as char
    else if c == '\U{0490}' then '\U{0491}'
    else c
  }

  /** `s.lower()`, one character at a time. */
  function Lower(s: string): (r: string)
  {
    seq(|s|, i requires 0 <= i < |s| => LowerChar(s[i]))
  }

  /** `[t.lower() for t in ts]` */
  function LowerAll(ts: seq<string>): (r: seq<string>)
    ensures |r| == |ts|
    ensures forall i :: 0 <= i < |ts| ==> r[i] == Lower(ts[i])
  {
    if ts == [] then [] else [Lower(ts[0])] + LowerAll(ts[1..])
  }

  lemma LowerCharIdempotent(c: char)
    ensures LowerChar(LowerChar(c)) == LowerChar(c)
  {
  }

  lemma LowerIdempotent(s: string)
    ensures Lower(Lower(s)) == Lower(s)
  {
    forall i | 0 <= i < |s| ensures Lower(Lower(s))[i] == Lower(s)[i] {
      LowerCharIdempotent(s[i]);
    }
  }

  /** `c.isspace()` for Python's `str`: the ASCII whitespace and separator
      controls and the Unicode space characters. */
  predicate IsSpace(c: char)
  {
    c == ' ' || '\t' <= c <= '\r' || '\U{1C}' <= c <= '\U{1F}'
    || c == '\U{85}' || c == '\U{A0}' || c == '\U{1680}'
    || '\U{2000}' <= c <= '\U{200A}' || c == '\U{2028}' || c == '\U{2029}'
    || c == '\U{202F}' || c == '\U{205F}' || c == '\U{3000}'
  }

  /** Lower-casing neither creates nor removes white space. */
  lemma LowerCharKeepsSpace(c: char)
    ensures IsSpace(LowerChar(c)) == IsSpace(c)
  {
  }

  /** Number of leading white-space characters of `s`. */
  function LeadingSpaces(s: string): (k: nat)
    ensures k <= |s|
    ensures forall i :: 0 <= i < k ==> IsSpace(s[i])
    ensures k < |s| ==> !IsSpace(s[k])
  {
    if s != [] && IsSpace(s[0]) then 1 + LeadingSpaces(s[1..]) else 0
  }

  /** Number of trailing white-space characters of `s`. */
  function TrailingSpaces(s: string): (k: nat)
    ensures k <= |s|
    ensures forall i :: |s| - k <= i < |s| ==> IsSpace(s[i])
    ensures k < |s| ==> !IsSpace(s[|s| - 1 - k])
  {
    if s != [] && IsSpace(s[|s| - 1]) then 1 + TrailingSpaces(s[..|s| - 1]) else 0
  }

  /** `s.strip()`: `s` without its leading and trailing white space. */
  function Strip(s: string): (r: string)
  {
    var a := s[LeadingSpaces(s)..];
    a[..|a| - TrailingSpaces(a)]
  }

  /** What `Strip` returns: a contiguous piece of its argument, with only white
      space cut off on either side, and neither starting nor ending in white
      space. */
  lemma StripIsTrimmedSlice(s: string)
    ensures exists i, j :: (0 <= i <= j <= |s| && Strip(s) == s[i..j]
      && (forall k :: 0 <= k < i ==> IsSpace(s[k]))
      && (forall k :: j <= k < |s| ==> IsSpace(s[k])))
    ensures Strip(s) != [] ==> !IsSpace(Strip(s)[0]) && !IsSpace(Strip(s)[|Strip(s)| - 1])
  {
    var i := LeadingSpaces(s);
    var a := s[i..];
    var t := TrailingSpaces(a);
    var j := i + |a| - t;
    assert Strip(s) == s[i..j];
    forall k | j <= k < |s| ensures IsSpace(s[k]) {
      assert s[k] == a[k - i];
    }
    if Strip(s) != [] {
      assert Strip(s)[0] == s[i];
      assert Strip(s)[|Strip(s)| - 1] == a[|a| - 1 - t];
    }
  }

  /** `f.strip() == ''` exactly when `f` is all white space. */
  lemma StripEmptyIff(s: string)
    ensures Strip(s) == [] <==> forall k :: 0 <= k < |s| ==> IsSpace(s[k])
  {
    var i := LeadingSpaces(s);
    var a := s[i..];
    if forall k :: 0 <= k < |s| ==> IsSpace(s[k]) {
      assert a == [];
    } else {
      var w :| 0 <= w < |s| && !IsSpace(s[w]);
      assert w >= i;
      assert a[w - i] == s[w];
      assert TrailingSpaces(a) <= |a| - 1 - (w - i);
    }
  }

  /** Lower-casing and stripping commute. */
  lemma StripLower(s: string)
    ensures Strip(Lower(s)) == Lower(Strip(s))
  {
    var i := LeadingSpaces(s);
    var a := s[i..];
    assert LeadingSpaces(Lower(s)) == i by { LeadingLower(s); }
    assert Lower(s)[i..] == Lower(a) by { LowerSuffix(s, i); }
    TrimEndLower(a);
  }

  /** Cutting trailing white space commutes with lower-casing. */
  lemma TrimEndLower(a: string)
    ensures TrailingSpaces(Lower(a)) == TrailingSpaces(a)
    ensures Lower(a)[..|a| - TrailingSpaces(a)] == Lower(a[..|a| - TrailingSpaces(a)])
  {
    var t := TrailingSpaces(a);
    assert TrailingSpaces(Lower(a)) == t by { TrailingLower(a); }
    LowerPrefix(a, |a| - t);
  }

  /** Lower-casing a suffix is taking the suffix of the lower-cased text. */
  lemma LowerSuffix(s: string, n: nat)
    requires n <= |s|
    ensures Lower(s)[n..] == Lower(s[n..])
  {
    forall k | 0 <= k < |s| - n ensures Lower(s)[n..][k] == Lower(s[n..])[k] {
      assert s[n..][k] == s[n + k];
    }
  }

  /** Lower-casing a prefix is taking the prefix of the lower-cased text. */
  lemma LowerPrefix(s: string, n: nat)
    requires n <= |s|
    ensures Lower(s)[..n] == Lower(s[..n])
  {
    forall k | 0 <= k < n ensures Lower(s)[..n][k] == Lower(s[..n])[k] {
      assert s[..n][k] == s[k];
    }
  }

  lemma LowerSlice(s: string, i: nat, j: nat)
    requires i <= j <= |s|
    ensures Lower(s)[i..j] == Lower(s[i..j])
  {
  }

  lemma {:induction false} LeadingLower(s: string)
    ensures LeadingSpaces(Lower(s)) == LeadingSpaces(s)
    decreases |s|
  {
    if s != [] {
      LowerCharKeepsSpace(s[0]);
      assert Lower(s)[1..] == Lower(s[1..]);
      LeadingLower(s[1..]);
    }
  }

  lemma {:induction false} TrailingLower(s: string)
    ensures TrailingSpaces(Lower(s)) == TrailingSpaces(s)
    decreases |s|
  {
    if s != [] {
      LowerCharKeepsSpace(s[|s| - 1]);
      assert Lower(s)[..|s| - 1] == Lower(s[..|s| - 1]);
      TrailingLower(s[..|s| - 1]);
    }
  }

  /** Stripping twice strips nothing more. */
  lemma StripIdempotent(s: string)
    ensures Strip(Strip(s)) == Strip(s)
  {
    var r := Strip(s);
    StripIsTrimmedSlice(s);
    if r != [] {
      assert LeadingSpaces(r) == 0;
      assert r[0..] == r;
      assert TrailingSpaces(r) == 0;
    }
  }

  /** Python's `p in s` for strings: `p` occurs in `s` as a contiguous piece. */
  predicate Contains(s: string, p: string)
    decreases |s|
  {
    p <= s || (s != [] && Contains(s[1..], p))
  }

  /** `p` occurs in `s` starting at index `i`. */
  predicate OccursAt(s: string, p: string, i: int)
  {
    0 <= i <= |s| && p <= s[i..]
  }

  /** The substring test agrees with the index-based definition of an
      occurrence, in both directions. */
  lemma {:induction false} ContainsIff(s: string, p: string)
    ensures Contains(s, p) <==> exists i :: OccursAt(s, p, i)
    decreases |s|
  {
    if p <= s {
      assert s[0..] == s;
      assert OccursAt(s, p, 0);
    } else if s == [] {
    } else {
      ContainsIff(s[1..], p);
      if Contains(s[1..], p) {
        var i :| OccursAt(s[1..], p, i);
        assert s[1..][i..] == s[i + 1..];
        assert OccursAt(s, p, i + 1);
      } else {
        forall i | OccursAt(s, p, i) ensures false {
          assert i != 0 by { assert s[0..] == s; }
          assert s[1..][i - 1..] == s[i..];
          assert OccursAt(s[1..], p, i - 1);
        }
      }
    }
  }

  /** An occurrence in `b` is an occurrence in `a + b`, and one in `a` is one
      in `a + b` too. */
  lemma ContainsInConcat(a: string, b: string, p: string)
    ensures Contains(a, p) || Contains(b, p) ==> Contains(a + b, p)
  {
    ContainsIff(a, p);
    ContainsIff(b, p);
    ContainsIff(a + b, p);
    if Contains(a, p) {
      var i :| OccursAt(a, p, i);
      assert (a + b)[i..] == a[i..] + b;
      assert OccursAt(a + b, p, i);
    } else if Contains(b, p) {
      var i :| OccursAt(b, p, i);
      assert (a + b)[|a| + i..] == b[i..];
      assert OccursAt(a + b, p, |a| + i);
    }
  }

  /** A pattern longer than the text does not occur in it. */
  lemma {:induction false} ContainsTooLong(s: string, p: string)
    requires |s| < |p|
    ensures !Contains(s, p)
    decreases |s|
  {
    if s != [] {
      ContainsTooLong(s[1..], p);
    }
  }

  /** An occurrence survives lower-casing of both sides. */
  lemma ContainsLower(s: string, p: string)
    requires Contains(s, p)
    ensures Contains(Lower(s), Lower(p))
  {
    ContainsIff(s, p);
    ContainsIff(Lower(s), Lower(p));
    var i :| OccursAt(s, p, i);
    assert Lower(p) <= Lower(s)[i..] by {
      forall k | 0 <= k < |p| ensures Lower(p)[k] == Lower(s)[i..][k] {
        assert p[k] == s[i..][k];
      }
    }
    assert OccursAt(Lower(s), Lower(p), i);
  }

  /** An occurrence of an occurrence is an occurrence. */
  lemma ContainsTransitive(s: string, p: string, q: string)
    requires Contains(s, p) && Contains(p, q)
    ensures Contains(s, q)
  {
    ContainsIff(s, p);
    ContainsIff(p, q);
    ContainsIff(s, q);
    var i :| OccursAt(s, p, i);
    var j :| OccursAt(p, q, j);
    assert s[i..][j..] == s[i + j..];
    assert q <= s[i + j..] by {
      forall k | 0 <= k < |q| ensures q[k] == s[i + j..][k] {
        assert q[k] == p[j..][k] == p[j + k];
        assert p[j + k] == s[i..][j + k];
      }
    }
    assert OccursAt(s, q, i + j);
  }

  /** A string made only of characters that are their own lower case is its
      own lower case. */
  lemma LowerFixed(s: string)
    requires forall i :: 0 <= i < |s| ==> LowerChar(s[i]) == s[i]
    ensures Lower(s) == s
  {
  }

  /** `sep.join(xs)` */
  function Join(xs: seq<string>, sep: string): (r: string)
    decreases |xs|
  {
    if xs == [] then ""
    else if |xs| == 1 then xs[0]
    else xs[0] + sep + Join(xs[1..], sep)
  }

  /** Every joined piece occurs in the joined string. */
  lemma {:induction false} JoinContainsPiece(xs: seq<string>, sep: string, k: nat)
    requires k < |xs|
    ensures Contains(Join(xs, sep), xs[k])
    decreases |xs|
  {
    if |xs| == 1 {
      ContainsInConcat("", xs[0], xs[0]);
      assert "" + xs[0] == xs[0];
    } else if k == 0 {
      assert Contains(xs[0], xs[0]);
      ContainsInConcat(xs[0], sep + Join(xs[1..], sep), xs[0]);
      assert xs[0] + (sep + Join(xs[1..], sep)) == Join(xs, sep);
    } else {
      JoinContainsPiece(xs[1..], sep, k - 1);
      ContainsInConcat(xs[0] + sep, Join(xs[1..], sep), xs[k]);
      assert (xs[0] + sep) + Join(xs[1..], sep) == Join(xs, sep);
    }
  }

  /** `s.split(c)` for a one-character separator `c`: the pieces between the
      occurrences of `c`, empty pieces included, and `[""]` for `""`. */
  function Split(s: string, c: char): (parts: seq<string>)
    ensures |parts| >= 1
    decreases |s|
  {
    if s == [] then [""]
    else
      var rest := Split(s[1..], c);
      if s[0] == c then [""] + rest
      else [[s[0]] + rest[0]] + rest[1..]
  }

  /** No piece holds the separator. */
  lemma {:induction false} SplitSeparatorFree(s: string, c: char)
    ensures forall i :: 0 <= i < |Split(s, c)| ==> c !in Split(s, c)[i]
    decreases |s|
  {
    if s != [] {
      SplitSeparatorFree(s[1..], c);
      var rest := Split(s[1..], c);
      if s[0] != c {
        assert c !in [s[0]] + rest[0];
      }
    }
  }

  /** Splitting then joining with the same separator gives back the input. */
  lemma {:induction false} SplitJoin(s: string, c: char)
    ensures Join(Split(s, c), [c]) == s
    decreases |s|
  {
    if s != [] {
      var rest := Split(s[1..], c);
      SplitJoin(s[1..], c);
      if s[0] == c {
        assert Join([""] + rest, [c]) == "" + [c] + Join(rest, [c]);
      } else {
        var parts := [[s[0]] + rest[0]] + rest[1..];
        if |rest| == 1 {
          assert Join(rest, [c]) == rest[0];
        } else {
          assert Join(rest, [c]) == rest[0] + [c] + Join(rest[1..], [c]);
          assert parts[1..] == rest[1..];
        }
      }
    }
  }

  /** The split of each element of `parts`, concatenated in order:
      `[p for part in parts for p in part.split(c)]`. */
  function SplitEach(parts: seq<string>, c: char): (r: seq<string>)
    decreases |parts|
  {
    if parts == [] then []
    else SplitEach(parts[..|parts| - 1], c) + Split(parts[|parts| - 1], c)
  }

  /** Splitting one more part appends its pieces. */
  lemma SplitEachSnoc(parts: seq<string>, p: string, c: char)
    ensures SplitEach(parts + [p], c) == SplitEach(parts, c) + Split(p, c)
  {
    assert (parts + [p])[..|parts|] == parts;
  }

  /** Splitting the parts before `b[j]` and then `b[j]` appends its pieces. */
  lemma SplitEachPrefixSnoc(a: seq<string>, b: seq<string>, j: nat, c: char)
    requires j < |b|
    ensures SplitEach(a + b[..j + 1], c) == SplitEach(a + b[..j], c) + Split(b[j], c)
  {
    PrefixSnoc(a, b, j);
    SplitEachSnoc(a + b[..j], b[j], c);
  }

  /** A single part splits into its own pieces. */
  lemma SplitEachOne(p: string, c: char)
    ensures SplitEach([p], c) == Split(p, c)
  {
    assert [p][..0] == [];
  }

  /** Splitting one more part of `ps` appends that part's pieces. */
  lemma SplitEachPrefix(ps: seq<string>, i: nat, c: char)
    requires i < |ps|
    ensures SplitEach(ps[..i + 1], c) == SplitEach(ps[..i], c) + Split(ps[i], c)
  {
    assert ps[..i + 1] == ps[..i] + [ps[i]];
    SplitEachSnoc(ps[..i], ps[i], c);
  }

  /** No piece of any part holds the separator. */
  lemma {:induction false} SplitEachSeparatorFree(parts: seq<string>, c: char)
    ensures forall i :: 0 <= i < |SplitEach(parts, c)| ==> c !in SplitEach(parts, c)[i]
    decreases |parts|
  {
    if parts != [] {
      SplitEachSeparatorFree(parts[..|parts| - 1], c);
      SplitSeparatorFree(parts[|parts| - 1], c);
    }
  }

  lemma {:induction false} SplitEachConcat(a: seq<string>, b: seq<string>, c: char)
    ensures SplitEach(a + b, c) == SplitEach(a, c) + SplitEach(b, c)
    decreases |b|
  {
    if b == [] {
      assert a + b == a;
    } else {
      var b', x := b[..|b| - 1], b[|b| - 1];
      assert b == b' + [x];
      calc {
        SplitEach(a + b, c);
      == { assert a + b == (a + b') + [x]; SplitEachSnoc(a + b', x, c); }
        SplitEach(a + b', c) + Split(x, c);
      == { SplitEachConcat(a, b', c); }
        SplitEach(a, c) + SplitEach(b', c) + Split(x, c);
      == { SplitEachSnoc(b', x, c); }
        SplitEach(a, c) + SplitEach(b, c);
      }
    }
  }

  /** A character absent from every part stays absent from every piece. */
  lemma {:induction false} SplitEachKeeps(parts: seq<string>, c: char, d: char)
    requires forall i :: 0 <= i < |parts| ==> d !in parts[i]
    ensures forall i :: 0 <= i < |SplitEach(parts, c)| ==> d !in SplitEach(parts, c)[i]
    decreases |parts|
  {
    if parts != [] {
      SplitEachKeeps(parts[..|parts| - 1], c, d);
      SplitKeeps(parts[|parts| - 1], c, d);
    }
  }

  lemma {:induction false} SplitKeeps(s: string, c: char, d: char)
    requires d !in s
    ensures forall i :: 0 <= i < |Split(s, c)| ==> d !in Split(s, c)[i]
    decreases |s|
  {
    if s != [] {
      assert d !in s[1..] by { assert forall x :: x in s[1..] ==> x in s; }
      SplitKeeps(s[1..], c, d);
    }
  }

  /** Text without the separator is one piece. */
  lemma {:induction false} SplitNoSeparator(s: string, c: char)
    requires c !in s
    ensures Split(s, c) == [s]
    decreases |s|
  {
    if s != [] {
      assert c !in s[1..] by { assert forall x :: x in s[1..] ==> x in s; }
      SplitNoSeparator(s[1..], c);
      assert [s[0]] + s[1..] == s;
    }
  }

  /** The first separator ends the first piece. */
  lemma {:induction false} SplitAtFirst(a: string, c: char, b: string)
    requires c !in a
    ensures Split(a + [c] + b, c) == [a] + Split(b, c)
    decreases |a|
  {
    var s := a + [c] + b;
    if a == [] {
      assert s == [c] + b && s[0] == c;
      assert s[1..] == b;
    } else {
      assert c !in a[1..] by { assert forall x :: x in a[1..] ==> x in a; }
      SplitAtFirst(a[1..], c, b);
      assert s[0] == a[0] && s[1..] == a[1..] + [c] + b;
      assert [a[0]] + a[1..] == a;
    }
  }
}
