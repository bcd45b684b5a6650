/** String helpers the serializers are built from, with the semantics of the
    JavaScript `String.prototype.split`, `Array.prototype.join`,
    `String.prototype.replace(/-/g, "")` and `String.prototype.trim` calls the
    serializers make. */
module Strings {

  /** Concatenation is associative. */
  lemma AppendAssoc<T>(x: seq<T>, y: seq<T>, z: seq<T>)
    ensures (x + y) + z == x + (y + z)
  {
  }

  /** A prefix of a string is a prefix of any extension of it. */
  lemma PrefixOfAppend(p: string, x: string, y: string)
    requires p <= x
    ensures p <= x + y
  {
    assert (x + y)[..|p|] == x[..|p|];
  }

  /** Dropping a prefix of a concatenation leaves the rest. */
  lemma DropPrefix(p: string, x: string)
    ensures (p + x)[|p|..] == x
  {
  }

  /** Number of occurrences of `c` in `s`. */
  function Count(s: string, c: char): nat
  {
    if s == [] then 0 else (if s[0] == c then 1 else 0) + Count(s[1..], c)
  }

  /** `s.split(c)` for a one-character separator: the empty string splits to
      `[""]`, and k separators give k + 1 pieces, none containing `c`. */
  function Split(s: string, c: char): (r: seq<string>)
    ensures |r| == Count(s, c) + 1
    ensures forall i :: 0 <= i < |r| ==> c !in r[i]
  {
    if s == [] then [""]
    else
      var rest := Split(s[1..], c);
      if s[0] == c then [""] + rest
      else [[s[0]] + rest[0]] + rest[1..]
  }

  /** `parts.join(sep)`: no separator before the first or after the last part. */
  function Join(parts: seq<string>, sep: string): (r: string)
    ensures |parts| > 0 ==> parts[0] <= r
  {
    if |parts| == 0 then ""
    else if |parts| == 1 then parts[0]
    else parts[0] + sep + Join(parts[1..], sep)
  }

  /** The `"\n"`-separated lines of `s`. */
  function Lines(s: string): seq<string>
  {
    Split(s, '\n')
  }

  /** Every line with `p` in front of it. */
  function PrefixAll(p: string, lines: seq<string>): (r: seq<string>)
    ensures |r| == |lines|
    ensures forall i :: 0 <= i < |r| ==> r[i] == p + lines[i]
  {
    if lines == [] then [] else [p + lines[0]] + PrefixAll(p, lines[1..])
  }

  /** `s.split("\n").map((line) => p + line).join("\n")`. */
  function PrefixLines(p: string, s: string): string
  {
    Join(PrefixAll(p, Lines(s)), "\n")
  }

  /** `PrefixLines(p, _)` applied to each element, in order. */
  function PrefixEach(p: string, xs: seq<string>): (r: seq<string>)
    ensures |r| == |xs|
    ensures forall i :: 0 <= i < |r| ==> r[i] == PrefixLines(p, xs[i])
  {
    if xs == [] then [] else [PrefixLines(p, xs[0])] + PrefixEach(p, xs[1..])
  }

  /** `xs.filter((md) => md !== "")`. */
  function NonEmpty(xs: seq<string>): (r: seq<string>)
    ensures |r| <= |xs|
    ensures forall i :: 0 <= i < |r| ==> r[i] != ""
    ensures r == [] <==> forall i :: 0 <= i < |xs| ==> xs[i] == ""
  {
    if xs == [] then []
    else if xs[0] == "" then NonEmpty(xs[1..])
    else [xs[0]] + NonEmpty(xs[1..])
  }

  /** `s.replace(/-/g, "")`: no dash is left, every other character stays. */
  function RemoveDashes(s: string): (r: string)
    ensures '-' !in r
    ensures |r| == |s| - Count(s, '-')
  {
    if s == [] then ""
    else if s[0] == '-' then RemoveDashes(s[1..])
    else [s[0]] + RemoveDashes(s[1..])
  }

  /** The characters `String.prototype.trim` removes: the WhiteSpace and
      LineTerminator code points of ECMAScript (section 12.2 and 12.3 of
      ECMA-262), that is TAB, VT, FF, ZWNBSP, every Unicode space separator
      (category Zs), LF, CR, LINE SEPARATOR and PARAGRAPH SEPARATOR. */
  predicate IsJsWhitespace(c: char)
  {
    || c == '\t' || c == '\n' || c == '\U{000B}' || c == '\U{000C}' || c == '\r'
    || c == ' ' || c == '\U{00A0}' || c == '\U{1680}'
    || ('\U{2000}' <= c <= '\U{200A}')
    || c == '\U{2028}' || c == '\U{2029}' || c == '\U{202F}' || c == '\U{205F}'
    || c == '\U{3000}' || c == '\U{FEFF}'
  }

  /** `s` with its leading whitespace removed. */
  function TrimStart(s: string): (r: string)
    ensures |r| <= |s| && r == s[|s| - |r|..]
    ensures forall k :: 0 <= k < |s| - |r| ==> IsJsWhitespace(s[k])
    ensures r == [] || !IsJsWhitespace(r[0])
  {
    if s == [] || !IsJsWhitespace(s[0]) then s else TrimStart(s[1..])
  }

  /** `s` with its trailing whitespace removed. */
  function TrimEnd(s: string): (r: string)
    ensures |r| <= |s| && r == s[..|r|]
    ensures forall k :: |r| <= k < |s| ==> IsJsWhitespace(s[k])
    ensures r == [] || !IsJsWhitespace(r[|r| - 1])
  {
    if s == [] || !IsJsWhitespace(s[|s| - 1]) then s else TrimEnd(s[..|s| - 1])
  }

  /** `s.trim()`. */
  function Trim(s: string): (r: string)
    ensures r == [] || (!IsJsWhitespace(r[0]) && !IsJsWhitespace(r[|r| - 1]))
    ensures |r| <= |s|
  {
    TrimEnd(TrimStart(s))
  }

  // ---------------------------------------------------------------------
  // Split and Join

  /** Joining two parts puts the separator between them. */
  lemma JoinTwo(x: string, y: string, sep: string)
    ensures Join([x, y], sep) == x + sep + y
  {
    assert [x, y][1..] == [y];
  }

  /** Joining three parts puts the separator between each two. */
  lemma JoinThree(x: string, y: string, z: string, sep: string)
    ensures Join([x, y, z], sep) == x + sep + y + sep + z
  {
    assert [x, y, z][1..] == [y, z];
    JoinTwo(y, z, sep);
  }

  /** Joining a list whose first part gains a prefix character. */
  lemma {:induction false} JoinConsChar(x: char, parts: seq<string>, sep: string)
    requires |parts| > 0
    ensures Join([[x] + parts[0]] + parts[1..], sep) == [x] + Join(parts, sep)
  {
    var ps := [[x] + parts[0]] + parts[1..];
    if |parts| > 1 {
      assert ps[1..] == parts[1..];
    }
  }

  /** Splitting and joining back with the same separator is the identity. */
  lemma {:induction false} JoinSplit(s: string, c: char)
    ensures Join(Split(s, c), [c]) == s
  {
    if s != [] {
      var rest := Split(s[1..], c);
      JoinSplit(s[1..], c);
      if s[0] == c {
        assert ([""] + rest)[1..] == rest;
        assert Join([""] + rest, [c]) == "" + [c] + Join(rest, [c]);
        assert s == [c] + s[1..];
      } else {
        JoinConsChar(s[0], rest, [c]);
        assert s == [s[0]] + s[1..];
      }
    }
  }

  /** A separator in the middle splits into the pieces of both sides. */
  lemma {:induction false} SplitAppend(a: string, b: string, c: char)
    ensures Split(a + [c] + b, c) == Split(a, c) + Split(b, c)
  {
    var w := a + [c] + b;
    if a == [] {
      assert w == [c] + b;
      assert w[1..] == b;
    } else {
      assert w[0] == a[0];
      assert w[1..] == a[1..] + [c] + b;
      SplitAppend(a[1..], b, c);
    }
  }

  /** A string without the separator is a single piece. */
  lemma {:induction false} SplitNoSep(s: string, c: char)
    requires c !in s
    ensures Split(s, c) == [s]
  {
    if s != [] {
      assert c !in s[1..] by {
        forall k | 0 <= k < |s[1..]| ensures s[1..][k] != c {
          assert s[1..][k] == s[k + 1];
        }
      }
      SplitNoSep(s[1..], c);
      assert s == [s[0]] + s[1..];
    }
  }

  /** Joining two non-empty lists puts one separator between them. */
  lemma {:induction false} JoinAppend(a: seq<string>, b: seq<string>, sep: string)
    requires |a| > 0 && |b| > 0
    ensures Join(a + b, sep) == Join(a, sep) + sep + Join(b, sep)
  {
    if |a| > 1 {
      assert (a + b)[1..] == a[1..] + b;
      JoinAppend(a[1..], b, sep);
    } else {
      assert (a + b)[1..] == b;
    }
  }

  /** Splitting a join of non-empty list gives the pieces of every part. */
  lemma {:induction false} SplitJoin(xs: seq<string>, c: char)
    requires |xs| > 0
    ensures Split(Join(xs, [c]), c) == SplitAll(xs, c)
  {
    if |xs| > 1 {
      SplitJoin(xs[1..], c);
      SplitAppend(xs[0], Join(xs[1..], [c]), c);
    }
  }

  /** The pieces of every element of `xs` in turn; each element gives at
      least one. */
  function SplitAll(xs: seq<string>, c: char): (r: seq<string>)
    ensures |r| >= |xs|
  {
    if xs == [] then [] else Split(xs[0], c) + SplitAll(xs[1..], c)
  }

  /** Splitting a join of separator-free parts gives the parts back. */
  lemma {:induction false} SplitJoinNoSep(xs: seq<string>, c: char)
    requires |xs| > 0
    requires forall i :: 0 <= i < |xs| ==> c !in xs[i]
    ensures Split(Join(xs, [c]), c) == xs
  {
    SplitJoin(xs, c);
    SplitAllNoSep(xs, c);
  }

  lemma {:induction false} SplitAllNoSep(xs: seq<string>, c: char)
    requires forall i :: 0 <= i < |xs| ==> c !in xs[i]
    ensures SplitAll(xs, c) == xs
  {
    if xs != [] {
      SplitNoSep(xs[0], c);
      SplitAllNoSep(xs[1..], c);
      assert xs == [xs[0]] + xs[1..];
    }
  }

  /** A join of parts and a separator that all lack `c` lacks `c`. */
  lemma {:induction false} JoinAvoids(parts: seq<string>, sep: string, c: char)
    requires c !in sep
    requires forall i :: 0 <= i < |parts| ==> c !in parts[i]
    ensures c !in Join(parts, sep)
  {
    if |parts| > 1 {
      JoinAvoids(parts[1..], sep, c);
    }
  }

  // ---------------------------------------------------------------------
  // Lines

  /** The lines of `a + "\n" + b` are the lines of `a` then the lines of `b`. */
  lemma LinesAppend(a: string, b: string)
    ensures Lines(a + "\n" + b) == Lines(a) + Lines(b)
  {
    SplitAppend(a, b, '\n');
  }

  /** A string is determined by its lines. */
  lemma LinesInjective(s: string, t: string)
    requires Lines(s) == Lines(t)
    ensures s == t
  {
    JoinSplit(s, '\n');
    JoinSplit(t, '\n');
  }

  /** Each line of `PrefixLines(p, s)` is exactly one line of `s` with one `p`
      in front, as long as `p` holds no newline. */
  lemma {:induction false} LinesOfPrefixLines(p: string, s: string)
    requires '\n' !in p
    ensures Lines(PrefixLines(p, s)) == PrefixAll(p, Lines(s))
  {
    var ls := PrefixAll(p, Lines(s));
    forall i | 0 <= i < |ls| ensures '\n' !in ls[i] {
      assert ls[i] == p + Lines(s)[i];
    }
    SplitJoinNoSep(ls, '\n');
  }

  /** Prefixing lines twice compounds the prefixes: the outer one comes first. */
  lemma {:induction false} PrefixLinesCompose(p: string, q: string, s: string)
    requires '\n' !in p && '\n' !in q
    ensures PrefixLines(p, PrefixLines(q, s)) == PrefixLines(p + q, s)
  {
    LinesOfPrefixLines(q, s);
    var inner := PrefixAll(q, Lines(s));
    var lhs := PrefixAll(p, inner);
    var rhs := PrefixAll(p + q, Lines(s));
    assert |lhs| == |rhs|;
    forall i | 0 <= i < |lhs| ensures lhs[i] == rhs[i] {
      assert lhs[i] == p + (q + Lines(s)[i]);
    }
    assert lhs == rhs;
  }

  lemma PrefixAllAppend(p: string, a: seq<string>, b: seq<string>)
    ensures PrefixAll(p, a + b) == PrefixAll(p, a) + PrefixAll(p, b)
  {
    var l := PrefixAll(p, a + b);
    var r := PrefixAll(p, a) + PrefixAll(p, b);
    assert |l| == |r|;
    forall i | 0 <= i < |l| ensures l[i] == r[i] {
      if i < |a| {
        assert (a + b)[i] == a[i];
      } else {
        assert (a + b)[i] == b[i - |a|];
      }
    }
  }

  /** Prefixing the lines of `a + "\n" + b` prefixes those of `a` and of `b`. */
  lemma PrefixLinesAppend(p: string, a: string, b: string)
    ensures PrefixLines(p, a + "\n" + b) == PrefixLines(p, a) + "\n" + PrefixLines(p, b)
  {
    LinesAppend(a, b);
    PrefixAllAppend(p, Lines(a), Lines(b));
    JoinAppend(PrefixAll(p, Lines(a)), PrefixAll(p, Lines(b)), "\n");
  }

  /** Prefixing the lines of each part and joining them with `"\n"` is the
      same as joining first and prefixing every line of the result. */
  lemma {:induction false} PrefixEachJoin(p: string, xs: seq<string>)
    requires |xs| > 0
    ensures Join(PrefixEach(p, xs), "\n") == PrefixLines(p, Join(xs, "\n"))
  {
    if |xs| > 1 {
      PrefixEachJoin(p, xs[1..]);
      assert PrefixEach(p, xs)[1..] == PrefixEach(p, xs[1..]);
      PrefixLinesAppend(p, xs[0], Join(xs[1..], "\n"));
    }
  }

  /** A single line gains the prefix once. */
  lemma PrefixLinesSingle(p: string, s: string)
    requires '\n' !in s
    ensures PrefixLines(p, s) == p + s
  {
    SplitNoSep(s, '\n');
  }

  /** `PrefixLines(p, s)` always begins with `p`, so it is never empty when
      `p` is not. */
  lemma PrefixLinesStarts(p: string, s: string)
    ensures p <= PrefixLines(p, s)
  {
  }

  // ---------------------------------------------------------------------
  // Filtering

  lemma {:induction false} NonEmptyAppend(a: seq<string>, b: seq<string>)
    ensures NonEmpty(a + b) == NonEmpty(a) + NonEmpty(b)
  {
    if a != [] {
      assert (a + b)[0] == a[0];
      assert (a + b)[1..] == a[1..] + b;
      NonEmptyAppend(a[1..], b);
    } else {
      assert a + b == b;
    }
  }

  /** Filtering a list that has no empty element keeps it as it is. */
  lemma {:induction false} NonEmptyNoEmpty(xs: seq<string>)
    requires forall i :: 0 <= i < |xs| ==> xs[i] != ""
    ensures NonEmpty(xs) == xs
  {
    if xs != [] {
      NonEmptyNoEmpty(xs[1..]);
    }
  }

  /** Filtering out empty strings ignores one more empty string anywhere. */
  lemma NonEmptySkipsEmpty(a: seq<string>, b: seq<string>)
    ensures NonEmpty(a + [""] + b) == NonEmpty(a + b)
  {
    NonEmptyAppend(a + [""], b);
    NonEmptyAppend(a, [""]);
    NonEmptyAppend(a, b);
    assert NonEmpty([""]) == [];
  }

  /** A join of non-empty parts is empty exactly when there are no parts. */
  lemma JoinNonEmptyParts(xs: seq<string>, sep: string)
    requires forall i :: 0 <= i < |xs| ==> xs[i] != ""
    ensures Join(xs, sep) == "" <==> xs == []
  {
    if xs != [] {
      assert xs[0] <= Join(xs, sep);
    }
  }

  // ---------------------------------------------------------------------
  // Dashes and trimming

  /** Removing dashes distributes over concatenation, so it keeps the order
      of the characters it keeps. */
  lemma {:induction false} RemoveDashesAppend(a: string, b: string)
    ensures RemoveDashes(a + b) == RemoveDashes(a) + RemoveDashes(b)
  {
    if a != [] {
      assert (a + b)[0] == a[0];
      assert (a + b)[1..] == a[1..] + b;
      RemoveDashesAppend(a[1..], b);
    } else {
      assert a + b == b;
    }
  }

  /** A string without dashes is left unchanged. */
  lemma {:induction false} RemoveDashesNoDash(s: string)
    requires '-' !in s
    ensures RemoveDashes(s) == s
  {
    if s != [] {
      assert '-' !in s[1..] by {
        forall k | 0 <= k < |s[1..]| ensures s[1..][k] != '-' {
          assert s[1..][k] == s[k + 1];
        }
      }
      RemoveDashesNoDash(s[1..]);
      assert s == [s[0]] + s[1..];
    }
  }

  /** A dash between two strings disappears and both sides keep their
      other characters. */
  lemma RemoveDashesAround(a: string, b: string)
    ensures RemoveDashes(a + "-" + b) == RemoveDashes(a) + RemoveDashes(b)
  {
    RemoveDashesAppend(a + "-", b);
    RemoveDashesAppend(a, "-");
    assert RemoveDashes("-") == "";
  }

  /** Removing dashes twice is the same as removing them once. */
  lemma RemoveDashesIdempotent(s: string)
    ensures RemoveDashes(RemoveDashes(s)) == RemoveDashes(s)
  {
    RemoveDashesNoDash(RemoveDashes(s));
  }

  /** When `s` starts with a non-whitespace character, trimming only
      removes trailing whitespace. */
  lemma TrimNoLeadingSpace(s: string)
    requires s != [] && !IsJsWhitespace(s[0])
    ensures Trim(s) == TrimEnd(s)
  {
  }

  /** A string that starts and ends with non-whitespace is its own trim. */
  lemma TrimUnchanged(s: string)
    requires s != [] && !IsJsWhitespace(s[0]) && !IsJsWhitespace(s[|s| - 1])
    ensures Trim(s) == s
  {
  }

  /** Trimming is idempotent. */
  lemma TrimIdempotent(s: string)
    ensures Trim(Trim(s)) == Trim(s)
  {
    var t := Trim(s);
    if t != [] {
      TrimNoLeadingSpace(t);
    }
  }
}
