/** The Python string primitives the denoiser is built on: `str.split` with a
    one-character separator, `str.join`, `str.strip()`, the whitespace-run
    collapse of `replace_multiple_spaces`, and per-character lowercasing. */
module Text {
  import opened Seqs

  /** Python's `str.isspace` on one character (also what `\s` matches in a
      `str` regular expression). */
  predicate IsSpace(c: char)
  {
    var n := c as int;
    (9 <= n <= 13) || (28 <= n <= 32) || n == 0x85 || n == 0xA0 || n == 0x1680
    || (0x2000 <= n <= 0x200A) || n == 0x2028 || n == 0x2029 || n == 0x202F
    || n == 0x205F || n == 0x3000
  }

  /** The position of the first `c` in `s`. */
  function FirstIndex(s: string, c: char): (i: nat)
    requires c in s
    ensures i < |s| && s[i] == c && c !in s[..i]
  {
    if s[0] == c then 0 else 1 + FirstIndex(s[1..], c)
  }

  /** `s.split(c)`: never empty, and no piece holds the separator. */
  function Split(s: string, c: char): (r: seq<string>)
    ensures |r| >= 1
    ensures forall k :: 0 <= k < |r| ==> c !in r[k]
    decreases |s|
  {
    if c !in s then [s]
    else
      var i := FirstIndex(s, c);
      [s[..i]] + Split(s[i + 1..], c)
  }

  /** `sep.join(parts)`. */
  function Join(sep: string, parts: seq<string>): string
  {
    if |parts| == 0 then ""
    else if |parts| == 1 then parts[0]
    else parts[0] + sep + Join(sep, parts[1..])
  }

  /** Joining the pieces of a split gives the string back. */
  lemma {:induction false} JoinSplit(s: string, c: char)
    ensures Join([c], Split(s, c)) == s
    decreases |s|
  {
    if c in s {
      var i := FirstIndex(s, c);
      var rest := Split(s[i + 1..], c);
      JoinSplit(s[i + 1..], c);
      assert Split(s, c) == [s[..i]] + rest;
      assert Join([c], Split(s, c)) == s[..i] + [c] + Join([c], rest);
      assert s == s[..i] + [c] + s[i + 1..];
    }
  }

  /** The first separator is the only one with no separator before it. */
  lemma {:induction false} FirstIndexAt(s: string, c: char, i: int)
    requires 0 <= i < |s| && s[i] == c && c !in s[..i]
    ensures FirstIndex(s, c) == i
  {
    if i > 0 {
      assert s[0] == s[..i][0];
      assert s[1..][..i - 1] == s[1..i];
      assert forall k :: 0 <= k < i - 1 ==> s[1..i][k] == s[..i][k + 1];
      FirstIndexAt(s[1..], c, i - 1);
    }
  }

  /** Splitting at the first separator. */
  lemma SplitAt(s: string, c: char, i: int)
    requires 0 <= i < |s| && s[i] == c && c !in s[..i]
    ensures Split(s, c) == [s[..i]] + Split(s[i + 1..], c)
  {
    FirstIndexAt(s, c, i);
  }

  /** Splitting at one separator splits both sides independently. */
  lemma {:induction false} SplitAround(x: string, y: string, c: char)
    ensures Split(x + [c] + y, c) == Split(x, c) + Split(y, c)
    decreases |x|
  {
    var xc := x + [c];
    var s := xc + y;
    TakeConcat(xc, y, |x|);
    SnocPrefix(x, c);
    DropConcat(xc, y, |x| + 1);
    assert xc[|x| + 1..] == [];
    if c in x {
      var j := FirstIndex(x, c);
      TakeConcat(x, [c], j);
      TakeConcat(xc, y, j);
      DropConcat(x, [c], j + 1);
      DropConcat(xc, y, j + 1);
      SplitAt(x, c, j);
      SplitAt(s, c, j);
      SplitAround(x[j + 1..], y, c);
      AppendAssoc([x[..j]], Split(x[j + 1..], c), Split(y, c));
    } else {
      SplitAt(s, c, |x|);
    }
  }

  /** `sep.join` over words that do not contain the separator is undone by
      `split`. */
  lemma {:induction false} SplitJoin(ws: seq<string>, c: char)
    requires |ws| >= 1
    requires forall k :: 0 <= k < |ws| ==> c !in ws[k]
    ensures Split(Join([c], ws), c) == ws
  {
    if |ws| > 1 {
      var rest := ws[1..];
      assert forall k :: 0 <= k < |rest| ==> c !in rest[k] by {
        forall k | 0 <= k < |rest|
          ensures c !in rest[k]
        {
          assert rest[k] == ws[k + 1];
        }
      }
      calc {
        Split(Join([c], ws), c);
        { JoinCons(c, ws); }
        Split(ws[0] + [c] + Join([c], rest), c);
        { SplitAround(ws[0], Join([c], rest), c); }
        Split(ws[0], c) + Split(Join([c], rest), c);
        { SplitJoin(rest, c); }
        [ws[0]] + rest;
        { ConsTail(ws); }
        ws;
      }
    }
  }

  /** Joining two or more words puts the separator after the first. */
  lemma JoinCons(c: char, ws: seq<string>)
    requires |ws| >= 2
    ensures Join([c], ws) == ws[0] + [c] + Join([c], ws[1..])
  {
  }

  /** `sep.join` is injective on non-empty lists of words free of the
      separator, so a joined window names its words. */
  lemma JoinInjective(a: seq<string>, b: seq<string>, c: char)
    requires |a| >= 1 && |b| >= 1
    requires forall k :: 0 <= k < |a| ==> c !in a[k]
    requires forall k :: 0 <= k < |b| ==> c !in b[k]
    ensures Join([c], a) == Join([c], b) <==> a == b
  {
    SplitJoin(a, c);
    SplitJoin(b, c);
  }

  /** A join starts with its first member. */
  lemma JoinStartsWith(sep: string, ws: seq<string>)
    requires |ws| >= 1
    ensures ws[0] <= Join(sep, ws)
  {
    if |ws| >= 2 {
      assert Join(sep, ws) == ws[0] + (sep + Join(sep, ws[1..]));
    }
  }

  /** The pieces of every string of a list, one list after the other. */
  function FlatSplit(gs: seq<string>, c: char): seq<string>
  {
    if |gs| == 0 then [] else Split(gs[0], c) + FlatSplit(gs[1..], c)
  }

  /** Joining a non-empty list with the separator and splitting again gives
      the pieces of each member in order. */
  lemma {:induction false} SplitOfJoin(gs: seq<string>, c: char)
    requires |gs| >= 1
    ensures Split(Join([c], gs), c) == FlatSplit(gs, c)
  {
    if |gs| >= 2 {
      calc {
        Split(Join([c], gs), c);
        { JoinCons(c, gs); }
        Split(gs[0] + [c] + Join([c], gs[1..]), c);
        { SplitAround(gs[0], Join([c], gs[1..]), c); }
        Split(gs[0], c) + Split(Join([c], gs[1..]), c);
        { SplitOfJoin(gs[1..], c); }
        Split(gs[0], c) + FlatSplit(gs[1..], c);
      }
    } else {
      assert FlatSplit(gs[1..], c) == [];
    }
  }

  /** Every piece of a member of the list is a piece of the flattened list. */
  lemma {:induction false} FlatSplitHas(gs: seq<string>, c: char, j: int, e: string)
    requires 0 <= j < |gs| && e in Split(gs[j], c)
    ensures e in FlatSplit(gs, c)
  {
    if j > 0 {
      FlatSplitHas(gs[1..], c, j - 1, e);
    }
  }

  /** `s.lstrip()`: removes the leading whitespace and nothing else. */
  function StripLeft(s: string): (r: string)
    ensures |r| <= |s| && r == s[|s| - |r|..]
    ensures forall k :: 0 <= k < |s| - |r| ==> IsSpace(s[k])
    ensures |r| > 0 ==> !IsSpace(r[0])
    ensures |s| > 0 && IsSpace(s[0]) ==> |r| < |s|
  {
    if |s| > 0 && IsSpace(s[0]) then
      var r := StripLeft(s[1..]);
      assert forall k :: 1 <= k < |s| ==> s[k] == s[1..][k - 1];
      r
    else s
  }

  /** `s.rstrip()`: removes the trailing whitespace and nothing else. */
  function StripRight(s: string): (r: string)
    ensures |r| <= |s| && r == s[..|r|]
    ensures forall k :: |r| <= k < |s| ==> IsSpace(s[k])
    ensures |r| > 0 ==> !IsSpace(r[|r| - 1])
  {
    if |s| > 0 && IsSpace(s[|s| - 1]) then StripRight(s[..|s| - 1]) else s
  }

  /** `s.strip()`. */
  function Strip(s: string): string
  {
    StripRight(StripLeft(s))
  }

  /** Per-character lowercasing with the character map `lower`. */
  function LowerStr(lower: char -> char, s: string): string
  {
    seq(|s|, k requires 0 <= k < |s| => lower(s[k]))
  }

  /** Lowercasing every word of a list. */
  function LowerAll(lower: char -> char, ws: seq<string>): seq<string>
  {
    seq(|ws|, k requires 0 <= k < |ws| => LowerStr(lower, ws[k]))
  }

  /** The space character is the only one lowercasing sends to a space. */
  predicate LowerKeepsSpace(lower: char -> char)
  {
    forall ch :: lower(ch) == ' ' <==> ch == ' '
  }

  lemma LowerAppend(lower: char -> char, a: string, b: string)
    ensures LowerStr(lower, a + b) == LowerStr(lower, a) + LowerStr(lower, b)
  {
  }

  /** Lowercasing a prefix or a suffix is slicing the lowercased string. */
  lemma LowerSlice(lower: char -> char, s: string, i: int)
    requires 0 <= i <= |s|
    ensures LowerStr(lower, s)[..i] == LowerStr(lower, s[..i])
    ensures LowerStr(lower, s)[i..] == LowerStr(lower, s[i..])
  {
  }

  /** Lowercasing a run of words is slicing the lowercased list. */
  lemma LowerAllSlice(lower: char -> char, ws: seq<string>, i: int, j: int)
    requires 0 <= i <= j <= |ws|
    ensures LowerAll(lower, ws)[i..j] == LowerAll(lower, ws[i..j])
  {
  }

  lemma LowerAllCons(lower: char -> char, w: string, ws: seq<string>)
    ensures LowerAll(lower, [w] + ws) == [LowerStr(lower, w)] + LowerAll(lower, ws)
  {
  }

  lemma LowerAllTail(lower: char -> char, ws: seq<string>)
    requires |ws| > 0
    ensures LowerAll(lower, ws)[1..] == LowerAll(lower, ws[1..])
  {
  }

  /** Lowercasing a joined string is joining the lowercased words. */
  lemma {:induction false} LowerJoin(lower: char -> char, ws: seq<string>)
    requires lower(' ') == ' '
    ensures LowerStr(lower, Join(" ", ws)) == Join(" ", LowerAll(lower, ws))
  {
    if |ws| >= 2 {
      LowerJoin(lower, ws[1..]);
      LowerAppend(lower, ws[0] + " ", Join(" ", ws[1..]));
      LowerAppend(lower, ws[0], " ");
      LowerAllTail(lower, ws);
    }
  }

  /** Under `LowerKeepsSpace`, lowercasing keeps the first space in place. */
  lemma LowerFirstSpace(lower: char -> char, s: string)
    requires LowerKeepsSpace(lower)
    ensures ' ' in LowerStr(lower, s) <==> ' ' in s
    ensures ' ' in s ==> FirstIndex(LowerStr(lower, s), ' ') == FirstIndex(s, ' ')
  {
    var t := LowerStr(lower, s);
    if ' ' in t {
      var k :| 0 <= k < |t| && t[k] == ' ';
      assert s[k] == ' ';
    }
    if ' ' in s {
      var i := FirstIndex(s, ' ');
      assert ' ' !in t[..i] by {
        forall k | 0 <= k < i
          ensures t[..i][k] != ' '
        {
          assert s[..i][k] == s[k];
        }
      }
      FirstIndexAt(t, ' ', i);
    }
  }

  /** Lowercasing commutes with splitting on spaces. */
  lemma {:induction false} LowerSplit(lower: char -> char, s: string)
    requires LowerKeepsSpace(lower)
    ensures Split(LowerStr(lower, s), ' ') == LowerAll(lower, Split(s, ' '))
    decreases |s|
  {
    LowerFirstSpace(lower, s);
    var t := LowerStr(lower, s);
    if ' ' in s {
      var i := FirstIndex(s, ' ');
      LowerSlice(lower, s, i);
      LowerSlice(lower, s, i + 1);
      calc {
        Split(t, ' ');
        [t[..i]] + Split(t[i + 1..], ' ');
        [LowerStr(lower, s[..i])] + Split(LowerStr(lower, s[i + 1..]), ' ');
        { LowerSplit(lower, s[i + 1..]); }
        [LowerStr(lower, s[..i])] + LowerAll(lower, Split(s[i + 1..], ' '));
        { LowerAllCons(lower, s[..i], Split(s[i + 1..], ' ')); }
        LowerAll(lower, [s[..i]] + Split(s[i + 1..], ' '));
        LowerAll(lower, Split(s, ' '));
      }
    }
  }

  /** Two spaces side by side end at position `k`. */
  predicate DoubleSpaceAt(s: string, k: int)
    requires 0 < k < |s|
  {
    s[k - 1] == ' ' && s[k] == ' '
  }

  /** After `replace_multiple_spaces`: every whitespace character is a plain
      space and no two spaces are adjacent. */
  predicate SingleSpaced(s: string)
  {
    && (forall k :: 0 <= k < |s| && IsSpace(s[k]) ==> s[k] == ' ')
    && (forall k :: 0 < k < |s| ==> !DoubleSpaceAt(s, k))
  }

  /** `re.sub(r'\s+', ' ', s)`: each maximal run of whitespace becomes one
      space. */
  function CollapseSpaces(s: string): (r: string)
    ensures |r| <= |s|
    ensures |s| > 0 ==> |r| > 0 && r[0] == (if IsSpace(s[0]) then ' ' else s[0])
    decreases |s|
  {
    if |s| == 0 then ""
    else if IsSpace(s[0]) then
      " " + CollapseSpaces(StripLeft(s))
    else [s[0]] + CollapseSpaces(s[1..])
  }

  /** What `replace_multiple_spaces` returns is single-spaced. */
  lemma {:induction false} CollapseIsSingleSpaced(s: string)
    ensures SingleSpaced(CollapseSpaces(s))
    decreases |s|
  {
    assert IsSpace(' ');
    if |s| > 0 {
      var t := if IsSpace(s[0]) then StripLeft(s) else s[1..];
      CollapseIsSingleSpaced(t);
      var rest := CollapseSpaces(t);
      var r := CollapseSpaces(s);
      assert r == [r[0]] + rest;
      assert |rest| > 0 ==> r[0] != ' ' || rest[0] != ' ' by {
        if |rest| > 0 && IsSpace(s[0]) { assert rest[0] == t[0]; }
      }
      forall k | 0 < k < |r|
        ensures !DoubleSpaceAt(r, k)
      {
        if k > 1 {
          assert r[k - 1] == rest[k - 2] && r[k] == rest[k - 1];
          assert !DoubleSpaceAt(rest, k - 1);
        } else {
          assert r[1] == rest[0];
        }
      }
      forall k | 0 <= k < |r| && IsSpace(r[k])
        ensures r[k] == ' '
      {
        if k > 0 { assert r[k] == rest[k - 1]; }
      }
    }
  }

  lemma SingleSpacedSlice(s: string, a: int, b: int)
    requires SingleSpaced(s) && 0 <= a <= b <= |s|
    ensures SingleSpaced(s[a..b])
  {
    var t := s[a..b];
    forall k | 0 < k < |t|
      ensures !DoubleSpaceAt(t, k)
    {
      assert t[k - 1] == s[a + k - 1] && t[k] == s[a + k];
      assert !DoubleSpaceAt(s, a + k);
    }
  }

  /** Every piece of a single-spaced string is single-spaced. */
  lemma {:induction false} SplitKeepsSingleSpaced(s: string, c: char)
    requires SingleSpaced(s)
    ensures forall e :: e in Split(s, c) ==> SingleSpaced(e)
    decreases |s|
  {
    if c in s {
      var i := FirstIndex(s, c);
      SingleSpacedSlice(s, 0, i);
      SingleSpacedSlice(s, i + 1, |s|);
      assert s[i + 1..|s|] == s[i + 1..];
      SplitKeepsSingleSpaced(s[i + 1..], c);
    }
  }

  /** Stripping a single-spaced string removes its end spaces and keeps it
      single-spaced. */
  lemma StripSingleSpaced(s: string)
    requires SingleSpaced(s)
    ensures SingleSpaced(Strip(s))
    ensures |Strip(s)| > 0 ==> Strip(s)[0] != ' ' && Strip(s)[|Strip(s)| - 1] != ' '
  {
    var l := StripLeft(s);
    SingleSpacedSlice(s, |s| - |l|, |s|);
    assert s[|s| - |l|..|s|] == l;
    var r := StripRight(l);
    SingleSpacedSlice(l, 0, |r|);
    assert r == Strip(s);
    if |r| > 0 {
      assert r[0] == l[0];
      assert IsSpace(' ');
    }
  }

  /** A non-empty string with no space at either end and no two adjacent
      spaces has no empty word. */
  lemma {:induction false} WordsNonEmpty(v: string)
    requires |v| > 0 && v[0] != ' ' && v[|v| - 1] != ' '
    requires forall k :: 0 < k < |v| ==> !DoubleSpaceAt(v, k)
    ensures forall k :: 0 <= k < |Split(v, ' ')| ==> Split(v, ' ')[k] != ""
    decreases |v|
  {
    if ' ' in v {
      var i := FirstIndex(v, ' ');
      var u := v[i + 1..];
      assert 0 < i < |v| - 1;
      assert !DoubleSpaceAt(v, i + 1);
      assert u[0] == v[i + 1];
      forall k | 0 < k < |u|
        ensures !DoubleSpaceAt(u, k)
      {
        assert u[k - 1] == v[i + k] && u[k] == v[i + 1 + k];
        assert !DoubleSpaceAt(v, i + 1 + k);
      }
      WordsNonEmpty(u);
      assert v[..i] != "" by { assert v[..i][0] == v[0]; }
    }
  }
}
