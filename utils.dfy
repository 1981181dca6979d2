/** The shared utilities of the denoiser: the n-gram frequency table builder
    (`get_ngram_dict`) and the candidate scorer (`char_compare`). */
module Utils {
  import opened Wrappers
  import opened Text
  import opened Seqs

  /** One corpus string as the builder indexes it: the string itself when
      there is no split character (windows are substrings), its
      `split_char`-separated pieces otherwise (windows are re-joined). */
  datatype Tokens = Chars(text: string) | Pieces(parts: seq<string>, sep: char)

  /** `ner.split(split_char)` when a split character is given. */
  function Tokenize(s: string, splitChar: Option<char>): Tokens
  {
    match splitChar
    case None => Chars(s)
    case Some(c) => Pieces(Split(s, c), c)
  }

  /** `len(ner)` after the optional split. */
  function Len(t: Tokens): nat
  {
    match t
    case Chars(s) => |s|
    case Pieces(ps, _) => |ps|
  }

  /** The table key of the window of size `w` at offset `i`: `ner[i:i+win]`, re-joined with the split
      character in split mode. */
  function Key(t: Tokens, w: int, i: int): string
    requires 0 <= w && 0 <= i && i + w <= Len(t)
  {
    match t
    case Chars(s) => s[i..i + w]
    case Pieces(ps, c) => Join([c], ps[i..i + w])
  }

  /** The largest window size used for a string of `n` tokens: both branches
      of the builder stop at `min(max_window, n)`. */
  function Cap(n: int, maxWindow: int): int
  {
    if n > maxWindow then maxWindow else n
  }

  /** `k` is the key of some window of `t` whose size lies in `lo .. hi`. */
  ghost predicate IsWindowKey(t: Tokens, lo: int, hi: int, k: string)
  {
    exists w, i :: 0 <= w && lo <= w <= hi && 0 <= i && i + w <= Len(t) && k == Key(t, w, i)
  }

  /** The keys of the windows of size `w` at offsets `0 .. count-1`, in the
      order the innermost loop produces them. */
  function RowKeys(t: Tokens, w: nat, count: nat): seq<string>
    requires count <= Offsets(Len(t), w)
  {
    seq(count, i requires 0 <= i < count => Key(t, w, i))
  }

  /** `len(range(n - w + 1))`: the number of offsets of a window of size `w`
      in `n` tokens. */
  function Offsets(n: nat, w: nat): nat
  {
    if w <= n + 1 then n + 1 - w else 0
  }

  /** One more offset is one more key at the end of the row. */
  lemma RowKeysSnoc(t: Tokens, w: nat, count: nat)
    requires count + 1 <= Offsets(Len(t), w)
    ensures RowKeys(t, w, count + 1) == RowKeys(t, w, count) + [Key(t, w, count)]
  {
  }

  /** The keys of the windows of sizes `lo .. end-1`, size by size and offset
      by offset, as the two nested loops produce them. */
  function StringKeys(t: Tokens, lo: nat, end: int): seq<string>
    decreases end - lo
  {
    if end <= lo then [] else StringKeys(t, lo, end - 1) + RowKeys(t, end - 1, Offsets(Len(t), end - 1))
  }

  /** One more size is one more row at the end. */
  lemma StringKeysSnoc(t: Tokens, lo: nat, end: nat)
    requires lo <= end
    ensures StringKeys(t, lo, end + 1) == StringKeys(t, lo, end) + RowKeys(t, end, Offsets(Len(t), end))
  {
  }

  /** Bounds at or below `lo` give no keys, whatever they are. */
  lemma StringKeysEmpty(t: Tokens, lo: nat, a: int, b: int)
    requires a == b || (a <= lo && b <= lo)
    ensures StringKeys(t, lo, a) == StringKeys(t, lo, b)
  {
  }

  /** A shorter row is a prefix of a longer one. */
  lemma RowKeysGrow(t: Tokens, w: nat, a: nat, b: nat)
    requires a <= b <= Offsets(Len(t), w)
    ensures RowKeys(t, w, a) <= RowKeys(t, w, b)
  {
    assert RowKeys(t, w, b)[..a] == RowKeys(t, w, a);
  }

  /** The keys of fewer sizes are a prefix of the keys of more sizes. */
  lemma {:induction false} StringKeysGrow(t: Tokens, lo: nat, w: int, end: int)
    requires w <= end
    ensures StringKeys(t, lo, w) <= StringKeys(t, lo, end)
    decreases end - w
  {
    if w < end {
      StringKeysGrow(t, lo, w, end - 1);
      if end - 1 >= lo {
        StringKeysSnoc(t, lo, end - 1);
        PrefixTrans(StringKeys(t, lo, w), StringKeys(t, lo, end - 1), StringKeys(t, lo, end));
      } else {
        StringKeysEmpty(t, lo, end - 1, end);
      }
    }
  }

  /** The keys scanned before the window of size `w` at offset `j`: every
      smaller size, then the offsets `0 .. j-1` of size `w`. */
  function KeysBefore(t: Tokens, lo: nat, w: nat, j: nat): seq<string>
    requires j <= Offsets(Len(t), w)
  {
    StringKeys(t, lo, w) + RowKeys(t, w, j)
  }

  /** The keys scanned before a window are a prefix of all the keys. */
  lemma KeysBeforePrefix(t: Tokens, lo: nat, w: nat, j: nat, end: int)
    requires lo <= w < end && j <= Offsets(Len(t), w)
    ensures KeysBefore(t, lo, w, j) <= StringKeys(t, lo, end)
  {
    RowKeysGrow(t, w, j, Offsets(Len(t), w));
    PrefixCommon(StringKeys(t, lo, w), RowKeys(t, w, j), RowKeys(t, w, Offsets(Len(t), w)));
    StringKeysSnoc(t, lo, w);
    StringKeysGrow(t, lo, w + 1, end);
    PrefixTrans(KeysBefore(t, lo, w, j), StringKeys(t, lo, w + 1), StringKeys(t, lo, end));
  }

  /** Scanning one more offset appends that window's key. */
  lemma KeysBeforeSnoc(t: Tokens, lo: nat, w: nat, j: nat)
    requires j + 1 <= Offsets(Len(t), w)
    ensures KeysBefore(t, lo, w, j + 1) == KeysBefore(t, lo, w, j) + [Key(t, w, j)]
  {
    RowKeysSnoc(t, w, j);
    AppendAssoc(StringKeys(t, lo, w), RowKeys(t, w, j), [Key(t, w, j)]);
  }

  /** The keys of one corpus string. */
  function KeysOf(s: string, minWindow: int, maxWindow: int, splitChar: Option<char>): seq<string>
    requires minWindow >= 1
  {
    var t := Tokenize(s, splitChar);
    StringKeys(t, minWindow, Cap(Len(t), maxWindow) + 1)
  }

  /** Every key the builder produces, string by string. */
  function CorpusKeys(corpus: seq<string>, minWindow: int, maxWindow: int, splitChar: Option<char>): seq<string>
    requires minWindow >= 1
  {
    if |corpus| == 0 then []
    else
      CorpusKeys(corpus[..|corpus| - 1], minWindow, maxWindow, splitChar)
        + KeysOf(corpus[|corpus| - 1], minWindow, maxWindow, splitChar)
  }

  /** The keys produced for one string are exactly the keys of its windows
      of sizes `lo .. end-1`. */
  lemma {:induction false} StringKeysHas(t: Tokens, lo: nat, end: int)
    ensures forall k :: k in StringKeys(t, lo, end) <==> IsWindowKey(t, lo, end - 1, k)
    decreases end - lo
  {
    if end > lo {
      var w := end - 1;
      StringKeysHas(t, lo, w);
      StringKeysSnoc(t, lo, w);
      forall k
        ensures k in StringKeys(t, lo, end) <==> IsWindowKey(t, lo, w, k)
      {
        InRow(t, w, Offsets(Len(t), w), k);
        WindowKeyStep(t, lo, w, k);
      }
    }
  }

  /** `StringKeysHas` for one key. */
  lemma StringKeysHasKey(t: Tokens, lo: nat, end: int, k: string)
    ensures k in StringKeys(t, lo, end) <==> IsWindowKey(t, lo, end - 1, k)
  {
    StringKeysHas(t, lo, end);
  }

  /** Membership in a row, for one key. */
  lemma InRow(t: Tokens, w: nat, count: nat, k: string)
    requires count <= Offsets(Len(t), w)
    ensures k in RowKeys(t, w, count) <==> exists i :: 0 <= i < count && k == Key(t, w, i)
  {
    var row := RowKeys(t, w, count);
    if k in row {
      var i :| 0 <= i < |row| && row[i] == k;
    }
    if exists i :: 0 <= i < count && k == Key(t, w, i) {
      var i :| 0 <= i < count && k == Key(t, w, i);
      assert row[i] == k;
    }
  }

  /** The window keys of sizes `lo .. w` are those of sizes `lo .. w-1` and
      those of size `w`. */
  lemma WindowKeyStep(t: Tokens, lo: nat, w: nat, k: string)
    requires lo <= w
    ensures IsWindowKey(t, lo, w, k) <==>
      IsWindowKey(t, lo, w - 1, k) || exists i :: 0 <= i < Offsets(Len(t), w) && k == Key(t, w, i)
  {
    if IsWindowKey(t, lo, w, k) {
      var v, i :| 0 <= v && lo <= v <= w && 0 <= i && i + v <= Len(t) && k == Key(t, v, i);
      if v < w {
        assert lo <= v <= w - 1;
      } else {
        assert 0 <= i < Offsets(Len(t), w) && k == Key(t, w, i);
      }
    }
    if IsWindowKey(t, lo, w - 1, k) {
      var v, i :| 0 <= v && lo <= v <= w - 1 && 0 <= i && i + v <= Len(t) && k == Key(t, v, i);
      assert v <= w;
    }
    if exists i :: 0 <= i < Offsets(Len(t), w) && k == Key(t, w, i) {
      var i :| 0 <= i < Offsets(Len(t), w) && k == Key(t, w, i);
      assert i + w <= Len(t);
    }
  }

  /** The number of windows of sizes `lo .. end-1` in `n` tokens. */
  function WindowCount(n: int, lo: int, end: int): int
    decreases end - lo
  {
    if end <= lo then 0 else WindowCount(n, lo, end - 1) + (n - (end - 1) + 1)
  }

  /** A string yields one key per window: `n - w + 1` keys of each size `w`. */
  lemma {:induction false} StringKeysCount(t: Tokens, lo: nat, end: int)
    requires end <= Len(t) + 1
    ensures |StringKeys(t, lo, end)| == WindowCount(Len(t), lo, end)
    decreases end - lo
  {
    if end > lo {
      StringKeysCount(t, lo, end - 1);
    }
  }

  /** The closed form of the window count: an arithmetic series. */
  lemma {:induction false} WindowCountClosed(n: int, lo: int, end: int)
    requires lo <= end
    ensures 2 * WindowCount(n, lo, end) == (end - lo) * (2 * n + 3 - lo - end)
    decreases end - lo
  {
    if end > lo {
      WindowCountClosed(n, lo, end - 1);
      var a := end - lo;
      var b := 2 * n + 3 - lo - end;
      assert (a - 1) * (b + 1) == a * b + a - b - 1;
    }
  }

  /** The number of windows the builder visits over the whole corpus. */
  function CorpusCount(corpus: seq<string>, minWindow: int, maxWindow: int, splitChar: Option<char>): int
  {
    if |corpus| == 0 then 0
    else
      var t := Tokenize(corpus[|corpus| - 1], splitChar);
      CorpusCount(corpus[..|corpus| - 1], minWindow, maxWindow, splitChar)
        + WindowCount(Len(t), minWindow, Cap(Len(t), maxWindow) + 1)
  }

  /** One produced key per visited window: the number of produced keys is
      the sum, over the corpus strings, of `n - w + 1` for each size `w`. */
  lemma {:induction false} CorpusKeysCount(corpus: seq<string>, minWindow: int, maxWindow: int, splitChar: Option<char>)
    requires minWindow >= 1
    ensures |CorpusKeys(corpus, minWindow, maxWindow, splitChar)| == CorpusCount(corpus, minWindow, maxWindow, splitChar)
  {
    if |corpus| > 0 {
      var t := Tokenize(corpus[|corpus| - 1], splitChar);
      CorpusKeysCount(corpus[..|corpus| - 1], minWindow, maxWindow, splitChar);
      StringKeysCount(t, minWindow, Cap(Len(t), maxWindow) + 1);
    }
  }

  /** `k` is a key of some window of sizes `min_window .. min(max_window, n)`
      of some corpus string. */
  ghost predicate InCorpus(corpus: seq<string>, minWindow: int, maxWindow: int, splitChar: Option<char>, k: string)
  {
    exists j :: 0 <= j < |corpus| && IsWindowKey(Tokenize(corpus[j], splitChar), minWindow,
                                                 Cap(Len(Tokenize(corpus[j], splitChar)), maxWindow), k)
  }

  /** A string is a corpus key exactly when it is a window key of some
      corpus string, each string with its own size cap. */
  lemma {:induction false} CorpusKeysHasKey(corpus: seq<string>, minWindow: int, maxWindow: int, splitChar: Option<char>, k: string)
    requires minWindow >= 1
    ensures k in CorpusKeys(corpus, minWindow, maxWindow, splitChar) <==> InCorpus(corpus, minWindow, maxWindow, splitChar, k)
  {
    if |corpus| > 0 {
      var init := corpus[..|corpus| - 1];
      var t := Tokenize(corpus[|corpus| - 1], splitChar);
      CorpusKeysHasKey(init, minWindow, maxWindow, splitChar, k);
      StringKeysHasKey(t, minWindow, Cap(Len(t), maxWindow) + 1, k);
      if InCorpus(corpus, minWindow, maxWindow, splitChar, k) {
        var j :| 0 <= j < |corpus| && IsWindowKey(Tokenize(corpus[j], splitChar), minWindow,
                                                  Cap(Len(Tokenize(corpus[j], splitChar)), maxWindow), k);
        if j < |corpus| - 1 {
          assert init[j] == corpus[j];
        }
      }
      if InCorpus(init, minWindow, maxWindow, splitChar, k) {
        var j :| 0 <= j < |init| && IsWindowKey(Tokenize(init[j], splitChar), minWindow,
                                                Cap(Len(Tokenize(init[j], splitChar)), maxWindow), k);
        assert init[j] == corpus[j];
      }
    }
  }

  /** The corpus keys are exactly the window keys of the corpus strings. */
  lemma CorpusKeysHas(corpus: seq<string>, minWindow: int, maxWindow: int, splitChar: Option<char>)
    requires minWindow >= 1
    ensures forall k :: k in CorpusKeys(corpus, minWindow, maxWindow, splitChar) <==>
      InCorpus(corpus, minWindow, maxWindow, splitChar, k)
  {
    forall k
      ensures k in CorpusKeys(corpus, minWindow, maxWindow, splitChar) <==>
        InCorpus(corpus, minWindow, maxWindow, splitChar, k)
    {
      CorpusKeysHasKey(corpus, minWindow, maxWindow, splitChar, k);
    }
  }

  /** `d[k] = d.get(k, 0) + 1` */
  function Bump(m: map<string, nat>, k: string): map<string, nat>
  {
    m[k := (if k in m then m[k] else 0) + 1]
  }

  /** The counting dictionary `m` after the keys `ks` were added one by one. */
  function TallyFrom(m: map<string, nat>, ks: seq<string>): map<string, nat>
  {
    if |ks| == 0 then m else Bump(TallyFrom(m, ks[..|ks| - 1]), ks[|ks| - 1])
  }

  /** A fresh counting dictionary after the keys `ks` were added. */
  function Tally(ks: seq<string>): map<string, nat>
  {
    TallyFrom(map[], ks)
  }

  /** Adding one more key is one more `d[k] += 1`. */
  lemma TallySnoc(m: map<string, nat>, ks: seq<string>, k: string)
    ensures TallyFrom(m, ks + [k]) == Bump(TallyFrom(m, ks), k)
  {
    SnocPrefix(ks, k);
  }

  /** Adding `a` and then `b` is adding `a + b`. */
  lemma {:induction false} TallyAppend(m: map<string, nat>, a: seq<string>, b: seq<string>)
    ensures TallyFrom(TallyFrom(m, a), b) == TallyFrom(m, a + b)
    decreases |b|
  {
    if |b| == 0 {
      assert a + b == a;
    } else {
      var init := b[..|b| - 1];
      var x := b[|b| - 1];
      SplitLast(b);
      AppendAssoc(a, init, [x]);
      calc {
        TallyFrom(TallyFrom(m, a), b);
        { TallySnoc(TallyFrom(m, a), init, x); }
        Bump(TallyFrom(TallyFrom(m, a), init), x);
        { TallyAppend(m, a, init); }
        Bump(TallyFrom(m, a + init), x);
        { TallySnoc(m, a + init, x); }
        TallyFrom(m, (a + init) + [x]);
      }
    }
  }

  /** Counting the keys of sizes `lo .. end-1` and then the row of size
      `end` is counting the keys of sizes `lo .. end`. */
  lemma TallyStringStep(m: map<string, nat>, t: Tokens, lo: nat, end: nat)
    requires lo <= end
    ensures TallyFrom(TallyFrom(m, StringKeys(t, lo, end)), RowKeys(t, end, Offsets(Len(t), end)))
            == TallyFrom(m, StringKeys(t, lo, end + 1))
  {
    StringKeysSnoc(t, lo, end);
    TallyAppend(m, StringKeys(t, lo, end), RowKeys(t, end, Offsets(Len(t), end)));
  }

  /** The dictionary holds exactly the added keys, each with its number of
      occurrences. */
  lemma {:induction false} TallyCounts(ks: seq<string>)
    ensures forall k :: k in Tally(ks) <==> k in ks
    ensures forall k :: k in Tally(ks) ==> Tally(ks)[k] == multiset(ks)[k]
  {
    if |ks| > 0 {
      var init := ks[..|ks| - 1];
      TallyCounts(init);
      SplitLast(ks);
      assert multiset(ks) == multiset(init) + multiset{ks[|ks| - 1]};
    }
  }

  /** What `get_ngram_dict` returns when `min_window >= 1`. */
  function NgramTable(corpus: seq<string>, minWindow: int, maxWindow: int, splitChar: Option<char>): map<string, nat>
    requires minWindow >= 1
  {
    Tally(CorpusKeys(corpus, minWindow, maxWindow, splitChar))
  }

  /** The table's keys are exactly the keys of the windows of sizes
      `min_window .. min(max_window, n)` of the corpus strings. */
  lemma NgramTableKeys(corpus: seq<string>, minWindow: int, maxWindow: int, splitChar: Option<char>)
    requires minWindow >= 1
    ensures forall k :: k in NgramTable(corpus, minWindow, maxWindow, splitChar) <==>
      InCorpus(corpus, minWindow, maxWindow, splitChar, k)
  {
    TallyCounts(CorpusKeys(corpus, minWindow, maxWindow, splitChar));
    CorpusKeysHas(corpus, minWindow, maxWindow, splitChar);
  }

  /** Each entry counts the windows, over the whole corpus, that produce its
      key; no entry is zero. */
  lemma NgramTableCounts(corpus: seq<string>, minWindow: int, maxWindow: int, splitChar: Option<char>, k: string)
    requires minWindow >= 1
    requires k in NgramTable(corpus, minWindow, maxWindow, splitChar)
    ensures NgramTable(corpus, minWindow, maxWindow, splitChar)[k] == multiset(CorpusKeys(corpus, minWindow, maxWindow, splitChar))[k]
    ensures NgramTable(corpus, minWindow, maxWindow, splitChar)[k] >= 1
  {
    TallyCounts(CorpusKeys(corpus, minWindow, maxWindow, splitChar));
  }

  /** The builder's innermost loop for one string and one size `win`: adds
      one occurrence for the key at every offset, left to right. */
  method CountRow(ner: Tokens, win: nat, charFreqDict: map<string, nat>)
    returns (freq: map<string, nat>)
    requires win <= Len(ner)
    ensures freq == TallyFrom(charFreqDict, RowKeys(ner, win, Offsets(Len(ner), win)))
  {
    freq := charFreqDict;
    for i := 0 to Len(ner) - win + 1
      invariant freq == TallyFrom(charFreqDict, RowKeys(ner, win, i))
    {
      var gram := Key(ner, win, i);
      RowKeysSnoc(ner, win, i);
      TallySnoc(charFreqDict, RowKeys(ner, win, i), gram);
      freq := Bump(freq, gram);
    }
  }

  /** The body of the builder's outer loop for one (already split) string:
      adds one occurrence for every window key, in loop order. */
  method CountString(ner: Tokens, minWindow: nat, maxWindow: int, charFreqDict: map<string, nat>)
    returns (freq: map<string, nat>)
    requires minWindow >= 1
    ensures freq == TallyFrom(charFreqDict, StringKeys(ner, minWindow, Cap(Len(ner), maxWindow) + 1))
  {
    freq := charFreqDict;
    var n := Len(ner);
    // both branches of the source in one: sizes up to max_window when the
    // string is longer, up to its own length otherwise
    var top := Cap(n, maxWindow);
    // `range(min_window, top + 1)` is empty when `top + 1 <= min_window`
    var stop := if top + 1 < minWindow then minWindow else top + 1;
    for win := minWindow to stop
      invariant freq == TallyFrom(charFreqDict, StringKeys(ner, minWindow, win))
    {
      freq := CountRow(ner, win, freq);
      TallyStringStep(charFreqDict, ner, minWindow, win);
    }
    StringKeysEmpty(ner, minWindow, stop, top + 1);
  }

  /** `get_ngram_dict`: counts every window key of sizes
      `min_window .. min(max_window, n)` of every string; fails when
      `min_window < 1`. */
  method NgramDict(nerLst: seq<string>, minWindow: int, maxWindow: int, splitChar: Option<char>)
    returns (r: Result<map<string, nat>>)
    ensures minWindow < 1 ==> r == Failure(WindowTooSmall)
    ensures minWindow >= 1 ==> r == Success(NgramTable(nerLst, minWindow, maxWindow, splitChar))
  {
    if minWindow < 1 {
      return Failure(WindowTooSmall);
    }
    var charFreqDict: map<string, nat> := map[];
    for j := 0 to |nerLst|
      invariant charFreqDict == Tally(CorpusKeys(nerLst[..j], minWindow, maxWindow, splitChar))
    {
      var ner := Tokenize(nerLst[j], splitChar);
      ghost var done := CorpusKeys(nerLst[..j], minWindow, maxWindow, splitChar);
      charFreqDict := CountString(ner, minWindow, maxWindow, charFreqDict);
      TallyAppend(map[], done, KeysOf(nerLst[j], minWindow, maxWindow, splitChar));
      PrefixSnoc(nerLst, j);
      SnocPrefix(nerLst[..j], nerLst[j]);
    }
    FullPrefix(nerLst);
    return Success(charFreqDict);
  }
}

/** `char_compare`: the candidate scorer. */
module Scorer {
  import opened Seqs

  /** The scorer's result: `(final_char, max_score)`. */
  datatype Choice = Choice(best: string, score: nat)

  /** Every candidate has an entry: the table is a plain dictionary, so a
      missing candidate would raise `KeyError`. */
  predicate AllScored(cands: seq<string>, freq: map<string, nat>)
  {
    forall k :: 0 <= k < |cands| ==> cands[k] in freq
  }

  /** The scan of `char_compare` over `cands`, one candidate at a time:
      a candidate replaces the current choice only when its count is
      strictly larger. */
  function FirstMax(cands: seq<string>, freq: map<string, nat>): Choice
    requires AllScored(cands, freq)
  {
    if |cands| == 0 then Choice("", 0)
    else
      var prev := FirstMax(cands[..|cands| - 1], freq);
      var c := cands[|cands| - 1];
      if freq[c] > prev.score then Choice(c, freq[c]) else prev
  }

  /** What the scan promises: no candidate scores more; a zero score comes
      with the empty string; a positive score belongs to a candidate that
      has it and that no earlier candidate ties. */
  ghost predicate IsFirstMax(cands: seq<string>, freq: map<string, nat>, r: Choice)
    requires AllScored(cands, freq)
  {
    && (forall k :: 0 <= k < |cands| ==> freq[cands[k]] <= r.score)
    && (r.score == 0 ==> r.best == "")
    && (r.score > 0 ==>
          exists k :: 0 <= k < |cands| && cands[k] == r.best && freq[r.best] == r.score
                      && forall j :: 0 <= j < k ==> freq[cands[j]] < r.score)
  }

  lemma {:induction false} FirstMaxIsFirstMax(cands: seq<string>, freq: map<string, nat>)
    requires AllScored(cands, freq)
    ensures IsFirstMax(cands, freq, FirstMax(cands, freq))
  {
    if |cands| > 0 {
      var n := |cands| - 1;
      var init := cands[..n];
      var prev := FirstMax(init, freq);
      var c := cands[n];
      FirstMaxIsFirstMax(init, freq);
      assert forall k :: 0 <= k < n ==> init[k] == cands[k];
      if freq[c] > prev.score {
        assert forall j :: 0 <= j < n ==> freq[cands[j]] < freq[c];
      } else if prev.score > 0 {
        var k :| 0 <= k < n && init[k] == prev.best && freq[prev.best] == prev.score
                 && forall j :: 0 <= j < k ==> freq[init[j]] < prev.score;
        assert cands[k] == prev.best;
      }
    }
  }

  /** The promise pins the result down: at most one choice meets it. */
  lemma FirstMaxUnique(cands: seq<string>, freq: map<string, nat>, a: Choice, b: Choice)
    requires AllScored(cands, freq)
    requires IsFirstMax(cands, freq, a) && IsFirstMax(cands, freq, b)
    ensures a == b
  {
    if a.score > 0 && b.score > 0 {
      var i :| 0 <= i < |cands| && cands[i] == a.best && freq[a.best] == a.score
               && forall j :: 0 <= j < i ==> freq[cands[j]] < a.score;
      var k :| 0 <= k < |cands| && cands[k] == b.best && freq[b.best] == b.score
               && forall j :: 0 <= j < k ==> freq[cands[j]] < b.score;
      assert a.score == b.score;
      assert !(i < k) && !(k < i);
    } else if a.score > 0 || b.score > 0 {
      assert false;
    }
  }

  /** One more candidate in the scan. */
  lemma FirstMaxStep(cands: seq<string>, freq: map<string, nat>, i: int)
    requires AllScored(cands, freq) && 0 <= i < |cands|
    ensures AllScored(cands[..i], freq) && AllScored(cands[..i + 1], freq)
    ensures FirstMax(cands[..i + 1], freq) ==
      var prev := FirstMax(cands[..i], freq);
      if freq[cands[i]] > prev.score then Choice(cands[i], freq[cands[i]]) else prev
  {
    PrefixSnoc(cands, i);
    SnocPrefix(cands[..i], cands[i]);
  }

  /** Once the scan meets a candidate with the final score, the choice is
      settled: later candidates with the same count do not replace it. */
  lemma {:induction false} FirstMaxSettled(cands: seq<string>, freq: map<string, nat>, p: int)
    requires AllScored(cands, freq) && 0 <= p < |cands|
    requires freq[cands[p]] == FirstMax(cands, freq).score
    ensures AllScored(cands[..p + 1], freq)
    ensures FirstMax(cands, freq) == FirstMax(cands[..p + 1], freq)
    decreases |cands|
  {
    var n := |cands|;
    if p + 1 == n {
      FullPrefix(cands);
    } else {
      var init := cands[..n - 1];
      assert forall k :: 0 <= k < n - 1 ==> init[k] == cands[k];
      FirstMaxIsFirstMax(init, freq);
      FirstMaxIsFirstMax(cands, freq);
      assert init[p] == cands[p];
      FirstMaxSettled(init, freq, p);
      assert init[..p + 1] == cands[..p + 1];
    }
  }

  /** `char_compare`: scans the candidates in order and keeps the first one
      with the strictly largest count; `("", 0)` when none has a positive
      count. */
  method CharCompare(candidateChar: seq<string>, charFreqDict: map<string, nat>)
    returns (finalChar: string, maxScore: nat)
    requires AllScored(candidateChar, charFreqDict)
    ensures Choice(finalChar, maxScore) == FirstMax(candidateChar, charFreqDict)
    ensures IsFirstMax(candidateChar, charFreqDict, Choice(finalChar, maxScore))
  {
    maxScore, finalChar := 0, "";
    for i := 0 to |candidateChar|
      invariant AllScored(candidateChar[..i], charFreqDict)
      invariant Choice(finalChar, maxScore) == FirstMax(candidateChar[..i], charFreqDict)
    {
      FirstMaxStep(candidateChar, charFreqDict, i);
      var cand := candidateChar[i];
      if charFreqDict[cand] > maxScore {
        maxScore := charFreqDict[cand];
        finalChar := cand;
      }
    }
    FullPrefix(candidateChar);
    FirstMaxIsFirstMax(candidateChar, charFreqDict);
  }
}
