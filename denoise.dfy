/** The denoiser engine shared by the English and the Chinese variants:
    candidate enumeration and scoring for the entities of one group
    (`process_*_ner`), the language-filtered n-gram table (`get_*_ngrams`),
    the flattening of comma-joined groups (`ner_list_sum`) and the batch
    driver (`clean`). */
module Denoise {
  import opened Wrappers
  import opened Seqs
  import opened Text
  import opened Utils
  import opened Scorer

  /** How a variant cuts an entity into tokens: space-separated words whose
      windows are lowercased (English), or single characters (Chinese).
      `lower` is the per-character case map. */
  datatype Regime = Words(lower: char -> char) | Chars

  /** The classifiers the variants call: `is_english` / `is_chinese` and
      `is_number`. */
  datatype Oracles = Oracles(isLang: string -> bool, isNumber: string -> bool)

  /** Everything one call of `process_*_ner` is configured with. */
  datatype Config = Config(regime: Regime, oracles: Oracles, threshold: real,
                           minWindow: int, maxWindow: int, stopwords: seq<string>)

  /** What the regular-expression classifiers guarantee: `is_sentence`
      rejects strings of length one or less, and surrounding whitespace
      never turns a match into a non-match (both patterns admit `\s`
      outside the target script). */
  ghost predicate ClassifierContract(oracles: Oracles)
  {
    && (forall u :: oracles.isLang(u) ==> |u| > 1)
    && (forall u {:trigger oracles.isLang(Strip(u))} :: oracles.isLang(Strip(u)) ==> oracles.isLang(u))
  }

  /** `split_char` of the variant: `" "` for words, none for characters. */
  function SplitChar(regime: Regime): Option<char>
  {
    match regime
    case Words(_) => Some(' ')
    case Chars => None
  }

  /** The tokens of an entity: `volcab.split(" ")`, or the string itself. */
  function Units(regime: Regime, v: string): Tokens
  {
    Tokenize(v, SplitChar(regime))
  }

  /** The case normalisation of the variant: `.lower()` for words, none for
      characters. */
  function Norm(regime: Regime, s: string): string
  {
    match regime
    case Words(lower) => LowerStr(lower, s)
    case Chars => s
  }

  /** `Norm` applied to every member of a list. */
  function NormAll(regime: Regime, ks: seq<string>): seq<string>
  {
    seq(|ks|, j requires 0 <= j < |ks| => Norm(regime, ks[j]))
  }

  lemma NormAllAppend(regime: Regime, a: seq<string>, b: seq<string>)
    ensures NormAll(regime, a + b) == NormAll(regime, a) + NormAll(regime, b)
  {
    assert forall j :: 0 <= j < |a| ==> (a + b)[j] == a[j];
    assert forall j :: |a| <= j < |a + b| ==> (a + b)[j] == b[j - |a|];
  }

  lemma NormAllPrefix(regime: Regime, a: seq<string>, b: seq<string>)
    requires a <= b
    ensures NormAll(regime, a) <= NormAll(regime, b)
  {
    assert NormAll(regime, b)[..|a|] == NormAll(regime, a);
  }

  /** The candidate of the window of size `w` at offset `i`:
      `" ".join(words[i:i+w]).lower()`, or `"".join(words[i:i+w])`. */
  function Cand(regime: Regime, t: Tokens, w: int, i: int): string
    requires 0 <= w && 0 <= i && i + w <= Len(t)
  {
    Norm(regime, Key(t, w, i))
  }

  /** The length the filter compares with `min_window`:
      `len(char.split(" "))`, or `len(char)`. */
  function TokenLen(regime: Regime, c: string): nat
  {
    match regime
    case Words(_) => |Split(c, ' ')|
    case Chars => |c|
  }

  /** A window survives the filter: not numeric, not too short, not a stop
      word. */
  predicate Admissible(cfg: Config, c: string)
  {
    !(cfg.oracles.isNumber(c) || TokenLen(cfg.regime, c) < cfg.minWindow || c in cfg.stopwords)
  }

  /** The candidates of the windows of size `w` at offsets `0 .. count-1`,
      before filtering. */
  function RowCands(regime: Regime, t: Tokens, w: nat, count: nat): seq<string>
    requires count <= Offsets(Len(t), w)
  {
    NormAll(regime, RowKeys(t, w, count))
  }

  lemma RowCandsSnoc(regime: Regime, t: Tokens, w: nat, count: nat)
    requires count + 1 <= Offsets(Len(t), w)
    ensures RowCands(regime, t, w, count + 1) == RowCands(regime, t, w, count) + [Cand(regime, t, w, count)]
  {
    RowKeysSnoc(t, w, count);
    NormAllAppend(regime, RowKeys(t, w, count), [Key(t, w, count)]);
  }

  /** The windows of sizes `lo .. end-1`, size by size and offset by offset,
      before filtering. */
  function WindowCands(regime: Regime, t: Tokens, lo: nat, end: int): seq<string>
  {
    NormAll(regime, StringKeys(t, lo, end))
  }

  /** `c` is the candidate of a window of `t` whose size lies in `lo .. hi`. */
  ghost predicate IsWindowCand(regime: Regime, t: Tokens, lo: int, hi: int, c: string)
  {
    exists w, i :: 0 <= w && lo <= w <= hi && 0 <= i && i + w <= Len(t) && c == Cand(regime, t, w, i)
  }

  /** Every member of the unfiltered list is the candidate of a window of
      size `lo .. end-1`. */
  lemma WindowCandsSound(regime: Regime, t: Tokens, lo: nat, end: int, j: int)
    requires 0 <= j < |WindowCands(regime, t, lo, end)|
    ensures IsWindowCand(regime, t, lo, end - 1, WindowCands(regime, t, lo, end)[j])
  {
    var ks := StringKeys(t, lo, end);
    StringKeysHasKey(t, lo, end, ks[j]);
    var w, i :| 0 <= w && lo <= w <= end - 1 && 0 <= i && i + w <= Len(t) && ks[j] == Key(t, w, i);
    assert WindowCands(regime, t, lo, end)[j] == Cand(regime, t, w, i);
  }

  /** The candidate of every window of size `lo .. end-1` is in the
      unfiltered list. */
  lemma WindowCandsComplete(regime: Regime, t: Tokens, lo: nat, end: int, w: int, i: int)
    requires 0 <= w && lo <= w <= end - 1 && 0 <= i && i + w <= Len(t)
    ensures Cand(regime, t, w, i) in WindowCands(regime, t, lo, end)
  {
    var ks := StringKeys(t, lo, end);
    assert IsWindowKey(t, lo, end - 1, Key(t, w, i));
    StringKeysHasKey(t, lo, end, Key(t, w, i));
    var j :| 0 <= j < |ks| && ks[j] == Key(t, w, i);
    assert WindowCands(regime, t, lo, end)[j] == Cand(regime, t, w, i);
  }

  /** The unfiltered list holds exactly the candidates of the windows of
      sizes `lo .. end-1`. */
  lemma WindowCandsHas(regime: Regime, t: Tokens, lo: nat, end: int, c: string)
    ensures c in WindowCands(regime, t, lo, end) <==> IsWindowCand(regime, t, lo, end - 1, c)
  {
    if c in WindowCands(regime, t, lo, end) {
      var j :| 0 <= j < |WindowCands(regime, t, lo, end)| && WindowCands(regime, t, lo, end)[j] == c;
      WindowCandsSound(regime, t, lo, end, j);
    }
    if IsWindowCand(regime, t, lo, end - 1, c) {
      var w, i :| 0 <= w && lo <= w <= end - 1 && 0 <= i && i + w <= Len(t) && c == Cand(regime, t, w, i);
      WindowCandsComplete(regime, t, lo, end, w, i);
    }
  }

  /** The list `acc` after the admissible members of `ks` were appended one
      by one. */
  function AdmitFrom(cfg: Config, acc: seq<string>, ks: seq<string>): seq<string>
  {
    if |ks| == 0 then acc
    else
      var prev := AdmitFrom(cfg, acc, ks[..|ks| - 1]);
      var c := ks[|ks| - 1];
      if Admissible(cfg, c) then prev + [c] else prev
  }

  lemma AdmitSnoc(cfg: Config, acc: seq<string>, ks: seq<string>, c: string)
    ensures AdmitFrom(cfg, acc, ks + [c]) == if Admissible(cfg, c) then AdmitFrom(cfg, acc, ks) + [c] else AdmitFrom(cfg, acc, ks)
  {
    SnocPrefix(ks, c);
  }

  /** Filtering `a` and then `b` is filtering `a + b`. */
  lemma {:induction false} AdmitAppend(cfg: Config, acc: seq<string>, a: seq<string>, b: seq<string>)
    ensures AdmitFrom(cfg, AdmitFrom(cfg, acc, a), b) == AdmitFrom(cfg, acc, a + b)
    decreases |b|
  {
    if |b| == 0 {
      assert a + b == a;
    } else {
      var init := b[..|b| - 1];
      var x := b[|b| - 1];
      SplitLast(b);
      AppendAssoc(a, init, [x]);
      AdmitAppend(cfg, acc, a, init);
      AdmitSnoc(cfg, AdmitFrom(cfg, acc, a), init, x);
      AdmitSnoc(cfg, acc, a + init, x);
    }
  }

  /** The filter keeps exactly the admissible members, after `acc`. */
  lemma {:induction false} AdmitFromHas(cfg: Config, acc: seq<string>, ks: seq<string>, c: string)
    ensures c in AdmitFrom(cfg, acc, ks) <==> c in acc || (c in ks && Admissible(cfg, c))
    decreases |ks|
  {
    if |ks| > 0 {
      AdmitFromHas(cfg, acc, ks[..|ks| - 1], c);
      SplitLast(ks);
    }
  }

  /** Filtering only ever appends. */
  lemma {:induction false} AdmitExtends(cfg: Config, acc: seq<string>, ks: seq<string>)
    ensures acc <= AdmitFrom(cfg, acc, ks)
    decreases |ks|
  {
    if |ks| > 0 {
      AdmitExtends(cfg, acc, ks[..|ks| - 1]);
      var prev := AdmitFrom(cfg, acc, ks[..|ks| - 1]);
      PrefixTrans(acc, prev, prev + [ks[|ks| - 1]]);
    }
  }

  /** Filtering a prefix gives a prefix. */
  lemma AdmitPrefix(cfg: Config, a: seq<string>, b: seq<string>)
    requires a <= b
    ensures AdmitFrom(cfg, [], a) <= AdmitFrom(cfg, [], b)
  {
    var rest := b[|a|..];
    assert b == a + rest;
    AdmitAppend(cfg, [], a, rest);
    AdmitExtends(cfg, AdmitFrom(cfg, [], a), rest);
  }

  /** The admissible windows of sizes `lo .. end-1` of `t`, in loop order. */
  function Collected(cfg: Config, t: Tokens, lo: nat, end: int): seq<string>
  {
    AdmitFrom(cfg, [], WindowCands(cfg.regime, t, lo, end))
  }

  lemma CollectedEmpty(cfg: Config, t: Tokens, lo: nat, a: int, b: int)
    requires a == b || (a <= lo && b <= lo)
    ensures Collected(cfg, t, lo, a) == Collected(cfg, t, lo, b)
  {
    StringKeysEmpty(t, lo, a, b);
  }

  /** One more size: the filtered row is appended. */
  lemma CollectedStep(cfg: Config, t: Tokens, lo: nat, end: nat)
    requires lo <= end
    ensures AdmitFrom(cfg, Collected(cfg, t, lo, end), RowCands(cfg.regime, t, end, Offsets(Len(t), end)))
            == Collected(cfg, t, lo, end + 1)
  {
    StringKeysSnoc(t, lo, end);
    NormAllAppend(cfg.regime, StringKeys(t, lo, end), RowKeys(t, end, Offsets(Len(t), end)));
    AdmitAppend(cfg, [], WindowCands(cfg.regime, t, lo, end), RowCands(cfg.regime, t, end, Offsets(Len(t), end)));
  }

  /** The largest window size of an entity with `t` as its tokens. */
  function Top(cfg: Config, t: Tokens): int
  {
    Cap(Len(t), cfg.maxWindow)
  }

  /** The candidate list of `process_*_ner` for one stripped entity `v`. */
  function Candidates(cfg: Config, v: string): seq<string>
    requires cfg.minWindow >= 1
  {
    var t := Units(cfg.regime, v);
    Collected(cfg, t, cfg.minWindow, Top(cfg, t) + 1)
  }

  /** A string is a candidate exactly when it is admissible and it is the
      candidate of a window of size `min_window .. min(max_window, n)`. */
  lemma CandidatesHas(cfg: Config, v: string, c: string)
    requires cfg.minWindow >= 1
    ensures var t := Units(cfg.regime, v);
      c in Candidates(cfg, v) <==> Admissible(cfg, c) && IsWindowCand(cfg.regime, t, cfg.minWindow, Top(cfg, t), c)
  {
    var t := Units(cfg.regime, v);
    AdmitFromHas(cfg, [], WindowCands(cfg.regime, t, cfg.minWindow, Top(cfg, t) + 1), c);
    WindowCandsHas(cfg.regime, t, cfg.minWindow, Top(cfg, t) + 1, c);
  }

  /** The candidates of the windows scanned before the window of size `w` at
      offset `j`. */
  function CandsBefore(cfg: Config, t: Tokens, w: nat, j: nat): seq<string>
    requires cfg.minWindow >= 1 && j <= Offsets(Len(t), w)
  {
    AdmitFrom(cfg, [], NormAll(cfg.regime, KeysBefore(t, cfg.minWindow, w, j)))
  }

  /** The candidates up to an admissible window end with it. */
  lemma CandsBeforeSnoc(cfg: Config, t: Tokens, w: nat, i: nat)
    requires cfg.minWindow >= 1 && i + 1 <= Offsets(Len(t), w)
    requires Admissible(cfg, Cand(cfg.regime, t, w, i))
    ensures CandsBefore(cfg, t, w, i + 1) == CandsBefore(cfg, t, w, i) + [Cand(cfg.regime, t, w, i)]
  {
    var lo := cfg.minWindow;
    KeysBeforeSnoc(t, lo, w, i);
    NormAllAppend(cfg.regime, KeysBefore(t, lo, w, i), [Key(t, w, i)]);
    AdmitSnoc(cfg, [], NormAll(cfg.regime, KeysBefore(t, lo, w, i)), Cand(cfg.regime, t, w, i));
  }

  /** The candidates up to a window open the full candidate list. */
  lemma CandsBeforePrefix(cfg: Config, t: Tokens, w: nat, j: nat)
    requires cfg.minWindow >= 1
    requires cfg.minWindow <= w <= Top(cfg, t) && j <= Offsets(Len(t), w)
    ensures CandsBefore(cfg, t, w, j) <= Collected(cfg, t, cfg.minWindow, Top(cfg, t) + 1)
  {
    var lo := cfg.minWindow;
    var ks := KeysBefore(t, lo, w, j);
    var all := StringKeys(t, lo, Top(cfg, t) + 1);
    KeysBeforePrefix(t, lo, w, j, Top(cfg, t) + 1);
    NormAllPrefix(cfg.regime, ks, all);
    AdmitPrefix(cfg, NormAll(cfg.regime, ks), NormAll(cfg.regime, all));
  }

  /** Shortest, then leftmost, wins: once the scan reaches any admissible
      window with the winning count, the winner is already chosen among that
      window and those before it (smaller sizes, then smaller offsets). */
  lemma WinnerUpTo(cfg: Config, freq: map<string, nat>, v: string, w: nat, i: nat)
    requires cfg.minWindow >= 1
    requires AllScored(Candidates(cfg, v), freq)
    requires var t := Units(cfg.regime, v);
      cfg.minWindow <= w <= Top(cfg, t) && i + w <= Len(t)
      && Admissible(cfg, Cand(cfg.regime, t, w, i)) && Cand(cfg.regime, t, w, i) in freq
      && freq[Cand(cfg.regime, t, w, i)] == FirstMax(Candidates(cfg, v), freq).score
    ensures AllScored(CandsBefore(cfg, Units(cfg.regime, v), w, i + 1), freq)
    ensures FirstMax(Candidates(cfg, v), freq) == FirstMax(CandsBefore(cfg, Units(cfg.regime, v), w, i + 1), freq)
  {
    var t := Units(cfg.regime, v);
    var all := Candidates(cfg, v);
    CandsBeforeSnoc(cfg, t, w, i);
    CandsBeforePrefix(cfg, t, w, i + 1);
    var pre := CandsBefore(cfg, t, w, i + 1);
    var p := |pre| - 1;
    assert all[..p + 1] == pre;
    assert all[p] == pre[p];
    FirstMaxSettled(all, freq, p);
  }

  /** The innermost loop of `process_*_ner` for one size `win`. */
  method CollectRow(cfg: Config, t: Tokens, win: nat, candidateChars: seq<string>)
    returns (out: seq<string>)
    ensures out == AdmitFrom(cfg, candidateChars, RowCands(cfg.regime, t, win, Offsets(Len(t), win)))
  {
    out := candidateChars;
    // `range(len(words) - win + 1)`, empty when the window is too wide
    for i := 0 to Offsets(Len(t), win)
      invariant out == AdmitFrom(cfg, candidateChars, RowCands(cfg.regime, t, win, i))
    {
      var c := Cand(cfg.regime, t, win, i);
      RowCandsSnoc(cfg.regime, t, win, i);
      AdmitSnoc(cfg, candidateChars, RowCands(cfg.regime, t, win, i), c);
      if !(cfg.oracles.isNumber(c) || TokenLen(cfg.regime, c) < cfg.minWindow || c in cfg.stopwords) {
        out := out + [c];
      }
    }
  }

  /** The loop of `process_*_ner` over the sizes `lo .. stop-1`. */
  method CollectSizes(cfg: Config, words: Tokens, lo: nat, stop: nat) returns (candidateChars: seq<string>)
    requires lo <= stop
    ensures candidateChars == Collected(cfg, words, lo, stop)
  {
    candidateChars := [];
    for win := lo to stop
      invariant candidateChars == Collected(cfg, words, lo, win)
    {
      candidateChars := CollectRow(cfg, words, win, candidateChars);
      CollectedStep(cfg, words, lo, win);
    }
  }

  /** The candidate list `process_*_ner` builds for one stripped entity:
      sizes `min_window .. min(max_window, len(words))`, offsets left to
      right, filtered. */
  method CollectCandidates(cfg: Config, volcab: string) returns (candidateChars: seq<string>)
    requires cfg.minWindow >= 1
    ensures candidateChars == Candidates(cfg, volcab)
  {
    var words := Units(cfg.regime, volcab);
    var maxLen := Cap(Len(words), cfg.maxWindow);
    // `range(min_window, max_len + 1)` is empty when `max_len + 1 <= min_window`
    var stop := if maxLen + 1 < cfg.minWindow then cfg.minWindow else maxLen + 1;
    candidateChars := CollectSizes(cfg, words, cfg.minWindow, stop);
    CollectedEmpty(cfg, words, cfg.minWindow, stop, maxLen + 1);
  }

  // ---------------------------------------------------------------------
  // One group: `process_*_ner`

  /** The entity's candidates can all be looked up (it is only scored when
      it is in the target language). */
  predicate Scores(cfg: Config, freq: map<string, nat>, v: string)
    requires cfg.minWindow >= 1
  {
    cfg.oracles.isLang(v) ==> AllScored(Candidates(cfg, v), freq)
  }

  predicate AllScore(cfg: Config, freq: map<string, nat>, vs: seq<string>)
    requires cfg.minWindow >= 1
  {
    forall k :: 0 <= k < |vs| ==> Scores(cfg, freq, vs[k])
  }

  /** What one stripped entity adds to `new_ner_lst`: itself when it is not
      in the target language, otherwise the scorer's choice when its score
      reaches the threshold, and nothing when it does not. */
  function Contribution(cfg: Config, freq: map<string, nat>, v: string): seq<string>
    requires cfg.minWindow >= 1 && Scores(cfg, freq, v)
  {
    if cfg.oracles.isLang(v) then
      var r := FirstMax(Candidates(cfg, v), freq);
      if r.score as real >= cfg.threshold then [r.best] else []
    else [v]
  }

  /** The three outcomes for an entity, stated against the scorer's
      specification rather than its scan. */
  lemma ContributionCases(cfg: Config, freq: map<string, nat>, v: string, r: Choice)
    requires cfg.minWindow >= 1 && Scores(cfg, freq, v)
    requires cfg.oracles.isLang(v) ==> IsFirstMax(Candidates(cfg, v), freq, r)
    ensures !cfg.oracles.isLang(v) ==> Contribution(cfg, freq, v) == [v]
    ensures cfg.oracles.isLang(v) && r.score as real >= cfg.threshold ==> Contribution(cfg, freq, v) == [r.best]
    ensures cfg.oracles.isLang(v) && r.score as real < cfg.threshold ==> Contribution(cfg, freq, v) == []
  {
    if cfg.oracles.isLang(v) {
      FirstMaxIsFirstMax(Candidates(cfg, v), freq);
      FirstMaxUnique(Candidates(cfg, v), freq, r, FirstMax(Candidates(cfg, v), freq));
    }
  }

  /** With a threshold of zero or less, an entity without candidates
      contributes the empty string. */
  lemma EmptyWinner(cfg: Config, freq: map<string, nat>, v: string)
    requires cfg.minWindow >= 1 && cfg.oracles.isLang(v)
    requires Candidates(cfg, v) == [] && cfg.threshold <= 0.0
    ensures Scores(cfg, freq, v)
    ensures Contribution(cfg, freq, v) == [""]
  {
    var r := Choice("", 0);
    ContributionCases(cfg, freq, v, r);
  }

  /** `new_ner_lst` after the stripped entities `vs`. */
  function Kept(cfg: Config, freq: map<string, nat>, vs: seq<string>): seq<string>
    requires cfg.minWindow >= 1 && AllScore(cfg, freq, vs)
  {
    if |vs| == 0 then []
    else
      var init := vs[..|vs| - 1];
      assert forall k :: 0 <= k < |init| ==> init[k] == vs[k];
      Kept(cfg, freq, init) + Contribution(cfg, freq, vs[|vs| - 1])
  }

  lemma KeptStep(cfg: Config, freq: map<string, nat>, vs: seq<string>, j: int)
    requires cfg.minWindow >= 1 && AllScore(cfg, freq, vs) && 0 <= j < |vs|
    ensures AllScore(cfg, freq, vs[..j]) && AllScore(cfg, freq, vs[..j + 1])
    ensures Kept(cfg, freq, vs[..j + 1]) == Kept(cfg, freq, vs[..j]) + Contribution(cfg, freq, vs[j])
  {
    assert forall k :: 0 <= k < j + 1 ==> vs[..j + 1][k] == vs[k];
    PrefixSnoc(vs, j);
    SnocPrefix(vs[..j], vs[j]);
  }

  /** The kept strings are exactly the contributions of the entities. */
  lemma {:induction false} KeptHas(cfg: Config, freq: map<string, nat>, vs: seq<string>, x: string)
    requires cfg.minWindow >= 1 && AllScore(cfg, freq, vs)
    ensures x in Kept(cfg, freq, vs) <==> exists k :: 0 <= k < |vs| && x in Contribution(cfg, freq, vs[k])
    decreases |vs|
  {
    if |vs| > 0 {
      var n := |vs| - 1;
      var init := vs[..n];
      assert forall k :: 0 <= k < n ==> init[k] == vs[k];
      KeptHas(cfg, freq, init, x);
      if x in Contribution(cfg, freq, vs[n]) {
        assert 0 <= n < |vs| && x in Contribution(cfg, freq, vs[n]);
      }
    }
  }

  /** `[n.strip() for n in ner]` */
  function StripAll(ns: seq<string>): seq<string>
  {
    seq(|ns|, k requires 0 <= k < |ns| => Strip(ns[k]))
  }

  /** What `process_*_ner` returns: its argument when it is empty, otherwise
      the comma-join of the distinct kept strings. */
  datatype Processed = Unchanged(ner: seq<string>) | Joined(text: string)

  /** `list(set(new_ner_lst))`, with the set's iteration order fixed to
      first occurrence. */
  function Distinct(cfg: Config, freq: map<string, nat>, ner: seq<string>): seq<string>
    requires cfg.minWindow >= 1 && AllScore(cfg, freq, StripAll(ner))
  {
    Dedup(Kept(cfg, freq, StripAll(ner)))
  }

  function ProcessSpec(cfg: Config, freq: map<string, nat>, ner: seq<string>): Processed
    requires cfg.minWindow >= 1 && AllScore(cfg, freq, StripAll(ner))
  {
    if |ner| == 0 then Unchanged(ner)
    else Joined(Join(",", Distinct(cfg, freq, ner)))
  }

  /** The joined output lists each string some entity contributes, once,
      and nothing else. */
  lemma DistinctHas(cfg: Config, freq: map<string, nat>, ner: seq<string>, x: string)
    requires cfg.minWindow >= 1 && AllScore(cfg, freq, StripAll(ner))
    ensures NoDup(Distinct(cfg, freq, ner))
    ensures x in Distinct(cfg, freq, ner) <==> exists k :: 0 <= k < |ner| && x in Contribution(cfg, freq, StripAll(ner)[k])
  {
    KeptHas(cfg, freq, StripAll(ner), x);
  }

  /** `process_*_ner` on a list of entities. */
  method ProcessNer(cfg: Config, charFreqDict: map<string, nat>, ner: seq<string>) returns (r: Processed)
    requires cfg.minWindow >= 1 && AllScore(cfg, charFreqDict, StripAll(ner))
    ensures r == ProcessSpec(cfg, charFreqDict, ner)
  {
    if |ner| == 0 {
      return Unchanged(ner);
    }
    var nerLst := StripAll(ner);
    var newNerLst: seq<string> := [];
    for j := 0 to |nerLst|
      invariant AllScore(cfg, charFreqDict, nerLst[..j])
      invariant newNerLst == Kept(cfg, charFreqDict, nerLst[..j])
    {
      KeptStep(cfg, charFreqDict, nerLst, j);
      var volcab := nerLst[j];
      if cfg.oracles.isLang(volcab) {
        var candidateChars := CollectCandidates(cfg, volcab);
        var finalChar, maxScore := CharCompare(candidateChars, charFreqDict);
        if maxScore as real >= cfg.threshold {
          newNerLst := newNerLst + [finalChar];
        }
      } else {
        newNerLst := newNerLst + [volcab];
      }
    }
    FullPrefix(nerLst);
    r := Joined(Join(",", Dedup(newNerLst)));
    assert Dedup(newNerLst) == Distinct(cfg, charFreqDict, ner);
  }

  // ---------------------------------------------------------------------
  // The shared table: `get_*_ngrams`

  /** The corpus the table is built from: the strings in the target
      language (tested before stripping), stripped and, for words,
      lowercased. */
  function LangCorpus(regime: Regime, isLang: string -> bool, nerList: seq<string>): seq<string>
  {
    NormAll(regime, StripAll(Filter(isLang, nerList)))
  }

  /** Everything in the corpus is the normalised stripped form of a string
      in the target language. */
  lemma LangCorpusSound(regime: Regime, isLang: string -> bool, nerList: seq<string>, x: string)
    requires x in LangCorpus(regime, isLang, nerList)
    ensures exists u :: u in nerList && isLang(u) && x == Norm(regime, Strip(u))
  {
    var kept := Filter(isLang, nerList);
    var stripped := StripAll(kept);
    var m :| 0 <= m < |stripped| && x == NormAll(regime, stripped)[m];
    assert stripped[m] == Strip(kept[m]);
    FilterHas(isLang, nerList, kept[m]);
  }

  /** The normalised stripped form of every string in the target language
      is in the corpus. */
  lemma LangCorpusComplete(regime: Regime, isLang: string -> bool, nerList: seq<string>, u: string)
    requires u in nerList && isLang(u)
    ensures Norm(regime, Strip(u)) in LangCorpus(regime, isLang, nerList)
  {
    var kept := Filter(isLang, nerList);
    var stripped := StripAll(kept);
    FilterHas(isLang, nerList, u);
    var m :| 0 <= m < |kept| && kept[m] == u;
    assert stripped[m] == Strip(u);
    assert NormAll(regime, stripped)[m] == Norm(regime, Strip(u));
  }

  /** `{k: v for k, v in d.items() if not (is_number(k) or len(k) == 0)}` */
  function FilterTable(isNumber: string -> bool, d: map<string, nat>): map<string, nat>
  {
    map k | k in d && !(isNumber(k) || |k| == 0) :: d[k]
  }

  /** What `get_*_ngrams` returns when `min_window >= 1`. */
  function LangTable(regime: Regime, oracles: Oracles, nerList: seq<string>, minWindow: int, maxWindow: int): map<string, nat>
    requires minWindow >= 1
  {
    FilterTable(oracles.isNumber, NgramTable(LangCorpus(regime, oracles.isLang, nerList), minWindow, maxWindow, SplitChar(regime)))
  }

  /** The table's keys are the window keys of the corpus that are neither
      numeric nor empty, each with its count from the builder, at least 1. */
  lemma LangTableHas(regime: Regime, oracles: Oracles, nerList: seq<string>, minWindow: int, maxWindow: int, k: string)
    requires minWindow >= 1
    ensures k in LangTable(regime, oracles, nerList, minWindow, maxWindow) <==>
      InCorpus(LangCorpus(regime, oracles.isLang, nerList), minWindow, maxWindow, SplitChar(regime), k)
      && !oracles.isNumber(k) && k != ""
    ensures k in LangTable(regime, oracles, nerList, minWindow, maxWindow) ==>
      LangTable(regime, oracles, nerList, minWindow, maxWindow)[k]
        == multiset(CorpusKeys(LangCorpus(regime, oracles.isLang, nerList), minWindow, maxWindow, SplitChar(regime)))[k] >= 1
  {
    var corpus := LangCorpus(regime, oracles.isLang, nerList);
    NgramTableKeys(corpus, minWindow, maxWindow, SplitChar(regime));
    if k in NgramTable(corpus, minWindow, maxWindow, SplitChar(regime)) {
      NgramTableCounts(corpus, minWindow, maxWindow, SplitChar(regime), k);
    }
  }

  /** `get_english_ngrams` / `get_chinese_ngrams`; fails like the table
      builder when `min_window < 1`. */
  method GetNgrams(regime: Regime, oracles: Oracles, nerList: seq<string>, minWindow: int, maxWindow: int)
    returns (r: Result<map<string, nat>>)
    ensures minWindow < 1 ==> r == Failure(WindowTooSmall)
    ensures minWindow >= 1 ==> r == Success(LangTable(regime, oracles, nerList, minWindow, maxWindow))
  {
    var prdList := LangCorpus(regime, oracles.isLang, nerList);
    var charFreqDict := NgramDict(prdList, minWindow, maxWindow, SplitChar(regime));
    if charFreqDict.Failure? {
      return Failure(charFreqDict.error);
    }
    r := Success(FilterTable(oracles.isNumber, charFreqDict.value));
  }

  // ---------------------------------------------------------------------
  // The batch driver: `ner_list_sum` and `clean`

  /** `ner_list_sum`: `",".join(ner_list).split(",")`. */
  function NerListSum(nerList: seq<string>): seq<string>
  {
    Split(Join(",", nerList), ',')
  }

  /** The flattened list is the comma-separated pieces of every group, group
      after group; no groups give the one empty piece. */
  lemma NerListSumPieces(nerList: seq<string>)
    ensures |nerList| >= 1 ==> NerListSum(nerList) == FlatSplit(nerList, ',')
    ensures |nerList| == 0 ==> NerListSum(nerList) == [""]
  {
    if |nerList| >= 1 {
      SplitOfJoin(nerList, ',');
    }
  }

  /** What the shared table needs of the groups: in the word variant, a case
      map that keeps spaces apart, and single-spaced groups. */
  ghost predicate Ready(regime: Regime, nerList: seq<string>)
  {
    match regime
    case Words(lower) => LowerKeepsSpace(lower) && forall j :: 0 <= j < |nerList| ==> SingleSpaced(nerList[j])
    case Chars => true
  }

  /** The one table `clean` builds from all groups. */
  function SharedTable(cfg: Config, nerList: seq<string>): map<string, nat>
    requires cfg.minWindow >= 1
  {
    LangTable(cfg.regime, cfg.oracles, NerListSum(nerList), cfg.minWindow, cfg.maxWindow)
  }

  /** Lowercasing a run of words of an entity is taking the same run of
      words of the lowercased entity. */
  lemma LowerWindow(lower: char -> char, v: string, w: nat, i: nat)
    requires LowerKeepsSpace(lower) && i + w <= |Split(v, ' ')|
    ensures |Split(LowerStr(lower, v), ' ')| == |Split(v, ' ')|
    ensures LowerStr(lower, Join([' '], Split(v, ' ')[i..i + w])) == Join([' '], Split(LowerStr(lower, v), ' ')[i..i + w])
  {
    var ws := Split(v, ' ');
    LowerSplit(lower, v);
    var lws := Split(LowerStr(lower, v), ' ');
    LowerAllSlice(lower, ws, i, i + w);
    assert lws[i..i + w] == LowerAll(lower, ws[i..i + w]);
    LowerJoin(lower, ws[i..i + w]);
  }

  /** Normalising a window of an entity is taking the same window of the
      normalised entity. */
  lemma NormKey(regime: Regime, v: string, w: nat, i: nat)
    requires regime.Words? ==> LowerKeepsSpace(regime.lower)
    requires i + w <= Len(Units(regime, v))
    ensures Len(Tokenize(Norm(regime, v), SplitChar(regime))) == Len(Units(regime, v))
    ensures Cand(regime, Units(regime, v), w, i) == Key(Tokenize(Norm(regime, v), SplitChar(regime)), w, i)
  {
    match regime
    case Chars =>
    case Words(lower) =>
      LowerWindow(lower, v, w, i);
  }

  /** No candidate is empty when the entity has no empty word. */
  lemma CandNonEmpty(regime: Regime, v: string, w: nat, i: nat)
    requires 1 <= w && i + w <= Len(Units(regime, v))
    requires regime.Words? ==> forall k :: 0 <= k < |Split(v, ' ')| ==> Split(v, ' ')[k] != ""
    ensures Cand(regime, Units(regime, v), w, i) != ""
  {
    match regime
    case Chars =>
      assert |Cand(regime, Units(regime, v), w, i)| == w;
    case Words(lower) =>
      var ws := Split(v, ' ')[i..i + w];
      assert ws[0] == Split(v, ' ')[i];
      JoinStartsWith([' '], ws);
  }

  /** A candidate of an entity whose normalised form is in the corpus is a
      key of the filtered table. */
  lemma CandidateInTable(cfg: Config, corpus: seq<string>, q: int, v: string, c: string)
    requires cfg.minWindow >= 1 && 0 <= q < |corpus| && corpus[q] == Norm(cfg.regime, v)
    requires cfg.regime.Words? ==> LowerKeepsSpace(cfg.regime.lower)
    requires cfg.regime.Words? ==> forall k :: 0 <= k < |Split(v, ' ')| ==> Split(v, ' ')[k] != ""
    requires c in Candidates(cfg, v)
    ensures c in FilterTable(cfg.oracles.isNumber, NgramTable(corpus, cfg.minWindow, cfg.maxWindow, SplitChar(cfg.regime)))
  {
    var t := Units(cfg.regime, v);
    CandidatesHas(cfg, v, c);
    var w, i :| 0 <= w && cfg.minWindow <= w <= Top(cfg, t) && 0 <= i && i + w <= Len(t) && c == Cand(cfg.regime, t, w, i);
    NormKey(cfg.regime, v, w, i);
    CandNonEmpty(cfg.regime, v, w, i);
    var tq := Tokenize(corpus[q], SplitChar(cfg.regime));
    assert IsWindowKey(tq, cfg.minWindow, Cap(Len(tq), cfg.maxWindow), c);
    assert InCorpus(corpus, cfg.minWindow, cfg.maxWindow, SplitChar(cfg.regime), c);
    NgramTableKeys(corpus, cfg.minWindow, cfg.maxWindow, SplitChar(cfg.regime));
  }

  /** In the word variant, a stripped entity in the target language taken
      from a single-spaced group has no empty word. */
  lemma EntityWords(cfg: Config, g: string, e: string)
    requires ClassifierContract(cfg.oracles) && cfg.oracles.isLang(Strip(e))
    requires SingleSpaced(g) && e in Split(g, ',')
    ensures forall k :: 0 <= k < |Split(Strip(e), ' ')| ==> Split(Strip(e), ' ')[k] != ""
  {
    var v := Strip(e);
    SplitKeepsSingleSpaced(g, ',');
    StripSingleSpaced(e);
    assert |v| > 1;
    WordsNonEmpty(v);
  }

  /** Every entity of every group can be scored against the shared table. */
  lemma EntityCovered(cfg: Config, nerList: seq<string>, j: int, e: string)
    requires cfg.minWindow >= 1 && ClassifierContract(cfg.oracles) && Ready(cfg.regime, nerList)
    requires 0 <= j < |nerList| && e in Split(nerList[j], ',')
    ensures Scores(cfg, SharedTable(cfg, nerList), Strip(e))
  {
    var v := Strip(e);
    if cfg.oracles.isLang(v) {
      var pieces := NerListSum(nerList);
      NerListSumPieces(nerList);
      FlatSplitHas(nerList, ',', j, e);
      assert cfg.oracles.isLang(e);
      var corpus := LangCorpus(cfg.regime, cfg.oracles.isLang, pieces);
      LangCorpusComplete(cfg.regime, cfg.oracles.isLang, pieces, e);
      var q :| 0 <= q < |corpus| && corpus[q] == Norm(cfg.regime, v);
      if cfg.regime.Words? {
        EntityWords(cfg, nerList[j], e);
      }
      forall k | 0 <= k < |Candidates(cfg, v)|
        ensures Candidates(cfg, v)[k] in SharedTable(cfg, nerList)
      {
        CandidateInTable(cfg, corpus, q, v, Candidates(cfg, v)[k]);
      }
    }
  }

  /** Every entity of every group can be scored against `freq`. */
  predicate GroupsScore(cfg: Config, freq: map<string, nat>, nerList: seq<string>)
    requires cfg.minWindow >= 1
  {
    forall j :: 0 <= j < |nerList| ==> AllScore(cfg, freq, StripAll(Split(nerList[j], ',')))
  }

  /** The shared table covers every entity of every group: the lookups of
      `char_compare` never fail inside `clean`. */
  lemma SharedTableCovers(cfg: Config, nerList: seq<string>)
    requires cfg.minWindow >= 1 && ClassifierContract(cfg.oracles) && Ready(cfg.regime, nerList)
    ensures GroupsScore(cfg, SharedTable(cfg, nerList), nerList)
  {
    forall j, k | 0 <= j < |nerList| && 0 <= k < |StripAll(Split(nerList[j], ','))|
      ensures Scores(cfg, SharedTable(cfg, nerList), StripAll(Split(nerList[j], ','))[k])
    {
      var ps := Split(nerList[j], ',');
      EntityCovered(cfg, nerList, j, ps[k]);
    }
  }

  /** The first `n` groups, each split on commas and processed against
      `freq`, in order. */
  function ProcessFirst(cfg: Config, freq: map<string, nat>, nerList: seq<string>, n: nat): seq<Processed>
    requires cfg.minWindow >= 1 && GroupsScore(cfg, freq, nerList) && n <= |nerList|
  {
    if n == 0 then []
    else ProcessFirst(cfg, freq, nerList, n - 1) + [ProcessSpec(cfg, freq, Split(nerList[n - 1], ','))]
  }

  /** Result `j` is group `j` processed, and never the unchanged-argument
      case, since splitting a group always yields at least one entity. */
  lemma {:induction false} ProcessFirstAt(cfg: Config, freq: map<string, nat>, nerList: seq<string>, n: nat, j: int)
    requires cfg.minWindow >= 1 && GroupsScore(cfg, freq, nerList) && n <= |nerList| && 0 <= j < n
    ensures |ProcessFirst(cfg, freq, nerList, n)| == n
    ensures ProcessFirst(cfg, freq, nerList, n)[j] == ProcessSpec(cfg, freq, Split(nerList[j], ','))
    ensures ProcessFirst(cfg, freq, nerList, n)[j].Joined?
  {
    if j < n - 1 {
      ProcessFirstAt(cfg, freq, nerList, n - 1, j);
    } else if n > 1 {
      ProcessFirstAt(cfg, freq, nerList, n - 1, 0);
    }
    assert |Split(nerList[j], ',')| >= 1;
  }

  /** What `clean` returns: the table builder's failure when
      `min_window < 1`; otherwise, with every lookup into the one shared
      table succeeding, every group processed against that table. */
  ghost predicate CleanOutcome(cfg: Config, nerList: seq<string>, r: Result<seq<Processed>>)
  {
    if cfg.minWindow < 1 then r == Failure(WindowTooSmall)
    else
      && GroupsScore(cfg, SharedTable(cfg, nerList), nerList)
      && r == Success(ProcessFirst(cfg, SharedTable(cfg, nerList), nerList, |nerList|))
  }

  /** A `clean` that succeeds returns one joined string per group, in order:
      group `j` split on commas and processed against the shared table. */
  lemma CleanResults(cfg: Config, nerList: seq<string>, r: Result<seq<Processed>>)
    requires cfg.minWindow >= 1 && CleanOutcome(cfg, nerList, r)
    ensures r.Success? && |r.value| == |nerList|
    ensures GroupsScore(cfg, SharedTable(cfg, nerList), nerList)
    ensures forall j :: 0 <= j < |nerList| ==>
      && r.value[j] == ProcessSpec(cfg, SharedTable(cfg, nerList), Split(nerList[j], ','))
      && r.value[j].Joined?
  {
    var table := SharedTable(cfg, nerList);
    if |nerList| > 0 {
      ProcessFirstAt(cfg, table, nerList, |nerList|, 0);
    }
    forall j | 0 <= j < |nerList|
      ensures r.value[j] == ProcessSpec(cfg, table, Split(nerList[j], ',')) && r.value[j].Joined?
    {
      ProcessFirstAt(cfg, table, nerList, |nerList|, j);
    }
  }

  /** `clean`, after any per-variant normalisation of the groups. */
  method CleanGroups(cfg: Config, nerList: seq<string>) returns (r: Result<seq<Processed>>)
    requires ClassifierContract(cfg.oracles) && Ready(cfg.regime, nerList)
    ensures CleanOutcome(cfg, nerList, r)
  {
    var flat := NerListSum(nerList);
    var charFreqDict := GetNgrams(cfg.regime, cfg.oracles, flat, cfg.minWindow, cfg.maxWindow);
    if charFreqDict.Failure? {
      return Failure(charFreqDict.error);
    }
    var table := charFreqDict.value;
    SharedTableCovers(cfg, nerList);
    assert table == SharedTable(cfg, nerList);
    var result: seq<Processed> := [];
    for j := 0 to |nerList|
      invariant result == ProcessFirst(cfg, table, nerList, j)
    {
      var ner := Split(nerList[j], ',');
      var processed := ProcessNer(cfg, table, ner);
      result := result + [processed];
    }
    return Success(result);
  }
}
