/** The Chinese variant: an entity is a sequence of characters and its
    windows are substrings, matched as they are. */
module DenoiseCh {
  import opened Wrappers
  import opened Utils
  import opened Denoise

  /** Defaults of `clean`. */
  const DefaultThreshold: real := 1.2
  const DefaultMinWindow: int := 1
  const DefaultMaxWindow: int := 30
  const DefaultStopwords: seq<string> := []

  function ChConfig(oracles: Oracles, threshold: real, minWindow: int, maxWindow: int, stopwords: seq<string>): Config
  {
    Config(Regime.Chars, oracles, threshold, minWindow, maxWindow, stopwords)
  }

  /** The `w` characters of `v` starting at `i`. */
  function Window(v: string, w: nat, i: nat): string
    requires i + w <= |v|
  {
    v[i..i + w]
  }

  /** The candidates of an entity: every substring of `w` characters, with
      `min_window <= w <= min(max_window, len(v))`, that is neither numeric
      nor a stop word. The length test never removes a substring. */
  lemma ChineseCandidates(cfg: Config, v: string, c: string)
    requires cfg.regime == Regime.Chars && cfg.minWindow >= 1
    ensures c in Candidates(cfg, v) <==>
      && !cfg.oracles.isNumber(c) && c !in cfg.stopwords
      && exists w: nat, i: nat :: cfg.minWindow <= w <= Cap(|v|, cfg.maxWindow) && i + w <= |v| && c == Window(v, w, i)
  {
    var t := Units(cfg.regime, v);
    CandidatesHas(cfg, v, c);
    if c in Candidates(cfg, v) {
      var w, i :| 0 <= w && cfg.minWindow <= w <= Top(cfg, t) && 0 <= i && i + w <= Len(t) && c == Cand(cfg.regime, t, w, i);
      assert c == Window(v, w, i);
    }
    if exists w: nat, i: nat :: cfg.minWindow <= w <= Cap(|v|, cfg.maxWindow) && i + w <= |v| && c == Window(v, w, i) {
      var w: nat, i: nat :| cfg.minWindow <= w <= Cap(|v|, cfg.maxWindow) && i + w <= |v| && c == Window(v, w, i);
      assert |c| == w;
      assert c == Cand(cfg.regime, t, w, i);
    }
  }

  /** `get_chinese_ngrams` */
  method ChineseNgrams(oracles: Oracles, nerList: seq<string>, minWindow: int, maxWindow: int)
    returns (r: Result<map<string, nat>>)
    ensures minWindow < 1 ==> r == Failure(WindowTooSmall)
    ensures minWindow >= 1 ==> r == Success(LangTable(Regime.Chars, oracles, nerList, minWindow, maxWindow))
  {
    r := GetNgrams(Regime.Chars, oracles, nerList, minWindow, maxWindow);
  }

  /** `clean`: build one table from all groups and process each group
      against it. */
  method Clean(oracles: Oracles, nerList: seq<string>, threshold: real, minWindow: int, maxWindow: int,
               stopwords: seq<string>) returns (r: Result<seq<Processed>>)
    requires ClassifierContract(oracles)
    ensures CleanOutcome(ChConfig(oracles, threshold, minWindow, maxWindow, stopwords), nerList, r)
  {
    r := CleanGroups(ChConfig(oracles, threshold, minWindow, maxWindow, stopwords), nerList);
  }

  /** `clean` with its default arguments, which never fails. */
  method CleanDefaults(oracles: Oracles, nerList: seq<string>) returns (r: Result<seq<Processed>>)
    requires ClassifierContract(oracles)
    ensures r.Success? && |r.value| == |nerList|
    ensures CleanOutcome(ChConfig(oracles, DefaultThreshold, DefaultMinWindow, DefaultMaxWindow, DefaultStopwords), nerList, r)
  {
    r := Clean(oracles, nerList, DefaultThreshold, DefaultMinWindow, DefaultMaxWindow, DefaultStopwords);
    CleanResults(ChConfig(oracles, DefaultThreshold, DefaultMinWindow, DefaultMaxWindow, DefaultStopwords), nerList, r);
  }
}
