/** The English variant: an entity is split into words on single spaces and
    its windows are matched lowercased. */
module DenoiseEng {
  import opened Wrappers
  import opened Text
  import opened Utils
  import opened Denoise

  /** Defaults of `clean`. */
  const DefaultThreshold: real := 1.2
  const DefaultMinWindow: int := 1
  const DefaultMaxWindow: int := 10
  const DefaultStopwords: seq<string> := ["the", "of", "an"]

  /** Defaults of `get_english_ngrams` when called on its own. */
  const NgramsMinWindow: int := 1
  const NgramsMaxWindow: int := 15

  function EngConfig(lower: char -> char, oracles: Oracles, threshold: real, minWindow: int, maxWindow: int,
                     stopwords: seq<string>): Config
  {
    Config(Words(lower), oracles, threshold, minWindow, maxWindow, stopwords)
  }

  /** The run of `w` words starting at word `i`, joined by spaces and
      lowercased. */
  function Phrase(lower: char -> char, words: seq<string>, w: nat, i: nat): string
    requires i + w <= |words|
  {
    LowerStr(lower, Join(" ", words[i..i + w]))
  }

  /** A phrase splits back into its lowercased words, so it has exactly `w`
      of them. */
  lemma PhraseWords(lower: char -> char, words: seq<string>, w: nat, i: nat)
    requires LowerKeepsSpace(lower) && 1 <= w && i + w <= |words|
    requires forall k :: 0 <= k < |words| ==> ' ' !in words[k]
    ensures Split(Phrase(lower, words, w, i), ' ') == LowerAll(lower, words[i..i + w])
    ensures |Split(Phrase(lower, words, w, i), ' ')| == w
  {
    var ws := words[i..i + w];
    LowerJoin(lower, ws);
    var lws := LowerAll(lower, ws);
    forall k | 0 <= k < |lws|
      ensures ' ' !in lws[k]
    {
      assert ws[k] == words[i + k];
      LowerFirstSpace(lower, ws[k]);
    }
    SplitJoin(lws, ' ');
  }

  /** The candidate of a window of an entity is its phrase. */
  lemma PhraseIsCand(lower: char -> char, v: string, w: nat, i: nat)
    requires i + w <= |Split(v, ' ')|
    ensures Len(Units(Words(lower), v)) == |Split(v, ' ')|
    ensures Cand(Words(lower), Units(Words(lower), v), w, i) == Phrase(lower, Split(v, ' '), w, i)
  {
    assert Units(Words(lower), v) == Pieces(Split(v, ' '), ' ');
  }

  /** The candidates of an entity: every phrase of `w` words, with
      `min_window <= w <= min(max_window, number of words)`, that is neither
      numeric nor a stop word. The word-count test never removes a phrase. */
  lemma EnglishCandidates(cfg: Config, v: string, c: string)
    requires cfg.regime.Words? && LowerKeepsSpace(cfg.regime.lower) && cfg.minWindow >= 1
    ensures c in Candidates(cfg, v) <==>
      && !cfg.oracles.isNumber(c) && c !in cfg.stopwords
      && exists w: nat, i: nat :: cfg.minWindow <= w <= Cap(|Split(v, ' ')|, cfg.maxWindow)
           && i + w <= |Split(v, ' ')| && c == Phrase(cfg.regime.lower, Split(v, ' '), w, i)
  {
    var lower := cfg.regime.lower;
    var words := Split(v, ' ');
    var t := Units(cfg.regime, v);
    CandidatesHas(cfg, v, c);
    if c in Candidates(cfg, v) {
      var w, i :| 0 <= w && cfg.minWindow <= w <= Top(cfg, t) && 0 <= i && i + w <= Len(t) && c == Cand(cfg.regime, t, w, i);
      PhraseIsCand(lower, v, w, i);
    }
    if exists w: nat, i: nat :: cfg.minWindow <= w <= Cap(|words|, cfg.maxWindow)
         && i + w <= |words| && c == Phrase(lower, words, w, i)
    {
      var w: nat, i: nat :| cfg.minWindow <= w <= Cap(|words|, cfg.maxWindow)
         && i + w <= |words| && c == Phrase(lower, words, w, i);
      PhraseWords(lower, words, w, i);
      PhraseIsCand(lower, v, w, i);
    }
  }

  /** `list(map(replace_multiple_spaces, ner_list))` */
  function Collapsed(nerList: seq<string>): seq<string>
  {
    seq(|nerList|, j requires 0 <= j < |nerList| => CollapseSpaces(nerList[j]))
  }

  /** Collapsing whitespace makes every group ready for the shared table. */
  lemma CollapsedReady(lower: char -> char, nerList: seq<string>)
    requires LowerKeepsSpace(lower)
    ensures Ready(Words(lower), Collapsed(nerList))
  {
    forall j | 0 <= j < |nerList|
      ensures SingleSpaced(Collapsed(nerList)[j])
    {
      CollapseIsSingleSpaced(nerList[j]);
    }
  }

  /** `get_english_ngrams` with its own defaults. */
  method EnglishNgrams(lower: char -> char, oracles: Oracles, nerList: seq<string>) returns (r: Result<map<string, nat>>)
    ensures r == Success(LangTable(Words(lower), oracles, nerList, NgramsMinWindow, NgramsMaxWindow))
  {
    r := GetNgrams(Words(lower), oracles, nerList, NgramsMinWindow, NgramsMaxWindow);
  }

  /** `clean`: collapse whitespace in every group, build one table from all
      of them and process each group against it. */
  method Clean(lower: char -> char, oracles: Oracles, nerList: seq<string>, threshold: real, minWindow: int,
               maxWindow: int, stopwords: seq<string>) returns (r: Result<seq<Processed>>)
    requires ClassifierContract(oracles) && LowerKeepsSpace(lower)
    ensures CleanOutcome(EngConfig(lower, oracles, threshold, minWindow, maxWindow, stopwords), Collapsed(nerList), r)
  {
    var groups := Collapsed(nerList);
    CollapsedReady(lower, nerList);
    r := CleanGroups(EngConfig(lower, oracles, threshold, minWindow, maxWindow, stopwords), groups);
  }

  /** `clean` with its default arguments, which never fails. */
  method CleanDefaults(lower: char -> char, oracles: Oracles, nerList: seq<string>) returns (r: Result<seq<Processed>>)
    requires ClassifierContract(oracles) && LowerKeepsSpace(lower)
    ensures r.Success? && |r.value| == |nerList|
    ensures CleanOutcome(EngConfig(lower, oracles, DefaultThreshold, DefaultMinWindow, DefaultMaxWindow, DefaultStopwords),
                         Collapsed(nerList), r)
  {
    r := Clean(lower, oracles, nerList, DefaultThreshold, DefaultMinWindow, DefaultMaxWindow, DefaultStopwords);
    CleanResults(EngConfig(lower, oracles, DefaultThreshold, DefaultMinWindow, DefaultMaxWindow, DefaultStopwords),
                Collapsed(nerList), r);
  }
}
