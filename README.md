# N-gram NER denoiser, modelled in Dafny

The denoiser cleans lists of named-entity mentions. Its input is a list of
*groups*; each group is one string of comma-separated mentions. It works in
four steps:

- It flattens all groups into one corpus.
- It builds one n-gram frequency table from the corpus members that are in
  the target language.
- For each mention, it enumerates the mention's own windows of consecutive
  tokens and keeps the one with the highest count in the table. The mention
  is replaced by that window if its count reaches a threshold, and dropped
  otherwise. A mention not in the target language passes through unchanged.
- Each group comes back as the comma-join of its distinct results.

There are two variants:

- **English:** tokens are space-separated words, windows are lowercased and a
  few stop words are excluded.
- **Chinese:** tokens are characters.

The model has one generic engine, parameterised by a `Regime` (`Words(lower)`
or `Chars`), plus the two instantiations.

Files:

- `wrappers.dfy`: `Option`, `Result` and the one error, `WindowTooSmall`. This
  is the table builder's assertion `min_window >= 1`.
- `seqs.dfy`: sequence lemmas, plus `Dedup` and `Filter`.
- `text.dfy`: the Python string operations the core uses, on `seq<char>`.
  These are `split` on one character, `join`, `strip`, per-character
  lowercasing and `re.sub(r'\s+', ' ', s)`.
- `utils.dfy`: module `Utils` holds the n-gram table builder `get_ngram_dict`.
  It is a method with nested loops, proved against `NgramTable`, a count of
  window keys. Module `Scorer` holds `char_compare`. It is a loop proved
  against `FirstMax`, a first-strict-maximum scan, and against the
  declarative `IsFirstMax`.
- `denoise.dfy`: the generic engine. It has four parts:
  - candidate enumeration (`CollectCandidates`, proved against `Candidates`);
  - one group (`ProcessNer`, proved against `ProcessSpec`);
  - the filtered table (`GetNgrams`, proved against `LangTable`);
  - `ner_list_sum` and the batch driver `CleanGroups`. Its result shows that
    every lookup into the shared table succeeds.
- `denoise_eng.dfy` and `denoise_ch.dfy`: the two variants, with their
  defaults and the candidate characterisations specific to each.

The oracles are function parameters:

- `is_english` and `is_chinese` become `isLang`.
- `is_number` becomes `isNumber`.
- `str.lower` becomes the per-character map `lower`.

Two hypotheses of `clean` are stated as predicates:

- `ClassifierContract`: the classifier rejects strings of length at most 1,
  as `is_sentence` does. If it accepts a stripped string, it also accepts the
  unstripped one. Both regular expressions admit `\s` outside the target
  script.
- `LowerKeepsSpace`: lowercasing maps a character to a space exactly when it
  is a space.

Two consequences of the code are worth stating:

- The scorer's lookup `char_freq_dict[char]` runs on the plain dict the table
  filter returns. A missing key therefore raises; it does not count as 0.
  The model makes "every candidate is a key" a precondition, and
  `SharedTableCovers` proves that `clean` always meets it.
- The tie-break picks the *first* window with the winning count. Window size
  is the outer loop and offset the inner loop (`WinnerUpTo`). Take the corpus
  `["apple watch", "apple watch series 7", "apple watch se"]` in one group:
  `"apple"`, `"watch"` and `"apple watch"` all have count 3, so each mention
  becomes `"apple"`, not `"apple watch"`.

## Model

| member | source | states |
|---|---|---|
| Utils.NgramDict | utils/__init__.py:37-75 | fails with `WindowTooSmall` exactly when `min_window < 1`; otherwise returns the count table of all window keys of the corpus |
| Utils.CountString | utils/__init__.py:52-73 | one corpus string: both branches of the source are the one rule "sizes `min_window .. min(max_window, n)`"; adds one occurrence per window, in loop order |
| Utils.CountRow | utils/__init__.py:58-65 | one window size: adds the key at every offset `0 .. n-w`, left to right |
| Utils.NgramTableKeys | utils/__init__.py:56-73 | a string is a key of the table iff it is the join of a window `tokens[i:i+w]` of some corpus string, with `min_window <= w <= min(max_window, n)` |
| Utils.Tokenize | utils/__init__.py:53-54 | definition of the tokens of a corpus string: its characters without `split_char`, the pieces of `ner.split(split_char)` with it |
| Utils.Len | utils/__init__.py:56 | definition of `len(ner)` after the optional split: the number of characters, or of pieces |
| Utils.Key | utils/__init__.py:60-63 | definition of the window key `ner[i:i+win]`, re-joined with `split_char` in split mode (the same as lines 69 to 72) |
| Utils.Cap | utils/__init__.py:56-67 | definition of the largest window size: `max_window` when `len(ner) > max_window`, otherwise `len(ner)`; this is also `min(max_window, len(words))` of ngram_denoise_eng.py line 19 and ngram_denoise_ch.py line 18 |
| Utils.Offsets | utils/__init__.py:59 | definition of the length of `range(len(ner)-win+1)`: `n - w + 1`, or 0 when the window is longer than that allows (the same as line 68 and ngram_denoise_eng.py line 22) |
| Utils.RowKeys | utils/__init__.py:59-65 | definition of the keys one size visits, offsets ascending |
| Utils.StringKeys | utils/__init__.py:58-65 | definition of the keys one string visits, sizes ascending, each size's row in turn |
| Utils.CorpusKeys | utils/__init__.py:52-73 | definition of every key the builder adds, string after string |
| Utils.Tally | utils/__init__.py:50 | definition of a fresh `defaultdict(int)` after `char_freq_dict[char] += 1` for each added key |
| Utils.Bump | utils/__init__.py:65 | definition of `char_freq_dict[char] += 1` on a `defaultdict(int)` |
| Utils.NgramTable | utils/__init__.py:50-75 | definition of the returned table: the tally of every window key, strings in order, sizes ascending, offsets ascending |
| Utils.NgramTableCounts | utils/__init__.py:65 | a key's count is the number of windows over the whole corpus that produce it, and is at least 1 |
| Utils.CorpusKeysCount | utils/__init__.py:50-73 | one produced key per visited window: the number of produced keys is the sum over strings and sizes of `n - w + 1` |
| Utils.StringKeysCount | utils/__init__.py:67-73 | one string yields `n - w + 1` keys of each size `w` |
| Utils.WindowCountClosed | utils/__init__.py:67-73 | closed form of that sum as an arithmetic series |
| Utils.CorpusKeysHasKey | utils/__init__.py:50-73 | a key is produced iff it is a window key of some corpus string, each with its own size cap |
| Utils.TallyCounts | utils/__init__.py:65 | the counting dictionary holds exactly the added keys, each with its multiplicity |
| Scorer.CharCompare | utils/__init__.py:77-88 | the loop computes the first strict maximum: no candidate scores more; a score of 0 comes with `""`; a positive score belongs to a listed candidate that no earlier candidate ties |
| Scorer.IsFirstMax | utils/__init__.py:81-88 | definition of the declarative first-strict-maximum specification the scan is proved against |
| Scorer.FirstMax | utils/__init__.py:81-88 | definition of the scan: start from `("", 0)`, replace the choice on a strictly larger count |
| Scorer.FirstMaxIsFirstMax | utils/__init__.py:81-88 | the scan meets the declarative first-strict-maximum specification |
| Scorer.FirstMaxUnique | utils/__init__.py:84-86 | at most one choice meets that specification, so it fixes the scorer's result |
| Scorer.FirstMaxSettled | utils/__init__.py:84 | once the scan reaches a candidate with the final score, later candidates do not change the choice |
| Text.Split | ngram_denoise_eng.py:17 | `split` yields at least one piece, and no piece contains the separator |
| Text.JoinSplit | ngram_denoise_eng.py:56-57 | joining the pieces of a split gives the string back |
| Text.SplitJoin | ngram_denoise_eng.py:23 | splitting a join of separator-free words gives the words back |
| Text.JoinInjective | ngram_denoise_eng.py:23 | `" ".join` is injective on non-empty lists of space-free words |
| Text.SplitOfJoin | ngram_denoise_eng.py:54-59 | splitting a comma-join of groups gives each group's pieces, in order |
| Text.FlatSplitHas | ngram_denoise_eng.py:54-59 | every piece of every group is in the flattened list |
| Text.Strip | ngram_denoise_eng.py:10 | definition of `str.strip` as `rstrip` after `lstrip` |
| Text.IsSpace | utils/__init__.py:120 | definition of the whitespace set: Python's `str.isspace`, which is what `\s` matches in `re.sub(r'\s+', ' ', s)` and what `strip()` removes |
| Text.LowerStr | ngram_denoise_eng.py:44 | definition of `.lower()` as the per-character map `lower` |
| Text.Join | ngram_denoise_eng.py:40 | definition of `sep.join(parts)`: the parts with `sep` between neighbours, `""` for none |
| Text.StripLeft | ngram_denoise_eng.py:10 | `lstrip` removes exactly the leading whitespace |
| Text.StripRight | ngram_denoise_eng.py:10 | `rstrip` removes exactly the trailing whitespace |
| Text.LowerSplit | ngram_denoise_eng.py:44 | splitting a lowercased string on spaces lowercases each word |
| Text.LowerJoin | ngram_denoise_eng.py:23 | lowercasing a space-join is joining the lowercased words |
| Text.CollapseSpaces | utils/__init__.py:118-121 | definition of `re.sub(r'\s+', ' ', s)`: every maximal whitespace run becomes one space; the result is never longer and keeps a non-empty string non-empty |
| Text.CollapseIsSingleSpaced | utils/__init__.py:118-121 | after `re.sub(r'\s+', ' ', s)` the only whitespace is single spaces |
| Text.SplitKeepsSingleSpaced | ngram_denoise_eng.py:69 | the pieces of a single-spaced group are single-spaced |
| Text.StripSingleSpaced | ngram_denoise_eng.py:10 | stripping a single-spaced string leaves a single-spaced string with no space at either end |
| Text.WordsNonEmpty | ngram_denoise_eng.py:17 | such a string splits into non-empty words |
| Seqs.Dedup | ngram_denoise_eng.py:38 | `list(set(..))` gives a duplicate-free list of exactly the same elements |
| Seqs.Filter | ngram_denoise_eng.py:44 | definition of the `if is_english(ner)` test of the comprehension: the elements that pass, in order (`ngram_denoise_ch.py` line 43 with `is_chinese`) |
| Seqs.FilterHas | ngram_denoise_eng.py:44 | the comprehension filter keeps exactly the elements that pass the test |
| Denoise.SplitChar | ngram_denoise_eng.py:46 | definition of the builder's `split_char`: `" "` for words, `None` for characters (`ngram_denoise_ch.py` line 45) |
| Denoise.Units | ngram_denoise_eng.py:17 | definition of an entity's tokens: `volcab.split(" ")` for words, the string itself for characters |
| Denoise.Norm | ngram_denoise_eng.py:23 | definition of the case normalisation: `.lower()` in the word variant, none in the character variant |
| Denoise.Cand | ngram_denoise_eng.py:23 | definition of the candidate of window `(w, i)`: `" ".join(words[i:i+win]).lower()`, or `"".join(words[i:i+win])` as in `ngram_denoise_ch.py` line 22 |
| Denoise.TokenLen | ngram_denoise_eng.py:25 | definition of the length the filter compares with `min_window`: `len(char.split(" "))`, or `len(char)` as in `ngram_denoise_ch.py` line 24 |
| Denoise.Candidates | ngram_denoise_eng.py:18-28 | definition of `candidate_chars` after both loops: the admissible window candidates, sizes ascending, offsets ascending |
| Denoise.Admissible | ngram_denoise_eng.py:25-26 | definition of the filter: not numeric, at least `min_window` tokens, not a stop word |
| Denoise.WindowCandsSound | ngram_denoise_eng.py:21-23 | every unfiltered window string the loops produce is the candidate of a window with a size in range |
| Denoise.WindowCandsComplete | ngram_denoise_eng.py:21-23 | the candidate of every window with a size in range is among the unfiltered window strings |
| Denoise.CollectRow | ngram_denoise_eng.py:22-28 | the inner candidate loop appends the admissible window candidates of one size, offsets ascending |
| Denoise.CollectSizes | ngram_denoise_eng.py:21-28 | the outer candidate loop covers the sizes in ascending order |
| Denoise.CollectCandidates | ngram_denoise_eng.py:17-28 | the candidate list of one entity, sizes `min_window .. min(max_window, len(words))` |
| Denoise.CandidatesHas | ngram_denoise_ch.py:20-27 | a string is a candidate iff it survives the filter and is the candidate of a window in that size range |
| Denoise.WinnerUpTo | ngram_denoise_eng.py:21-22 | shortest-then-leftmost: the winner is chosen among the windows up to the first admissible window with the winning count |
| Denoise.Contribution | ngram_denoise_eng.py:15-36 | definition of what one stripped entity appends to `new_ner_lst` |
| Denoise.ContributionCases | ngram_denoise_eng.py:15-36 | a non-English entity is emitted unchanged; an English one contributes the winner iff its score reaches the threshold, and nothing otherwise |
| Denoise.EmptyWinner | ngram_denoise_eng.py:30-34 | with `threshold <= 0` and no candidates, an entity contributes `""` |
| Denoise.Kept | ngram_denoise_eng.py:11-36 | definition of `new_ner_lst` after the loop: the contributions of the stripped entities, in order |
| Denoise.Distinct | ngram_denoise_eng.py:38 | definition of `list(set(new_ner_lst))`, with the set's order fixed to first occurrence |
| Denoise.KeptHas | ngram_denoise_eng.py:13-36 | the kept list holds exactly the contributions of the entities |
| Denoise.StripAll | ngram_denoise_eng.py:10 | definition of `[n.strip() for n in ner]` |
| Denoise.ProcessSpec | ngram_denoise_eng.py:5-40 | definition of the result of `process_*_ner`: the empty list unchanged, otherwise the comma-join of the distinct contributions |
| Denoise.DistinctHas | ngram_denoise_eng.py:38-40 | the joined output of a group is duplicate-free and lists exactly the strings some entity contributes |
| Denoise.ProcessNer | ngram_denoise_eng.py:5-40 | `process_eng_ner`, and with character tokens `process_ch_ner` (ngram_denoise_ch.py lines 5 to 39): an empty list comes back unchanged; otherwise the comma-join of the distinct contributions |
| Denoise.LangCorpus | ngram_denoise_eng.py:44 | definition of the corpus comprehension (`ngram_denoise_ch.py` line 43 without the lowercasing) |
| Denoise.LangCorpusSound | ngram_denoise_eng.py:44 | the table corpus holds only stripped, normalised forms of target-language strings |
| Denoise.LangCorpusComplete | ngram_denoise_ch.py:43 | every target-language string contributes its stripped, normalised form |
| Denoise.FilterTable | ngram_denoise_eng.py:48 | definition of the filter that drops numeric and empty keys (`ngram_denoise_ch.py` line 47) |
| Denoise.LangTable | ngram_denoise_eng.py:42-52 | definition of the table `get_*_ngrams` returns when `min_window >= 1`: the filtered builder table of the language corpus |
| Denoise.LangTableHas | ngram_denoise_eng.py:46-48 | the table's keys are the corpus window keys that are neither numeric nor empty, each with its builder count, at least 1 |
| Denoise.GetNgrams | ngram_denoise_eng.py:42-52 | `get_*_ngrams`: fails as the builder does, otherwise the filtered table |
| Denoise.NerListSum | ngram_denoise_eng.py:54-59 | definition of `ner_list_sum` (`ngram_denoise_ch.py` lines 53 to 58): split the comma-join on commas |
| Denoise.NerListSumPieces | ngram_denoise_eng.py:54-59 | `ner_list_sum` is the groups' comma pieces concatenated in order; no groups give `[""]` |
| Denoise.SharedTable | ngram_denoise_eng.py:63-65 | definition of `clean`'s `char_freq_dict`: the language table of `ner_list_sum(ner_list)` |
| Denoise.NormKey | ngram_denoise_eng.py:44 | lowercasing a window of an entity equals the same window of the lowercased entity |
| Denoise.CandNonEmpty | ngram_denoise_eng.py:48 | no candidate of an entity without empty words is empty, so the empty-key filter never removes one |
| Denoise.CandidateInTable | ngram_denoise_eng.py:63-65 | a candidate of an entity whose normalised form is in the corpus is a key of the table |
| Denoise.EntityCovered | ngram_denoise_eng.py:63-75 | every candidate of every stripped target-language entity of every group is a key of the shared table |
| Denoise.SharedTableCovers | ngram_denoise_eng.py:63-75 | therefore `char_compare`'s lookup never fails inside `clean` |
| Denoise.ProcessFirst | ngram_denoise_eng.py:66-75 | definition of `clean`'s `result` after the first `n` groups: each group split on commas and processed, in order |
| Denoise.ProcessFirstAt | ngram_denoise_eng.py:68-75 | result `j` is group `j` split on commas and processed, and is always a joined string |
| Denoise.CleanResults | ngram_denoise_eng.py:61-77 | a successful `clean` gives one result per group, in order, against the one shared table |
| Denoise.CleanGroups | ngram_denoise_ch.py:60-76 | `clean` after per-variant normalisation: the builder's failure, or every group processed against the shared table |
| DenoiseEng.EngConfig | ngram_denoise_eng.py:5 | definition of the parameters of `process_eng_ner`: the word regime, threshold, window bounds and stop words |
| DenoiseEng.Phrase | ngram_denoise_eng.py:23 | definition of `" ".join(words[i:i+win]).lower()` on the words of an entity |
| DenoiseEng.PhraseWords | ngram_denoise_eng.py:25 | a candidate splits back into its `w` lowercased words, so the word-count filter never fires |
| DenoiseEng.PhraseIsCand | ngram_denoise_eng.py:23 | the candidate of window `(w, i)` is `" ".join(words[i:i+w]).lower()` |
| DenoiseEng.EnglishCandidates | ngram_denoise_eng.py:17-28 | a string is a candidate iff it is such a phrase with `min_window <= w <= min(max_window, len(words))`, not numeric and not a stop word |
| DenoiseEng.Collapsed | ngram_denoise_eng.py:62 | definition of `list(map(replace_multiple_spaces, ner_list))` |
| DenoiseEng.CollapsedReady | ngram_denoise_eng.py:62 | the space-collapsed groups meet the shared table's word hypothesis |
| DenoiseEng.EnglishNgrams | ngram_denoise_eng.py:42 | `get_english_ngrams` with its defaults 1 and 15 |
| DenoiseEng.Clean | ngram_denoise_eng.py:61-77 | English `clean`: collapse spaces, build one table, process each group in order |
| DenoiseEng.CleanDefaults | ngram_denoise_eng.py:61 | with the defaults (1.2, 1, 10, `["the", "of", "an"]`): never fails, one result per group |
| DenoiseCh.ChConfig | ngram_denoise_ch.py:5 | definition of the parameters of `process_ch_ner`: the character regime, threshold, window bounds and stop words |
| DenoiseCh.Window | ngram_denoise_ch.py:22 | definition of `"".join(words[i:i+win])` on a string: its `w` characters from offset `i` |
| DenoiseCh.ChineseCandidates | ngram_denoise_ch.py:17-27 | a string is a candidate iff it is a substring `v[i:i+w]` with `min_window <= w <= min(max_window, len(v))`, not numeric and not a stop word; the length filter never fires |
| DenoiseCh.ChineseNgrams | ngram_denoise_ch.py:41-51 | `get_chinese_ngrams`: the table of stripped Chinese strings at character level, without numeric or empty keys |
| DenoiseCh.Clean | ngram_denoise_ch.py:60-76 | Chinese `clean`: no whitespace normalisation, one table, each group in order |
| DenoiseCh.CleanDefaults | ngram_denoise_ch.py:60 | with the defaults (1.2, 1, 30, `[]`): never fails, one result per group |

## Left out

- `is_english`, `is_chinese`, `is_sentence`, `is_number`: regular expressions
  and `float()` parsing are not modelled. They are function parameters
  (`Oracles`). `clean` assumes only `ClassifierContract`.
- `str.lower`: Unicode case mapping is not modelled. It is a per-character
  map `lower`, and `clean` assumes `LowerKeepsSpace`. Case mappings that
  change length are not captured.
- Sorting the table by count (ngram_denoise_eng.py:50,
  ngram_denoise_ch.py:49): it changes only the dict's iteration order, never
  a lookup, so the table is a `map`.
- `list(set(..))`: the hash order of a Python set is not modelled. `Dedup`
  fixes first-occurrence order. `DistinctHas` states only what holds for any
  order: no duplicates, and exactly the contributed strings.
- `process_*_ner` on an argument that is not a list: the model's argument is
  always a sequence, so only the empty-list case of the guard is modelled.
- `replace_multiple_spaces` on a non-string, which returns `np.nan`: groups
  are always strings.
- `clean_text`, `run_clean`, pandas and the commented-out CSV loading: these
  are I/O and data-frame glue, not part of the denoiser.
- The float `max_score`: counts are `nat`, and the count is compared with a
  `real` threshold.
- Denoise.ProcessNer: requires `min_window >= 1`. Inside `clean` the builder
  has already failed otherwise. Called on its own with `min_window < 1`, the
  source enumerates a size-0 window, whose candidate is `""`; for
  `min_window < 0` it also enumerates negative sizes, whose Python slices
  `words[i:i+win]` are not empty (`words[0:-1]` is every word but the last).
  The lookup of `""` then raises `KeyError`, because the filtered table never
  has an empty key. That direct call is not modelled.
- Scorer.CharCompare: a missing key raises `KeyError` in the source. The
  model requires every candidate to be a key instead of modelling the
  exception.
- Python's mutable default arguments: each default is a constant.
