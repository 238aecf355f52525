# PLATEAU-WEB in Dafny

PLATEAU-WEB is a reading site for 35 interlinked short essays ("plateaus"). A Node
build script compiles the Markdown corpus into typed data modules. The script parses
each file's front matter, extracts and ranks keywords, derives backlinks, builds a
bigram Markov table with starter tokens over kuromoji morphemes, and builds a reverse
index from content words to plateaus. At run time a Vue composable composes poems by
weighted random walks over that table and offers the alternatives for each position.
A second composable keeps the navigation state: the open plateau, a bounded trail,
keyword snippets and search. An older stand-alone page script duplicates part of that
state and builds the undirected link list of the network graph.

This project models those parts and proves what they promise:

| file | module | models |
|---|---|---|
| wrappers.dfy | `Wrappers` | `Option`, `Result` |
| text.dfy | `Text` | `trim`, `startsWith`/`endsWith`, `includes`, `indexOf`, `split`, `substring`, newline replacement |
| seqs.dfy, sorting.dfy, omap.dfy | `Seqs`, `Sorting`, `OrderedMaps` | `filter`/`slice`/`Set` deduplication; the stable `Array.prototype.sort`; insertion-ordered `Map`/object keys |
| types.dfy | `Types` | the `Plateau`, `Keyword` and morpheme records |
| frontmatter.dfy | `Frontmatter` | `parseFrontmatter` |
| keywords.dfy | `KeywordExtraction` | `extractKeywords`, `escapeTs` |
| backlinks.dfy | `Backlinks` | the id sort and the backlink pass |
| aggregate.dfy, significant.dfy | `Aggregation`, `Significance` | keyword aggregation over the corpus; the significance filter, ranking and cap |
| flow.dfy, chain.dfy, table.dfy | `Flow`, `MarkovChain`, `MarkovTable` | sentence cleaning and token flow; bigram counting and starters; the top-12 finalisation and unique starters |
| token_index.dfy | `TokenIndex` | the token → plateau reverse index |
| markov.dfy | `MarkovEngine` | `weightedRandom`, `findSeed`, `getAlternatives`, `generatePoem`, `findKeywordInToken`, `getKeywordFromToken`, `getPlateauIdsForToken` |
| build.dfy | `Build` | the order of the passes in the build script's `main` |
| navigation.dfy | `Navigation` | the navigation composable: state as a class, lookups as functions |
| app.dfy | `App` | link deduplication, trail, `§n` reference links, search snippets and trail edges of the page script |

Modelling conventions:

- Loops that update state are methods with loop invariants. Each is proved equal to a
  specification function (a fold over the input), and the properties are proved about
  that function.
- Objects whose fields the source mutates are classes with `modifies` clauses.
- Everything else is a function.
- `Math.random()` becomes an explicit draw `u` with `0 <= u < 1`. The poem generator
  takes a stream of draws `rng: nat -> Draw` and a cursor into it.
- The kuromoji tokenizer and `toLowerCase` are function parameters.
- Probabilities are exact reals.

## Model

| member | source | states |
|---|---|---|
| Frontmatter.FirstClosing | scripts/build-data.js:23 | the header ends at the first closing `\r?\n---\r?\n` (the lazy match): one starts there, none starts earlier, and None means none exists |
| Frontmatter.SplitHeaderRoundTrip | scripts/build-data.js:23-26 | a document written as `---`, a header with no `---` line, `---`, body, splits back into exactly that header and that body |
| Frontmatter.UnquoteQuote | scripts/build-data.js:39 | replacing `\"` by `"` undoes escaping every quote, whatever backslashes the string holds |
| Frontmatter.QuotedValueRoundTrip | scripts/build-data.js:38-39 | a double-quoted value is read back as the string that was quoted |
| Frontmatter.ParseValue | scripts/build-data.js:35-42 | a bracketed value becomes a list whose items are numbers or strings, never lists |
| Frontmatter.IntText | scripts/build-data.js:40-41 | the decimal text of an integer is non-empty, starts with a sign or a digit and ends with a digit |
| Frontmatter.IntegerValueRoundTrip | scripts/build-data.js:40-41 | an integer written in decimal, with a minus sign when negative, is read back as that number |
| Frontmatter.BlankItemIsZero | scripts/build-data.js:37 | a blank list item becomes the number 0, as `Number('')` is 0 |
| Frontmatter.EmptyListValue | scripts/build-data.js:35-37 | brackets holding only white space are read as the empty list |
| Frontmatter.ListValueRoundTrip | scripts/build-data.js:35-37 | a bracketed list of integers separated by `, ` is read back as the list of those numbers, in order |
| Frontmatter.MetaKeys | scripts/build-data.js:28-44 | a key is in meta iff some header line defines it; blank lines, `#` lines and lines without a colon define nothing |
| Frontmatter.MetaLastWins | scripts/build-data.js:43 | when several lines define a key, the value of the last one is kept |
| Frontmatter.ParseFrontmatter | scripts/build-data.js:22-46 | fails iff the content has no front matter; otherwise returns the trimmed body and the meta map the header lines define |
| KeywordExtraction.NextClose | scripts/build-data.js:54 | the closing `】` of a marker is the first one after the opening bracket |
| KeywordExtraction.BracketSpans | scripts/build-data.js:54-56 | each `【…】` marker yields a non-empty word without `】` |
| KeywordExtraction.RunLength | scripts/build-data.js:62 | a character-class run is maximal: every character in it is in the class and the next one is not |
| KeywordExtraction.KanaRuns | scripts/build-data.js:62-63 | the runs matched by the kanji/kana pattern are 2 to 8 characters of the class |
| KeywordExtraction.LatinTerms | scripts/build-data.js:81-82 | each Latin term is at least four letters and starts with a capital |
| KeywordExtraction.IncrementsWeight | scripts/build-data.js:50-88 | a word's weight is 3 per marker, plus 1 per non-stop-word run, plus 1 per Latin term |
| KeywordExtraction.IncrementsShape | scripts/build-data.js:50-88 | the words counted are the marker words, then the runs, then the terms, each adding at least 1 |
| KeywordExtraction.TallyOfIncrements | scripts/build-data.js:50-88 | the keyword map has each counted word once, in first-insertion order, with that weight, and every weight is at least 1 |
| OrderedMaps.TallySpec | scripts/build-data.js:57 | the Map counting idiom (a missing count read as 0, then increased): each word's count is the sum of its increments, and the words are in order of their first increment |
| KeywordExtraction.CountMarkers | scripts/build-data.js:54-58 | the marker loop adds 3 for each trimmed marker word |
| KeywordExtraction.CountRuns | scripts/build-data.js:73-78 | the run loop adds 1 for each run that is not a stop word |
| KeywordExtraction.CountTerms | scripts/build-data.js:83-85 | the Latin loop adds 1 for each term |
| KeywordExtraction.ExtractKeywords | scripts/build-data.js:50-88 | the keyword map equals the tally of all increments: its keys, its weights, and every weight at least 1 |
| KeywordExtraction.EscapeTsInOnePass | scripts/build-data.js:91 | the three chained replacements equal one pass that puts a backslash before every backslash, backtick and dollar sign |
| KeywordExtraction.EscapeTsRoundTrip | scripts/build-data.js:90-92 | the output, read back as a template literal, is the input with its line ends made LF, so exactly the input when it has no CR; and it has no unescaped backtick or `${` |
| Backlinks.SortById | scripts/build-data.js:123 | the plateaus are permuted into ascending id order |
| Backlinks.EmptyBacklinks | scripts/build-data.js:126-127 | every known id starts with an empty backlink list, and no other id has one |
| Backlinks.AddBacklinksFrom | scripts/build-data.js:129-132 | one plateau's visit adds its id, once, to the list of each known target it links to and changes nothing else; the lists stay sets, and stay strictly ascending when every listed id is at most its own |
| Backlinks.DeriveBacklinks | scripts/build-data.js:126-133 | q is in linkedFrom(t) iff t is a known id and q's linksTo lists t; no duplicates; ascending when the plateaus are |
| Backlinks.Attach | scripts/build-data.js:136-137 | each plateau gets its derived list, or `[]` when it has none |
| Backlinks.CompilePlateaus | scripts/build-data.js:123-137 | the emitted plateaus are the input sorted by id, and each linkedFrom is exactly the ids of the plateaus that link to it, strictly ascending |
| Aggregation.Joined | scripts/build-data.js:117-118 | adding a document's contribution adds its id to the set and its weight to the count |
| Aggregation.AddWordSpec | scripts/build-data.js:113-118 | one update changes only its word: its count grows by the weight and its id set gains the document |
| Aggregation.AddDocKeys | scripts/build-data.js:112-115 | words enter the aggregate map in first-seen order |
| Aggregation.AddDocCount | scripts/build-data.js:112-118 | after a document, each word's count has grown by that document's weight for it |
| Aggregation.AddDocIds | scripts/build-data.js:112-117 | after a document, a word's ids gain exactly that document when it produced the word, and stay a set |
| Aggregation.EntriesFacts | scripts/build-data.js:112 | iterating a keyword map visits its keys in insertion order with their weights |
| Aggregation.AggregateSpec | scripts/build-data.js:102-119 | over the corpus: keys in first-seen order, count = sum of per-document weights, ids = exactly the documents that produced the word, with no duplicates |
| Aggregation.MergeKeywords | scripts/build-data.js:112-119 | the merge loop equals adding the document's entries in map order |
| Aggregation.AggregateKeywords | scripts/build-data.js:101-121 | the whole aggregation loop, with all the facts of AggregateSpec |
| Significance.SignificantKeywordsRetained | scripts/build-data.js:159-166 | at most 300 keywords, each word once, each kept because it has 2+ plateaus or count >= 3, with its count and its id set |
| Significance.SignificantKeywordsDescending | scripts/build-data.js:161 | the keywords are in descending count order |
| Significance.RankedTiesStable | scripts/build-data.js:161 | keywords with equal counts keep their first-insertion order |
| Sorting.SortDescStable | scripts/build-data.js:161 | the sort by descending count keeps, for every count, the elements of that count in their input order |
| Sorting.SortedDistinctAscending | scripts/build-data.js:165 | sorting a duplicate-free id list gives a strictly ascending list |
| Significance.SignificantKeywordsIdsAscending | scripts/build-data.js:165 | every emitted plateauIds list is strictly ascending |
| Significance.SignificantKeywordsTop | scripts/build-data.js:160-162 | a retained word that is cut means the list is full and every kept word counts at least as much |
| Sorting.CutFromSorted | scripts/build-data.js:161-162 | after a descending sort cut at n, an input element that was cut means all n places were taken, each by an element whose key is at least its own |
| Sorting.TakeSorted | scripts/build-data.js:161-162 | a descending sort cut at n keeps min(n, length) elements, none more often than in the input, and those of one key in their input order |
| Flow.StripRefsComplete | scripts/build-data.js:207 | after removing `→§n` and `§n`, no `§` followed by a digit remains |
| Flow.StripRefsKeeps | scripts/build-data.js:207 | text without `§` is unchanged |
| Flow.DropBrackets | scripts/build-data.js:207 | no `【` or `】` remains |
| Flow.Sentences | scripts/build-data.js:205 | each sentence kept has no `。` or newline and is longer than 5 once trimmed |
| Flow.BuildFlow | scripts/build-data.js:212-230 | the token loop equals the flow function |
| Flow.UnitsStart | scripts/build-data.js:212-230 | the token list has one token per content word, each starting with that word's surface form |
| Flow.UnitsKeepText | scripts/build-data.js:212-230 | the tokens concatenate to the content words with the particles that follow each of them, dropping particles before the first content word |
| Flow.FlowUnits | scripts/build-data.js:212-230 | one token per kept content word, each starting with that word's surface form |
| Flow.FlowKeepsText | scripts/build-data.js:212-230 | the tokens concatenate to the content words and the particles attached after the first of them, in order |
| MarkovChain.CorpusFlows | scripts/build-data.js:203-236 | every sentence that contributes has at least two tokens |
| MarkovChain.EdgesSpec | scripts/build-data.js:239-243 | the table's keys are the first tokens of the bigrams in first-seen order; each row is the tally of that token's successors |
| MarkovChain.EdgeCount | scripts/build-data.js:239-243 | the count of (a, b) is the number of times b follows a, and a recorded count is at least 1 |
| MarkovChain.EdgesNonEmpty | scripts/build-data.js:240-242 | a token with a row has at least one successor |
| MarkovChain.AllPairsAdjacent | scripts/build-data.js:239 | (a, b) is a bigram iff b directly follows a in some contributing sentence |
| MarkovChain.TransitionCounts | scripts/build-data.js:239-243 | the stored count of (a, b) is positive iff b follows a somewhere in the corpus |
| MarkovChain.AddBigrams | scripts/build-data.js:239-243 | the bigram loop adds exactly the sentence's consecutive pairs |
| MarkovChain.AddBigram | scripts/build-data.js:240-242 | creating a's row when it is missing and then bumping b in it is one counted transition a -> b: b's count in a's row grows by 1 and nothing else changes |
| MarkovChain.SentencePass | scripts/build-data.js:206-244 | one sentence adds its bigrams, its starter and 1 to the sentence count iff it yields at least two tokens |
| MarkovChain.PlateauPass | scripts/build-data.js:205-244 | one plateau's body, split into its long-enough sentences, adds their contributions in order |
| MarkovChain.SentenceLoop | scripts/build-data.js:206-244 | the loop over a sentence list leaves the table, the starters and the count of the flows so far followed by each sentence's contribution |
| MarkovChain.BuildChain | scripts/build-data.js:193-245 | the table, the starters and the sentence count are those of the corpus flows |
| MarkovTable.TopSpec | scripts/build-data.js:251-253 | a row keeps min(12, n) distinct successors, in descending count order, each with its count |
| MarkovTable.TopCut | scripts/build-data.js:251-253 | a successor that is cut means 12 were kept, each counting at least as much |
| MarkovTable.TopCutCount | scripts/build-data.js:239-253 | when b follows a but is cut from a's row, the row holds 12 successors, each following a at least as often as b |
| MarkovTable.KeptIsSubsequence | scripts/build-data.js:254-257 | only tokens with successors are emitted, in table order; all are when every row is non-empty |
| MarkovTable.FinalizedSpec | scripts/build-data.js:248-258 | the emitted keys are the kept tokens, and each row is the top-12 list of its successors |
| MarkovTable.FinalizedAll | scripts/build-data.js:254-257 | when every token has a successor, the emitted table lists every token, in table order |
| MarkovTable.FinalizeTable | scripts/build-data.js:247-258 | the serialisation loop equals the finalisation function, and tokenCount is the number of rows |
| MarkovTable.UniqueStartersSpec | scripts/build-data.js:260 | the unique starters are distinct starters in order of first use (wherever a later one occurs, each earlier one has already occurred), at most 300, and one is only left out when 300 are kept |
| MarkovTable.CompiledKeys | scripts/build-data.js:248-258 | the emitted tokens are every token that has a successor, in first-seen order |
| MarkovTable.CompiledEntries | scripts/build-data.js:239-258 | every emitted pair (b, n) says that b follows a exactly n >= 1 times |
| MarkovTable.CompiledTop | scripts/build-data.js:251-253 | a successor left out of a row is outnumbered by all 12 kept |
| MarkovTable.CompiledWellFormed | scripts/build-data.js:248-258 | every emitted row is non-empty with positive weights |
| MarkovTable.CompiledStarters | scripts/build-data.js:236-260 | every starter is a key of the emitted table |
| TokenIndex.HasIndexChar | scripts/build-data.js:292 | true iff the surface has a kanji, katakana or Latin letter |
| TokenIndex.CollectKeys | scripts/build-data.js:295-296 | the index keys are the indexed words in first-seen order |
| TokenIndex.CollectIds | scripts/build-data.js:295-296 | x is listed for w iff (w, x) occurred |
| TokenIndex.CollectSets | scripts/build-data.js:295-296 | no id is listed twice |
| TokenIndex.OccurrencesSpec | scripts/build-data.js:282-297 | (w, x) occurs iff plateau x's cleaned body has a morpheme w that passes all filters |
| TokenIndex.IndexMorpheme | scripts/build-data.js:286-296 | one morpheme is added iff it passes the length, part-of-speech, character and stop-word filters |
| TokenIndex.IndexPlateau | scripts/build-data.js:285-297 | a plateau adds its indexable surfaces with its id |
| TokenIndex.BuildIndex | scripts/build-data.js:282-298 | the index loop equals collecting all occurrences |
| TokenIndex.SortedIdsSpec | scripts/build-data.js:303-305 | serialisation keeps the key order and sorts each id list ascending |
| TokenIndex.SerializeIndex | scripts/build-data.js:301-306 | the serialisation loop equals the sorting fold; indexCount is the number of words |
| TokenIndex.TokenIndexKeys | scripts/build-data.js:277-306 | the emitted words are the indexed words in first-seen order |
| TokenIndex.TokenIndexIds | scripts/build-data.js:277-306 | x is listed for w iff w occurs as an indexable morpheme of plateau x |
| TokenIndex.TokenIndexAscending | scripts/build-data.js:304 | each emitted id list is strictly ascending |
| TokenIndex.BuildTokenIndex | scripts/build-data.js:274-306 | the whole pass emits the token index |
| MarkovEngine.ScaledIsProduct | src/composables/useMarkov.ts:16 | the draw scaled by the total is `Math.random() * total` |
| MarkovEngine.ScaledBelow | src/composables/useMarkov.ts:16 | the scaled draw lies in [0, total), and is positive for a positive draw |
| MarkovEngine.PrefixWeight | src/composables/useMarkov.ts:15 | with positive weights, the first n weights sum to at least n |
| MarkovEngine.Pick | src/composables/useMarkov.ts:17-21 | the first entry whose running total reaches r, or the first entry when none does |
| MarkovEngine.WeightedRandom | src/composables/useMarkov.ts:14-22 | the decrementing loop returns exactly that choice |
| MarkovEngine.PickReaches | src/composables/useMarkov.ts:17-21 | with positive weights the running total always reaches r, so the fallback is never taken |
| MarkovEngine.PickInterval | src/composables/useMarkov.ts:14-21 | entry j is chosen iff the scaled draw falls in (weights before j, weights through j]: each entry gets a share proportional to its weight |
| MarkovEngine.PickZero | src/composables/useMarkov.ts:17-19 | a zero draw chooses the first entry |
| MarkovEngine.DrawIndex | src/composables/useMarkov.ts:28 | `Math.floor(Math.random() * n)` is a valid index |
| MarkovEngine.DrawIndexInterval | src/composables/useMarkov.ts:28 | index i is chosen iff the scaled draw is in [i, i + 1) |
| MarkovEngine.FindSeed | src/composables/useMarkov.ts:25-32 | the seed itself if it has a row; else a key containing it; else a starter containing it; else some starter (none if there are no starters) |
| MarkovEngine.FindSeedSome | src/composables/useMarkov.ts:31 | with at least one starter a seed is always found |
| MarkovEngine.LongestInSpec | src/composables/useMarkov.ts:155-162 | none iff no key of length >= 2 is in the text; otherwise the longest such key, the earliest among equally long ones |
| MarkovEngine.FindKeywordInToken | src/composables/useMarkov.ts:149-163 | the loop returns the token itself when indexed, else that longest key |
| MarkovEngine.GetKeywordFromToken | src/composables/useMarkov.ts:166-168 | the same result as FindKeywordInToken |
| MarkovEngine.PlateauIdsOfBuiltIndex | src/composables/useMarkov.ts:171-173 | on the built index, x is returned for w iff w occurs in plateau x; unknown words give `[]` |
| MarkovEngine.IndexedWordOccurs | src/composables/useMarkov.ts:171-173 | every word of the built index occurs in some plateau |
| MarkovEngine.KeywordOfBuiltIndex | src/composables/useMarkov.ts:149-163 | a keyword found in a token occurs in some plateau |
| MarkovEngine.Distribution | src/composables/useMarkov.ts:84-90 | each successor with weight / total, its keyword flag, not selected |
| MarkovEngine.Uniform | src/composables/useMarkov.ts:60-66 | each starter with 1 / n |
| MarkovEngine.FirstRelated | src/composables/useMarkov.ts:72 | the first key that contains the token or is contained in it |
| MarkovEngine.GetAlternatives | src/composables/useMarkov.ts:56-91 | no previous token: up to 12 starters, uniform; a previous token with a row: its distribution; otherwise the first related key's distribution, or none |
| MarkovEngine.DistributionIsDistribution | src/composables/useMarkov.ts:84-90 | the probabilities are in (0, 1] and sum to 1 |
| MarkovEngine.UniformIsDistribution | src/composables/useMarkov.ts:60-66 | the probabilities are in (0, 1] and sum to 1 |
| MarkovEngine.AlternativesDistribution | src/composables/useMarkov.ts:56-91 | every non-empty alternative list is a probability distribution |
| MarkovEngine.NextToken | src/composables/useMarkov.ts:121-125 | the drawn token is a listed successor |
| MarkovEngine.FirstEntry | src/composables/useMarkov.ts:109 | `find` gives the first entry with that token, or none |
| MarkovEngine.PushCurrent | src/composables/useMarkov.ts:104-118 | pushing the current token keeps the line a drawn line |
| MarkovEngine.NoNextStops | src/composables/useMarkov.ts:121-122 | a token without successors ends the line |
| MarkovEngine.DrawContinues | src/composables/useMarkov.ts:124-128 | a non-break draw makes the drawn token current, with one draw used |
| MarkovEngine.DrawBreaks | src/composables/useMarkov.ts:127-138 | a break-point draw is pushed with its probability and ends the line |
| MarkovEngine.PushToken | src/composables/useMarkov.ts:104-118 | the push step appends the current token |
| MarkovEngine.DrawNext | src/composables/useMarkov.ts:120-139 | the draw step stops the line or leaves the next token pending |
| MarkovEngine.GenerateLine | src/composables/useMarkov.ts:99-140 | a line starts at the seed, each later token is drawn after the one before it, only the last can be a break point, it has at most max + 1 tokens, and it ends for one of the three reasons |
| MarkovEngine.PoemLineAt | src/composables/useMarkov.ts:97-143 | one pass of the line loop: findSeed's draw at the cursor, then a line drawn from the draws that follow, ended for one of the three reasons, with at most max + 1 tokens and every probability in (0, 1] |
| MarkovEngine.GeneratePoem | src/composables/useMarkov.ts:94-146 | one line per requested line (none when the token limit is not positive); line i starts at findSeed's draw at cursor i and ends where line i + 1's draws begin, the first at draw 0; each line ends at a break point, at a token without successors or at the limit, has at most max + 1 tokens, and every probability is in (0, 1] |
| MarkovEngine.GenerateDefaultPoem | src/composables/useMarkov.ts:94 | the default call draws 3 lines of at most 9 tokens |
| MarkovEngine.DrawnProbabilities | src/composables/useMarkov.ts:105-111 | every probability recorded in a drawn line is in (0, 1] |
| MarkovEngine.LineDetermined | src/composables/useMarkov.ts:99-140 | from the same seed and draws, a line and the draws it uses are unique |
| MarkovEngine.PoemDetermined | src/composables/useMarkov.ts:94-146 | from the same stream, the poem and its cursors are unique |
| MarkovEngine.DrawnTokensFollow | src/composables/useMarkov.ts:103-139 | in a drawn line every token follows its predecessor in the table, records it, and carries its probability |
| MarkovEngine.CompiledWeighted | scripts/build-data.js:248-258 | the compiled table has positive weights and a successor for every key, as the runtime needs |
| MarkovEngine.CompiledSeedHasNext | src/composables/useMarkov.ts:25-32 | over the compiled table and starters, the seed found always has successors |
| Navigation.FindPlateau | src/composables/usePlateaus.ts:112-114 | the first plateau with the id, or none iff no plateau has it |
| Navigation.ColorEntry | src/composables/usePlateaus.ts:17-19 | the colour of the last cluster entry with the id, or none iff there is none |
| Navigation.ClusterColor | src/composables/usePlateaus.ts:116-118 | never empty |
| Navigation.ClusterColors | src/composables/usePlateaus.ts:116-118 | each cluster shows its own colour, and any other number shows `#ffffff` |
| Navigation.Window | src/composables/usePlateaus.ts:90-91 | the window holds the match with at most `before` characters in front and `after` behind, as many as the text has up to those bounds |
| Navigation.BodySnippetSpec | src/composables/usePlateaus.ts:88-92 | empty when the word is absent; else the window of 30/40 around the first occurrence, showing the word, newlines as spaces, with an ellipsis exactly at cut ends |
| Navigation.KeywordSnippet | src/composables/usePlateaus.ts:85-93 | never contains a newline |
| Navigation.SearchPlateaus | src/composables/usePlateaus.ts:120-127 | none for a query shorter than 2; otherwise exactly the first min(10, matches) of the plateaus matching title or body case-insensitively, in corpus order; when fewer than 10, all matches |
| Navigation.FirstMatches | src/composables/usePlateaus.ts:123-126 | the filter-then-slice result is the leading min(10, matches) of the matches in corpus order; each is a match, and when there are fewer than ten every match is among them |
| Navigation.KeywordsOf | src/composables/usePlateaus.ts:36-41 | empty with no plateau open; at most 40 keywords that list the plateau, count-descending; all of them when there are at most 40 |
| Navigation.KeywordsOfSelection | src/composables/usePlateaus.ts:36-41 | with a plateau open, min(40, n) of the n keywords that list it, none shown more often than in the keyword table, and those of one count in the table's order |
| Navigation.KeywordsOfLargest | src/composables/usePlateaus.ts:36-41 | a keyword of the plateau that is left out is outnumbered by all 40 shown |
| Navigation.TrailPush | src/composables/usePlateaus.ts:52-56 | the id ends the trail; unchanged when already last; keeps <= 50 entries with no adjacent repeats; otherwise the newest 49/50 entries with the id appended |
| Navigation.PlateauState.constructor | src/composables/usePlateaus.ts:22-28 | the initial state: nothing open, empty trails, no filter, word field hidden |
| Navigation.PlateauState.CurrentPlateau | src/composables/usePlateaus.ts:31-34 | the open plateau's record, present iff a plateau is open |
| Navigation.PlateauState.CurrentKeywords | src/composables/usePlateaus.ts:36-41 | the keywords of the open plateau |
| Navigation.PlateauState.PushTrail | src/composables/usePlateaus.ts:53-56 | the push and shift in place give TrailPush of the old trail |
| Navigation.PlateauState.NavigateTo | src/composables/usePlateaus.ts:44-57 | an unknown id changes nothing; a known one is opened, the highlight and selection are cleared, and the trail is pushed |
| Navigation.PlateauState.NavigateWithHighlight | src/composables/usePlateaus.ts:59-71 | the same, except that the highlight becomes the word |
| Navigation.PlateauState.SelectKeyword | src/composables/usePlateaus.ts:73-75 | sets only the selected keyword |
| Navigation.PlateauState.AddToPoemTrail | src/composables/usePlateaus.ts:77-79 | appends exactly the word, nothing else changes |
| Navigation.PlateauState.ClearPoemTrail | src/composables/usePlateaus.ts:81-83 | empties only the poem trail |
| Navigation.PlateauState.ClearTrail | src/composables/usePlateaus.ts:100-102 | empties only the trail |
| Navigation.PlateauState.SetClusterFilter | src/composables/usePlateaus.ts:104-106 | sets only the cluster filter |
| Navigation.PlateauState.ToggleWordField | src/composables/usePlateaus.ts:108-110 | flips only the word-field switch, so two toggles restore it |
| App.EdgesSpec | app.js:53-55 | the edges are exactly the (id, target) pairs of the linksTo lists |
| App.KeepFirstSpec | app.js:52-62 | the links are edges, no two share an unordered pair, and every edge's pair is represented |
| App.KeepFirstIsFirst | app.js:56-60 | each link is the first edge met with its unordered pair, in its direction |
| App.AddLink | app.js:56-60 | one edge is added iff its pair is not yet in the link set |
| App.AddPlateauLinks | app.js:54-61 | the inner loop adds the plateau's edges |
| Build.CorpusFlowsOfBodies | scripts/build-data.js:203-245 | the Markov pass reads only the bodies of the plateaus |
| Build.OccurrencesOfBodies | scripts/build-data.js:282-298 | the index pass reads only the ids and the bodies |
| Build.CompileKeywords | scripts/build-data.js:104-121 | the keywords are the significant ones of the aggregation over the files in file order |
| Build.CompileSorted | scripts/build-data.js:123-144 | one record per plateau, in ascending id order, each equal to the id-sorted input but for its backlinks; a plateau is in its linkedFrom exactly when it links to it, listed strictly ascending |
| Build.CompileMarkov | scripts/build-data.js:193-260 | the Markov table, the starters and the sentence count are those of the plateaus given, read through their bodies |
| Build.CompileIndex | scripts/build-data.js:274-306 | the token index is that of the plateaus given, read through their ids and bodies |
| Build.CompileCorpus | scripts/build-data.js:95-306 | keywords are ranked over the files in file order; the plateaus are sorted by id, each record unchanged but for linkedFrom, which lists strictly ascending exactly the plateaus that link to it; the Markov table, the starters, the sentence count and the token index are those of the id-sorted plateaus |
| App.BuildLinks | app.js:52-62 | the link list is the first-occurrence deduplication of all edges |
| App.AppState.constructor | app.js:21-22 | nothing open, empty trail |
| App.AppState.NavigateTo | app.js:222-232 | an unknown id changes nothing; a known one is opened and pushed onto the bounded trail |
| App.AppState.ClearTrail | app.js:365-366 | empties the trail |
| App.AppState.IsTrailEdge | app.js:204-211 | true iff some consecutive trail pair joins the link's endpoints in either direction |
| App.NavigationMarksEdge | app.js:228-232 | moving from a to a different b makes the link between them a trail edge, whichever way it is stored |
| App.RefAnchor | app.js:254 | the anchor carries the id in decimal and ends with the matched text |
| App.RefLink | app.js:251-257 | the match becomes an anchor iff 1 <= n <= 35, otherwise it is unchanged |
| App.RefLinkTarget | app.js:252-254 | the anchor's data-id reads back as the number the digits denote |
| App.SearchSnippet | app.js:397-404 | empty iff the lower-cased body lacks the query; otherwise between two ellipses, with no newline |
| App.SearchSnippetWindow | app.js:399-403 | when lower-casing keeps the length, the snippet is the body window [max(0, i-20), min(len, i+q+40)) around the match |
| App.SearchItems | app.js:375-404 | none for a short query; otherwise the first ten matches in corpus order, exactly as searchPlateaus returns them, each with its snippet |
| App.SearchFindsMatch | app.js:380-383 | a query of two or more characters that some plateau matches lists at least one result |

## Left out

- File-system I/O, directory listing, writing the generated `.ts` modules,
  `JSON.stringify` and logging. The passes take and return values.
- The conversion of a parsed `meta` map into a plateau record (build-data.js:108). The
  passes take typed `Plateau` records, so a missing field (`undefined`) is not modelled.
- Duplicate or missing ids are not rejected, because the source does not reject them.
- The kuromoji tokenizer: a parameter `tokenize: string -> seq<Morpheme>`.
- `toLowerCase`: a parameter `lower: string -> string`, with no case-mapping laws.
- The JavaScript regular-expression engine. Each pattern used is written out as a scanner:
  - the front-matter delimiters;
  - `【…】`;
  - the kanji/kana run class;
  - the Latin term pattern;
  - `(?:→)?§\d+`;
  - the index character class.

  The `§n` pattern of the page script (app.js:251) is not scanned: App.RefLink models
  the replacement for one match.
- KeywordExtraction.EscapeTsRoundTrip: the emitted body is read back as a template
  literal, whose value turns CR LF and a lone CR into LF. escapeTs does not escape `\r`,
  so a body with CR reads back with LF line ends. Template escapes other than `\\`,
  `` \` `` and `\$` never occur in the output and are not modelled.
- `Number()`/`isNaN` in the front matter are restricted to optional-sign decimal
  integers; float syntax, hex and `Infinity` are not modelled.
- `split(/\r?\n/)` followed by `trim()` is modelled as a split on `\n` followed by a
  trim, which removes the `\r` as whitespace.
- String lengths are counted in Unicode code points, not UTF-16 code units. They differ
  only for characters outside the Basic Multilingual Plane.
- Objects used as maps keep plain insertion order. JavaScript lists integer-like keys
  first and also sees prototype keys (`constructor`, …); neither is modelled.
- Floating point: probabilities, totals and `Math.random() * total` are exact reals,
  so rounding is not modelled.
- `Math.random()`:
  - a single draw `u` in [0, 1) for `weightedRandom` and `findSeed`;
  - a stream `rng: nat -> Draw` with a cursor for `generatePoem`, one draw per random
    call, in source order.
- MarkovEngine.GetAlternatives, MarkovEngine.GeneratePoem: require a table whose rows
  are non-empty with positive weights. The build emits exactly such tables
  (MarkovEngine.CompiledWeighted). With a zero total the source would compute NaN
  probabilities, and that is not modelled.
- MarkovEngine.GeneratePoem: requires a non-empty starter list. With none, the source's
  last `findSeed` fallback returns `undefined` and the line starts from it. The build
  emits at least one starter whenever any sentence contributes.
- MarkovEngine.FindSeed: for a seed that has a row it uses no draw, otherwise one. The
  source calls `Math.random()` only on the branch taken, which is what the cursor
  accounting (SeedDraws) follows.
- The poem-token probability for a predecessor `""` is 1.0, because `prev && …` is
  false for an empty string. It is modelled as written (MarkovEngine.TokenProbability).
- The graph link key `${min}-${max}` is modelled as the ordered pair (min, max). The two
  agree for the corpus's non-negative ids.
- `parseInt` of a long digit run loses precision above 2^53. DigitsValue is exact.
- App.SearchSnippetWindow: the window is characterised only when lower-casing keeps the
  body's length. Otherwise the source cuts the original body at indices found in the
  lower-cased one, and the model does the same through `substring`'s clamping without
  further claims.
- Everything D3/DOM in the page script, and `escapeHtml`:
  - force simulation, zoom and drag;
  - highlighting opacities, hover preview and legend;
  - trail rendering, divider and window resize;
  - the `【…】` span replacement and the node radius.
- Vue reactivity (`ref`, `computed`, `readonly`): the refs are fields of
  `Navigation.PlateauState`, and the computed values are its functions.
- `navigateRandom` and the dice button: a random id followed by `navigateTo`.
- Loop bodies that skip with `continue` are modelled as helper methods with early
  returns:
  - KeywordExtraction.CountRuns;
  - MarkovChain.SentencePass;
  - TokenIndex.IndexMorpheme;
  - App.AddLink;
  - MarkovEngine.PushToken / DrawNext.

  The same state changes happen in the same order.
