# AI_Recommendation: the scoring service and the dashboard script, in Dafny

This project models the product recommender of a pharmacy point-of-sale system.
It covers two parts.

**The scoring service** (`RecommendationService`). It ranks every catalog product by a weighted score built from these signals:

- market-basket analysis over association rules;
- content similarity (tf-idf and cosine over name and description);
- collaborative similarity (cosine over presence vectors);
- seasonality;
- trend;
- a least-squares forecast;
- a stock factor;
- the online/over-the-counter channel mix.

Each product keeps its strongest basket partners. The list is sorted by final score with a stable sort.

**The dashboard script** (the recommender view). It covers:

- score bands and colours;
- percentages;
- paging of the result cards (3 per page) and of the pair table (10 per page);
- Prev/Next targets;
- the best-seller pick;
- the search, modal, search and close handlers over the view's state.

The database is replaced by row sequences:

- catalog products: id, name, description, stock threshold;
- sale lines and order lines: transaction id, product id, quantity, month;
- stock rows.

The association rules are a parameter. So are the square root, the logarithm, the logistic function and the current month.

PHP ordered arrays are association lists (`PhpArray.Arr`). Assigning to a key replaces its entry in place or appends a new one, and `??` reads the first entry with that key. This keeps PHP's insertion order, which the pair lists and the stable sort depend on.

Every loop of the source is a method. Each method is proved equal to a specification function, and the source's promises are proved about those functions as lemmas.

Modules, innermost first:

| module | contents |
|---|---|
| `PhpArray`, `Rows`, `Sorting` | arrays, input rows, the stable sort |
| `Text`, `Labels`, `Terms`, `Cosine` | text, the `p_<id>` labels, term counts, cosine |
| `Normalize`, `Transactions`, `Mba`, `Channel`, `Stock` | the basket signals, the channel mix, stock |
| `Content`, `Collab`, `Monthly`, `Season`, `Trend`, `Forecast` | the similarity and time-series signals |
| `Recommend` | the composition and ranking |
| `Service` | `computeAll` end to end |
| `Dashboard` | the view script |

## Model

| member | source | states |
|---|---|---|
| Text.IsSpace | app/Services/RecommendationService.php:18 | definition of PCRE `\s`; its promises are proved in Text.CollapseSpaceRuns and Text.Word |
| Text.IsWordChar | app/Services/RecommendationService.php:17 | definition of `\p{L}` or `\p{N}`; its promises are proved in Text.PassesKeepWordChars |
| Text.IsTrimChar | app/Services/RecommendationService.php:19 | definition of `trim`'s default character set; its promises are proved in Text.TrimLeft and Text.TrimRight |
| Text.Trim | app/Services/RecommendationService.php:19 | definition of `trim`; its promises are proved in Text.TrimLeft, Text.TrimRight and Text.NormalizeTextIsNormalized |
| Text.NormalizeText | app/Services/RecommendationService.php:14-20 | definition of `normalizeText`; its promises are proved in Text.NormalizeTextIsNormalized and Text.JoinTokenize |
| Text.Split | app/Services/RecommendationService.php:25 | definition of `preg_split` with `PREG_SPLIT_NO_EMPTY`; its promises are proved in Text.SplitTokens and Text.JoinSplit |
| Text.LowerChar | app/Services/RecommendationService.php:16 | the lower-cased character is never an upper-case ASCII letter, and any other character is left alone |
| Text.Lower | app/Services/RecommendationService.php:16 | lower-casing keeps the length and maps each character independently |
| Text.ReplacePunctRuns | app/Services/RecommendationService.php:17 | after the punctuation pass every character is a space or a non-punctuation character of the input |
| Text.CollapseSpaceRuns | app/Services/RecommendationService.php:18 | after the whitespace pass every character is a space or a non-whitespace character of the input |
| Text.CollapseNoDoubleSpace | app/Services/RecommendationService.php:18 | collapsing whitespace runs leaves no two adjacent spaces |
| Text.TrimLeft | app/Services/RecommendationService.php:19 | the result is a suffix of the input that does not start with a trimmed character |
| Text.TrimRight | app/Services/RecommendationService.php:19 | the result is a prefix of the input that does not end with a trimmed character |
| Text.PassesKeepWordChars | app/Services/RecommendationService.php:16-18 | only lower-case letters, digits and spaces survive the three passes |
| Text.NormalizeTextIsNormalized | app/Services/RecommendationService.php:14-20 | normalizeText's output holds only lower-case letters, digits and single spaces, with no space at either end |
| Text.Word | app/Services/RecommendationService.php:25 | the word is the longest whitespace-free prefix, and it is non-empty when the input starts with a non-space |
| Text.Tokenize | app/Services/RecommendationService.php:22-26 | tokenize("") is the empty list |
| Text.SplitTokens | app/Services/RecommendationService.php:25 | every token of the whitespace split is non-empty and whitespace-free |
| Text.TokenizeTokens | app/Services/RecommendationService.php:22-26 | every token tokenize returns is non-empty and whitespace-free |
| Text.JoinSplit | app/Services/RecommendationService.php:25 | joining the split of a normalised string with single spaces gives the string back |
| Text.JoinTokenize | app/Services/RecommendationService.php:14-26 | tokenize of a normalised string, joined with " ", is that string again |
| Labels.IntToString | app/Services/RecommendationService.php:178 | definition of PHP's decimal form of an id; its promises are proved in Labels.Digits and Labels.IntRoundTrip |
| Labels.Label | app/Services/RecommendationService.php:178 | definition of `"p_{$id}"`; its promises are proved in Labels.LabelRoundTrip and Labels.LabelInjective |
| Labels.ToInt | app/Services/RecommendationService.php:205 | definition of an optional sign and the leading digits read as an integer, which is what `(int)` yields on a rendered int; its promises are proved in Labels.DigitPrefix and Labels.IntRoundTrip |
| Labels.LabelId | app/Services/RecommendationService.php:205 | definition of `(int) str_replace('p_', '', $lbl)`; its promises are proved in Labels.LabelRoundTrip |
| Labels.Digits | app/Services/RecommendationService.php:178 | the decimal form of an id is non-empty and made of digits |
| Labels.RemovePrefixMarks | app/Services/RecommendationService.php:205 | removing every "p_" never lengthens the label |
| Labels.DigitPrefix | app/Services/RecommendationService.php:205 | the `(int)` cast reads a prefix of the text that consists of digits |
| Labels.IntRoundTrip | app/Services/RecommendationService.php:205 | casting PHP's decimal form of an integer back to `int` gives the integer |
| Labels.LabelRoundTrip | app/Services/RecommendationService.php:178-214 | decoding the label "p_<id>" gives back id, for every integer id |
| Labels.LabelInjective | app/Services/RecommendationService.php:178 | distinct products get distinct labels |
| Cosine.Quotient | app/Services/RecommendationService.php:39-40 | definition of the guarded quotient; its promises are proved in Cosine.CosineZeroNorm and Cosine.CosineNonNegative |
| Cosine.CosineOf | app/Services/RecommendationService.php:28-41 | definition of the value `cosine` returns; its promises are proved in Cosine.ComputeCosine, Cosine.CosineSymmetric, Cosine.CosinePadding and Cosine.CosineNonNegative |
| Cosine.Accumulate | app/Services/RecommendationService.php:30-38 | the loop leaves the dot product and both squared norms over the longer length, missing coordinates read as 0; both norms are non-negative |
| Cosine.ComputeCosine | app/Services/RecommendationService.php:28-41 | the accumulation loop over the padded length returns the cosine of the two vectors |
| Cosine.CosineZeroNorm | app/Services/RecommendationService.php:39 | a zero vector on either side gives similarity 0 |
| Cosine.CosineSymmetric | app/Services/RecommendationService.php:28-41 | the similarity does not depend on the order of the arguments |
| Cosine.CosinePadding | app/Services/RecommendationService.php:30-34 | appending zeros to a vector changes nothing, so a missing index reads as 0 |
| Cosine.CosineNonNegative | app/Services/RecommendationService.php:39-40 | vectors without negative coordinates have non-negative similarity |
| Normalize.Scale | app/Services/RecommendationService.php:228 | definition of `$max > 0 ? ($v / $max) : 0.0`; its promises are proved in Normalize.ScaleBounds and Normalize.GetScaled |
| Normalize.Normalized | app/Services/RecommendationService.php:226-229 | definition of the array after the normalisation loop; its promises are proved in Normalize.NormalizeByMax, Normalize.NormalizedBounds and Normalize.NormalizedReachesOne |
| Normalize.MaxOf | app/Services/RecommendationService.php:226 | `max()` returns an element at least as large as all others |
| Normalize.MaxOr1 | app/Services/RecommendationService.php:226 | `max($v ?: [1])` is 1 for an empty array and the maximum otherwise |
| Normalize.NormalizeByMax | app/Services/RecommendationService.php:226-229 | the in-place rewrite loop produces the array scaled by its maximum, or zeros when the maximum is not positive |
| Normalize.NormalizedKeys | app/Services/RecommendationService.php:227-229 | normalising keeps the keys and their order |
| Normalize.NormalizedBounds | app/Services/RecommendationService.php:225-229 | non-negative raw values normalise into [0,1] |
| Normalize.NormalizedReachesOne | app/Services/RecommendationService.php:225-229 | when some raw value is positive, some normalised value is exactly 1 |
| Normalize.NormalizedAllZero | app/Services/RecommendationService.php:228 | when no raw value is positive, every normalised value is 0 |
| Normalize.GetScaled | app/Services/RecommendationService.php:228 | looking up a key in the scaled array scales the raw lookup, and a missing key still reads 0 |
| Normalize.GetInUnit | app/Services/RecommendationService.php:70-76 | `$t[$id] ?? 0` lies in [0,1] when every value of the table does |
| Transactions.GroupsOf | app/Services/RecommendationService.php:152-154 | definition of `groupBy` then `pluck`; its promises are proved in Transactions.GroupContents, Transactions.GroupKeys and Transactions.GroupsCoverLines |
| Transactions.ProductsOf | app/Services/RecommendationService.php:154 | definition of one transaction's product ids; its promises are proved in Transactions.GroupContents |
| Transactions.GetTransactions | app/Services/RecommendationService.php:147-164 | the two loops give one itemset per sale id, then one per order id, each in first-appearance order |
| Transactions.GroupContents | app/Services/RecommendationService.php:152-154 | a transaction's itemset holds its lines' product ids in line order, duplicates kept |
| Transactions.GroupKeys | app/Services/RecommendationService.php:152 | a transaction has an itemset exactly when some line belongs to it |
| Transactions.GroupsDistinct | app/Services/RecommendationService.php:152 | each transaction id is grouped once |
| Transactions.GroupsNonEmpty | app/Services/RecommendationService.php:152-154 | no itemset is empty |
| Transactions.GroupsCoverLines | app/Services/RecommendationService.php:152-154 | grouping loses and invents no line: the itemsets hold each line's product id exactly once |
| Transactions.TransactionsCoverLines | app/Services/RecommendationService.php:147-164 | all itemsets together hold exactly the product ids of the sale lines plus the order lines |
| Mba.Value | app/Services/RecommendationService.php:201 | definition of `$support * $confidence`; its promises are proved in Mba.PairMaxIsMaximum |
| Mba.AddScores | app/Services/RecommendationService.php:204-207 | definition of the antecedent loop; its promises are proved in Mba.CreditAntecedent, Mba.AddScoresGet and Mba.AddScoresKeys |
| Mba.RawScores | app/Services/RecommendationService.php:193-207 | definition of the raw score table; its promises are proved in Mba.RawScoreIsSum, Mba.RawScoreKeys and Mba.RawScoresNonNegative |
| Mba.AddPairRow | app/Services/RecommendationService.php:213-221 | definition of the consequent loop; its promises are proved in Mba.CreditPairRow and Mba.AddPairRowGet |
| Mba.AddPairs | app/Services/RecommendationService.php:210-222 | definition of the nested pair loops; its promises are proved in Mba.CreditPairs and Mba.AddPairsGet |
| Mba.RawPairs | app/Services/RecommendationService.php:193-222 | definition of the raw pair table; its promises are proved in Mba.RawPairIsMax and Mba.RawPairsNonNegative |
| Mba.NormalizedRows | app/Services/RecommendationService.php:232-239 | definition of the per-row normalisation; its promises are proved in Mba.NormalizeRows, Mba.MbaInUnit and Mba.PairRowReachesOne |
| Mba.CreditAntecedent | app/Services/RecommendationService.php:204-207 | the loop over one rule's antecedent adds the rule's value to each named product |
| Mba.CreditPairRow | app/Services/RecommendationService.php:213-221 | the loop over the consequent keeps the larger of the old pair score and the rule's value |
| Mba.CreditPairs | app/Services/RecommendationService.php:210-222 | the nested loops credit every antecedent–consequent pair of the rule |
| Mba.NormalizeRows | app/Services/RecommendationService.php:232-239 | each main product's partner row is divided by that row's own maximum |
| Mba.ComputeMba | app/Services/RecommendationService.php:169-245 | no transactions give empty score and pair tables; otherwise the normalised aggregates of the rules |
| Mba.CreditIsMultiple | app/Services/RecommendationService.php:204-207 | an antecedent naming a product k times credits it k times the rule's value |
| Mba.AddScoresGet | app/Services/RecommendationService.php:204-207 | one rule raises a product's score by exactly its credit from that rule |
| Mba.RawScoreIsSum | app/Services/RecommendationService.php:193-207 | a product's raw score is the sum of support × confidence over the rules whose antecedent names it |
| Mba.AddScoresKeys | app/Services/RecommendationService.php:204-207 | one rule creates score entries exactly for the products its antecedent names |
| Mba.RawScoreKeys | app/Services/RecommendationService.php:193-207 | a product has a score entry exactly when some antecedent names it, so appearing only in consequents gives none |
| Mba.AddPairRowGet | app/Services/RecommendationService.php:213-221 | one consequent loop changes only the named pairs, to the maximum of old score and value |
| Mba.AddPairsGet | app/Services/RecommendationService.php:210-222 | one rule changes exactly the pairs (a, c) with a in the antecedent and c in the consequent |
| Mba.RawPairIsMax | app/Services/RecommendationService.php:209-222 | pair[a][c] is the maximum of support × confidence over the rules with a in the antecedent and c in the consequent |
| Mba.PairMaxIsMaximum | app/Services/RecommendationService.php:216-220 | that maximum bounds every qualifying rule's value and is attained by one of them, or is 0 |
| Mba.RawScoresNonNegative | app/Services/RecommendationService.php:201-207 | non-negative support and confidence give non-negative raw scores |
| Mba.RawPairsNonNegative | app/Services/RecommendationService.php:216-220 | they also give non-negative raw pair scores |
| Mba.MbaInUnit | app/Services/RecommendationService.php:225-239 | every normalised product score and every normalised pair score lies in [0,1] |
| Mba.PairRowReachesOne | app/Services/RecommendationService.php:231-239 | each main product with a positive partner has a partner scoring exactly 1 after normalisation |
| Mba.ExampleRawPairs | app/Services/RecommendationService.php:209-222 | rules A→B (0.2 × 0.1) and A→C (0.25 × 0.2) give A the partners B = 0.02 and C = 0.05 |
| Mba.ExampleRowNormalised | app/Services/RecommendationService.php:232-238 | the row 0.02, 0.05 normalises to 0.4, 1.0 |
| Mba.PairNormalisationExample | app/Services/RecommendationService.php:209-239 | end to end, those two rules give A's partners B = 0.4 and C = 1.0 |
| Channel.MixOf | app/Services/RecommendationService.php:264-276 | definition of one product's channel mix; its promises are proved in Channel.MixUnsold and Channel.MixSold |
| Channel.ChannelTable | app/Services/RecommendationService.php:262-278 | definition of the channel table; its promises are proved in Channel.ComputeChannelSales, Channel.ChannelEntry and Channel.ChannelKeys |
| Channel.ComputeChannelSales | app/Services/RecommendationService.php:250-279 | the loop over the catalog yields each product's mix of its own sale and order totals |
| Channel.MixUnsold | app/Services/RecommendationService.php:268-269 | a zero total gives both shares 0 and no total_sales entry |
| Channel.MixSold | app/Services/RecommendationService.php:270-275 | a positive total of non-negative channel totals gives shares in [0,1] that add up to 1, and total_sales is the sum of the two |
| Channel.ChannelEntry | app/Services/RecommendationService.php:263-276 | each catalog product's entry is the mix of its own two sums |
| Channel.ChannelKeys | app/Services/RecommendationService.php:263 | the table covers exactly the catalog, in catalog order |
| Channel.ChannelUnsoldProduct | app/Services/RecommendationService.php:264-269 | a catalog product without lines in either channel gets ratios 0 and no total |
| Stock.StockScore | app/Services/RecommendationService.php:301-331 | definition of one product's stock factor; its promises are proved in Stock.StockEmpty, Stock.StockNoThreshold, Stock.StockBands, Stock.StockLevels and Stock.StockMonotone |
| Stock.StockTable | app/Services/RecommendationService.php:298-334 | definition of the stock table; its promises are proved in Stock.ComputeStockFactor, Stock.StockEntry, Stock.StockKeys and Stock.StockTableInUnit |
| Stock.ComputeStockFactor | app/Services/RecommendationService.php:284-335 | the loop over the thresholds gives each catalog product the step score of its summed stock |
| Stock.StockEmpty | app/Services/RecommendationService.php:304-307 | no stock, or a negative total, gives 0 whatever the threshold |
| Stock.StockNoThreshold | app/Services/RecommendationService.php:310-313 | stock with a threshold of 0 or less gives 0.3 |
| Stock.StockBands | app/Services/RecommendationService.php:321-331 | ≤ threshold → 1.0, ≤ 2× → 0.7, ≤ 3× → 0.4, above → 0.2, each as an if-and-only-if in whole units |
| Stock.StockLevels | app/Services/RecommendationService.php:300-332 | the factor is always one of 0, 0.2, 0.3, 0.4, 0.7 and 1 |
| Stock.StockMonotone | app/Services/RecommendationService.php:321-331 | at a fixed positive threshold more stock never gives a higher factor |
| Stock.StockEntry | app/Services/RecommendationService.php:300-301 | each catalog product's entry is the score of its own summed stock and threshold |
| Stock.StockKeys | app/Services/RecommendationService.php:300 | the table covers exactly the catalog, in catalog order |
| Stock.StockTableInUnit | app/Services/RecommendationService.php:298-334 | every stock factor lies in [0,1] |
| Terms.Counts | app/Services/RecommendationService.php:362-364 | definition of a document's term counts; its promises are proved in Terms.CountsGet, Terms.CountsKeys and Terms.CountsPositive |
| Terms.VocabOf | app/Services/RecommendationService.php:358-368 | definition of the vocabulary; its promises are proved in Terms.VocabKeys and Terms.VocabDistinct |
| Terms.Flip | app/Services/RecommendationService.php:371 | definition of `array_flip`; its promises are proved in Terms.FlipGet |
| Terms.DocFreq | app/Services/RecommendationService.php:375-380 | definition of a term's document frequency; its promises are proved in Terms.DocFreqBounds and Terms.DocumentFrequencies |
| Terms.Tf | app/Services/RecommendationService.php:389 | definition of `$c / $maxTf`; its promises are proved in Terms.TfInUnit |
| Terms.Idf | app/Services/RecommendationService.php:390 | definition of `log(1 + ($N / max(1, $df)))`; its promises are proved in Terms.IdfNonNegative |
| Terms.CountsGet | app/Services/RecommendationService.php:364 | a term's count is its number of occurrences in the document |
| Terms.CountsKeys | app/Services/RecommendationService.php:363-365 | exactly the document's terms are counted |
| Terms.CountsPositive | app/Services/RecommendationService.php:364 | every count is at least 1 |
| Terms.VocabKeys | app/Services/RecommendationService.php:365 | the vocabulary holds exactly the terms of some document |
| Terms.VocabDistinct | app/Services/RecommendationService.php:365-370 | each vocabulary term is listed once |
| Terms.FlipGet | app/Services/RecommendationService.php:371 | `array_flip` of the vocabulary list maps each term to its own position |
| Terms.DocFreqBounds | app/Services/RecommendationService.php:376-380 | a document frequency is at most the number of documents, and at least 1 for a term some document has |
| Terms.MaxCount | app/Services/RecommendationService.php:386 | `max($counts)` is the largest count, or 1 for an empty table |
| Terms.MaxTf | app/Services/RecommendationService.php:386 | the tf divisor is at least 1 |
| Terms.VectorOf | app/Services/RecommendationService.php:385-392 | the tf-idf vector has one coordinate per vocabulary term |
| Terms.IdfNonNegative | app/Services/RecommendationService.php:390 | the idf weight is never negative |
| Terms.TfInUnit | app/Services/RecommendationService.php:389 | a present term's frequency relative to the most frequent term lies in (0,1] |
| Terms.VectorNonNegative | app/Services/RecommendationService.php:391 | no tf-idf coordinate is negative |
| Terms.EmptyDocumentVector | app/Services/RecommendationService.php:385-386 | a document without tokens has the zero vector |
| Terms.CountDocument | app/Services/RecommendationService.php:361-367 | one document's loop counts its tokens and adds them to the vocabulary |
| Terms.TermFrequencies | app/Services/RecommendationService.php:360-368 | the loop over the documents builds the vocabulary and each document's counts |
| Terms.CountedInVocab | app/Services/RecommendationService.php:363-365 | every counted term is in the vocabulary list, so `$vocabIndex[$term]` is always defined |
| Terms.DocumentFrequencies | app/Services/RecommendationService.php:375-380 | the increment loop leaves df[k] equal to the number of documents holding term k |
| Terms.TfIdfVector | app/Services/RecommendationService.php:385-393 | the loop over a document's counts writes tf × idf at each of its terms' positions and 0 elsewhere |
| Content.Document | app/Services/RecommendationService.php:348 | definition of a product's normalised document; its promises are proved in Text.NormalizeTextIsNormalized |
| Content.DocTokens | app/Services/RecommendationService.php:361 | definition of the documents' token lists; its promises are proved in Content.DocumentTokens and Content.WordlessProduct |
| Content.TfIdfVectors | app/Services/RecommendationService.php:383-394 | definition of the tf-idf vectors; its promises are proved in Content.BuildVectors, Content.ContentVectors and Content.VectorsNonNegative |
| Content.AvgSim | app/Services/RecommendationService.php:400-406 | definition of a product's mean similarity; its promises are proved in Content.SimilarityAverage and Content.AvgSimZero |
| Content.RawContent | app/Services/RecommendationService.php:397-408 | definition of the scores before normalisation; its promises are proved in Content.AssignAverages, Content.RawContentAt and Content.PairOfProducts |
| Content.ZeroScores | app/Services/RecommendationService.php:351-354 | definition of the small-catalog branch; its promises are proved in Content.AssignZeros |
| Content.ContentScores | app/Services/RecommendationService.php:339-415 | definition of what `computeContentSimilarity` returns; its promises are proved in Content.ComputeContentSimilarity, Content.ContentKeys and Content.ContentInUnit |
| Content.DocumentTokens | app/Services/RecommendationService.php:360-361 | tokenizing the collected documents gives the token lists of the catalog |
| Content.SimilarityAverage | app/Services/RecommendationService.php:399-407 | the inner loop skipping i returns the mean cosine of vector i with every other vector, or 0 |
| Content.OthersTotal | app/Services/RecommendationService.php:400-405 | the loop over j ≠ i sums the cosine of vector i with each other vector and counts n − 1 of them |
| Content.BuildVectors | app/Services/RecommendationService.php:383-394 | the loop builds the tf-idf vector of each document |
| Content.CollectDocuments | app/Services/RecommendationService.php:344-349 | the loop collects the catalog ids and the normalised "name description" documents |
| Content.AssignZeros | app/Services/RecommendationService.php:352-353 | a catalog of at most one product gets 0 for each product |
| Content.ContentVectors | app/Services/RecommendationService.php:357-394 | vocabulary, counts, document frequencies and vectors together give the tf-idf vectors of the tokenised documents |
| Content.AssignAverages | app/Services/RecommendationService.php:397-408 | the outer loop assigns each product its mean similarity |
| Content.RawContentAt | app/Services/RecommendationService.php:399-407 | product i's raw score is the mean similarity of its vector to all others |
| Content.ComputeContentSimilarity | app/Services/RecommendationService.php:339-415 | the whole method returns the normalised content scores |
| Content.ContentKeys | app/Services/RecommendationService.php:339-414 | both branches give exactly one score per catalog product, in catalog order |
| Content.ContentInUnit | app/Services/RecommendationService.php:410-412 | every content score lies in [0,1] |
| Content.WordlessProduct | app/Services/RecommendationService.php:385-406 | a product whose name and description hold no word scores 0 before normalisation |
| Content.AvgSimZero | app/Services/RecommendationService.php:400-406 | a zero vector is similar to nothing |
| Content.PairOfProducts | app/Services/RecommendationService.php:399-407 | in a two-product catalog both products get the same raw score |
| Content.DocFreqsInRange | app/Services/RecommendationService.php:375-380 | every vocabulary term occurs in at least one document and at most in all of them |
| Collab.PresenceVectors | app/Services/RecommendationService.php:428-436 | definition of the presence vectors; its promises are proved in Collab.BuildVectors and Collab.ForeignItemIgnored |
| Collab.Sims | app/Services/RecommendationService.php:441-445 | definition of a product's similarities to the others; its promises are proved in Collab.ProductSims and Collab.LoneProduct |
| Collab.TopAverage | app/Services/RecommendationService.php:446-448 | definition of the top-5 mean; its promises are proved in Collab.TopMean, Collab.TopAverageTakesLargest and Collab.TopAverageFew |
| Collab.RawCollab | app/Services/RecommendationService.php:439-449 | definition of the scores before normalisation; its promises are proved in Collab.CollabScores and Collab.ComputeItemCollabSimilarity |
| Collab.InitVectors | app/Services/RecommendationService.php:430 | the first loop gives every catalog product a zero vector of one coordinate per transaction |
| Collab.MarkTransaction | app/Services/RecommendationService.php:433-435 | the loop over transaction t sets coordinate t of every catalog product in it |
| Collab.BuildVectors | app/Services/RecommendationService.php:428-436 | the loops give each catalog product its presence vector over the transactions |
| Collab.ForeignItemIgnored | app/Services/RecommendationService.php:434 | a transaction item outside the catalog changes no vector |
| Collab.ProductScore | app/Services/RecommendationService.php:441-448 | the similarity loop, `rsort` and slice return the mean of the up to five largest similarities to other products |
| Collab.ProductSims | app/Services/RecommendationService.php:441-445 | the inner loop collects, in catalog order, the cosine of the product's presence vector with that of every other catalog product |
| Collab.CollabScores | app/Services/RecommendationService.php:439-449 | the per-product loop fills, for every catalog product in order, its top-5 mean similarity, before normalisation |
| Collab.TopMean | app/Services/RecommendationService.php:446-448 | `rsort`, the slice of at most five and its mean give the top-5 average (0 for no similarities) |
| Collab.TopAverageTakesLargest | app/Services/RecommendationService.php:446-447 | each averaged similarity is at least every one left out |
| Collab.TopAverageFew | app/Services/RecommendationService.php:447-448 | with at most five other products the score is the plain mean |
| Collab.TopAverageNonNegative | app/Services/RecommendationService.php:447-448 | the top-k mean of non-negative similarities is non-negative |
| Collab.LoneProduct | app/Services/RecommendationService.php:441-448 | a product alone in the catalog has no neighbours and scores 0 |
| Collab.ComputeItemCollabSimilarity | app/Services/RecommendationService.php:417-456 | an empty catalog gives an empty table; otherwise the normalised top-5 scores |
| Collab.CollabInUnit | app/Services/RecommendationService.php:452-453 | every collaborative score lies in [0,1] |
| Monthly.AddRow | app/Services/RecommendationService.php:477-479 | definition of one row added to the monthly table; its promises are proved in Monthly.AggregateMonthly and Monthly.MonthlyCell |
| Monthly.MonthlyOf | app/Services/RecommendationService.php:475-480 | definition of the monthly table; its promises are proved in Monthly.AggregateMonthly, Monthly.MonthlyCell, Monthly.MonthlyKeys and Monthly.SeriesKeys |
| Monthly.StrLess | app/Services/RecommendationService.php:527 | definition of string order on month keys; its promises are proved in Monthly.PadOrder and Monthly.MonthKeyOrder |
| Monthly.Chronological | app/Services/RecommendationService.php:527 | definition of `ksort($series)`; its promises are proved in Trend.KeysPermuted |
| Monthly.NewestFirst | app/Services/RecommendationService.php:528-529 | definition of `rsort($keys)`; its promises are proved in Trend.KeysPermuted and Trend.RecentInOrder |
| Monthly.Pad | app/Services/RecommendationService.php:478 | `%0wd` gives exactly w characters |
| Monthly.MonthKey | app/Services/RecommendationService.php:478 | a `%04d-%02d` key has seven characters |
| Monthly.PadOrder | app/Services/RecommendationService.php:478 | zero-padded numbers of equal width compare as strings exactly as they do as numbers |
| Monthly.MonthKeyOrder | app/Services/RecommendationService.php:478 | month keys sort as strings exactly as the months do in time, and distinct months have distinct keys, which is what the sorts at 527, 529 and 571 rely on |
| Monthly.AggregateMonthly | app/Services/RecommendationService.php:475-480 | the loop over the merged rows builds the per-product monthly table |
| Monthly.MonthlyCell | app/Services/RecommendationService.php:479 | each cell is the product's total quantity in that month |
| Monthly.MonthlyKeys | app/Services/RecommendationService.php:476-479 | a product has a series exactly when it has a row |
| Monthly.SeriesKeys | app/Services/RecommendationService.php:479 | a series has a month exactly when a row of the product falls in it |
| Monthly.MonthlyNonNegative | app/Services/RecommendationService.php:479 | rows without negative quantities give non-negative monthly totals |
| Monthly.FillMissing | app/Services/RecommendationService.php:497 | filling missing products never removes an entry |
| Monthly.FillMissingLoop | app/Services/RecommendationService.php:497 | the fill loop appends a 0 for each catalog product not yet present |
| Monthly.FillMissingGet | app/Services/RecommendationService.php:496-497 | existing entries keep their values and places, each missing catalog product reads 0, and nothing else is added |
| Season.Mean | app/Services/RecommendationService.php:486 | definition of `$mean`; its promises are proved in Season.FlatSeries and Season.ZScoreSign |
| Season.Variance | app/Services/RecommendationService.php:487-488 | definition of `$variance`; its promises are proved in Season.SquaredDeviationsZero |
| Season.Std | app/Services/RecommendationService.php:489 | definition of `$std`; its promises are proved in Season.StdZero |
| Season.ZScore | app/Services/RecommendationService.php:490-491 | definition of `$z`; its promises are proved in Season.SeriesZ, Season.FlatSeriesScore and Season.ZScoreSign |
| Season.SeasonScore | app/Services/RecommendationService.php:492 | definition of a product's seasonality; its promises are proved in Season.SeasonEntries |
| Season.SeasonTable | app/Services/RecommendationService.php:460-500 | definition of what `computeSeasonality` returns; its promises are proved in Season.ComputeSeasonality and Season.SeasonEntries |
| Season.SeriesZ | app/Services/RecommendationService.php:485-491 | the mean, the variance loop and the z-expression give the z-score of the series |
| Season.ComputeSeasonality | app/Services/RecommendationService.php:460-500 | the loop and the fill give the logistic of each product's z-score, and 0 for the rest of the catalog |
| Season.SquaredDeviationsZero | app/Services/RecommendationService.php:488 | the variance sum is non-negative and vanishes exactly when every month equals the mean |
| Season.StdZero | app/Services/RecommendationService.php:489 | std is non-negative, and 0 exactly when the series is flat |
| Season.FlatSeries | app/Services/RecommendationService.php:486-489 | a flat series has its level as mean and no spread |
| Season.FlatSeriesScore | app/Services/RecommendationService.php:491 | the std = 0 branch: a flat series reads z = 1 if the current month sold and 0 otherwise |
| Season.ZScoreSign | app/Services/RecommendationService.php:491 | with spread, z is positive exactly when the current month is above the mean |
| Season.SeasonEntries | app/Services/RecommendationService.php:484-497 | the table covers the products with history and the catalog; history gives a score strictly inside (0,1), none gives 0 |
| Trend.RecentValues | app/Services/RecommendationService.php:531 | definition of `$recentVals`; its promises are proved in Trend.SingleMonthSold and Trend.SingleMonthUnsold |
| Trend.Last | app/Services/RecommendationService.php:532 | definition of `$last`; its promises are proved in Trend.GrowthOf |
| Trend.PrevAvg | app/Services/RecommendationService.php:533 | definition of `$prevAvg`; its promises are proved in Trend.GrowthOf and Trend.SingleMonthUnsold |
| Trend.Growth | app/Services/RecommendationService.php:534 | definition of `$growth`; its promises are proved in Trend.GrowthAtLeastMinusOne and Trend.GrowthMonotoneInLast |
| Trend.TrendScore | app/Services/RecommendationService.php:527-535 | definition of a product's trend score; its promises are proved in Trend.SeriesTrend and Trend.TrendMonotoneInLast |
| Trend.TrendTable | app/Services/RecommendationService.php:503-543 | definition of what `computeTrend` returns; its promises are proved in Trend.ComputeTrend and Trend.TrendEntries |
| Trend.RecentKeys | app/Services/RecommendationService.php:527-530 | at most the four newest months are kept |
| Trend.RecentIsKey | app/Services/RecommendationService.php:530-531 | every recent key is a month of the series |
| Trend.RecentAreNewest | app/Services/RecommendationService.php:529-530 | no month left out is newer than one kept |
| Trend.RecentInOrder | app/Services/RecommendationService.php:529 | the kept months run from newest to oldest |
| Trend.KeysPermuted | app/Services/RecommendationService.php:527-529 | `ksort` and `rsort` reorder the months without losing or adding any |
| Trend.SeriesTrend | app/Services/RecommendationService.php:527-535 | the loop body gives the logistic of the growth of the recent values |
| Trend.GrowthOf | app/Services/RecommendationService.php:532-534 | `$last`, `$prevAvg` and `$growth` give the newest month against the mean of the months before it |
| Trend.ComputeTrend | app/Services/RecommendationService.php:503-543 | the loop and the fill give each product's trend score, and 0 for the rest of the catalog |
| Trend.SingleMonthSold | app/Services/RecommendationService.php:532-534 | a single month with sales gives growth 0 |
| Trend.SingleMonthUnsold | app/Services/RecommendationService.php:533-534 | a single month without sales falls back to prevAvg = 1 and gives growth -1 |
| Trend.GrowthAtLeastMinusOne | app/Services/RecommendationService.php:532-534 | with non-negative quantities growth is never below -1 |
| Trend.GrowthMonotoneInLast | app/Services/RecommendationService.php:532-534 | with the earlier months fixed, more sales in the newest month never lower the growth |
| Trend.TrendMonotoneInLast | app/Services/RecommendationService.php:535 | nor, for a non-decreasing logistic function, the trend score |
| Trend.TrendOfGet | app/Services/RecommendationService.php:535 | each product with history scores strictly inside (0,1) |
| Trend.TrendEntries | app/Services/RecommendationService.php:525-540 | the table covers the products with history and the catalog; history gives a score in (0,1), none gives 0 |
| Forecast.Den | app/Services/RecommendationService.php:593 | definition of `$den` over x = 0 … n-1; its promises are proved in Forecast.DenAtLeastOne |
| Forecast.Fit | app/Services/RecommendationService.php:593-601 | definition of the closed form with its fallback; its promises are proved in Forecast.Solve, Forecast.FitLine and Forecast.LeastSquaresBySums |
| Forecast.Prediction | app/Services/RecommendationService.php:578-602 | definition of one series' prediction; its promises are proved in Forecast.LinearSeries, Forecast.ConstantSeries, Forecast.ShortSeriesLast and Forecast.PredictionNonNegative |
| Forecast.ForecastTable | app/Services/RecommendationService.php:546-615 | definition of what `computeForecast` returns; its promises are proved in Forecast.ComputeForecast and Forecast.ForecastEntries |
| Forecast.Steps | app/Services/RecommendationService.php:572-576 | `$xs` is 0, 1, …, n-1 |
| Forecast.Points | app/Services/RecommendationService.php:572-576 | the loop over the sorted series yields the x steps and the quantities in month order |
| Forecast.Solve | app/Services/RecommendationService.php:593-601 | the closed form gives the least-squares line at x = n, or the last value when the system is degenerate |
| Forecast.Regress | app/Services/RecommendationService.php:585-601 | the sums loop and the closed form give the least-squares prediction |
| Forecast.SeriesForecast | app/Services/RecommendationService.php:571-602 | the loop body gives the series' prediction |
| Forecast.ComputeForecast | app/Services/RecommendationService.php:546-615 | the loop, the normalisation and the fill give the forecast table |
| Forecast.DenAtLeastOne | app/Services/RecommendationService.php:593-594 | with x = 0 … n-1 and n ≥ 2 the denominator is at least 1, so the 1e-9 guard never fires |
| Forecast.FitLine | app/Services/RecommendationService.php:597-600 | on points that lie on a line the closed form reproduces the line at x = n |
| Forecast.LeastSquaresBySums | app/Services/RecommendationService.php:586-592 | the prediction depends on the series only through its four sums |
| Forecast.LinearSeries | app/Services/RecommendationService.php:585-602 | a series of three or more months on y = c + d·i predicts c + d·n, clamped at 0 |
| Forecast.ShortSeriesLast | app/Services/RecommendationService.php:578-582 | a series of one or two months predicts the quantity of its newest month |
| Forecast.ConstantSeries | app/Services/RecommendationService.php:585-602 | a flat series of three or more months predicts its level, or 0 |
| Forecast.PredictionNonNegative | app/Services/RecommendationService.php:578-602 | non-negative history gives a non-negative prediction |
| Forecast.PredictionsNonNegative | app/Services/RecommendationService.php:569-603 | rows without negative quantities give non-negative predictions for every product |
| Forecast.ForecastEntries | app/Services/RecommendationService.php:605-612 | the table covers the products with history and the catalog; scores lie in [0,1] for non-negative rows, and no history gives 0 |
| Sorting.SortDesc | app/Services/RecommendationService.php:139 | definition of the stable descending sort; its promises are proved in Sorting.SortDescSorted and Sorting.SortDescStable |
| Sorting.SortDescSorted | app/Services/RecommendationService.php:139 | the sort orders by key, non-increasing, and is a permutation |
| Sorting.SortDescStable | app/Services/RecommendationService.php:139 | elements that share a key stay in input order, as PHP 8's `usort` keeps them |
| Recommend.BaseScore | app/Services/RecommendationService.php:69-76 | definition of `$baseScore`; its promises are proved in Recommend.RawBounds |
| Recommend.ChannelBoost | app/Services/RecommendationService.php:79-89 | definition of `$channelBoost`; its promises are proved in Recommend.RawBounds |
| Recommend.TotalSales | app/Services/RecommendationService.php:91 | definition of `$totalSales`; its promises are proved in Recommend.FinalScoreBounds |
| Recommend.SalesMultiplier | app/Services/RecommendationService.php:93-99 | definition of `$salesMultiplier`; its promises are proved in Recommend.PenalisedBounds |
| Recommend.Round4 | app/Services/RecommendationService.php:121 | definition of `round($x, 4)`; its promises are proved in Recommend.Round4Close, Recommend.Round4Monotone and Recommend.Round4Exact |
| Recommend.FinalScore | app/Services/RecommendationService.php:116-121 | definition of a product's final score; its promises are proved in Recommend.FinalScoreBounds |
| Recommend.PairsOf | app/Services/RecommendationService.php:102-114 | definition of a product's pairs; its promises are proved in Recommend.CollectPairs and Recommend.PairsOfMembers |
| Recommend.ResultFor | app/Services/RecommendationService.php:118-135 | definition of one product's result; its promises are proved in Recommend.ScoreProduct and Recommend.UnscoredProduct |
| Recommend.Ranked | app/Services/RecommendationService.php:65-141 | definition of what `computeAll`'s loop and `usort` return; its promises are proved in Recommend.ComputeAll, Recommend.RankedOrder, Recommend.RankedCoversCatalog and Recommend.RankedHead |
| Recommend.CollectPairs | app/Services/RecommendationService.php:102-114 | the loop over the MBA row returns the listed partners, in row order |
| Recommend.PairsOfMembers | app/Services/RecommendationService.php:102-114 | a pair is returned exactly when its row entry's partner is in the catalog and passes the focus filter; it carries that partner's name and score |
| Recommend.NeutralFocusKeepsCatalogPartners | app/Services/RecommendationService.php:105-113 | with no channel focus every partner in the catalog is listed, one pair per row entry |
| Recommend.NameOfCatalog | app/Services/RecommendationService.php:110 | a partner is shown under its own catalog name |
| Recommend.ScoreProduct | app/Services/RecommendationService.php:69-135 | the loop body builds the product's result from the signal tables |
| Recommend.UnscoredProduct | app/Services/RecommendationService.php:69-135 | a product missing from every table reads 0 in every component, has no partners and scores 0 |
| Recommend.Round4Close | app/Services/RecommendationService.php:121 | `round($x, 4)` moves x by at most 0.00005 and is symmetric about 0 |
| Recommend.Round4Monotone | app/Services/RecommendationService.php:121 | rounding never reverses the order of two non-negative scores |
| Recommend.Round4Exact | app/Services/RecommendationService.php:121 | multiples of 0.0001 are left unchanged |
| Recommend.RawBounds | app/Services/RecommendationService.php:69-89 | with signals in [0,1] the weights keep the base in [0, 0.95] and the boost in [0, 0.1] |
| Recommend.PenalisedBounds | app/Services/RecommendationService.php:91-121 | the multiplier keeps a score of at most 1.05 in [0, 1.05], at most 0.63 without sales and at most 0.8925 below 5 units |
| Recommend.FinalScoreBounds | app/Services/RecommendationService.php:69-121 | with signals in [0,1] the final score lies in [0, 1.05], at most 0.63 without sales and at most 0.8925 below 5 units |
| Recommend.Unranked | app/Services/RecommendationService.php:67-136 | the loop yields one result per catalog product |
| Recommend.ComputeAll | app/Services/RecommendationService.php:65-141 | the loop and `usort` return the ranked results |
| Recommend.RankedOrder | app/Services/RecommendationService.php:139 | the results are non-increasing by final score, a permutation of the unranked list, and equal scores keep catalog order |
| Recommend.RankedCoversCatalog | app/Services/RecommendationService.php:67-139 | each catalog product gets exactly its own result, and no other result appears |
| Recommend.RankedScoresWithin | app/Services/RecommendationService.php:67-139 | when every catalog product's final score lies in [lo, hi], so does every returned result's, whatever the sort does |
| Recommend.RankedHead | app/Services/RecommendationService.php:139 | the first result has the highest final score of every catalog product |
| Service.TransactionsOf | app/Services/RecommendationService.php:51 | definition of `getTransactions()` over the store; its promises are proved in Transactions.GetTransactions |
| Service.SignalsOf | app/Services/RecommendationService.php:51-63 | definition of every signal table; its promises are proved in Service.ComputeSignals and Service.FinalScoresBounded |
| Service.ComputeBasket | app/Services/RecommendationService.php:51-54 | the transactions and the MBA tables, empty when there are no transactions |
| Service.ComputeSignals | app/Services/RecommendationService.php:51-63 | every signal table `computeAll` builds before its loop |
| Service.ComputeAll | app/Services/RecommendationService.php:45-142 | the whole service: the ranked results of the catalog under the store's signals |
| Service.ReadInUnit | app/Services/RecommendationService.php:70-76 | a table whose entries lie in [0,1] reads in [0,1] under `?? 0` |
| Service.MbaRead | app/Services/RecommendationService.php:70 | the MBA score read for any id lies in [0,1] |
| Service.MonthlyReads | app/Services/RecommendationService.php:73-75 | the seasonality, trend and forecast reads lie in [0,1] |
| Service.CatalogReads | app/Services/RecommendationService.php:71-76 | the content, collaborative and stock reads lie in [0,1] |
| Service.ChannelRead | app/Services/RecommendationService.php:82-88 | both channel shares read for any id lie in [0,1] |
| Service.FinalScoresBounded | app/Services/RecommendationService.php:69-121 | on well-formed data every final score lies in [0, 1.05], and at most 0.63 for a product that sold nothing |
| Service.RankedBounded | app/Services/RecommendationService.php:45-142 | every result `computeAll` returns scores in [0, 1.05] |
| Dashboard.ScoreLabel | resources/views/recommender/index.blade.php:164-170 | definition of `scoreLabel`; its promises are proved in Dashboard.ScoreLabelBands and Dashboard.ScoreLabelMonotone |
| Dashboard.PerformanceBadge | resources/views/recommender/index.blade.php:172-176 | definition of `performanceBadge`; its promises are proved in Dashboard.MatchingColours |
| Dashboard.ScoreColor | resources/views/recommender/index.blade.php:178-182 | definition of `scoreColor`; its promises are proved in Dashboard.MatchingColours |
| Dashboard.Percentage | resources/views/recommender/index.blade.php:162 | definition of `percentage`; its promises are proved in Dashboard.PercentageClose, Dashboard.PercentageSymmetric and Dashboard.PercentageNegativeTies |
| Dashboard.SafePercentage | resources/views/recommender/index.blade.php:543-545 | definition of `safePercentage`; its promises are proved in Dashboard.SafePercentageBounds |
| Dashboard.TotalPages | resources/views/recommender/index.blade.php:317 | definition of `Math.ceil(length / perPage)`; its promises are proved in Dashboard.DivCover and Dashboard.PagesCover |
| Dashboard.PageSlice | resources/views/recommender/index.blade.php:237-238 | definition of the page slice; its promises are proved in Dashboard.PageRange, Dashboard.PagesPrefix and Dashboard.PageEmpty |
| Dashboard.PrevPage | resources/views/recommender/index.blade.php:341 | definition of `Math.max(1, currentPage - 1)`; its promises are proved in Dashboard.ButtonsInRange |
| Dashboard.NextPage | resources/views/recommender/index.blade.php:352 | definition of `Math.min(totalPages, currentPage + 1)`; its promises are proved in Dashboard.ButtonsInRange |
| Dashboard.PageButtons | resources/views/recommender/index.blade.php:317-354 | definition of the button list; its promises are proved in Dashboard.ButtonsInRange and Dashboard.RenderPagination |
| Dashboard.Best | resources/views/recommender/index.blade.php:232-235 | definition of the reduce; its promises are proved in Dashboard.BestIsLastMax |
| Dashboard.BestSeller | resources/views/recommender/index.blade.php:232-235 | definition of the best-seller pick; its promises are proved in Dashboard.BestSellerIsMax |
| Dashboard.Filter | resources/views/recommender/index.blade.php:220-222 | definition of the search filter; its promises are proved in Dashboard.FilterMembers, Dashboard.FilterAppend, Dashboard.FilterEmptyTerm and Dashboard.FilterSorted |
| Dashboard.Screen.Valid | resources/views/recommender/index.blade.php:153-159 | definition of the state invariant; every Screen method keeps it, and its promises are proved in Dashboard.ValidButtons and Dashboard.VisibleNonEmpty |
| Dashboard.Screen.VisibleResults | resources/views/recommender/index.blade.php:237-238 | definition of the cards of the current page; its promises are proved in Dashboard.VisibleNonEmpty |
| Dashboard.Screen.VisiblePairs | resources/views/recommender/index.blade.php:420-421 | definition of the rows of the current modal page; its promises are proved in Dashboard.VisibleNonEmpty |
| Dashboard.Screen.Buttons | resources/views/recommender/index.blade.php:317-354 | definition of the dashboard buttons; its promises are proved in Dashboard.ValidButtons |
| Dashboard.Screen.ModalButtons | resources/views/recommender/index.blade.php:450-470 | definition of the modal buttons; its promises are proved in Dashboard.ValidButtons |
| Dashboard.VisibleNonEmpty | resources/views/recommender/index.blade.php:420-431 | in a valid state a page shows nothing only when its list is empty, so "No product pairs found." appears only for an empty list |
| Dashboard.ScoreLabelMonotone | resources/views/recommender/index.blade.php:164-170 | every score gets one of the five labels, and a higher score never gets a weaker one |
| Dashboard.ScoreLabelBands | resources/views/recommender/index.blade.php:164-170 | each label holds exactly the scores between its cut-offs 0.85, 0.65, 0.40 and 0.20 |
| Dashboard.MatchingColours | resources/views/recommender/index.blade.php:172-182 | badge and bar share the same 0.7 / 0.4 cut-offs, so a value always shows matching colours, and the colour never worsens as the value grows |
| Dashboard.PercentageClose | resources/views/recommender/index.blade.php:162 | the shown percentage is within 0.05 of 100·v, and on a tie it is the one farther from zero |
| Dashboard.PercentageSymmetric | resources/views/recommender/index.blade.php:162 | a negative value shows as minus the percentage of its magnitude |
| Dashboard.PercentageNegativeTies | resources/views/recommender/index.blade.php:162 | -0.0125 shows as -1.3 and -0.0005 as -0.1 |
| Dashboard.SafePercentageBounds | resources/views/recommender/index.blade.php:543-545 | a bar never exceeds 100, is not negative for a non-negative value, and equals the percentage for v ≤ 1 |
| Dashboard.PageRange | resources/views/recommender/index.blade.php:237-238 | page p shows the elements at [(p-1)·per, p·per), cut at the end of the list |
| Dashboard.PagesPrefix | resources/views/recommender/index.blade.php:237-238 | the first k pages together are the first k·per elements |
| Dashboard.PagesCover | resources/views/recommender/index.blade.php:317 | pages 1 to ceil(n/per), in order, are exactly the list |
| Dashboard.DivCover | resources/views/recommender/index.blade.php:453 | ceil(n/per) pages hold n elements, and one page fewer does not |
| Dashboard.PageEmpty | resources/views/recommender/index.blade.php:420-421 | a page is empty exactly when it lies past the last page |
| Dashboard.ButtonsInRange | resources/views/recommender/index.blade.php:317-352 | no buttons when there is at most one page; otherwise Prev, the pages 1..total with only the current one disabled, and Next, all targets in [1, total] |
| Dashboard.RenderPagination | resources/views/recommender/index.blade.php:317-352 | the early return and the loop build that button list |
| Dashboard.BestIsLastMax | resources/views/recommender/index.blade.php:232-235 | the reduce keeps the last entry of highest score |
| Dashboard.BestSellerIsMax | resources/views/recommender/index.blade.php:232-235 | there is a best seller exactly when the list is non-empty; it scores at least as high as every entry and is the last with that score |
| Dashboard.FilterMembers | resources/views/recommender/index.blade.php:218-222 | the filter keeps exactly the elements whose lower-cased name contains the term |
| Dashboard.FilterAppend | resources/views/recommender/index.blade.php:487-489 | filtering keeps the original order |
| Dashboard.FilterEmptyTerm | resources/views/recommender/index.blade.php:220-222 | the empty term keeps everything |
| Dashboard.FilterSorted | resources/views/recommender/index.blade.php:487-489 | filtering a list ordered by score keeps it ordered |
| Dashboard.Screen.constructor | resources/views/recommender/index.blade.php:153-159 | the script's initial state: nothing loaded, both pages at 1, the modal closed |
| Dashboard.Screen.Load | resources/views/recommender/index.blade.php:528-531 | new results are all shown, from page 1; the modal's state is unchanged |
| Dashboard.Screen.Search | resources/views/recommender/index.blade.php:218-225 | the filtered list is the matching results, in order, and the page goes back to 1 |
| Dashboard.Screen.GoToPage | resources/views/recommender/index.blade.php:333-336 | clicking a page button shows that page and keeps the state valid |
| Dashboard.Screen.GoToModalPage | resources/views/recommender/index.blade.php:465-468 | clicking a modal page button shows that page and keeps the state valid |
| Dashboard.Screen.OpenPairsModal | resources/views/recommender/index.blade.php:408-415 | the pairs are ordered by score, non-increasing, with the same pairs present; all are shown from page 1 |
| Dashboard.Screen.ModalSearch | resources/views/recommender/index.blade.php:485-492 | the modal list is the matching pairs of the ordered list, still ordered, from page 1 |
| Dashboard.Screen.CloseModal | resources/views/recommender/index.blade.php:400-406 | closing clears the search, the pairs and the filter, and resets the page to 1 |
| Dashboard.ValidButtons | resources/views/recommender/index.blade.php:317-352 | in a valid state every pagination button leads to a page that exists |

## Left out

- The database queries are not modelled. The SQL `SUM`, `GROUP BY`, `YEAR`/`MONTH` and joins are folds over the row sequences. When grouping, rows are taken in their given order.
- Service.SignalsOf: every sale and order line has a transaction id and a month, so a line whose sale or order was deleted is not represented. The migrations make `sale_items.sale_id` and `order_items.order_id` nullable with `nullOnDelete`. The source treats such a line differently per stage. `getTransactions` still groups all of them into one itemset under the null key, and `computeChannelSales` still counts them. The inner joins of `computeSeasonality`, `computeTrend` and `computeForecast` drop them. The model hands the same lines to every stage.
- The association-rule miner (`Phpml\Association\Apriori`, with its support 0.01 and confidence 0.1) is not modelled. Its rule list is a parameter that does not depend on the transactions.
- Floating point is not modelled. Every quantity is an exact `real`, so IEEE rounding, overflow and NaN are left out.
- `sqrt`, `log` and `exp` are function parameters. The model relies only on these facts: the square root is 0 at 0 and positive on positive arguments, the logarithm is non-negative from 1 on, and `1/(1+exp(-x))` lies strictly in (0,1), which holds in exact arithmetic (in doubles a large growth gives exactly 1.0).
- Season.SeriesZ, Season.ComputeSeasonality: the square root passed to seasonality is constrained only where a lemma requires `SquareRoot`. Seasonality is modelled through its mean, its variance and the std = 0 branch. No claim is made about the logistic value beyond its range.
- Trend.TrendMonotoneInLast: it assumes the logistic function never decreases. The parameter type does not carry that fact.
- `date('Y-m')` is the parameter `now`.
- Labels.ToInt: it reads only an optional sign and the leading digits, as unbounded integers. PHP's `(int)` also reads exponent forms (`"1e3"` gives 1000) and saturates digit runs beyond PHP_INT_MAX. These cases are not modelled. The labels the service casts are always "p_" followed by the decimal form of an id, where the two agree (Labels.LabelRoundTrip).
- Case mapping is ASCII only, in both `mb_strtolower` and JavaScript's `toLowerCase`. Every character above 127 counts as a letter for `\p{L}`.
- `NULL` names, descriptions and thresholds are not modelled. A product row always has a name, a description and an integer threshold. A `NULL` threshold compares like 0 in PHP, which the `threshold <= 0` branch covers. The migrations also let `product_id` and `quantity` be `NULL` in sale items, order items and stocks. A `NULL` quantity is represented as 0, which is how `SUM` and `?? 0` treat it, and a `NULL` product id as an id outside the catalog.
- The stock comment at app/Services/RecommendationService.php:315-320 ("2x threshold → 0.5") disagrees with the code. The model follows the code (0.7).
- Catalog ids are distinct (`DistinctIds`). They are the table's primary key, and several signal methods require it.
- `ksort` and `rsort` are the stable sort of module `Sorting` on the month number. `Monthly.MonthKeyOrder` shows that the `YYYY-MM` string order agrees with it.
- Recommend.Round4: `round($x, 4)` rounds exactly half away from zero. PHP's pre-rounding of values within an ulp of a half is not modelled.
- Dashboard.Percentage: `toFixed(1)` is modelled as the number it prints, in exact arithmetic: the nearest tenth, with a tie going away from zero because `toFixed` rounds the magnitude and restores the sign. Binary rounding of the product `v * 100` is not modelled. `Math.min` then compares that number; the string formatting is not modelled.
- The controller, the routes, the migrations and the models are not part of this model. Neither are the DOM construction, Chart.js, the AI-insights request or `randomColor`.
- The `hidden` class toggles are left out, except the modal's open/closed state. The dashboard's top and bottom pagination containers receive the same button list, which is modelled once.
- The three identical monthly-aggregation blocks (seasonality, trend, forecast) are modelled once, as `Monthly.AggregateMonthly`.
