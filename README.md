# Customer-support chatbot core, modelled in Dafny

This project models the core of a retrieval-augmented customer-support chatbot:

- `SimpleKnowledgeBase` is an append-only list of support articles, seeded with five samples.
  - Its keyword search ranks articles by the fraction of query words found in the title or content.
  - Hits are stably sorted by descending score and cut to `k`.
- `KnowledgeBaseManager` delegates to it.
- A mock vector store hands out a retriever that returns the top three hits as documents.
- `CustomerSupportChatbot` wraps a language-model chain. The model covers:
  - the confidence rule;
  - the formatting of source documents;
  - the reply, with its exception fallback;
  - the conversation history;
  - the knowledge-base delegation.
- `DemoChatbot` works without a language model. It tries six keyword patterns in a fixed order, each with two canned answers. It then falls back to the top knowledge-base hit, and finally to a fixed answer.
- The conversation store both chatbots write to is reduced to two maps:
  - session id to conversation id;
  - conversation id to its messages, oldest first.

Modules, one per file:

- `Wrappers`: `Option`.
- `Text`: ASCII `lower`, whitespace `split`, substring test, slicing and previews, and the decimal rendering used in ids.
- `Records`: articles, hits and documents.
- `SampleArticles`: the bodies of the five seeded articles.
- `ScoreSort`: the stable descending sort.
- `Ranking`: the search as functions, and what it guarantees.
- `KnowledgeBase`: the knowledge-base classes.
- `Conversations`: the store.
- `Replies`: reply records, and what a reply leaves in the store.
- `Chatbot` and `DemoChatbot`: the two bots.

The state-changing parts are classes whose methods are proved against specification functions:

- `SimpleKnowledgeBase.Search` computes `Ranking.Ranked`.
- `ConversationStore` methods state their whole new maps.
- Both `GetResponse` methods state the store after the reply as `Replies.MessagesAfter` and `Replies.ConversationsAfter`.

The lemmas then state what those functions guarantee.

## Model

| member | source | states |
|---|---|---|
| Text.IsSpace | app/knowledge_base.py:153 | The characters `str.split()` treats as whitespace: tab, line feed, vertical tab, form feed, carriage return, the separators 28 to 31, and space |
| Text.Lower | app/knowledge_base.py:141 | `lower()` keeps the length of the text; what it does to each character is stated by LowerKeepsSpace |
| Text.LowerKeepsSpace | app/knowledge_base.py:141 | `lower()` turns each letter A–Z into its lower-case partner (code + 32), so none is left; every other character is unchanged, whitespace stays where it was, and a text is blank exactly when its lower-cased form is |
| Text.LeadingWord | app/knowledge_base.py:153 | The first word of a text is a whitespace-free prefix followed by whitespace or the end of the text, and it is non-empty when the text starts with a non-space character |
| Text.Split | app/knowledge_base.py:153 | `str.split()` yields only non-empty tokens that contain no whitespace |
| Text.LeadingWordStops | app/knowledge_base.py:153 | The first word ends at the first whitespace character: what follows it does not matter |
| Text.LeadingWordAll | app/knowledge_base.py:153 | A whitespace-free text is all one word |
| Text.SplitAtSpace | app/knowledge_base.py:153 | A whitespace character separates tokens: `split(a + c + b)` is `split(a) + split(b)` for whitespace `c` |
| Text.SplitWord | app/knowledge_base.py:153 | A non-empty whitespace-free text splits into exactly itself |
| Text.SplitEmptyIffBlank | app/knowledge_base.py:153 | A text splits into no tokens exactly when it is empty or all whitespace |
| Text.SplitKeepsText | app/knowledge_base.py:153 | Splitting loses only whitespace: joined back, the tokens are the text's non-space characters in order |
| Text.SqueezeAppend | app/knowledge_base.py:153 | Dropping whitespace distributes over concatenation (used by SplitKeepsText) |
| Text.SqueezeNoSpace | app/knowledge_base.py:153 | A whitespace-free text is unchanged by dropping whitespace |
| Text.Contains | app/knowledge_base.py:157 | `needle in hay` holds exactly when the needle occurs at some position of the haystack |
| Text.Take | demo_chatbot.py:103 | `s[:n]` has length `min(len(s), n)` and is a prefix of `s` |
| Text.Truncate | app/knowledge_base.py:164 | The preview rule keeps a short text unchanged; a longer one becomes its first `limit` characters followed by "..." |
| Text.ToDecimal | app/knowledge_base.py:179 | The decimal rendering of a number is non-empty |
| Text.ToDecimalDigits | app/knowledge_base.py:179 | `str(n)` consists of decimal digits and starts with "0" only for 0 |
| Text.ParseToDecimal | app/knowledge_base.py:179 | Reading back the decimal rendering gives the number (round trip) |
| Text.DecimalInjective | app/knowledge_base.py:179 | Different numbers have different renderings |
| ScoreSort.InsertByScore | app/knowledge_base.py:174 | Inserting a hit lengthens the list by one |
| ScoreSort.SortByScore | app/knowledge_base.py:174 | The sort keeps the length |
| ScoreSort.InsertPermutes | app/knowledge_base.py:174 | Insertion adds exactly the inserted hit to the multiset |
| ScoreSort.SortByScorePermutes | app/knowledge_base.py:174 | The sort is a permutation: the same hits, each as often |
| ScoreSort.InsertBounded | app/knowledge_base.py:174 | Inserting a hit below a bound keeps every score below the bound |
| ScoreSort.InsertKeepsSorted | app/knowledge_base.py:174 | Insertion into a descending list keeps it descending |
| ScoreSort.SortByScoreSorted | app/knowledge_base.py:174 | `sort(key=score, reverse=True)` yields non-increasing scores |
| ScoreSort.WithScoreAppend | app/knowledge_base.py:174 | Selecting the hits of one score distributes over concatenation |
| ScoreSort.WithScoreNone | app/knowledge_base.py:174 | A list whose scores are all below `v` has no hit scored `v` |
| ScoreSort.InsertStable | app/knowledge_base.py:174 | Insertion places a hit after every earlier hit of equal score |
| ScoreSort.SortByScoreStable | app/knowledge_base.py:174 | The sort is stable: for every score, the hits with that score keep their original order |
| Ranking.FilterActive | app/knowledge_base.py:145 | The category filter is off exactly when `category` is None or "" |
| Ranking.PassesFilter | app/knowledge_base.py:145-146 | With the filter off every article passes; with it on, exactly the articles of that category pass |
| Ranking.QueryWords | app/knowledge_base.py:141-153 | The query words are non-empty and whitespace-free, and there are none exactly when the query is empty or all whitespace |
| Ranking.MatchCount | app/knowledge_base.py:153-158 | The match count is at most the number of query words, and positive exactly when some query word occurs in the title or content |
| Ranking.HitFor | app/knowledge_base.py:160-171 | A matching article's score is the Ratio of its match count to the number of query words, so it lies in (0, 1] and times the number of query words gives the match count |
| Ranking.Ratio | app/knowledge_base.py:162 | `matches / len(query_words)` with `0 < matches <= len` lies in (0, 1] and times the number of words gives back the match count |
| Ranking.RatioScaled | app/knowledge_base.py:162 | Doubling numerator and denominator keeps the ratio |
| Ranking.Candidates | app/knowledge_base.py:144-171 | There are never more unsorted hits than articles |
| Ranking.PyPrefix | app/knowledge_base.py:175 | `results[:k]` is a prefix of the results, no longer than `k` when `k >= 0` |
| Ranking.Ranked | app/knowledge_base.py:139-175 | A search never returns more results than there are articles, nor more than `k` when `k >= 0` |
| Ranking.CandidatesSound | app/knowledge_base.py:144-171 | Every unsorted hit is the hit of an article that passes the category filter and matches a query word |
| Ranking.CandidatesComplete | app/knowledge_base.py:144-171 | Every article that passes the filter and matches contributes its hit |
| Ranking.NoWordsNoCandidates | app/knowledge_base.py:153-162 | With no query words no article is a hit, so the division by `len(query_words)` is never reached |
| Ranking.BlankQueryNoResults | app/knowledge_base.py:139-175 | An empty or all-whitespace query has no words and returns no results |
| Ranking.RankedHitsAreSelected | app/knowledge_base.py:139-175 | Every result is the scored, previewed hit of an article that passes the filter and matches a query word |
| Ranking.SortKeepsMembers | app/knowledge_base.py:174 | Sorting neither adds nor drops a hit |
| Ranking.RankedScoresInRange | app/knowledge_base.py:162 | Every returned score lies in (0, 1] |
| Ranking.RankedRespectsCategory | app/knowledge_base.py:145-146 | With a non-empty category every result belongs to that category |
| Ranking.RankedComplete | app/knowledge_base.py:139-175 | With `k` at least the number of articles every matching article passing the filter is returned; with no filter (None or "") every matching article |
| Ranking.RankedSorted | app/knowledge_base.py:174-175 | Results come in non-increasing score order |
| Ranking.RankedTopK | app/knowledge_base.py:173-175 | The results are the first hits of the sorted list, and no hit the cut to `k` leaves out scores higher than a returned one |
| Ranking.RankedStable | app/knowledge_base.py:174-175 | Ties keep article order: the results of each score are a prefix of the unsorted hits of that score |
| Ranking.RankedLength | app/knowledge_base.py:175 | The result holds `min(k, #hits)` elements for `k >= 0`, none for `k = 0`, and all but the last `abs(k)` hits for negative `k` |
| Ranking.MatchCountAppend | app/knowledge_base.py:156-158 | Each query word counts on its own: the count over `a + b` is the sum of the counts |
| Ranking.DuplicatedQueryKeepsScore | app/knowledge_base.py:153-162 | Repeating every query word doubles the match count and keeps the score |
| KnowledgeBase.DocId | app/knowledge_base.py:179 | An id starts with "doc_" and has at least one character after it |
| KnowledgeBase.DocIdReadsBack | app/knowledge_base.py:179 | After "doc_" come only decimal digits, with no leading zero unless the position is 0, and they read back as the article's position |
| KnowledgeBase.SampleData | app/knowledge_base.py:20-134 | `sample_data` holds five articles, none of them with an id |
| KnowledgeBase.SampleDataIsSample | app/knowledge_base.py:20-134 | `sample_data` is exactly the five sample articles in order: titles, contents, categories and tags as the seeding code writes them |
| KnowledgeBase.ToDocument | app/knowledge_base.py:236-239 | A retriever document's `page_content` is the hit's (previewed) content and its metadata has the hit's title, category and tags |
| KnowledgeBase.DocIdInjective | app/knowledge_base.py:179 | Ids `doc_<n>` of different positions differ |
| KnowledgeBase.IdsUnique | app/knowledge_base.py:177-187 | In a store whose ids follow positions, no two articles share an id |
| KnowledgeBase.CandidatesStep | app/knowledge_base.py:144-171 | The unsorted hits grow one article at a time, in article order |
| KnowledgeBase.CountMatches | app/knowledge_base.py:154-158 | The counting loop computes MatchCount |
| KnowledgeBase.SimpleKnowledgeBase.constructor | app/knowledge_base.py:14-16 | A new knowledge base holds exactly the five sample articles, with their titles, contents, categories and tags, and no ids |
| KnowledgeBase.SimpleKnowledgeBase.InitializeSampleData | app/knowledge_base.py:18-137 | Appends the five sample articles in order, each with its title, content, category and tags, and leaves the existing articles in place |
| KnowledgeBase.SimpleKnowledgeBase.AppendAll | app/knowledge_base.py:136-137 | Appends the given id-less articles in order, so ids still follow positions |
| KnowledgeBase.SimpleKnowledgeBase.Search | app/knowledge_base.py:139-175 | The search loop, sort and slice return exactly `Ranked(items, query, k, category)` |
| KnowledgeBase.SimpleKnowledgeBase.AddDocument | app/knowledge_base.py:177-187 | Appends one article with id `doc_<old length>`, the given fields and tags defaulting to []; returns that id; earlier articles are unchanged and ids stay unique |
| KnowledgeBase.SimpleKnowledgeBase.GetAllDocuments | app/knowledge_base.py:189-191 | Returns the stored articles in insertion order |
| KnowledgeBase.MockRetriever.constructor | app/knowledge_base.py:228-229 | The retriever searches the given knowledge base |
| KnowledgeBase.MockRetriever.GetRelevantDocuments | app/knowledge_base.py:231-242 | Returns one document per top-3 search hit, in order, with the hit's content and metadata |
| KnowledgeBase.MockVectorStore.constructor | app/knowledge_base.py:218-219 | The store wraps the given knowledge base |
| KnowledgeBase.MockVectorStore.AsRetriever | app/knowledge_base.py:221-222 | A new retriever over the same knowledge base, whatever the search options |
| KnowledgeBase.KnowledgeBaseManager.constructor | app/knowledge_base.py:197-200 | A seeded knowledge base and a vector store over it |
| KnowledgeBase.KnowledgeBaseManager.AddDocument | app/knowledge_base.py:202-204 | Same effect and id as the knowledge base's add_document |
| KnowledgeBase.KnowledgeBaseManager.Search | app/knowledge_base.py:206-208 | Same results as the knowledge base's search |
| KnowledgeBase.KnowledgeBaseManager.GetAllDocuments | app/knowledge_base.py:210-212 | The knowledge base's articles |
| Conversations.ConversationFor | app/chatbot.py:75-77 | Get-or-create yields the session's existing conversation; otherwise the new conversation with id `freshId`, and it fails exactly when that id is already taken |
| Conversations.ConversationStore.constructor | app/database.py:72-73 | An empty store |
| Conversations.ConversationStore.GetOrCreate | app/database.py:75-85 | Reuses the session's conversation and changes nothing, or records a new empty conversation for the session; nothing else changes |
| Conversations.ConversationStore.AddMessage | app/database.py:87-93 | Appends exactly one message to the conversation; every other conversation and every session is unchanged |
| Conversations.ConversationStore.GetConversationMessages | app/database.py:95-97 | The conversation's messages in the order they were added |
| Replies.FailsIff | app/chatbot.py:73-119 | A reply completes exactly when no step raises and the conversation opens |
| Replies.Appended | app/chatbot.py:79-89 | A reply appends at most two messages, the user's first; a completed reply appends the user's message and then the response |
| Replies.CompletedExchange | app/chatbot.py:80-89 | The two store steps of a completed reply give the message lists MessagesAfter describes |
| Replies.ReplyTouchesOnlyItsConversation | app/database.py:75-93 | A reply changes no other session's conversation and no other conversation's messages, and changes nothing when the conversation cannot be opened |
| Replies.ExchangeAppends | app/chatbot.py:73-119 | A completed reply appends exactly [user, assistant]; a failed one appends at most the user's message |
| Chatbot.SourceDocuments | app/chatbot.py:86 | `result.get("source_documents", [])`: the chain's documents, or none when the key is missing |
| Chatbot.MinReal | app/chatbot.py:144 | `min` is a lower bound and one of its arguments |
| Chatbot.Tokens | app/chatbot.py:133-137 | The token set holds non-empty whitespace-free words, and is empty exactly when the text is empty or all whitespace |
| Chatbot.Relevant | app/chatbot.py:136-139 | No document is relevant to a message without keywords, and a blank document is relevant to no message |
| Chatbot.RelevantCount | app/chatbot.py:134-140 | The relevant count is at most the number of documents, zero iff no document is relevant, and all iff every document is |
| Chatbot.SourceBonus | app/chatbot.py:130 | The source bonus lies in [0, 0.3] and reaches 0.3 exactly from three sources |
| Chatbot.RelevanceBonus | app/chatbot.py:142 | The relevance bonus lies in [0, 0.1] and reaches 0.1 exactly from two relevant sources |
| Chatbot.ConfidenceFor | app/chatbot.py:127-144 | The cap at 1.0 never applies; with at least one source the confidence lies in [0.7, 1.0] |
| Chatbot.Confidence | app/chatbot.py:121-144 | 0.3 without source documents, otherwise within [0.7, 1.0] |
| Chatbot.ConfidenceMonotone | app/chatbot.py:132-144 | More relevant sources never lower the confidence |
| Chatbot.ConfidenceFull | app/chatbot.py:127-144 | Three sources with two relevant give confidence 1.0 |
| Chatbot.ConfidenceOneIff | app/chatbot.py:121-144 | Confidence is 1.0 exactly when there are at least three sources and at least two are relevant |
| Chatbot.OneWordTokens | app/chatbot.py:133 | A text without whitespace is one token: itself lower-cased |
| Chatbot.WholeTokensOnly | app/chatbot.py:133-139 | One-word document and message are relevant exactly when equal ignoring case, so a substring is not enough ("pass" against "password") |
| Chatbot.SourceOf | app/chatbot.py:94-98 | A source takes title and category from the metadata, "Unknown" when missing, and the 200-character preview of the content |
| Chatbot.FormatSources | app/chatbot.py:92-98 | One source per document, in order |
| Chatbot.CustomerSupportChatbot.constructor | app/chatbot.py:28-29 | The chatbot's knowledge base holds the five sample articles |
| Chatbot.CustomerSupportChatbot.GetResponse | app/chatbot.py:71-119 | The store changes as MessagesAfter/ConversationsAfter say. A failed reply is the apology for the same session with no conversation id, no sources and confidence 0.0. A completed reply carries the answer, the conversation id, one formatted source per document and Confidence |
| Chatbot.CustomerSupportChatbot.GetConversationHistory | app/chatbot.py:146-162 | Nothing for a session without a conversation, else one entry per stored message in order, with role name and content |
| Chatbot.CustomerSupportChatbot.AddKnowledgeItem | app/chatbot.py:168-170 | Appends the article with id `doc_<old length>` and returns that id |
| Chatbot.CustomerSupportChatbot.SearchKnowledgeBase | app/chatbot.py:172-174 | Returns exactly the ranked search results |
| DemoChatbot.PatternTableWellFormed | demo_chatbot.py:48-73 | The pattern table has the six keywords in order, two answers each, and no empty answer |
| DemoChatbot.FirstMatchFrom | demo_chatbot.py:94-99 | The first pattern from `start` whose keyword occurs in the text, with no earlier pattern matching; None when none matches |
| DemoChatbot.FirstMatch | demo_chatbot.py:94-99 | The first pattern in table order whose keyword occurs in the text, or None when none does |
| DemoChatbot.KbFallback | demo_chatbot.py:101-107 | With hits, the top hit's content cut at 200 characters plus "..." (always appended) at the hit's score; without hits, the fixed answer at 0.3 |
| DemoChatbot.Falsy | demo_chatbot.py:102-107 | `not response` is false exactly for a chosen, non-empty answer |
| DemoChatbot.DecidedReply | demo_chatbot.py:94-107 | A decided answer is never empty, and its confidence is 0.8, 0.3 or the top hit's score |
| DemoChatbot.Decide | demo_chatbot.py:90-107 | Some answer of the first matching pattern at 0.8, or (no match or an empty answer) the fallback |
| DemoChatbot.MatchGivesCannedAnswer | demo_chatbot.py:94-107 | With non-empty answers, a message containing a keyword gets an answer of the first such pattern at 0.8 |
| DemoChatbot.EarlierKeywordWins | demo_chatbot.py:48-73 | A message containing the i-th keyword is answered by that pattern or an earlier one ("password" beats all, "hello" beats "help") |
| DemoChatbot.HitSource | demo_chatbot.py:115-119 | A source carries the hit's title and category and its content previewed at 200 characters |
| DemoChatbot.FormatHits | demo_chatbot.py:113-119 | One source per hit, in order |
| DemoChatbot.DemoChatbot.constructor | demo_chatbot.py:44-73 | The pattern table is the six keywords in order, each with its two answers word for word, over a knowledge base holding the sample articles |
| DemoChatbot.DemoChatbot.Answer | demo_chatbot.py:86-119 | A message containing a keyword gets one of the first such pattern's answers at 0.8 (never the fallback); otherwise the fallback over the top two hits; those hits are the sources |
| DemoChatbot.DemoChatbot.GetResponse | demo_chatbot.py:75-137 | The store changes as MessagesAfter/ConversationsAfter say. A failed reply is the apology with no conversation id, no sources and confidence 0.0. A completed reply carries the decided answer (one of the first matching pattern's answers at 0.8 when a keyword occurs), the conversation id and the hits as sources |

## Left out

- HTTP layer, ORM sessions and commits, configuration and startup: outside the core.
- The language-model chain, its prompt and window memory, and `clear_conversation`:
  - the chain is an input (`ChainResult`: answer and optional source documents);
  - clearing memory has no state in the model.
- Exceptions are the `fault` input: which step of a reply raises. A `uuid4()` conversation id is the `freshId` input. A new id that is already taken stands for the primary-key error on insert.
- `get_conversation` uses `.first()`; the model keeps one conversation per session.
- Message timestamps, and ordering history by timestamp: the store keeps insertion order instead.
- `random.choice` is a nondeterministic choice (`:|`) among the pattern's answers.
- Text is ASCII:
  - `lower()` maps only A–Z;
  - whitespace is the ASCII set `str.split()` uses;
  - there is no Unicode case mapping.
- Scores and confidences are exact reals, not IEEE doubles. For example, `0.6 + 0.3 + 0.1` is exactly 1.0 here.
- `list.sort` is modelled by the function ScoreSort.SortByScore (insertion of each hit in turn), not by Python's algorithm. Only its result matters: ordered, a permutation and stable.
- Text.Lower: its own contract states only the length; the per-character mapping is the lemma Text.LowerKeepsSpace, kept off the function so that the many proofs that mention `Lower` stay cheap.
- Behaviour kept as the code has it:
  - `add_document` accepts empty titles and contents;
  - a query word that occurs twice is counted twice;
  - a negative `k` drops the last hits, as a Python slice does;
  - confidence tokenises the documents' page content after the mock retriever's 500-character cut and "...".
