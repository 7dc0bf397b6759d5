# WordPecker in Dafny

WordPecker is a React Native vocabulary app backed by Turkish-language
screens. A user keeps word lists, studies them in a Learning mode (multiple
choice with a streak bonus) and a timed Test mode (multiple choice, typed
answers and fill-in-the-blank sentences), reviews them as flashcards,
scans printed words with the camera, practises pronunciation, and searches
across lists. This project models the logic behind those screens as pure
Dafny functions over immutable datatypes and proves what the screens
promise.

Every screen handler becomes a function from the screen state (and the
event's input) to the next state. Everything the app gets from outside is
an explicit parameter:
- the answers of API calls are `Result` values, where `Err` is a call that threw;
- the random draws of the shuffles are `Draws` / `seq<nat>`;
- the device colour scheme, the recognised speech text and the timer
  ticks are parameters or separate events.

One module per source file:

| module | file |
|---|---|
| `Base`, `Sorting` | JavaScript string, array and sort behaviour the screens rely on |
| `Types` | src/types/index.ts |
| `Generator`, `Outcomes`, `Learning` | src/screens/learning/LearningModeScreen.tsx |
| `Generator`, `Outcomes`, `TestMode` | src/screens/test/TestModeScreen.tsx |
| `Api` | src/api/apiService.ts |
| `Search` | src/screens/search/SearchScreen.tsx |
| `WordLists` | src/screens/lists/WordListsScreen.tsx |
| `ListDetails` | src/screens/details/ListDetailsScreen.tsx |
| `CreateList` | src/screens/lists/CreateListScreen.tsx |
| `AddWord` | src/screens/words/AddWordScreen.tsx |
| `Camera` | src/screens/camera/CameraScanScreen.tsx |
| `Ocr`, `Dictionary` | src/utils/ocrService.ts |
| `Speech` | src/utils/speechService.ts |
| `Voice` | src/screens/voice/VoiceCommandsScreen.tsx |
| `Flashcards` | src/screens/flashcards/FlashcardsScreen.tsx |
| `AuthForms` | src/screens/auth/RegisterScreen.tsx, LoginScreen.tsx, ForgotPasswordScreen.tsx |
| `AuthContext` | src/context/AuthContext.tsx |
| `Theme` | src/context/ThemeContext.tsx |
| `SettingsScreen` | src/screens/settings/SettingsScreen.tsx |
| `Progress` | src/screens/progress/ProgressTrackingScreen.tsx |

Where the code and the documented behaviour of the app differ, the model
follows the code:
- **Learning bonus.** The bonus reads the streak before it is incremented, so consecutive correct
  answers earn 10, 11, 12, 13, 14, 15, 15, … (`Learning.ConsecutiveCorrect`,
  `Learning.StreakAwards`).
- **Typed fill-in-the-blank answers.** In Test mode a fill-in-the-blank exercise has no options, so it is answered
  through the typed path and earns 15 points, not the 12 the tap path would
  give (`TestMode.FillBlankTypedEarnsFifteen`).
- **Number of options.** A small list can give fewer than four options. A one-word list gives a
  single option (`Generator.SingleWordHasOneOption`).
- **Fill-in-the-blank without a match.** When the context does not contain the headword, the question
  shows the context sentence unchanged (`Generator.FillBlankWithoutMatch`).

## Model

| member | source | states |
|---|---|---|
| Generator.Pad | src/screens/learning/LearningModeScreen.tsx:83-88 | a non-empty list is doubled until it has at least four entries; four or more are kept as they are |
| Generator.PadLength | src/screens/learning/LearningModeScreen.tsx:83-88 | the padded length is 4 for one or two words, 6 for three, and n otherwise |
| Generator.PadCycles | src/screens/learning/LearningModeScreen.tsx:85-87 | padded entry i is original entry i mod n, so padding only repeats the list |
| Generator.OthersThan | src/screens/learning/LearningModeScreen.tsx:99-100 | the distractor pool is exactly the padded entries whose id differs from the word's |
| Generator.Distractors | src/screens/learning/LearningModeScreen.tsx:99-103 | at most three wrong meanings, min(3, pool size) of them, each the meaning of an entry with another id |
| Generator.DistractorsFromPool | src/screens/learning/LearningModeScreen.tsx:99-103 | any prefix of any permutation of the pool gives meanings of other-id entries only |
| Generator.ShuffleKeepsMembers | src/screens/learning/LearningModeScreen.tsx:91 | the shuffle neither adds nor drops elements |
| Sorting.Shuffle | src/screens/learning/LearningModeScreen.tsx:91 | whatever the random draws, the shuffle is a permutation of its input |
| Generator.ChoiceOptions | src/screens/learning/LearningModeScreen.tsx:99-106 | the options contain the correct meaning and have length 1 + min(3, other-id entries); every other option is another word's meaning |
| Generator.ExerciseIdsDistinct | src/screens/learning/LearningModeScreen.tsx:109 | ids `exercise-i` of different positions differ |
| Generator.Chosen | src/screens/learning/LearningModeScreen.tsx:91-94 | the session takes min(padded length, max) words |
| Generator.ChosenIsPrefixOfPermutation | src/screens/learning/LearningModeScreen.tsx:91-94 | the chosen words are a prefix of a permutation of the padded list |
| Generator.GenerateLearning | src/screens/learning/LearningModeScreen.tsx:81-116 | min(padded, 10) multiple-choice exercises, id `exercise-i`, question the word, answer its meaning, the answer among the options |
| Generator.NoOtherIdsOneOption | src/screens/learning/LearningModeScreen.tsx:99-106 | with no entry of another id the options are exactly the correct meaning |
| Generator.SingleWordHasOneOption | src/screens/learning/LearningModeScreen.tsx:83-106 | a one-word list yields exercises with a single option |
| Generator.FirstMatch | src/screens/test/TestModeScreen.tsx:174-175 | the position found is a whole-word, case-insensitive match and no earlier position matches |
| Generator.FirstMatchIsFirst | src/screens/test/TestModeScreen.tsx:174-175 | the search returns the first match whenever there is one |
| Generator.BlankOut | src/screens/test/TestModeScreen.tsx:172-175 | without a match the context is unchanged; otherwise the first match is replaced by `_____` |
| Generator.GenerateTest | src/screens/test/TestModeScreen.tsx:131-188 | min(padded, 15) exercises typed by position mod 3; options only for multiple choice and containing the answer; the answer is the word for write, the meaning otherwise |
| Generator.TestQuestions | src/screens/test/TestModeScreen.tsx:170-178 | write shows the meaning, multiple choice the word, fill-in-the-blank the blanked context, or the word when there is no context |
| Generator.FillBlankWithoutMatch | src/screens/test/TestModeScreen.tsx:172-175 | a context that does not mention the headword is shown unchanged |
| Outcomes.SetAt | src/screens/learning/LearningModeScreen.tsx:201-206 | writing result i sets entry i, leaves the others, and grows the array past its end as a JavaScript array write does |
| Outcomes.CountCorrect | src/screens/learning/LearningModeScreen.tsx:176-179 | the count is at most the number of exercises |
| Outcomes.CountCorrectIsCardinality | src/screens/learning/LearningModeScreen.tsx:176-179 | the count is the number of positions holding a correct result |
| Outcomes.NothingAnsweredCountsZero | src/screens/learning/LearningModeScreen.tsx:194-196 | fresh (all-null) results count no correct answer |
| Outcomes.CountCorrectUnchangedOutside | src/screens/learning/LearningModeScreen.tsx:176-179 | the count depends only on the correctness at the exercise positions |
| Outcomes.CountCorrectOneMore | src/screens/learning/LearningModeScreen.tsx:176-179 | turning one position correct raises the count by exactly one |
| Outcomes.RecordingMovesCount | src/screens/learning/LearningModeScreen.tsx:199-208 | recording an answer in an empty slot raises the count by one exactly when it is correct |
| Learning.Load | src/screens/learning/LearningModeScreen.tsx:52-74 | a failed fetch sets the error; a fetch goes to the intro, and for a non-empty word list the exercises are exactly those the generator makes from the fetched words |
| Learning.Start | src/screens/learning/LearningModeScreen.tsx:119-124 | the session starts at exercise 0 with score and streak 0, leaving the results array as it is |
| Learning.Record | src/screens/learning/LearningModeScreen.tsx:199-208 | in feedback with an answer, exactly the current index is written; otherwise nothing changes |
| Learning.Select | src/screens/learning/LearningModeScreen.tsx:127-145 | a second tap is ignored; correctness is exact equality; a correct answer earns 10 + min(streak, 5) and increments the streak; a wrong one resets it |
| Learning.Next | src/screens/learning/LearningModeScreen.tsx:168-191 | before the last exercise it advances and clears the selection; after it, it shows the summary and reports correct, total and score |
| Learning.Restart | src/screens/learning/LearningModeScreen.tsx:227-242 | the exercises are exactly those the generator makes anew from the words; empty results of the same length; index, score and streak at 0 |
| Learning.InvPreserved | src/screens/learning/LearningModeScreen.tsx:119-242 | every handler keeps the index on an exercise |
| Learning.ConsecutiveCorrect | src/screens/learning/LearningModeScreen.tsx:137-142 | k correct answers in a row add the streak totals 10, 11, …, 15, 15, … and raise the streak by k |
| Learning.StreakAwards | src/screens/learning/LearningModeScreen.tsx:137-142 | from a fresh streak the totals are 10, 21, …, 75, 90 |
| Learning.SummaryCountsRecordedCorrect | src/screens/learning/LearningModeScreen.tsx:174-186 | the summary counts exactly the recorded correct answers |
| Learning.LastAnswerCounts | src/screens/learning/LearningModeScreen.tsx:127-191 | answering the last exercise correctly adds one to the summary's count |
| TestMode.Load | src/screens/test/TestModeScreen.tsx:54-83 | a failed fetch sets the error; for a non-empty list the exercises are exactly those the test generator makes from the fetched words |
| TestMode.Start | src/screens/test/TestModeScreen.tsx:191-200 | the clock is wound to 300 seconds and started, and one empty result slot is made per exercise |
| TestMode.Record | src/screens/test/TestModeScreen.tsx:324-333 | in feedback with an answer, exactly the current index is written |
| TestMode.SelectPoints | src/screens/test/TestModeScreen.tsx:213-220 | a tapped correct answer earns 15 for write, 12 for fill-in-the-blank and 10 otherwise |
| TestMode.Select | src/screens/test/TestModeScreen.tsx:203-226 | a second tap is ignored; exact equality decides; the points go by kind; the result is recorded at the current index and every other slot, the exercises and the clock stay |
| TestMode.SubmitWritten | src/screens/test/TestModeScreen.tsx:249-267 | a blank entry is ignored; otherwise the trimmed, lower-cased entry is compared, a match earns 15, the result is recorded at the current index, and every other slot, the exercises and the clock stay |
| TestMode.Finish | src/screens/test/TestModeScreen.tsx:110-128 | the clock stops, the summary counts the recorded correct answers, and the report's time spent is 300 minus the time left |
| TestMode.Next | src/screens/test/TestModeScreen.tsx:290-316 | before the last exercise it advances and clears the answer fields; after it the test finishes |
| TestMode.Tick | src/screens/test/TestModeScreen.tsx:86-107 | a running clock counts down one second, and at one second or less it reaches 0 and finishes the test |
| TestMode.Quit | src/screens/test/TestModeScreen.tsx:382-386 | quitting stops the clock and reports nothing |
| TestMode.Restart | src/screens/test/TestModeScreen.tsx:359-374 | the exercises are exactly those the test generator makes anew from the words; empty results; answer fields cleared; score 0; back to the intro |
| TestMode.Countdown | src/screens/test/TestModeScreen.tsx:89-98 | k ticks short of zero only lower the time left by k |
| TestMode.TimeRunsOut | src/screens/test/TestModeScreen.tsx:86-128 | left alone after the start, the test is still running after 299 ticks and in the summary with the clock stopped after 300 |
| TestMode.TicksSplit | src/screens/test/TestModeScreen.tsx:86-107 | a + b ticks are a ticks followed by b ticks |
| TestMode.TimeUpReport | src/screens/test/TestModeScreen.tsx:92-95 | when time runs out the clock shows 0, yet the report's time spent is 299, because the last tick reports before setting 0 |
| TestMode.FinishPathsAgree | src/screens/test/TestModeScreen.tsx:100-101 | time up on the last exercise and moving past it give the same summary and report |
| TestMode.WrittenForgivesCaseAndSpace | src/screens/test/TestModeScreen.tsx:255 | surrounding white space and ASCII case do not affect a typed answer |
| TestMode.WrittenMatchesIff | src/screens/test/TestModeScreen.tsx:255 | a typed answer matches exactly when its trimmed form equals the answer up to ASCII case |
| TestMode.FillBlankTypedEarnsFifteen | src/screens/test/TestModeScreen.tsx:249-260 | a correct typed fill-in-the-blank earns 15, not the tap path's 12 |
| TestMode.FormatTime | src/screens/test/TestModeScreen.tsx:352-356 | the display is digits with a colon three places from the end |
| TestMode.SecondsText | src/screens/test/TestModeScreen.tsx:354-355 | the seconds are always two digits |
| TestMode.FormatTimeRoundTrip | src/screens/test/TestModeScreen.tsx:352-356 | reading `m:ss` back gives the number of seconds |
| TestMode.FormatTimeExamples | src/screens/test/TestModeScreen.tsx:352-356 | 300 shows as 5:00, 65 as 1:05 and 0 as 0:00 |
| Api.FindList | src/api/apiService.ts:552 | the first list with the id, or -1 when none has it |
| Api.ListResult | src/api/apiService.ts:731-737 | a list hit carries the list's id and its name as the title |
| Api.GetListById | src/api/apiService.ts:249-275 | without a token it throws; it returns the first list with the id, and throws when there is none |
| Api.MergeList | src/api/apiService.ts:558-561 | the given fields override the list, while id, createdAt, wordCount, progress and language stay |
| Api.UpdateList | src/api/apiService.ts:531-568 | the token gate; an unknown id throws; otherwise the stored list merged with the given fields |
| Api.MergeListIdempotent | src/api/apiService.ts:558-561 | merging the same fields twice changes nothing more |
| Api.MatchingLists | src/api/apiService.ts:726-729 | a list is reported exactly when it is one of the stored lists and matches the query |
| Api.MatchingListsOrder | src/api/apiService.ts:726-729 | the reported lists keep the stored order: the matches of a concatenation are the matches of each part in turn, and a single list is kept exactly when it matches |
| Api.WordResults | src/api/apiService.ts:743-779 | at most three word hits, each in the home list |
| Api.Search | src/api/apiService.ts:699-793 | the token gate; lists only gives list hits and words only gives word hits; in relevance order the results are exactly the list hits followed by the word hits, each part present unless the filter excludes it |
| Api.SearchByDateReverses | src/api/apiService.ts:782-786 | sorting by date gives exactly the relevance order reversed, both ways |
| Api.ListFoundIff | src/api/apiService.ts:725-740 | with lists wanted, a list is among the results exactly when it matches the query |
| Api.ListResultDeterminesMatch | src/api/apiService.ts:726-738 | two lists with the same result entry agree on whether they match |
| Api.SearchWords | src/api/apiService.ts:878-930 | the token gate; exactly the catalogue entries whose value or meaning contains the query, case-sensitively |
| Api.SearchWordsEmptyQuery | src/api/apiService.ts:923 | the empty query matches every entry |
| Api.MergeSettings | src/api/apiService.ts:980-983 | each field of the partial overrides, each absent field keeps the current value |
| Api.GetUserSettings | src/api/apiService.ts:933-961 | with a token, the stored settings |
| Api.UpdateUserSettings | src/api/apiService.ts:964-990 | the token gate; the stored settings overridden by the partial |
| Api.MergeSettingsLaws | src/api/apiService.ts:980-983 | an empty partial returns the settings unchanged and a full one replaces them |
| Search.SaveToHistory | src/screens/search/SearchScreen.tsx:53-59 | a blank query is ignored; otherwise the query comes first, any earlier copy is dropped, and at most 10 are kept |
| Search.SaveKeepsOrder | src/screens/search/SearchScreen.tsx:58 | the other entries keep their relative order |
| Search.SavePreservesUnique | src/screens/search/SearchScreen.tsx:58 | a duplicate-free history stays duplicate-free |
| Search.SaveIdempotent | src/screens/search/SearchScreen.tsx:58 | saving the same query twice equals saving it once |
| Search.RunSearch | src/screens/search/SearchScreen.tsx:79-99 | a blank query does nothing; otherwise the query is saved first, then the results or the error are shown |
| Search.Submit | src/screens/search/SearchScreen.tsx:79-99 | the search runs with the current filter and sort |
| Search.ChangeFilterAsWritten | src/screens/search/SearchScreen.tsx:102-109 | the filter is stored, but the re-run reads the filter from before the change |
| Search.ChangeFilter | src/screens/search/SearchScreen.tsx:102-109 | the intended handler: the re-run uses the new filter |
| Search.ChangeSortAsWritten | src/screens/search/SearchScreen.tsx:112-119 | the sort is stored, but the re-run reads the sort from before the change |
| Search.ChangeSort | src/screens/search/SearchScreen.tsx:112-119 | the intended handler: the re-run uses the new sort |
| Search.StaleFilterShowsWords | src/screens/search/SearchScreen.tsx:102-109 | switching to lists only with the query "apple" still shows a word hit |
| Search.StaleFilterKeepsWordHits | src/screens/search/SearchScreen.tsx:102-109 | from all results, any query with a word hit still shows one after switching to lists only |
| Search.StaleSortKeepsRelevanceOrder | src/screens/search/SearchScreen.tsx:112-119 | switching from relevance to date shows the relevance results, the reverse of what the intended handler shows |
| Search.ChangeFilterRespectsFilter | src/screens/search/SearchScreen.tsx:102-109 | with the intended handler, lists only shows list hits only |
| Search.ClearHistory | src/screens/search/SearchScreen.tsx:69-76 | the history becomes empty and nothing else changes |
| Search.Target | src/screens/search/SearchScreen.tsx:140-147 | a list hit opens itself; a word hit opens its list, or '' when it has none |
| Search.WordHitsOpenHomeList | src/screens/search/SearchScreen.tsx:140-147 | every word hit of a search opens the home list |
| WordLists.OrderTotal | src/screens/lists/WordListsScreen.tsx:80-99 | each sort comparator is total |
| WordLists.OrderTransitive | src/screens/lists/WordListsScreen.tsx:80-99 | each sort comparator is transitive |
| Sorting.SortBy | src/screens/lists/WordListsScreen.tsx:80-99 | sorting with a comparator returns a permutation of its input |
| WordLists.FilterLists | src/screens/lists/WordListsScreen.tsx:71-77 | an empty query keeps every list; otherwise exactly the lists whose lower-cased name or description contains the lower-cased query |
| WordLists.ApplyFilters | src/screens/lists/WordListsScreen.tsx:69-102 | the result is a permutation of the filtered lists, ordered by the chosen comparator |
| WordLists.ShownIff | src/screens/lists/WordListsScreen.tsx:69-102 | a list is shown exactly when it was fetched and passes the search box |
| WordLists.SortOptionMeaning | src/screens/lists/WordListsScreen.tsx:80-99 | name, date and word-count options give ascending or descending order on that field |
| WordLists.Fetched | src/screens/lists/WordListsScreen.tsx:28-41 | a fetch stores the lists and re-applies the current query and sort; a failure sets the error |
| WordLists.ChangeSearch | src/screens/lists/WordListsScreen.tsx:56-59 | a new query is applied with the current sort |
| WordLists.ChangeSort | src/screens/lists/WordListsScreen.tsx:62-66 | a new sort is applied with the current query |
| WordLists.ConsistentAlways | src/screens/lists/WordListsScreen.tsx:24-66 | the view always equals the fetched lists under the current query and sort, starting from date_desc |
| ListDetails.OrderLaws | src/screens/details/ListDetailsScreen.tsx:117-123 | both word comparators are total and transitive |
| ListDetails.FilterWords | src/screens/details/ListDetailsScreen.tsx:106-114 | an empty query keeps every word; otherwise the words whose value, meaning or context contains the query, ignoring case |
| ListDetails.FilterAndSort | src/screens/details/ListDetailsScreen.tsx:104-126 | a permutation of the filtered words in the chosen order |
| ListDetails.FilterAndSortMeaning | src/screens/details/ListDetailsScreen.tsx:104-126 | a word is shown exactly when it is in the list and passes the search; alphabetical sorts by value, any other sort newest first |
| ListDetails.ReplaceById | src/screens/details/ListDetailsScreen.tsx:195 | the edited word replaces every entry with its id, and every other entry stays |
| ListDetails.RemoveById | src/screens/details/ListDetailsScreen.tsx:215 | no entry with the id remains; every other word keeps exactly as many copies as it had; nothing new appears |
| ListDetails.RemoveByIdOrder | src/screens/details/ListDetailsScreen.tsx:215 | the kept words stay in order: removal from a concatenation is removal from each part in turn, and a single word is kept exactly when its id differs |
| ListDetails.ReplaceRemoveLaws | src/screens/details/ListDetailsScreen.tsx:195-215 | replacing twice equals replacing once; removing after replacing equals removing |
| ListDetails.RemoveKeepsOthers | src/screens/details/ListDetailsScreen.tsx:215 | removing an absent id changes nothing |
| ListDetails.Refresh | src/screens/details/ListDetailsScreen.tsx:58-62 | the view is recomputed only while the list has words |
| ListDetails.ChangeQuery | src/screens/details/ListDetailsScreen.tsx:58-62 | a new query keeps the words; while there are words the view is recomputed with the new query, otherwise it stays |
| ListDetails.ChangeSort | src/screens/details/ListDetailsScreen.tsx:58-62 | a new sort keeps the words; while there are words the view is recomputed with the new sort, otherwise it stays |
| ListDetails.EditList | src/screens/details/ListDetailsScreen.tsx:129-153 | a blank name alerts before any call; otherwise the merged list or an alert |
| ListDetails.SaveEditedWord | src/screens/details/ListDetailsScreen.tsx:177-205 | nothing without a word being edited; blank fields alert; success replaces the word by id |
| ListDetails.DeleteWord | src/screens/details/ListDetailsScreen.tsx:208-223 | no id does nothing; success removes the id's entries; failure alerts |
| ListDetails.DeletingLastWordKeepsView | src/screens/details/ListDetailsScreen.tsx:58-62 | deleting the last word leaves the previous filtered view on screen |
| CreateList.ValidateName | src/screens/lists/CreateListScreen.tsx:91-101 | valid exactly at three or more characters; empty and short have their own messages |
| CreateList.ValidateDescription | src/screens/lists/CreateListScreen.tsx:103-113 | valid exactly at ten or more characters; empty and short have their own messages |
| CreateList.FindTemplate | src/screens/lists/CreateListScreen.tsx:118 | the template found has the id; none found means no template has it |
| CreateList.SelectTemplate | src/screens/lists/CreateListScreen.tsx:116-131 | a known template fills name and description, 'custom' clears them, an unknown id only changes the selection |
| CreateList.Continue | src/screens/lists/CreateListScreen.tsx:134-136 | only the step changes |
| CreateList.Back | src/screens/lists/CreateListScreen.tsx:139-141 | only the step changes |
| CreateList.BackKeepsFields | src/screens/lists/CreateListScreen.tsx:134-141 | going to the form and back keeps everything filled in |
| CreateList.CreateRequest | src/screens/lists/CreateListScreen.tsx:144-160 | a request exactly when both fields are valid; empty context and source are sent as absent |
| CreateList.Create | src/screens/lists/CreateListScreen.tsx:144-171 | both messages are shown; no call when invalid; success opens the new list and failure shows an error |
| CreateList.BothErrorsAtOnce | src/screens/lists/CreateListScreen.tsx:147-148 | with both fields empty both messages appear together |
| CreateList.TemplatesAreValid | src/screens/lists/CreateListScreen.tsx:21-52 | every template's name and description pass validation |
| CreateList.TravelTemplateReady | src/screens/lists/CreateListScreen.tsx:116-160 | the travel template gives a form ready to create |
| AddWord.ValidateWord | src/screens/words/AddWordScreen.tsx:70-77 | only the empty string is rejected |
| AddWord.ValidateMeaning | src/screens/words/AddWordScreen.tsx:79-86 | only the empty string is rejected |
| AddWord.SpacesPassValidation | src/screens/words/AddWordScreen.tsx:70-86 | a whitespace-only field passes, although it is blank |
| AddWord.BulkLines | src/screens/words/AddWordScreen.tsx:95-96 | the lines kept are non-blank and contain no newline |
| AddWord.ValidateBulk | src/screens/words/AddWordScreen.tsx:88-109 | valid exactly when the text is non-empty, has a non-blank line and every such line has ':'; each failure has its message |
| AddWord.ParseLine | src/screens/words/AddWordScreen.tsx:209-212 | a line has a meaning exactly when it contains ':' |
| AddWord.SplitHasTwoParts | src/screens/words/AddWordScreen.tsx:210 | splitting at ':' gives two or more parts exactly when there is a ':' |
| AddWord.ParseLineMeaning | src/screens/words/AddWordScreen.tsx:209-212 | value is the trimmed text before the first ':' and meaning the trimmed text up to the second |
| AddWord.ColonWithoutMeaningValid | src/screens/words/AddWordScreen.tsx:88-109 | "apple:" passes validation |
| AddWord.ColonWithoutMeaningParsed | src/screens/words/AddWordScreen.tsx:209-212 | "apple:" is added with meaning '' |
| AddWord.BulkRequests | src/screens/words/AddWordScreen.tsx:209-214 | one request per non-blank line, in order, without context |
| AddWord.ValidBulkHasMeanings | src/screens/words/AddWordScreen.tsx:88-214 | every request of valid bulk text has a meaning |
| AddWord.Suggestions | src/screens/words/AddWordScreen.tsx:116-123 | five suggestions: the text followed by able, ful, ness, ing and er |
| AddWord.WordChange | src/screens/words/AddWordScreen.tsx:112-130 | from two characters on the suggestions show; below that they are hidden |
| AddWord.SelectSuggestion | src/screens/words/AddWordScreen.tsx:133-136 | the suggestion becomes the word and the list hides |
| AddWord.AutoTranslate | src/screens/words/AddWordScreen.tsx:139-164 | without a word it shows an error; otherwise the meaning becomes the word followed by " anlamı" |
| AddWord.SingleRequest | src/screens/words/AddWordScreen.tsx:167-183 | a request exactly when both fields are non-empty |
| AddWord.AddSingle | src/screens/words/AddWordScreen.tsx:167-198 | both checks show; success prepends the new word and clears the three fields; failure shows an error |
| AddWord.AddAll | src/screens/words/AddWordScreen.tsx:210-220 | waiting for all calls succeeds exactly when every call succeeds, and then gives each call's word in request order |
| AddWord.SendBulk | src/screens/words/AddWordScreen.tsx:220-232 | when every call succeeds the answered words go in front of the added words, in request order, and the bulk form is emptied and closed; when any call fails the added words are kept and the error message shows |
| AddWord.AddBulk | src/screens/words/AddWordScreen.tsx:201-236 | the check's message is shown; invalid text sends nothing and keeps the text; valid text sends one request per non-blank line |
| AddWord.BulkAddsOnePerLine | src/screens/words/AddWordScreen.tsx:209-223 | a valid bulk text whose calls all succeed adds exactly one word per non-blank line, each the answer to that line's request, in line order, in front of the earlier words |
| AddWord.SendLinesAdded | src/screens/words/AddWordScreen.tsx:209-223 | one request per line, all answered, puts the answers first in line order and keeps the earlier words behind them |
| AddWord.Delete | src/screens/words/AddWordScreen.tsx:239-249 | success removes exactly the entries with the id; failure changes nothing |
| Camera.ToggleFlash | src/screens/camera/CameraScanScreen.tsx:79-85 | the flash mode always changes |
| Camera.ToggleCameraType | src/screens/camera/CameraScanScreen.tsx:88-94 | the camera side always changes |
| Camera.TogglesAreInvolutions | src/screens/camera/CameraScanScreen.tsx:79-94 | toggling twice restores flash and camera |
| Camera.ToggleSelection | src/screens/camera/CameraScanScreen.tsx:167-173 | the words with the id flip their selection and all others stay |
| Camera.ToggleTwice | src/screens/camera/CameraScanScreen.tsx:167-173 | toggling the same id twice restores the words |
| Camera.UpdateWord | src/screens/camera/CameraScanScreen.tsx:182-193 | without a word being edited nothing changes; otherwise it replaces the entries with its id |
| Camera.UpdateKeepsIds | src/screens/camera/CameraScanScreen.tsx:182-193 | editing keeps every id in place |
| Camera.Reset | src/screens/camera/CameraScanScreen.tsx:161-164 | the image and the detected words are cleared; the chosen list stays |
| Camera.NewListRequest | src/screens/camera/CameraScanScreen.tsx:196-210 | a request exactly when the name is not blank, with the fixed description and language |
| Camera.CreateNewList | src/screens/camera/CameraScanScreen.tsx:196-219 | a blank name alerts; success adds and selects the list; failure alerts |
| Camera.AsNewWords | src/screens/camera/CameraScanScreen.tsx:236-242 | each selected word becomes a request with its value and meaning |
| Camera.AddAct | src/screens/camera/CameraScanScreen.tsx:222-234 | no list opens the list dialog; nothing selected warns; otherwise the selected words are sent |
| Camera.SendIff | src/screens/camera/CameraScanScreen.tsx:222-234 | words are sent exactly when a list is chosen and some word is selected |
| Camera.AddWordsToList | src/screens/camera/CameraScanScreen.tsx:222-270 | the list dialog, the nothing-selected warning, or the failure alert; success only raises the alert with the number of words added, and the scan is reset only from that alert's button |
| Camera.SelectList | src/screens/camera/CameraScanScreen.tsx:273-276 | the list is chosen and the dialog closes |
| Ocr.Tokens | src/utils/ocrService.ts:27 | splitting on white space gives non-empty runs without white space |
| Ocr.Strip | src/utils/ocrService.ts:29 | only ASCII letters remain |
| Ocr.Dedupe | src/utils/ocrService.ts:32 | no duplicates, the same members, in order of first occurrence |
| Ocr.FirstIndexInPrefix | src/utils/ocrService.ts:32 | appending an element does not move earlier first occurrences |
| Ocr.ExtractWords | src/utils/ocrService.ts:26-32 | distinct lower-case letter words, exactly those of the cleaned text, in order of first occurrence |
| Ocr.ShortWordThroughLengthTest | src/utils/ocrService.ts:28-30 | the length test runs before stripping, so "a1!" yields "a" |
| Ocr.Translate | src/utils/ocrService.ts:419 | a word with a non-empty entry gets it; any other gets the word with " (çeviri yok)" |
| Ocr.TranslateWords | src/utils/ocrService.ts:414-420 | exactly the given words are keys, each mapped to its translation |
| Ocr.Detect | src/utils/ocrService.ts:439-444 | one detected word per word, id i + 1 in decimal, translated, selected |
| Ocr.DetectDistinct | src/utils/ocrService.ts:439-444 | distinct words give distinct ids and values |
| Ocr.ProcessText | src/utils/ocrService.ts:430-446 | the detected words are the extracted words, all selected, with distinct ids and values |
| Dictionary.PhraseLaterEntryWins | src/utils/ocrService.ts:98-145 | in the object literal the later "phrase" entry, "öbek", is the one kept |
| Dictionary.LetterLaterEntryWins | src/utils/ocrService.ts:71-369 | the later "letter" entry, "harf", is the one kept |
| Dictionary.QuestionLaterEntryWins | src/utils/ocrService.ts:76-379 | the later "question" entry, "soru işareti", is the one kept |
| Speech.Register | src/utils/speechService.ts:24-26 | the lower-cased command is appended; listening state is untouched |
| Speech.RegisterKeepsOrder | src/utils/speechService.ts:24-26 | commands are kept in registration order |
| Speech.FirstCommand | src/utils/speechService.ts:121-126 | the command found occurs in the text and no earlier one does |
| Speech.Process | src/utils/speechService.ts:117-135 | unknown exactly when no command occurs in the lower-cased text; otherwise the first such command runs |
| Speech.FirstRegisteredWins | src/utils/speechService.ts:117-135 | when two commands match, the first registered runs |
| Speech.StartListening | src/utils/speechService.ts:29-71 | no-op while listening; otherwise listening exactly when start succeeded, and a failure is rethrown |
| Speech.StopListening | src/utils/speechService.ts:74-114 | no-op unless listening and recording; afterwards not listening; recognised text is dispatched |
| Speech.ListeningFlag | src/utils/speechService.ts:29-114 | listening implies a recording, and stopping always clears the flag |
| Speech.Feedback | src/utils/speechService.ts:204-213 | the four messages by score thresholds 90, 80 and 70 |
| Speech.Evaluate | src/utils/speechService.ts:196-216 | scores are 60 to 100 and the feedback matches the thresholds |
| Speech.EveryMessageReachable | src/utils/speechService.ts:201-213 | each message is reached by some draw |
| Voice.Target | src/screens/voice/VoiceCommandsScreen.tsx:151-152 | the target is a valid position: one on or one back, wrapping round; a lost word counts as -1, so next goes to the first word and previous to the second-to-last (the first when there is one word) |
| Voice.FindIndex | src/screens/voice/VoiceCommandsScreen.tsx:151 | the first position holding the id, or -1 when no word has it |
| Voice.JsRem | src/screens/voice/VoiceCommandsScreen.tsx:152 | JavaScript's `%`: the ordinary remainder for a non-negative dividend, and always strictly between -n and n |
| Voice.NextPosIsRem | src/screens/voice/VoiceCommandsScreen.tsx:152 | one on with wrap is `(i + 1) % n` |
| Voice.PrevPosIsRem | src/screens/voice/VoiceCommandsScreen.tsx:164 | one back with wrap is `(i - 1 + n) % n` |
| Voice.Move | src/screens/voice/VoiceCommandsScreen.tsx:148-169 | no-op without a current word or words; otherwise the neighbour becomes current and score and feedback clear |
| Voice.Next | src/screens/voice/VoiceCommandsScreen.tsx:148-157 | the words stay and the new current word is one of them |
| Voice.Prev | src/screens/voice/VoiceCommandsScreen.tsx:160-169 | the words stay and the new current word is one of them |
| Voice.NextPrevPositions | src/screens/voice/VoiceCommandsScreen.tsx:148-169 | with distinct ids, next moves one on and previous one back, wrapping |
| Voice.NextThenPrev | src/screens/voice/VoiceCommandsScreen.tsx:148-169 | previous undoes next, and next undoes previous |
| Voice.NextsPosition | src/screens/voice/VoiceCommandsScreen.tsx:148-157 | k moves forward go to position i + k, wrapped |
| Voice.FullCircle | src/screens/voice/VoiceCommandsScreen.tsx:148-157 | n moves forward come back to the starting word |
| Voice.LostWordGoesToFirst | src/screens/voice/VoiceCommandsScreen.tsx:151-152 | a current word not in the list moves to the first word |
| Voice.Load | src/screens/voice/VoiceCommandsScreen.tsx:59-77 | no list opens the dialog; loaded words replace the list with the first current; failure alerts |
| Voice.LoadStartsAtFirst | src/screens/voice/VoiceCommandsScreen.tsx:65-72 | after loading a non-empty list the first word is current |
| Flashcards.Flip | src/screens/flashcards/FlashcardsScreen.tsx:82-96 | only the side changes |
| Flashcards.Next | src/screens/flashcards/FlashcardsScreen.tsx:99-115 | before the last card one on and face up; on the last card completed at 100 without moving |
| Flashcards.Prev | src/screens/flashcards/FlashcardsScreen.tsx:118-130 | one back, face up, only when not at the first card |
| Flashcards.Restart | src/screens/flashcards/FlashcardsScreen.tsx:133-139 | index 0, face up, not completed, progress 0 |
| Flashcards.LoadWords | src/screens/flashcards/FlashcardsScreen.tsx:64-79 | the same reset, then the new words, kept on failure |
| Flashcards.InRangeAlways | src/screens/flashcards/FlashcardsScreen.tsx:64-139 | every handler keeps the index on a card |
| Flashcards.WalkStaysOnCards | src/screens/flashcards/FlashcardsScreen.tsx:82-130 | for a non-empty deck any sequence of moves keeps the index in 0..n-1 |
| Flashcards.NextThenPrev | src/screens/flashcards/FlashcardsScreen.tsx:99-130 | back undoes forward before the last card |
| Flashcards.LastCardCompletes | src/screens/flashcards/FlashcardsScreen.tsx:110-139 | forward on the last card completes the deck, and restart reopens it |
| AuthForms.EmailPattern | src/screens/auth/LoginScreen.tsx:27 | the e-mail test accepts exactly the strings the pattern `^[^\s@]+@[^\s@]+\.[^\s@]+$` matches |
| AuthForms.EmailExamples | src/screens/auth/LoginScreen.tsx:27 | a@b.c passes; a@b., @b.c and a@.c do not |
| AuthForms.ShapeIsValid | src/screens/auth/LoginScreen.tsx:27 | any three non-empty parts without white space or '@', joined as local@domain.tld, pass |
| AuthForms.EmailError | src/screens/auth/LoginScreen.tsx:21-32 | no message exactly for a valid address; empty and invalid have their own messages |
| AuthForms.PasswordError | src/screens/auth/LoginScreen.tsx:34-44 | no message exactly from six characters on |
| AuthForms.NameError | src/screens/auth/RegisterScreen.tsx:27-37 | no message exactly from two characters on |
| AuthForms.ConfirmError | src/screens/auth/RegisterScreen.tsx:64-74 | no message exactly when the confirmation is present and equals the password |
| AuthForms.RegisterChecked | src/screens/auth/RegisterScreen.tsx:76-83 | all four checks run, so every message shows at once |
| AuthForms.RegisterCall | src/screens/auth/RegisterScreen.tsx:76-90 | the call is made exactly when all four fields are valid, with name, e-mail and password |
| AuthForms.RegisterCallIffNoErrors | src/screens/auth/RegisterScreen.tsx:76-90 | a call is made exactly when no message shows |
| AuthForms.LoginChecked | src/screens/auth/LoginScreen.tsx:46-50 | both checks run |
| AuthForms.LoginCall | src/screens/auth/LoginScreen.tsx:46-59 | the call is made exactly when both fields are valid |
| AuthForms.LoginSubmit | src/screens/auth/LoginScreen.tsx:46-59 | the form shows both messages and keeps its fields, whatever the call does |
| AuthForms.LoginFailureIsCaught | src/screens/auth/LoginScreen.tsx:51-57 | a failed login leaves the form exactly as a successful one does, because the error is only logged |
| AuthForms.ForgotSubmit | src/screens/auth/ForgotPasswordScreen.tsx:33-53 | old messages clear; an invalid address sends nothing; success shows the answer's message and clears the address; the failure and error cases show fixed texts |
| AuthForms.ForgotClearsOldMessages | src/screens/auth/ForgotPasswordScreen.tsx:33-39 | a new submission with an invalid address removes both old messages |
| AuthContext.Failed | src/context/AuthContext.tsx:79-86 | a failure keeps user and authentication, ends loading and sets the message |
| AuthContext.SignedIn | src/context/AuthContext.tsx:73-78 | the user, authenticated, not loading, no error |
| AuthContext.Load | src/context/AuthContext.tsx:42-64 | authenticated exactly when a user came back; a failure leaves nobody signed in with 'Failed to load user' |
| AuthContext.SignIn | src/context/AuthContext.tsx:67-110 | success signs the user in; failure keeps the state, sets the message and rethrows |
| AuthContext.Login | src/context/AuthContext.tsx:67-87 | success sets the user and authenticated; failure sets 'Invalid email or password', keeps the rest and rethrows |
| AuthContext.Register | src/context/AuthContext.tsx:90-110 | the same, with 'Registration failed' |
| AuthContext.Logout | src/context/AuthContext.tsx:113-133 | success clears the user; failure sets 'Logout failed', keeps the user and rethrows |
| AuthContext.ForgotPassword | src/context/AuthContext.tsx:136-157 | user and authentication never change; the API's answer is returned unchanged; a failure sets 'Password reset failed' |
| AuthContext.ConsistentAlways | src/context/AuthContext.tsx:34-157 | every operation keeps "authenticated exactly when there is a user" |
| AuthContext.RegisterLikeLogin | src/context/AuthContext.tsx:67-110 | register differs from login only in its failure message |
| AuthContext.LoginThenLogout | src/context/AuthContext.tsx:67-133 | signing in and then out equals a load that found nobody |
| AuthContext.FailedLoginKeepsSession | src/context/AuthContext.tsx:79-86 | a failed login does not sign out a signed-in user |
| Theme.SystemMode | src/context/ThemeContext.tsx:32 | a device without a scheme counts as dark |
| Theme.Resolve | src/context/ThemeContext.tsx:54-60 | 'system' resolves to the device scheme, otherwise the chosen theme |
| Theme.Initial | src/context/ThemeContext.tsx:31-35 | the initial theme is 'system', applied as the device scheme |
| Theme.SetTheme | src/context/ThemeContext.tsx:63-65 | the theme is replaced and the applied theme follows |
| Theme.SchemeChanged | src/context/ThemeContext.tsx:54-60 | a device change re-resolves the applied theme |
| Theme.LoadTheme | src/context/ThemeContext.tsx:38-51 | a stored theme is taken only when present; otherwise, or on failure, nothing changes |
| Theme.SettledAlways | src/context/ThemeContext.tsx:31-65 | the applied theme always agrees with the choice and the device |
| Theme.FixedIgnoresDevice | src/context/ThemeContext.tsx:54-60 | a fixed choice ignores the device; 'system' follows it |
| Theme.SetThemeLastWins | src/context/ThemeContext.tsx:63-65 | the last theme set wins |
| SettingsScreen.Load | src/screens/settings/SettingsScreen.tsx:38-52 | the stored settings replace the local ones; a failure keeps them and shows a message |
| SettingsScreen.Save | src/screens/settings/SettingsScreen.tsx:55-68 | the settings change only when the save succeeds; otherwise an error shows |
| SettingsScreen.ThemeChange | src/screens/settings/SettingsScreen.tsx:72-79 | the context takes the new theme whatever the save does |
| SettingsScreen.NotificationsToggle | src/screens/settings/SettingsScreen.tsx:82-85 | a successful save negates notifications |
| SettingsScreen.LanguageChange | src/screens/settings/SettingsScreen.tsx:88-92 | a successful save sets the language; the dialog closes either way |
| SettingsScreen.SessionLengthChange | src/screens/settings/SettingsScreen.tsx:95-99 | a successful save sets the session length; the dialog closes either way |
| SettingsScreen.AutoPlayToggle | src/screens/settings/SettingsScreen.tsx:102-105 | a successful save negates auto-play |
| SettingsScreen.OneFieldEach | src/screens/settings/SettingsScreen.tsx:72-105 | each handler changes exactly one setting |
| SettingsScreen.TogglesUndo | src/screens/settings/SettingsScreen.tsx:82-105 | toggling twice restores the setting |
| SettingsScreen.FailedSaveKeepsSettings | src/screens/settings/SettingsScreen.tsx:55-79 | a failed save keeps the shown settings, while the theme already reached the context |
| SettingsScreen.Logout | src/screens/settings/SettingsScreen.tsx:108-117 | success closes the dialog; failure shows a message |
| SettingsScreen.ClearData | src/screens/settings/SettingsScreen.tsx:120-134 | success closes the dialog; failure shows a message; the settings stay |
| SettingsScreen.ClearDataAsWritten | src/api/apiService.ts:993-1033 | with the export read before `clearUserData` is declared, the handler always ends with the failure message and the dialog as it was |
| SettingsScreen.ClearDataNeverSucceeds | src/screens/settings/SettingsScreen.tsx:120-134 | with the dialog open, a clearing the service would complete leaves the dialog open as written, while the intended handler closes it |
| SettingsScreen.LanguageName | src/screens/settings/SettingsScreen.tsx:137-148 | a known code maps to its name, any other code to itself |
| SettingsScreen.LanguageNameInjective | src/screens/settings/SettingsScreen.tsx:138-145 | different known codes show different names, none of which is a code |
| Progress.Label | src/screens/progress/ProgressTrackingScreen.tsx:133 | names of up to 10 characters are kept; longer ones become their first 10 plus '...', 13 in all |
| Progress.LabelIdempotent | src/screens/progress/ProgressTrackingScreen.tsx:133 | shortening a label again changes nothing |
| Progress.LabelDistinguishes | src/screens/progress/ProgressTrackingScreen.tsx:133 | equal labels mean equal first ten characters and the same side of the length limit |
| Progress.Bars | src/screens/progress/ProgressTrackingScreen.tsx:132-139 | labels and values have the lists' length and order |
| Progress.Pie | src/screens/progress/ProgressTrackingScreen.tsx:141-150 | one slice per status, in order, slice i coloured colors[i mod 5] |
| Progress.PieColoursCycle | src/screens/progress/ProgressTrackingScreen.tsx:141-146 | two slices share a colour exactly when they are a multiple of five apart |
| Progress.Fetch | src/screens/progress/ProgressTrackingScreen.tsx:32-51 | lists are stored before the statistics are fetched; a failure keeps what was not yet replaced |
| Progress.Render | src/screens/progress/ProgressTrackingScreen.tsx:64-150 | loading, then error, then the empty state exactly when the statistics are missing or there are no lists, then the charts |
| Progress.FetchThenRender | src/screens/progress/ProgressTrackingScreen.tsx:32-105 | a failed fetch shows the error and a fetch with no lists the empty state |

## Left out

- Rendering, styles, animations and navigation. `App.tsx`, `HomeScreen.tsx`, `ProfileScreen.tsx` and `src/styles/theme.ts` are UI or routing only.
- Timers and concurrency. These are left out:
  - the 2-second auto-advance racing the manual button;
  - the stale reads of `score` and of the results array from earlier renders;
  - the interplay of the interval and the effect.
  Events are discrete and sequential. A tick is one call of `TestMode.Tick`, and auto-advance is one call of `Next`. No claim is made about a double finalisation.
- Randomness. `sort(() => Math.random() - 0.5)` is modelled as `Sorting.Shuffle` with explicit draws. It is always a permutation, and its fairness is not modelled.
- Speech.Evaluate: the random score `Math.floor(Math.random() * 41) + 60` is a draw below 41 given as a parameter.
- The recognised voice text is a parameter of `Speech.StopListening`, not the random mock. Command callbacks are numbers.
- Floating point:
  - the Learning bonus `10 * (1 + min(streak, 5) * 0.1)` is taken as the integer 10 + min(streak, 5);
  - Flashcards.Percent: the progress percentage is an exact real, not a binary float;
  - rounded displays are left out.
- Regular expressions:
  - Generator.BlankOut: the fill-in-the-blank pattern treats the headword literally. The source builds it unescaped, so a headword with regex metacharacters behaves differently there.
  - `\b` and `\w` are ASCII, and case-insensitivity is ASCII.
- Unicode:
  - `toLowerCase` is ASCII A–Z only;
  - `localeCompare` is lexicographic code-point order;
  - dates are integer timestamps.
- AuthForms.PasswordError: lengths count code points, while JavaScript's `.length` counts UTF-16 units. The two differ only outside the Basic Multilingual Plane. The same holds for the other length checks (`CreateList`, `AddWord`, `Progress.Label`).
- Ocr.Translate: a lookup of an inherited object key such as "constructor" finds a function in the source and a missing entry here.
- SettingsScreen.LanguageName: a lookup of an inherited object key such as "constructor" returns a function in the source and the code itself here.
- Ocr.ProcessText takes the dictionary as a parameter. `Dictionary.Table` is the source's dictionary, about which `Dictionary.PhraseLaterEntryWins`, `Dictionary.LetterLaterEntryWins` and `Dictionary.QuestionLaterEntryWins` state what `Ocr.Translate` finds. Only three of the seventeen repeated keys are proved to resolve to their later entry.
- Foreign calls:
  - Tesseract recognition, expo-camera, ImagePicker, expo-av recording, expo-speech, AsyncStorage and axios;
  - the simulated delays;
  - the permission prompts of `startListening` and of the camera.
  Their outcomes are inputs.
- The hard-coded mock payloads of `getLists`, `getWordsByListId` and `getProgressStats` are inputs. `Api.WordResults` keeps the three fixed word hits, and `Api.GetUserSettings` keeps the stored settings.
- Camera.CreateNewList: the success alert's text is not modelled; only the list added and selected is.
- Progress: the summary, recommended lists and achievements are only displayed and are left out of `Progress.Stats`.
- The settings screen's dialog-opening buttons (`setShow…(true)`) and `cancelQuit` only open or close a dialog and are not modelled.

## Findings

| source | as written | input that shows it | evidently intended | confidence | as-written member | corrected member |
|---|---|---|---|---|---|---|
| src/screens/search/SearchScreen.tsx:102-119 | `handleFilterChange` and `handleSortChange` call `setFilter`/`setSortBy` and then `handleSearch()`, which reads the filter and sort of the current render, so the re-run uses the old value | query "apple", filter all, change to lists only: the results still contain the word hit "apple"; from relevance, change to date: the results stay in relevance order (`StaleFilterKeepsWordHits`, `StaleSortKeepsRelevanceOrder`) | the re-run uses the newly chosen filter or sort | medium, not executed | Search.ChangeFilterAsWritten, Search.ChangeSortAsWritten | Search.ChangeFilter, Search.ChangeSort |
| src/api/apiService.ts:993-1033, 1086 | the default export object lists `clearUserData` at line 1032, but `const clearUserData` is declared only at line 1086, so the object is built before the binding is initialised: module evaluation throws, or with `const` compiled to `var` the member is `undefined` and `apiService.clearUserData()` throws | confirm "clear data" in the settings with any account: the failure message appears and the dialog stays (`ClearDataNeverSucceeds`) | `clearUserData` declared before the export, so a successful call closes the dialog | medium, not executed | SettingsScreen.ClearDataAsWritten | SettingsScreen.ClearData |
