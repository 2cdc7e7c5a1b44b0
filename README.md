# Finance chatbot: a verified model of its transaction and conversation rules

The finance chatbot is a browser component. A user uploads a spreadsheet of
transactions. The component turns the rows into transaction records, folds them into
income, expense and per-category totals, and shows a short summary. It then relays the
conversation to a language-model endpoint through a small server handler. This project
models those rules in Dafny and proves what they promise.

- `types.dfy` (module `Types`): the records of `types.ts` (transaction, analysis, chat
  message, inference reply) and the `role !== 'system'` filter. Both sides use that
  filter.
- `ingestion.dfy` (module `Ingestion`): the row mapping of `readExcelFile`. Each field
  falls back from the capitalised header to the lower-case header to a default. The
  fallback follows JavaScript `||`, so an empty text cell and a zero amount count as
  missing.
- `aggregation.dfy` (module `Aggregation`): `analyzeFinancialData`. The totals are
  filter/reduce functions. The `categories` record is built by a loop method,
  `BuildCategories`, which is proved equal to a fold function. Further lemmas give the
  record's keys, its values and its sum.
- `summary.dfy` (module `Summary`): the top-three selection of
  `generateInitialAnalysisMessage`. It takes `Object.entries` in insertion order, sorts
  stably by amount (largest first) and keeps at most three.
- `chatbot.dfy` (module `Chatbot`): the component state as a class. Its fields are
  `messages`, `input`, `isLoading`, `file` and `analysis`. Each handler is split at its
  `await` into a start step and a settle step, and the awaited outcome is passed in as
  a value. A ghost field records which awaited call is still open. The class invariant
  says four things:
  - the history starts with the greeting;
  - it never holds a system message;
  - only user messages carry an attachment;
  - the shown analysis is the analysis of the most recent upload.
- `chat_handler.dfy` (module `ChatHandler`): the `pages/chat.ts` handler as a method.
  It covers the method check, the model default, the system message (whose content is
  extended in place when data is attached), the filtered forward list, and the
  200/405/500 outcomes.
- `js_record.dfy` (module `JsRecord`): the `categories` object as JavaScript evaluates
  it, with inherited `Object.prototype` members (see Findings).

Amounts are whole cents (`int`). Three things are passed in as parameters:
- the network outcomes (`Reply`, `Result<ChatResponse>`);
- the workbook decoding outcome (`Result<seq<Row>>`);
- `JSON.stringify` and the summary text renderer, as function values.

How the code behaves where one might expect otherwise:
- Header matching accepts exactly two spellings per column (`Date`/`date`), not any
  letter case.
- The server adds the data instruction to the system message on every request that
  carries `fileData`, not only on the first turn.
- The client sends the attachment of the first upload in the history. The analysis
  shown is that of the most recent upload.
- As written, the client's payload does not contain the question just asked (see
  Findings).

## Model

| member | source | states |
|---|---|---|
| `Types.WithoutSystem` | financechatbot/app/pages/chat.ts:36 | the `role !== 'system'` filter: no longer than its input and holding no `system` message (see the next row for exact membership) |
| `Types.WithoutSystemMembers` | financechatbot/app/pages/chat.ts:36 | the result drops exactly the `system` messages: every kept message is from the input and not `system`, and every non-`system` input message is kept |
| `Types.WithoutSystemAppend` | financechatbot/app/components/FinancialChatbot.tsx:151 | the filter distributes over concatenation, so it keeps the original order |
| `Types.WithoutSystemIdentity` | financechatbot/app/components/FinancialChatbot.tsx:151 | on a history without `system` messages the filter returns the history unchanged |
| `Ingestion.TextOr` | financechatbot/app/components/FinancialChatbot.tsx:79-82 | the `or` chain on text cells: the first non-empty present cell, else the default; never empty when the default is not |
| `Ingestion.NumberOr` | financechatbot/app/components/FinancialChatbot.tsx:81 | the `or` chain on amounts: the first present non-zero amount, else 0 |
| `Ingestion.NormalizeRow` | financechatbot/app/components/FinancialChatbot.tsx:78-83 | each field follows its fallback chain with defaults `''`, `''`, `0`, `'Uncategorized'`; the category is never empty |
| `Ingestion.NormalizeRows` | financechatbot/app/components/FinancialChatbot.tsx:78 | same length as the rows, element i is the mapping of row i |
| `Ingestion.CategoriesNeverEmpty` | financechatbot/app/components/FinancialChatbot.tsx:82 | no normalised transaction has an empty category |
| `Ingestion.MissingAmountIsZero` | financechatbot/app/components/FinancialChatbot.tsx:81 | a row with no amount under either header gets amount 0 |
| `Ingestion.MissingCategoryIsUncategorized` | financechatbot/app/components/FinancialChatbot.tsx:82 | a row with no usable category gets `'Uncategorized'` |
| `Aggregation.Credits` | financechatbot/app/components/FinancialChatbot.tsx:98 | the income `filter`: never longer than the input (its members are given by `FilterMembers`) |
| `Aggregation.Debits` | financechatbot/app/components/FinancialChatbot.tsx:102 | the expense `filter`: never longer than the input (its members are given by `FilterMembers`) |
| `Aggregation.Sum` | financechatbot/app/components/FinancialChatbot.tsx:99 | the `reduce` adding the amounts; its absolute value never exceeds the sum of the absolute amounts |
| `Aggregation.SumAbs` | financechatbot/app/components/FinancialChatbot.tsx:103 | the `reduce` adding `Math.abs` of the amounts is never negative |
| `Aggregation.FilterMembers` | financechatbot/app/components/FinancialChatbot.tsx:98-102 | the income filter keeps exactly the transactions with amount > 0, the expense filter exactly those with amount < 0 |
| `Aggregation.SumAbsPositive` | financechatbot/app/components/FinancialChatbot.tsx:103 | the sum of absolute amounts is positive as soon as one amount is non-zero |
| `Aggregation.Income` | financechatbot/app/components/FinancialChatbot.tsx:97-99 | totalIncome, the sum of the positive amounts, is non-negative |
| `Aggregation.Expenses` | financechatbot/app/components/FinancialChatbot.tsx:101-103 | totalExpenses, the sum of the absolute negative amounts, is non-negative |
| `Aggregation.TotalsAppend` | financechatbot/app/components/FinancialChatbot.tsx:97-103 | both totals split over concatenation of transaction lists |
| `Aggregation.ZeroAmountIgnored` | financechatbot/app/components/FinancialChatbot.tsx:98-102 | inserting a zero-amount transaction anywhere changes neither total |
| `Aggregation.NetIsSumOfAmounts` | financechatbot/app/components/FinancialChatbot.tsx:112-118 | income minus expenses is the plain sum of all amounts |
| `Aggregation.AddExpense` | financechatbot/app/components/FinancialChatbot.tsx:107-109 | one `forEach` step: the keys become the old keys plus the visited category |
| `Aggregation.Group` | financechatbot/app/components/FinancialChatbot.tsx:106-110 | the `forEach` as a left fold over the visited debits; it has no contract of its own, and `GroupKeys`, `GroupValues` and `GroupSum` state what it holds |
| `Aggregation.GroupKeys` | financechatbot/app/components/FinancialChatbot.tsx:106-110 | the record's keys are exactly the categories visited by the `forEach` |
| `Aggregation.GroupValues` | financechatbot/app/components/FinancialChatbot.tsx:109 | each value is the sum of absolute amounts of that category's visited transactions |
| `Aggregation.GroupSum` | financechatbot/app/components/FinancialChatbot.tsx:105-110 | the values add up to the sum of the absolute amounts visited |
| `Aggregation.DebitsInCategory` | financechatbot/app/components/FinancialChatbot.tsx:107 | filtering by sign and by category commute |
| `Aggregation.Categories` | financechatbot/app/components/FinancialChatbot.tsx:101-110 | the record of an analysis, the fold over the debits; with no expense it is empty |
| `Aggregation.CategoriesKeys` | financechatbot/app/components/FinancialChatbot.tsx:101-110 | the record's keys are exactly the categories of negative-amount transactions |
| `Aggregation.CategoriesValues` | financechatbot/app/components/FinancialChatbot.tsx:101-110 | each value is the expenses of that category, and is positive |
| `Aggregation.CategoriesSum` | financechatbot/app/components/FinancialChatbot.tsx:101-110 | the values add up to totalExpenses |
| `Aggregation.BuildCategories` | financechatbot/app/components/FinancialChatbot.tsx:105-110 | the in-place loop over the debits produces exactly the fold `Categories(ts)` |
| `Aggregation.AnalyzeFinancialData` | financechatbot/app/components/FinancialChatbot.tsx:96-119 | the analysis holds the two non-negative totals, savings = income − expenses = sum of amounts, the category record as above, and the input list unchanged |
| `Summary.FirstSeen` | financechatbot/app/components/FinancialChatbot.tsx:106-110 | the record's keys in creation order: distinct, and exactly the categories that occur |
| `Summary.FirstIndex` | financechatbot/app/components/FinancialChatbot.tsx:107-109 | the position of the first transaction of a category, or the length when there is none; nothing before it has that category |
| `Summary.FirstSeenOrder` | financechatbot/app/components/FinancialChatbot.tsx:106-110 | the keys come in the order of the first transaction of each category, which is the order the `forEach` creates them |
| `Summary.ObjectEntries` | financechatbot/app/components/FinancialChatbot.tsx:128 | one `[key, value]` pair per record entry, each agreeing with the record, no key twice, in the order the keys were created |
| `Summary.Insert` | financechatbot/app/components/FinancialChatbot.tsx:129 | inserting into a non-increasing list keeps it non-increasing, makes it one longer, and puts either the new element or the old head first |
| `Summary.InsertPermutes` | financechatbot/app/components/FinancialChatbot.tsx:129 | insertion adds exactly that element and loses nothing |
| `Summary.SortByAmount` | financechatbot/app/components/FinancialChatbot.tsx:129 | the sort is non-increasing by amount and a permutation of its input |
| `Summary.DistinctKeysSub` | financechatbot/app/components/FinancialChatbot.tsx:128-130 | entries drawn without repetition from a list with distinct keys have distinct keys |
| `Summary.TopCategories` | financechatbot/app/components/FinancialChatbot.tsx:128-130 | min(3, n) entries, non-increasing, drawn from the input without repetition, no left-out entry exceeds a kept one, and distinct keys stay distinct |
| `Summary.InitialSummary` | financechatbot/app/components/FinancialChatbot.tsx:121-135 | the summary repeats the three totals and lists min(3, #categories) distinct categories, non-increasing, each with its recorded amount, none smaller than a category left out |
| `Chatbot.IsTrimmed` | financechatbot/app/components/FinancialChatbot.tsx:140 | the characters `String.prototype.trim` removes: the ECMAScript white space and line terminators |
| `Chatbot.IsBlank` | financechatbot/app/components/FinancialChatbot.tsx:140 | `!input.trim()`: true exactly when every character is one that `trim` removes |
| `Chatbot.BlankExamples` | financechatbot/app/components/FinancialChatbot.tsx:140 | the empty input and one of blanks and a tab are blank; one holding a letter is not |
| `Chatbot.FirstFileData` | financechatbot/app/components/FinancialChatbot.tsx:148 | the `find` over the history: when the first message carries an attachment, that attachment is the result (the full meaning is `FirstFileDataIsFirst`) |
| `Chatbot.FirstFileDataIsFirst` | financechatbot/app/components/FinancialChatbot.tsx:148 | `None` exactly when no message has an attachment; otherwise the attachment of the earliest message that has one |
| `Chatbot.LastFileDataIsLast` | financechatbot/app/components/FinancialChatbot.tsx:39-47 | `None` exactly when no message has an attachment; otherwise the attachment of the latest such message |
| `Chatbot.AppendWithoutAttachment` | financechatbot/app/components/FinancialChatbot.tsx:142-148 | appending a message without an attachment changes neither the first nor the last attachment of the history |
| `Chatbot.SubmitRequest` | financechatbot/app/components/FinancialChatbot.tsx:148-152 | the payload holds only non-`system` messages of the history seen, and the first attachment |
| `Chatbot.SubmitForwardsHistory` | financechatbot/app/components/FinancialChatbot.tsx:151 | a history that keeps the class invariant is posted as it is |
| `Chatbot.ReplyText` | financechatbot/app/components/FinancialChatbot.tsx:155-165 | the first choice's text on a reply with choices, the fixed apology on failure or when no choice exists |
| `Chatbot.Chatbot.constructor` | financechatbot/app/components/FinancialChatbot.tsx:12-18 | the history is the greeting alone, the input is empty, nothing is loading, no file and no analysis |
| `Chatbot.Chatbot.SetInput` | financechatbot/app/components/FinancialChatbot.tsx:229 | the input becomes the typed text |
| `Chatbot.Chatbot.Submit` | financechatbot/app/components/FinancialChatbot.tsx:138-153 | a blank input or a pending call changes nothing and posts nothing; otherwise the user message is appended, the input cleared, loading set, and the payload built from the history before the append, with messages equal to that history |
| `Chatbot.Chatbot.ReceiveReply` | financechatbot/app/components/FinancialChatbot.tsx:155-168 | exactly one assistant message (reply text or apology) is appended and loading ends |
| `Chatbot.Chatbot.HandleSubmit` | financechatbot/app/components/FinancialChatbot.tsx:138-169 | blank input: state unchanged; otherwise the history gains the user message then exactly one assistant message, and loading ends false |
| `Chatbot.Chatbot.StartUpload` | financechatbot/app/components/FinancialChatbot.tsx:29-34 | no file: nothing changes; otherwise the file is recorded and loading starts |
| `Chatbot.Chatbot.FinishUpload` | financechatbot/app/components/FinancialChatbot.tsx:36-64 | failure appends only the file apology and keeps the old analysis; success stores the analysis of the normalised rows and appends the upload notice carrying the data, then the summary; loading ends |
| `Chatbot.Chatbot.HandleFileUpload` | financechatbot/app/components/FinancialChatbot.tsx:29-65 | the whole handler: no file changes nothing; failure appends one apology; success appends the notice with `fileData` and then the summary; loading ends false |
| `Chatbot.UploadExample` | financechatbot/app/components/FinancialChatbot.tsx:78-118 | a coffee expense and a salary with a blank category give income 200000, expenses 500, savings 199500, categories {Food: 500} |
| `Chatbot.QuestionNotForwarded` | financechatbot/app/components/FinancialChatbot.tsx:142-151 | after the greeting, the posted messages are the greeting alone and do not hold the question |
| `Chatbot.IntendedRequest` | financechatbot/app/components/FinancialChatbot.tsx:142-152 | corrected payload: the filtered history followed by the question as last message, with the same attachment |
| `ChatHandler.ModelName` | financechatbot/app/pages/chat.ts:14 | the given model, or `meta-llama/Llama-2-70b-chat-hf` when absent |
| `ChatHandler.SystemPrompt` | financechatbot/app/pages/chat.ts:21-30 | starts with the base instruction; equals it exactly when no data is attached; with data, the base instruction, the fixed lead-in, the serialised data and the fixed closing instructions follow one another |
| `ChatHandler.Forwarded` | financechatbot/app/pages/chat.ts:36 | the system message first, then the non-`system` input messages in order; no other `system` message |
| `ChatHandler.OneSystemMessage` | financechatbot/app/pages/chat.ts:36 | the forwarded list holds exactly one `system` message |
| `ChatHandler.Handle` | financechatbot/app/pages/chat.ts:6-57 | non-POST: 405 `Method not allowed` and no upstream call; missing messages: 500 and no call; otherwise the upstream body (model, forwarded list, fixed parameters) and 200 with the upstream body verbatim, or 500 `Error processing your request` on failure |
| `JsRecord.Read` | financechatbot/app/components/FinancialChatbot.tsx:109 | a property read on `{}` is the own value, else non-numeric for an `Object.prototype` member name, else undefined |
| `JsRecord.PlusOrZero` | financechatbot/app/components/FinancialChatbot.tsx:109 | the `or 0` default then the addition: a number exactly when `v` is not a non-number; `undefined` gives `a`, a number `n` gives `n + a` |
| `JsRecord.Write` | financechatbot/app/components/FinancialChatbot.tsx:109 | the assignment: ignored for `__proto__`; otherwise the key holds the new value and the other keys keep theirs |
| `JsRecord.GroupAsWritten` | financechatbot/app/components/FinancialChatbot.tsx:106-110 | the `forEach` as JavaScript runs it on `{}`; the `__proto__` key never becomes an own entry |
| `JsRecord.AsWrittenAgreesOffPrototype` | financechatbot/app/components/FinancialChatbot.tsx:105-110 | when no category is a prototype member name, the object as written equals the model's record |
| `JsRecord.PrototypeCategoryCounterexample` | financechatbot/app/components/FinancialChatbot.tsx:105-110 | an expense of 500 under "constructor": the model records 500, the object as written a non-number |

## Left out

- Workbook decoding (`XLSX.read`, `sheet_to_json`) and `FileReader` are foreign library calls. Their result is the `Result<seq<Row>>` passed to `FinishUpload`.
- `parseFloat` and float arithmetic are not modelled. Amounts are given as whole cents. NaN, its falsiness, and rounding are not represented.
- Spreadsheet cells are not typed in the model. A numeric cell in the date or description column is modelled as text.
- The summary's text (`toFixed(2)`, bullets, line breaks) is left out. The text is given by a caller-supplied renderer applied to the modelled figures.
- `JSON.stringify` of the data is a caller-supplied function.
- The network is not modelled: axios, the Together endpoint, the `Authorization` header and `TOGETHER_API_KEY`. Each call's outcome is a parameter.
- The endpoint the client actually posts to, `/api/chat`, is `app/api/chat/route.ts`. That file is not part of this model.
- React rendering, the Pie chart and `scrollToBottom` are UI code and are left out.
- The `File` object is modelled by its name.
- Only one outstanding awaited call is modelled. The settle step of each handler runs when that call completes.
- A request without a body (`req.body` undefined) throws outside the `try` and is not modelled.
- A reply choice without `text` is not modelled.
- `Object.entries` lists integer-like keys (such as "2024") first, in ascending order. The model uses plain insertion order for all keys.
- The model's category record is an own-property map. How the source's plain object behaves differently is shown only in `JsRecord` (see Findings).
- ChatHandler.ModelName: `None` stands for an absent `model` field, which gets the default of line 14 of `pages/chat.ts`. A JSON `null` model is not represented: the destructuring default does not apply to it, so the handler sends `null` upstream.
- Chatbot.Chatbot.StartUpload: requires the component not to be loading. The file input is disabled while loading (line 221), so the browser never calls the handler then. The handler itself has no such guard.
- Summary.TopCategories: does not state that equal amounts keep their insertion order. `Insert` places an element before equal ones, which keeps that order, but no lemma proves stability.

## Findings

| source | as written | input that shows it | evidently intended | confidence | as-written member | corrected member |
|---|---|---|---|---|---|---|
| financechatbot/app/components/FinancialChatbot.tsx:105-110 | `categories` is `{}`, so reading `categories[c]` finds inherited `Object.prototype` members for categories such as `constructor` or `toString` and `+` then yields a string | one transaction of amount -500 in category `constructor` | a category record with own entries only, whose values sum to totalExpenses | high (not executed) | `JsRecord.PrototypeCategoryCounterexample` | `Aggregation.CategoriesSum` |
| financechatbot/app/components/FinancialChatbot.tsx:148-151 | the payload is built from `messages` as captured before `setMessages` appended the question, so the question is not posted | the greeting history and the question "How much did I spend?" | the posted messages end with the question just asked | high (not executed) | `Chatbot.QuestionNotForwarded` | `Chatbot.IntendedRequest` |

For the first finding, the model's `Aggregation.BuildCategories` and
`AnalyzeFinancialData` use the corrected own-property record. For the second, the
class method `Chatbot.Chatbot.Submit` keeps the payload as written, because that is
what the component sends. `Chatbot.IntendedRequest` gives the corrected payload and
proves that it ends with the question.
