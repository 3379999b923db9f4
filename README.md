# Order bot session model

A Dafny model of the conversation logic of a single-page order-taking chatbot
(`app.py`). A session holds three things: the transcript `chatHistory` (an
ordered list of user and model turns), the optional `productSelected` (a key of
the five-product catalog) and the flag `talkCustomerCare`. The page seeds the
transcript with a greeting exchange whose greeting depends on the hour. It
stores the select box's product unless the sentinel `-- Select --` is shown, and
it stores the customer-care checkbox. "Clear Chat History" replaces everything
with fresh seed turns. Each chat submission appends a user turn and a reply:

- In customer-care mode the page appends the raw input and the canned
  "Please call our Customer Care at +1-800-555-1234 for assistance." reply,
  without calling the model.
- Otherwise the page prefixes the input with "I would like to order a P (details). "
  when a product P is selected and its lower-cased name is not a substring of
  the lower-cased input. It appends that message, sends the whole transcript to
  the language model and appends the model's reply.

Modules:

- `Text` (text.dfy): ASCII case folding and Python's substring test `needle in hay`,
  proved equal to "occurs at some index".
- `Catalog` (catalog.dfy): the product table, the contact number and canned reply,
  and the context-injection rule with its properties. The sent message always names
  the selected product, and injecting twice is the same as injecting once.
- `Conversation` (conversation.dfy): the session as a value, with one function per
  control of the page and lemmas about submissions, failures, selection, clearing
  and the alternation of roles over many submissions.
- `App` (session.dfy): class `Session`, which does the same in place. Fields are
  reassigned and the transcript is appended to, as the script does with
  `st.session_state`. Every method but `Rerun` states its new state field by field
  and ties it to the matching `Conversation` function; `Rerun` is tied to `PagePass`.
- `Scenarios` (scenarios.dfy): the Camera examples, including substring rather than
  word matching ("camera-ready" counts as naming the camera, "camcorder" does not).
- `Wrappers` (wrappers.dfy): `Option`.

The language model is the parameter `generate: seq<Turn> -> Option<string>`. It
receives the whole transcript. `None` stands for the exception the client raises;
the script stops there, so the user turn stays and no model turn is added. The hour
of day is a parameter. An empty chat input is no submission, because
`if user_input:` is false for `""`.

Notes on the model:

- The assistant's role is `model` (app.py:64, 133, 158).
- The order sentence ends in a space before the input (app.py:141).
- The submit branch returns no text (app.py:118-162). The model's `Outcome` says
  whether a reply was added.
- A selection outside the catalog cannot arise, because the select box offers only
  the sentinel and the catalog keys (app.py:76). It is therefore a precondition, not
  an error path.
- After a failed model call the transcript ends in a user turn, so the next submission
  puts two user turns in a row. Roles then no longer alternate. `SubmissionKeepsAlternation` states that only complete
  exchanges keep the alternation.

## Model

| member | source | states |
|---|---|---|
| `Text.LowerChar` | app.py:120 | the folded character is never an upper-case ASCII letter; non-letters are kept; letters move to lower case |
| `Text.ToLower` | app.py:120 | no contract; folds every character by `LowerChar`, characterised by `ToLowerAppend` |
| `Text.Contains` | app.py:140 | no contract; Python's `in` on strings, characterised by `ContainsIff` |
| `Text.ToLowerAppend` | app.py:120 | case folding distributes over concatenation |
| `Text.ContainsIff` | app.py:140 | the substring test holds exactly when the needle occurs at some index of the text (both directions) |
| `Text.ContainsInfix` | app.py:140 | every string is found inside any text that has it as an infix |
| `Text.SkipToCandidate` | app.py:140 | leading characters unlike the needle's first cannot begin a match |
| `Catalog.Products` | app.py:13-19 | constant, no contract; the five catalog entries as written |
| `Catalog.CustomerCareNumber` | app.py:21 | constant, no contract; the contact number as written; `CareReplyHasNumber` shows `CareReply` contains it |
| `Catalog.NoSelection` | app.py:76-77 | constant, no contract; the select box's first option, which is not a catalog key (`SelectEffect`) |
| `Catalog.CareReply` | app.py:125 | constant, no contract; characterised by `CareReplyHasNumber` |
| `Catalog.Mentions` | app.py:140 | the lower-cased product name occurs at some index of the lower-cased input, and only then |
| `Catalog.ContextPrefix` | app.py:139-141 | the prefix is non-empty exactly when a product is selected and the input does not name it case-insensitively |
| `Catalog.OutgoingMessage` | app.py:140-142 | the message ends with the raw input, and equals it exactly when no product is selected or the input names it |
| `Catalog.OutgoingUnchangedWhenMentioned` | app.py:140-142 | an input already naming the selected product is sent unchanged |
| `Catalog.OutgoingPrefixedWhenNotMentioned` | app.py:140-142 | otherwise the message is "I would like to order a P (details). " followed by the input |
| `Catalog.OrderSentenceMentions` | app.py:141 | the order sentence names its product whatever input follows |
| `Catalog.OutgoingMentionsProduct` | app.py:140-142 | with a product selected, the sent message always names it |
| `Catalog.OutgoingIdempotent` | app.py:140-142 | injecting the context into an already augmented message adds nothing |
| `Catalog.CareReplyHasNumber` | app.py:125 | the canned customer-care reply contains the contact number |
| `Conversation.Greeting` | app.py:61 | "Good morning!" exactly below 12, "Good afternoon!" exactly from 12 to 17, "Good evening!" exactly from 18 |
| `Conversation.GreetingAsWritten` | app.py:61 | the greeting from two clock readings; with equal readings it is `Greeting` of that hour |
| `Conversation.GreetingAsWrittenSameDay` | app.py:61 | with the second reading not earlier than the first, the greeting fits one of the two readings |
| `Conversation.GreetingAcrossMidnight` | app.py:61 | readings 23 then 0 give "Good afternoon!", which fits neither reading |
| `Conversation.HelloTurn` | app.py:63 | constant, no contract; the ("user","Hello") turn that opens both seed pairs (app.py:93 too) |
| `Conversation.SeedTurns` | app.py:62-65 | two turns: ("user","Hello") first, then a model turn that contains the greeting for the hour |
| `Conversation.ClearedTurns` | app.py:92-95 | constant, no contract; the ("user","Hello") and "Hi again!" pair, stated by `ClearIgnoresPriorState` |
| `Conversation.Initial` | app.py:60-71 | a new session holds exactly the seed turns for its hour, no product and normal mode |
| `Conversation.Selected` | app.py:76-78 | selecting keeps transcript and mode and keeps the selection within the catalog |
| `Conversation.SelectEffect` | app.py:76-78 | a catalog key becomes the selection; the sentinel leaves the state as it was |
| `Conversation.SelectIdempotent` | app.py:76-78 | selecting the same entry twice equals selecting it once |
| `Conversation.WithCustomerCare` | app.py:85-86 | the mode becomes the checkbox value, transcript and selection unchanged |
| `Conversation.Cleared` | app.py:91-97 | the cleared state has two turns, is well formed and does not depend on the previous state |
| `Conversation.ClearIgnoresPriorState` | app.py:91-97 | a run with the clear button yields ("user","Hello"), the "Hi again!" turn, no product and normal mode from any prior state |
| `Conversation.ClearUndoneByNextPass` | app.py:76-98 | on the next run the still chosen product and checkbox value are stored again over the cleared state |
| `Conversation.Submitted` | app.py:118-162 | an empty input changes nothing; otherwise earlier turns stay, selection and mode stay, a user turn comes first, then one model turn holding the reply, none on failure |
| `Conversation.CareSubmission` | app.py:123-137 | customer-care mode appends exactly ("user", raw input) and ("model", canned reply) |
| `Conversation.CareIgnoresModel` | app.py:123-137 | in customer-care mode the result is the same for every language model, i.e. no call is made |
| `Conversation.NormalSubmission` | app.py:138-158 | normal mode appends the outgoing message; the model receives the full transcript ending in it; its reply is appended, or nothing more on failure |
| `Conversation.FailedSubmission` | app.py:145-158 | a failed model call leaves exactly the user turn appended and nothing else changed |
| `Conversation.FailureThenRetry` | app.py:145-158 | after a failure the next submission sends both user turns in order and appends its reply after them |
| `Conversation.PagePass` | app.py:76-162 | one page run keeps the selection within the catalog; a clear without input yields the cleared state |
| `Conversation.SeedsAlternate` | app.py:62-65 | the initial and the cleared seed pairs alternate user, model |
| `Conversation.SubmissionKeepsAlternation` | app.py:127-158 | a complete exchange keeps the transcript alternating; a failed one leaves an odd length |
| `Conversation.SubmittedAll` | app.py:118-162 | repeated submissions keep the selection within the catalog; growth and alternation are stated by `SubmittedAllGrowth` |
| `Conversation.SubmittedAllGrowth` | app.py:118-162 | with a model that always answers, n non-empty submissions add 2n turns, keep earlier turns and keep alternation |
| `Conversation.VisibleLog` | app.py:107 | the scroll-back shows the transcript from the third turn on |
| `Conversation.VisibleLogOfSubmission` | app.py:102-107 | the cleared log is empty; a submission shows exactly the turns it appended |
| `App.Session.constructor` | app.py:60-71 | the seed turns greet by the given hour; no product; normal mode |
| `App.Session.SelectProduct` | app.py:76-78 | stores the key unless the sentinel is chosen; transcript and mode unchanged |
| `App.Session.SetCustomerCare` | app.py:85-86 | stores the checkbox value; transcript and selection unchanged |
| `App.Session.ClearHistory` | app.py:91-97 | fresh seed turns, no product, normal mode, whatever the state was |
| `App.Session.Submit` | app.py:118-162 | appends two turns (care: raw input and canned reply; normal: outgoing message and the model's reply to the whole transcript), only the user turn on failure, nothing for an empty input |
| `App.Session.Rerun` | app.py:76-162 | a page run applies select box, checkbox, clear button and chat input in the script's order |
| `Scenarios.CameraNotNamed` | app.py:140-142 | "I'd like one" with Camera selected is sent as "I would like to order a Camera (DSLR, 24MP, 4K Video). I'd like one" |
| `Scenarios.CameraNamed` | app.py:140-142 | "I want a Camera please" is sent unchanged |
| `Scenarios.SubstringInsideWord` | app.py:140 | "camera-ready" names the Camera, since matching is by substring |
| `Scenarios.SimilarWordIsNoMention` | app.py:140 | "I need a new camcorder" does not name the Camera |

## Findings

| source | as written | input that shows it | evidently intended | confidence | as-written member | corrected member |
|---|---|---|---|---|---|---|
| app.py:61 | the clock is read separately for the "< 12" and the "< 18" comparison | first reading 23:59:59, second 00:00:00: the greeting is "Good afternoon!" | one reading of the hour decides the greeting | low; the window is a few microseconds at midnight; not executed | `Conversation.GreetingAcrossMidnight` | `Conversation.Greeting` |

The rest of the model (`Conversation.Initial`, `App.Session.constructor`) uses
`Greeting` with a single hour.

## Left out

- Rendering: the page title, CSS, the HTML of each message, the success, warning and
  detail texts in the sidebar, and the loops at app.py:102-103 and app.py:107-112.
  `VisibleLog` models only which turns those loops show.
- The Gemini client (app.py:9-10, 152-155 transport), `load_dotenv` and the API key.
  The model name is configuration. The call itself is the `generate` parameter.
- Timestamps (`datetime.now()` in every turn, `strftime`). They come from the wall
  clock and affect only the display. A turn is (role, text). The source's one-element
  `parts` list is its text.
- Python's full Unicode `str.lower()`. `ToLower` folds ASCII letters only. The
  catalog names are ASCII and contain neither "i" nor "k", the letters whose
  non-ASCII upper-case forms lower-case to ASCII. For them the two foldings agree.
- Streamlit's widget state. The select box and checkbox values and the button click
  are inputs of `Rerun`/`PagePass`. How Streamlit keeps widget values between runs
  is not modelled.
- Several browser sessions: one `Session` object is one browser session.
- `Conversation.FailureThenRetry`: states only the transcript after a successful
  retry. The case where the retry fails too follows from `FailedSubmission`.
