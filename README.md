# AmazeBot chat backend — a Dafny model

AmazeBot is a Django backend that forwards a user's chat text to OpenAI's
chat-completion service and returns the reply. This project models its three
pieces of logic and proves their properties:

- the chat-turn record `ChatMessage` (chatbot/models.py): its fields, the
  default author flag, the display form `__str__` and the default listing
  order by timestamp (module `Models`);
- the admin column `short_message` (chatbot/admin.py), which cuts long
  messages to 50 characters plus `"..."` (module `Admin`);
- the request handler `chatbot_response` (chatbot/views.py) as a total
  function. It takes the API-key setting, the request body and the
  completion service. It returns the HTTP status, the JSON object and the
  requests it sent upstream (module `Views`).

Module `Text` holds the Python string operations these use: the slice
`s[:n]` and the substring test `sub in s`, with a proof that the scan finds
exactly the occurrences. Module `Wrappers` holds `Option`.

Strings are `seq<char>`, because Python slices by code point. The completion
service is a parameter `upstream` of type
`CompletionRequest -> UpstreamOutcome`. An outcome is either `Completed(choices)`,
holding the content of each choice, or `Raised(errorText)`, holding `str(e)`.
The environment variable `OPENAI_API_KEY` is a parameter `Option<string>`.
A key counts as configured when it is set and not empty, as Python's
truthiness test in the guard has it.

The handler has no rate limiting, caching, retries of its own or session
context. It forwards an empty or missing message, makes one call to
`client.chat.completions.create`, answers quota errors with 429 and all other
errors with 500.

## Model

| member | source | states |
|---|---|---|
| `Text.Take` | chatbot/models.py:26 | Python's `s[:n]`: the result is a prefix of `s` whose length is `min(len(s), n)` |
| `Text.Contains` | chatbot/views.py:34 | Python's `sub in s` as a scan: it finds `sub` only when `s` is long enough and always finds it as a prefix |
| `Text.ContainsIff` | chatbot/views.py:34 | the substring scan used for `"insufficient_quota" in error_message` is true exactly when the marker occurs at some index |
| `Models.NewChatMessage` | chatbot/models.py:6-19 | a new record carries the given session, text and author flag, with the author flag defaulting to a user message and the timestamp taken from the clock reading |
| `Models.Sender` | chatbot/models.py:25 | the sender tag is `"User"` exactly for a user's message and `"Bot"` otherwise |
| `Models.DefaultIsUserMessage` | chatbot/models.py:13 | a record created without `is_user_message` is a user's message |
| `Models.Str` | chatbot/models.py:24-26 | the display form is the sender tag, two separator characters, at most 50 message characters and three more; it is never longer than the tag plus 55 |
| `Models.StrStartsWithSender` | chatbot/models.py:25-26 | the display form starts with `"User: "` for a user's message and with `"Bot: "` otherwise |
| `Models.StrParts` | chatbot/models.py:26 | between tag and ellipsis stands exactly `message[:50]`, and the display form always ends with `"..."`, even for short messages |
| `Models.StrDeterminedByPreview` | chatbot/models.py:24-26 | two records display alike if and only if they have the same author flag and the same first 50 characters |
| `Models.StrExamples` | chatbot/tests.py:31-34 | the two expected display forms `"User: Hello, bot!..."` and `"Bot: Hello, human!..."` |
| `Models.InsertByTimestamp` | chatbot/models.py:21-22 | inserting a record into a timestamp-ordered listing keeps it ordered and adds exactly that record |
| `Models.OrderByTimestamp` | chatbot/models.py:21-22 | `ordering = ['timestamp']`: the listing is sorted by ascending timestamp and is a permutation of the stored records |
| `Models.All` | chatbot/models.py:21-22 | `objects.all()` returns every stored record, each as often as stored, in ascending timestamp order |
| `Models.Create` | chatbot/models.py:6-19 | `objects.create` appends exactly the new record, built from the given fields with the author default, to the table |
| `Models.Count` | chatbot/tests.py:25 | `objects.count()` equals the number of records in the default listing |
| `Models.CreateTwo` | chatbot/tests.py:23-29 | creating two records raises the count by two; each keeps its text and author flag and appears in the listing |
| `Admin.ShortMessage` | chatbot/admin.py:11-15 | the column is at most 53 characters, and it starts with the first `min(len(message), 50)` characters of the message |
| `Admin.ShortMessageCases` | chatbot/admin.py:12-15 | a message of at most 50 characters is shown unchanged; a longer one as `message[:50] + "..."`, 53 characters long |
| `Admin.ShortMessageIdempotent` | chatbot/admin.py:12-15 | shortening the shortened text again gives the same text |
| `Admin.ShortMessageUnchangedIff` | chatbot/admin.py:13-15 | a message is shown unchanged if and only if it has at most 50 characters, or is 53 characters long and ends in `"..."` |
| `Admin.StrAgreesWithShortMessage` | chatbot/admin.py:12-15 | `__str__` is the sender tag plus the admin column, plus an extra `"..."` when the message has at most 50 characters |
| `Views.UserMessage` | chatbot/views.py:11 | `request.data.get("message", "")`: the body's message when present, the empty string otherwise |
| `Views.KeyConfigured` | chatbot/views.py:13 | the key test is Python truthiness: an unset key and an empty key both fail, every non-empty key passes |
| `Views.BuildRequest` | chatbot/views.py:19-25 | the request names `gpt-3.5-turbo` and has exactly two entries: the system instruction, then the user entry carrying the user's text |
| `Views.HandleOutcome` | chatbot/views.py:18-40 | the `try`/`except`: status 200 exactly for a completion with at least one choice, whose body is `{"response": choices[0]}`; a raised error and an empty choice list both go to the error branch |
| `Views.ErrorResponse` | chatbot/views.py:30-40 | the error branch answers a JSON object whose only key is `"error"`, with status 429 or 500 |
| `Views.ErrorStatusIff` | chatbot/views.py:34-36 | the error status is 429 if and only if `"insufficient_quota"` occurs in the error text |
| `Views.ChatbotResponse` | chatbot/views.py:9-40 | status is 200, 429 or 500; one call to `create` is made with a key and none without; status is 200 if and only if the key is set and the service completed with at least one choice; the body's only key is `"response"` on 200 and `"error"` otherwise |
| `Views.MissingKeyGuard` | chatbot/views.py:13-16 | without a key: status 500, the fixed "OpenAI API key not found in environment variables" error, nothing sent |
| `Views.MissingKeyIgnoresUpstream` | chatbot/views.py:13-16 | without a key the result is the same for every behaviour of the service |
| `Views.SingleUpstreamRequest` | chatbot/views.py:18-25 | with a key exactly one call to `client.chat.completions.create` is made: model `gpt-3.5-turbo`, then the system entry `"You are a helpful assistant."`, then the user entry with `request.data.get("message", "")`; the response depends only on that call's outcome |
| `Views.EmptyMessageForwarded` | chatbot/views.py:11-25 | a missing or empty message is not rejected; the empty string is forwarded as the user's content |
| `Views.SuccessPassesThrough` | chatbot/views.py:27-29 | on a completion, the answer is status 200 with `{"response": <first choice's content>}` |
| `Views.EmptyChoicesIsServerError` | chatbot/views.py:27-32 | a completion with no choices raises at `choices[0]` inside the `try`, so the answer is 500 with `{"error": "list index out of range"}` |
| `Views.QuotaErrorIsTooManyRequests` | chatbot/views.py:34-40 | an error whose text contains `"insufficient_quota"` anywhere gives 429 and the fixed billing message, not the raw text |
| `Views.OtherErrorIsServerError` | chatbot/views.py:30-40 | any other error gives 500 and `{"error": str(e)}` verbatim |

## Left out

- frontend/src/App.js: the React user interface and its network calls are not part of this model.
- chatbot/urls.py: routing only. It imports `get_conversation_history`, but chatbot/views.py does not define it.
- The history endpoint and the `clear_conversation` flag used in chatbot/tests.py:64-86 are left out: no implementation of either exists in the code.
- Rate limiting, response caching, retries and session context are left out: the code has none of them.
- The OpenAI client is a foreign network call. It is the `upstream` parameter. Its construction at import time, with the key read at that moment, is not modelled.
- `Views.SingleUpstreamRequest`: "one call" counts calls to `client.chat.completions.create`, not HTTP requests. A default client retries connection errors and 408, 409, 429 and 5xx answers by itself (twice by default). Those retries happen inside `upstream`, and its outcome is what remains after them.
- `Views.MissingKeyGuard`: with `OPENAI_API_KEY` unset at startup, building the client at chatbot/views.py:7 raises and the module does not load. The guard's `None` case therefore stands for a variable removed after startup; its empty-string case is reachable directly.
- Paths outside the `try` at chatbot/views.py:9-11 are left out: `@api_view(['POST'])` answering 405 to other methods, the framework's 400 for a body it cannot parse, and the `AttributeError` that `request.data.get` raises on a JSON array body.
- `os.getenv` is the `apiKey` parameter, and `timezone.now` is the `now` parameter of `Models.NewChatMessage` and `Models.Create`.
- Django ORM persistence is reduced to a sequence of rows (`Models.Table`). Filtering, database errors and `session_id`'s `max_length=100` are left out: `objects.create` does not validate that length.
- `Views.ChatbotResponse`: request bodies are maps from strings to strings. A non-string JSON value under `"message"`, which the code would forward too, is not modelled.
- `Views.ChatbotResponse`: a choice whose content is `None` (JSON `null`) is not modelled, because choices hold strings only.
- `Models.OrderByTimestamp`: the order among records with equal timestamps is left to the database and is not stated.
- JSON and HTTP rendering is left out. A response is its status and its JSON object as a map.
- Admin display settings (`list_display`, `list_filter`, `search_fields`, `date_hierarchy`, `short_description`) are framework metadata.
