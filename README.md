# LawGPT chat pipeline — a Dafny model

LawGPT is a legal-information chat assistant. Its browser page sends the
conversation to `POST /api/chat`, which forwards it to a hosted Gemini model
and streams the answer back. This project models the two deterministic
pieces of that pipeline:

- **The request formatting of the chat route** (`ChatRoute`,
  `chat_route.dfy`). The handler reads `messages` from the JSON body. It maps
  every message to a model entry whose role is `human` when the client role
  is exactly `"user"` and `assistant` otherwise. It then `unshift`s one
  `system` entry carrying the fixed LawGPT directive and asks the model for a
  stream. Any exception on the way ends in HTTP 500 with body
  `{"error":"There was an error processing your request"}`. The body is a
  parsed JSON value (`JsValues.Value`, `js_values.dfy`), so the model covers
  the JavaScript failure paths too: an unparseable body, a `null` body (the
  destructuring throws), a `messages` that is not an array (it has no `map`),
  and a `null` element (reading `role` throws inside the map). The foreign
  model calls are one parameter, `Upstream`: the client constructor throws,
  `model.stream` throws, or a stream opens. The outcome records the list
  `model.stream` was called with, so that "no stream is requested" can be
  stated. `unshift` acts in place on the array that `map` returned. It is
  modelled as the class `EntryList`, with the method `Unshift`, used by the
  method `Post`. `Post` is proved equal to the function `Respond`. The
  contract of `Respond` says that the list given to `model.stream` is
  `Formatted(body)`, and the properties of the request are proved about
  `Formatted`.
- **The view-model of the chat page** (`ChatPage`, `chat_page.dfy`, with the
  page's `Message` type in `chat_types.dfy`). Hook messages become page
  messages: the type is `user` exactly when the role is `"user"`, otherwise
  `bot`, and the id and text are kept. Each row gets its
  `isNextMessageSamePerson` flag. The page shows the welcome screen when
  there are no messages. Otherwise it shows the rows, a loading indicator
  when `isLoading` is set, and an error banner when an error is present. The
  banner reads `Error: ` followed by the error's message, or by the fallback
  text when that message is empty.

The route validates nothing, and it has a single catch-all error path:

- Roles are not validated. Every role other than `"user"`, including
  `"system"`, `"bot"` and a missing role, becomes `assistant`.
- Empty or whitespace-only content is not rejected. An empty `messages`
  array is formatted and sent like any other.
- The 500 response covers every exception before the stream is returned,
  including a body that does not parse. It is not limited to model failures.

## Model

| member | source | states |
|---|---|---|
| `ChatRoute.RoleFor` | src/app/api/chat/route.ts:34 | the role is `human` exactly when the client role is the string `"user"`, otherwise `assistant`; never `system` |
| `ChatRoute.Format` | src/app/api/chat/route.ts:32-37 | the entry for one message is never `system`; it is `human` exactly when the message's own `role` field is `"user"`; its content is the message's `content` field, or undefined when there is none |
| `ChatRoute.FormatAll` | src/app/api/chat/route.ts:32-37 | `messages.map` throws exactly when some element is `null`; otherwise it has one entry per message |
| `ChatRoute.FormatAllAt` | src/app/api/chat/route.ts:32-37 | entry i of the map is the callback applied to message i, so order is kept |
| `ChatRoute.Respond` | src/app/api/chat/route.ts:19-56 | every failure is the same response, status 500 with body `{"error":"There was an error processing your request"}`; `model.stream` is called exactly when the client was built and the messages were formatted, and the list it receives is the formatted request; a stream is returned exactly when, in addition, `model.stream` did not throw, and it is the stream for that list |
| `ChatRoute.Post` | src/app/api/chat/route.ts:19-56 | the step-by-step handler (parse, destructure, build client, map, unshift, stream) gives the same outcome as `Respond` for every body and every upstream behaviour |
| `ChatRoute.EntryList.Unshift` | src/app/api/chat/route.ts:39-42 | the entry is inserted in front of the existing list, which is otherwise unchanged, and the new length is returned |
| `ChatRoute.FormattedDefinedIff` | src/app/api/chat/route.ts:21-37 | a request is formatted exactly when the body parses to an object whose `messages` is an array with no `null` element |
| `ChatRoute.RequestPreservesMessages` | src/app/api/chat/route.ts:32-37 | entry i+1 has the content of message i, and it is `human` exactly when message i's role is `"user"` |
| `ChatRoute.SingleSystemEntry` | src/app/api/chat/route.ts:34-42 | an entry has role `system` exactly when it is at index 0, whatever roles the client sent |
| `ChatRoute.ClientSystemRoleIsAssistant` | src/app/api/chat/route.ts:34 | any client message whose `role` field is `"system"` is sent to the model as `assistant` |
| `JsValues.Property` | src/app/api/chat/route.ts:21 | reading a property throws exactly on `null`, finds a value exactly when an object has that field, and the value found is that field's value |
| `JsValues.HasMap` | src/app/api/chat/route.ts:32 | `messages.map` can be called only when `messages` is an array; `null`, `undefined` and every other value make the call throw |
| `ChatRoute.ContentOf` | src/app/api/chat/route.ts:35 | `message.content` is present exactly when the message is an object with a `content` field, and then it is that field's value |
| `ChatRoute.Formatted` | src/app/api/chat/route.ts:21-42 | a formatted request exists only for a parsed body whose `messages` has `map`; it has one entry more than `messages`, and its first entry is the `system` entry whose content is exactly `SYSTEM_PROMPT` |
| `ChatPage.ToView` | src/app/chat/page.tsx:23-28 | the page message keeps id and content; its type is `user` exactly when the role is `"user"`, otherwise `bot` |
| `ChatPage.FormatMessages` | src/app/chat/page.tsx:23-28 | the page has as many messages as the hook |
| `ChatPage.FormatMessagesAt` | src/app/chat/page.tsx:23-28 | page message i is hook message i, with the same id and text, and it is `user` exactly when that role is `"user"` |
| `ChatPage.SameSenderNext` | src/app/chat/page.tsx:46-47 | `isNextMessageSamePerson` is false at the last index, and before it holds exactly when the next message has the same type |
| `ChatPage.SameSenderNextIff` | src/app/chat/page.tsx:46-47 | before the last index, the flag of the rendered row holds exactly when both hook roles are `"user"` or both are not |
| `ChatPage.Rows` | src/app/chat/page.tsx:45-56 | one row per page message, in order, and each row carries that message's `isNextMessageSamePerson` flag |
| `ChatPage.RowsTail` | src/app/chat/page.tsx:45-47 | the flags of a list without its first message are the original flags shifted by one place |
| `ChatPage.GroupEndsAreRuns` | src/app/chat/page.tsx:45-56 | the number of rows whose flag is false equals the number of maximal runs of one sender, so each group of bubbles ends at exactly one row |
| `ChatPage.BannerText` | src/app/chat/page.tsx:74 | the banner starts with `Error: ` and continues with the error's message when it is non-empty, otherwise with `Something went wrong. Please try again.` |
| `ChatPage.Render` | src/app/chat/page.tsx:38-77 | the welcome screen is rendered exactly when there are no messages; otherwise the conversation has one row per message, and the loading indicator and banner exist only inside it, the indicator exactly when `isLoading` is set and the banner exactly when an error is present, with `BannerText` as its text |
| `ChatPage.ConversationRows` | src/app/chat/page.tsx:23-56 | row i of the conversation is hook message i as the page shows it, and its flag holds exactly when hook message i+1 exists and comes from the same side (`"user"` or not) |

## Left out

- The model client's settings: the API key from the environment, the model name, `temperature: 0.3` (a float), `maxOutputTokens` and `maxDuration = 30`. They are deployment constants with no behaviour in this code.
- `model.stream` and `LangChainAdapter.toDataStreamResponse` are foreign streaming code. The model keeps only whether the stream was requested, with which list, and whether it threw. It does not model frames, deltas, or errors after the stream started.
- `ChatRoute.Respond`: a throw in `toDataStreamResponse` is not modelled. The adapter is foreign code.
- The `useChat` hook's own state machine (submission, appending deltas, loading, errors, cancelling) lives in a library that is not part of this model. Its `messages`, `isLoading` and `error` are inputs of `ChatPage.Render`.
- `ChatPage.ToView`: `createdAt` is a single `now` parameter for the whole list. The page calls `new Date()` once per message, which is a clock read.
- JSON numbers are integers in `JsValues.Value`. The route never reads them.
- `JsValues.Property` covers only keys that no built-in prototype defines (`messages`, `role`, `content`), which are the only keys the route reads with a plain property access; the call `messages.map` is modelled by `JsValues.HasMap`.
- Logging (`console.log`, `console.error`), the scroll-into-view effect, React keys and styling are side effects or presentation.
- The `ChatState` interface in the chat types is not used by the page and is not modelled.
- The welcome component's suggestion buttons (DOM query and event dispatch) and the Python document-search service are outside this model.
