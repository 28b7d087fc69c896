# Chat with your FPN Wardley Map — session and transcript model

`app.py` is a Streamlit page. A user types the id of a Wardley map, and the
page fetches the map's text from the Online Wardley Maps service. It seeds a
chat transcript with a fixed system/user/assistant triple around that text.
Each question adds a turn, sent through GPT-4. The page shows the map's
title, offers each numbered line of a reply as a follow-up question, and
builds two download strings. One holds the replies; the other holds the
chat, reply and query interleaved.

This project models the bookkeeping the script does around its two external
calls. The fetch becomes a `FetchOutcome` parameter and the completion call a
`Completion` parameter. The session state (`st.session_state`) becomes the
class `Session.ChatSession`, whose methods update its fields in place. A
ghost log of turns (`Answered` / `Unanswered`) ties the transcript, the
`past` and `generated` buffers and both token counters together in the
invariant `Valid()`.

Modules:

- `Wrappers`: `Option` and `Result`.
- `Text`: the Python string operations the script uses.
  - `str.split` with a separator: `SplitOn`, built on `IndexOf`;
  - `sep.join`: `Join`;
  - `str.strip()` over Python's full whitespace set: `Strip`;
  - `startswith` and ASCII `isdigit`.
- `Transcript`: transcript entries `{role, content}`, the typed LangChain
  messages, and the role translation loop of `get_chatgpt_response`.
- `Seed`: the fetch outcome, the seed texts and `get_initial_message`.
- `Scan`: the sidebar title scan and the "structured prompts" filter.
- `Export`: the document and chat download strings.
- `Session`: the session class, the reset on a new map id, and a chat turn.

Four behaviours of the code are easy to miss; the model follows the code:

- **The id is marked current before the fetch.** The reset block sets
  `current_map_id` before it calls `get_initial_message` (app.py:168-170).
  So a failed fetch still marks the new id as current, and the next run does
  not retry it.
- **A failed fetch leaves the old map text.** `map_text` is written only on
  a successful fetch (app.py:44), so a failed fetch after a good one leaves
  the previous map's text in place (`LoadInitialMessage`).
- **A failed turn leaves its user entry.** The user entry is appended before
  the completion call (app.py:188). A failed turn therefore leaves that entry
  with no answer, and two user entries can stand next to each other. The
  transcript does not strictly alternate; `TurnsAlternate` states what does
  hold.
- **The title stops at the next "title ".** The title is
  `line.split("title ")[1]`: the text between the first and second
  occurrence of `title `, not the whole rest of the line. A line that starts
  with `title` but has no `title ` in it makes that indexing raise; the model
  reports it as `MalformedTitleLine`.

## Model

| member | source | states |
|---|---|---|
| Text.IndexOf | app.py:177 | the position found holds an occurrence, no occurrence starts earlier, and `None` means there is no occurrence anywhere |
| Text.JoinSplit | app.py:204 | joining the pieces of `s.split(sep)` with `sep` gives back `s`: splitting loses and invents nothing |
| Text.SplitJoinLines | app.py:238 | splitting a newline-join of newline-free pieces at newlines gives back exactly the pieces |
| Text.StripRemovesOnlyWhitespace | app.py:204-206 | `strip()` keeps one contiguous slice of its argument, and everything it drops before or after that slice is whitespace |
| Text.StripStripped | app.py:206 | a string with no whitespace at either end is left unchanged by `strip()` |
| Text.StripIdempotent | app.py:204-206 | stripping twice is the same as stripping once |
| Text.Strip | app.py:204-206 | the result has no whitespace at either end |
| Transcript.TypedRoundTrip | app.py:101-106 | an entry gets a typed message exactly when its role is system, user or assistant; the typed message keeps role and content, and undoing the typing gives the entry back |
| Transcript.TranslateAppend | app.py:97-106 | translating a concatenation is concatenating the translations, so the loop may go entry by entry |
| Transcript.TranslateRoundTrip | app.py:96-106 | undoing the translation gives exactly the known-role entries, in transcript order: order is preserved and only unknown roles are dropped |
| Transcript.TranslateAllKnown | app.py:101-106 | on a transcript whose roles are all known, the translation has the same length and entry `i` becomes the typed message of entry `i` |
| Transcript.ToChatMessages | app.py:96-106 | the appending loop returns exactly the translation of the transcript |
| Seed.GetInitialMessage | app.py:31-91 | the result is non-empty exactly when the status is 200 and the JSON has `text`; it is then the system/user/assistant triple, the map text appears verbatim right after the fixed system prefix, and the user and assistant entries are the fixed seeds; a bad status, a missing key or a request exception gives `[]` |
| Seed.FetchWarning | app.py:33-53 | no warning exactly when the status is 200 and the JSON has `text`; otherwise the warning names the failure: a request exception, a missing `text` key, or a bad status carrying its code |
| Seed.SeedRoundTrip | app.py:56-69 | the map text can be read back from the seeded system entry exactly as fetched |
| Scan.ExtractTitle | app.py:173-179 | no title line gives `NoTitleLine`, and only then; a title line without `title ` gives `MalformedTitleLine`, and only then; otherwise the title is the field of the last line starting with `title` |
| Scan.TitleOfPlainLine | app.py:176-177 | the line `"title " + t`, with no further `title ` in `t`, is a title line whose title is `t` |
| Scan.StructuredPrompts | app.py:203-208 | the loop over one reply's lines returns `Prompts` of the lines of the stripped reply |
| Scan.PromptsSound | app.py:204-208 | every offered prompt is the stripped form of some line, is non-empty, starts with a digit and has no whitespace at either end |
| Scan.PromptsComplete | app.py:204-208 | every line whose stripped form is non-empty and starts with a digit is offered |
| Scan.PromptsPrefix | app.py:205-208 | scanning one more line adds that line's offer, if any, at the end |
| Export.DocumentExport | app.py:228-239 | nothing is offered exactly when there are no replies; otherwise the document is the newline-join of the replies, oldest first, and splitting it at newlines gives the replies back when none contains a newline |
| Export.ChatPieces | app.py:243-248 | the chat export has two pieces per turn |
| Export.ChatPiecesAt | app.py:244-248 | piece `2k` is the `k`-th newest reply and piece `2k + 1` the query of the same turn |
| Export.ChatExport | app.py:242-252 | nothing is offered exactly when there are no replies; otherwise the reverse loop builds the newline-join of the interleaved pieces, newest turn first, reply before query |
| Export.ChatExportLines | app.py:250-251 | when no reply and no query contains a newline, the chat export splits back into exactly its pieces: 2n lines |
| Export.ChatPiecesNewlineFree | app.py:247-248 | newline-free replies and queries give newline-free pieces |
| Session.TurnKeepsConsistent | app.py:187-197 | a turn keeps the session invariant: an answered turn appends its two entries and moves both buffers and both counters by its query, reply and usage; an unanswered turn appends only its user entry |
| Session.FreshConsistent | app.py:161-170 | a session with no turns and either no seed or the seeded triple satisfies the invariant |
| Session.LogStep | app.py:188-195 | one more turn extends the transcript, the buffers and the counters by exactly that turn |
| Session.BuffersAligned | app.py:194-195 | `past` and `generated` always have the same length |
| Session.PairInTranscript | app.py:188-195 | query `i` and reply `i` stand next to each other in the transcript, user entry first |
| Session.TurnsAlternate | app.py:188-197 | the turns add only user and assistant entries, and every assistant entry directly follows a user entry |
| Session.TokenTotalAppend | app.py:191-192 | the total usage over two stretches of turns is the sum of their totals, so the counter never decreases within a session |
| Session.ChatSession.constructor | app.py:128-147 | the first run starts with both counters 0, empty buffers and transcript, no map text, `code_has_run` false and no current id |
| Session.ChatSession.UpdateChat | app.py:124-126 | exactly one `{role, content}` entry is appended at the end, and the earlier entries stay as they were |
| Session.ChatSession.SyncMapId | app.py:161-170 | an unchanged id changes nothing, keeps the query and warns of nothing; a new id resets the counters to 0, empties both buffers, makes the id current, replaces the transcript with the freshly seeded one (no old entry survives), sets the query to the reset question, and returns the fetch's warning |
| Session.ChatSession.ResetSession | app.py:162-170 | the reset's new state: counters 0, empty buffers, the id current, the transcript the seed for the fetch, map text updated only on a successful fetch, and the fetch's warning returned |
| Session.ChatSession.LoadInitialMessage | app.py:31-91 | returns `GetInitialMessage` of the fetch and stores the map text only when the fetch succeeded; it returns a warning exactly when the seed is empty, naming why the fetch failed |
| Session.ChatSession.ExecuteTurn | app.py:187-197 | the request is the translation of the transcript with the user entry appended; the transcript grows by the turn's entries (2 on a reply, 1 on a failure); `tokens_used` becomes the usage and `total_tokens_used` grows by exactly it on a reply; `generated` and `past` grow by the reply and the query on a reply and are unchanged on a failure; the invariant is kept |
| Session.ChatSession.RecordOutcome | app.py:189-197 | after the user entry is appended, a reply adds the assistant entry and moves buffers and counters, and a failure changes none of them |
| Session.ChatSession.RecordReply | app.py:190-195 | the success path: the usage goes to both counters, the reply is appended as an assistant entry, and the reply and query go to `generated` and `past` |
| Session.ChatSession.RecordFailure | app.py:196-197 | the failure path: the turn is logged as unanswered and the invariant still holds with the dangling user entry |
| Session.ChatSession.AskQuestion | app.py:185-197 | an empty query changes nothing and sends nothing; otherwise one turn runs: the request is the translation of the transcript with the user entry appended, the user entry and (on a reply) the assistant entry are appended, `tokens_used` becomes the usage and the total grows by it on a reply, the query and the reply go to `past` and `generated` on a reply, a failure changes neither counter nor buffer, and the buffers stay the same length |
| Session.ChatSession.AskFollowUp | app.py:211-223 | an offered line of an earlier reply becomes the query of one turn, with the same effects as a typed question: the same request, appended entries, counters and buffers as `AskQuestion` gives for a non-empty query |

## Left out

- Streamlit rendering is not modelled: columns, dividers, buttons, spinners, chat bubbles, download buttons and the sidebar text. A button press is a method call.
- Widget keys are not modelled, nor is their collision. `generated.index(text)` (app.py:209-211) gives the first equal reply, so two identical replies with a numbered line build the same key twice; Streamlit then raises on the duplicate key and the run ends before both exports (app.py:225-252). The model offers the follow-up and builds the exports as if the keys were distinct.
- The HTTP request and the JSON decoding (app.py:35-39) are the `FetchOutcome` parameter. The warning shown for each failure is the `FetchError` that `LoadInitialMessage`, `ResetSession` and `SyncMapId` return (`Seed.FetchWarning`); its message text is not modelled.
- The LangChain/OpenAI call and its token callback (app.py:108-122) are the `Completion` parameter. Every way that call can fail is one `Failed` value: an exception, an unbound `response`, and the string returned in place of a pair. The caller's `except` catches all of them.
- The cost display (app.py:158) is not modelled: it is floating point.
- Secrets, the model name and the endpoint constant (app.py:10-19) are configuration, and are not modelled.
- `map_text` starting as `[]` (app.py:144) is not modelled. The model starts it as `None`, so the crash of splitting that list on a first run with a failed fetch is not modelled.
- The sidebar code block that shows the map text (app.py:180) is display only.
- Scan.ExtractTitle: the title scan works on the map text as a string. An unbound `title` and the `IndexError` of `split(...)[1]` are results (`NoTitleLine`, `MalformedTitleLine`), not crashes. In the script that crash ends the run before the question handlers (app.py:182-223), so no question can be asked about a loaded map without a well-formed title line; `AskQuestion` and `AskFollowUp` have no such condition.
- Text.IsDigit: accepts only the ASCII digits. Python's `isdigit` also accepts other Unicode digits.
- Session.ChatSession.AskFollowUp: models one button press. The outer loop over `generated` (app.py:203-205) is not modelled. Its precondition only requires the sentence to be one of the offers of some reply.
- The script displays the replies while it is still iterating over `generated` (app.py:203-223). That interaction with the appended reply is not modelled.
- The ghost log and `Valid()` exist only in the proof: the script keeps no such record.
