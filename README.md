# Career roadmap backend: request handling, prompts and reply clean-up

This project models the request-handling core of a small Flask backend (`app.py`).
The backend turns a career profile into a prompt for a generative language model.
It then cleans up the model's free-form reply and decodes it as JSON.
Finally it stamps request metadata onto the decoded roadmap and relays the result to the browser.
It serves three endpoints: roadmap generation, a career chat, and a transition ("regenerate") roadmap.

The modules follow the program's structure:

- `Wrappers`: the `Result` type that stands in for Python exceptions.
- `Text`: the Python string operations the handlers use.
  - `strip()`, using the full `str.isspace` character set.
  - `startswith`.
  - `split` with a non-empty separator: `Join` undoes it and no piece holds the separator.
  - f-string filling.
- `Sanitizer`: the reply clean-up, the same code at `app.py:98-104` and `app.py:227-233`.
  It strips the reply, takes piece `[1]` of `split('```')` when the reply opens with a fence, drops one leading `json` tag, and strips again.
- `Json`: the values a request body or a decoded reply can hold.
  - `dict.get` with its default.
  - The `str()` an f-string applies to a value.
  - The exact messages of the `AttributeError` (`.get` on a non-dictionary) and `TypeError` (item assignment on a non-dictionary) the handlers can raise.
- `Prompts`: the three f-string templates, with their fixed text exactly as in the source. Doubled braces are already reduced, and the trailing spaces are kept.
- `Handlers`: each endpoint's work in three parts.
  - The `try` block.
  - The `except` clauses, which choose the message the caller sees.
  - The JSON reply with its HTTP status (200 or 500).

A handler receives its external collaborators as `Services`:

- `complete` is the model call, returning `model.generate_content(prompt).text` or the text of the exception.
- `loads` is `json.loads`. An error is the exception it raises with its message: a `JSONDecodeError` for malformed text, or another exception (such as the `ValueError` for an integer literal past the digit limit).
- `now` is `datetime.now().isoformat()`.
- `repr` is Python's `str()` of a list or a dictionary.

The request body is given as a `Result`: `request.json`'s value, or the text of the exception it raised.

Behaviours of the code worth noting:

- `regenerate_roadmap` has a single `except Exception` (`app.py:245-250`). A reply that does not decode is therefore answered with the decoder's own message, not with a retry message (`Handlers.RegenerateRoadmapFailures`).
- Not every absent field defaults to the empty string.
  - `context` and `userProfile` default to an empty dictionary.
  - The two context fields of the chat prompt default to `Not specified`.
  - A field present with `null` is passed on as `None`, not defaulted.
- Only a `JSONDecodeError` gets the retry message in `generate_roadmap` (`app.py:122-128`). Any other exception from `json.loads` falls to `except Exception` and reaches the caller with its own message (`Handlers.GenerateRoadmapFailures`).
- The decoded reply's shape is never checked. A decoded list, string, number or `null` fails at the first metadata assignment with Python's `TypeError` message (`Handlers.Stamp`), and that message is what the caller sees.
- The chat endpoint answers every failure with one fixed message, even when the request body itself cannot be read (`Handlers.Chat`).

## Model

| member | source | states |
|---|---|---|
| `Text.Strip` | app.py:98 | the result is a contiguous slice of the input, everything cut off on either side is whitespace, and the result has no outer whitespace |
| `Text.StripFixpoint` | app.py:104 | stripping leaves a text unchanged exactly when it has no outer whitespace (both directions) |
| `Text.StripIdempotent` | app.py:104 | stripping twice equals stripping once |
| `Text.StartsWith` | app.py:100-102 | a text starts with a prefix exactly when the prefix is no longer and agrees with the text character by character |
| `Text.Find` | app.py:101 | the least index at or after the start where the separator occurs, or the length when there is none |
| `Text.Split` | app.py:101 | at least one piece; the first piece is the text before the first separator; no piece contains the separator; joining the pieces with the separator gives back the input; a text that opens with the separator has at least two pieces, the first empty |
| `Text.SplitSecondPiece` | app.py:100-101 | for a text opening with the separator, piece `[1]` runs from just after it to the next separator, or to the end |
| `Text.Fill` | app.py:58-95 | a filled f-string starts with its first fixed text |
| `Text.FillEmbeds` | app.py:58-95 | every interpolated value occurs verbatim in the filled f-string, at the position after the fixed text and values before it |
| `Sanitizer.DropTag` | app.py:102-103 | a part that starts with `json` is `json` followed by the result; any other part comes back unchanged |
| `Sanitizer.FirstBlock` | app.py:100-101 | for a fenced reply, piece `[1]` of the split exists, is the text between the opening fence and the next fence (or the end), and holds no fence |
| `Sanitizer.Unfence` | app.py:100-103 | a text that opens with a fence keeps no fence after the step; any other text is unchanged |
| `Sanitizer.Sanitize` | app.py:98-104 | the cleaned text has no outer whitespace, and a reply that does not open with a fence (after stripping) comes back equal to its strip |
| `Sanitizer.UnfenceKeepsFirstBlock` | app.py:100-103 | on the fenced path the text kept is the first block, less one leading `json` exactly when the block starts with it |
| `Sanitizer.SanitizeRemovesFences` | app.py:100-104 | a fenced reply's cleaned text contains no fence marker, the closing one included |
| `Sanitizer.SanitizeWithinFirstBlock` | app.py:100-104 | a fenced reply's cleaned text is a slice of its first block: nothing after the closing fence survives |
| `Sanitizer.SanitizeIdempotent` | app.py:227-233 | cleaning an already cleaned text changes nothing |
| `Sanitizer.SanitizeFencedBlock` | app.py:98-104 | a fenced block whose body holds no fence and does not end in a backtick, followed by anything, cleans to the body with its tag dropped and stripped |
| `Sanitizer.ClosingFenceAfterBody` | app.py:101 | in such a block the next fence after the opening one is the closing one, and the text between is the body |
| `Sanitizer.PaddedKeepsAbsence` | app.py:101 | padding a fence-free text with backtick-free text creates no fence |
| `Sanitizer.SanitizeTaggedJson` | app.py:98-104 | any trimmed JSON text without a fence, fenced as a `json` block with newlines, is recovered exactly |
| `Sanitizer.SanitizeUntaggedJson` | app.py:98-104 | the same text fenced without a tag is recovered exactly |
| `Sanitizer.SanitizeTagDroppedOnce` | app.py:102-103 | after a fence exactly four tag characters go, so a body `json{}` behind a `json` tag survives as `json{}`; this needs a body that does not end in a backtick, which would otherwise merge with the closing fence |
| `Sanitizer.SanitizeBare` | app.py:98-104 | an unfenced trimmed text passes through unchanged |
| `Sanitizer.SanitizeTaggedExample` | app.py:98-104 | the reply "```json\n{"a":1}\n```" cleans to `{"a":1}` |
| `Sanitizer.SanitizeUntaggedExample` | app.py:98-104 | the reply "```\n{"a":1}\n```" cleans to `{"a":1}` |
| `Sanitizer.SanitizeBareExample` | app.py:98-104 | the bare reply `{"a":1}` is unchanged |
| `Sanitizer.SanitizeTagOnceExample` | app.py:100-103 | the tag is dropped only on the fenced path: "```jsonjson{}```" gives `json{}` and the bare `json{}` stays `json{}` |
| `Json.NoGetMessage` | app.py:52 | the `AttributeError` message is the value's Python type name in quotes followed by ` object has no attribute 'get'` |
| `Json.NoGetMessageNamesType` | app.py:52 | two values give the same `AttributeError` message exactly when they have the same Python type |
| `Json.NoneHasNoGet` | app.py:52 | the message for `None` is `'NoneType'` in quotes followed by ` object has no attribute 'get'` |
| `Json.ItemAssignmentMessage` | app.py:108 | the `TypeError` message: for a list, that indices must be integers or slices; for any other value, its type name in quotes followed by ` object does not support item assignment` |
| `Json.ItemAssignmentMessageNamesType` | app.py:108 | for values other than lists, the same `TypeError` message exactly when the Python type is the same |
| `Json.Get` | app.py:52-56 | succeeds exactly on a dictionary; the stored value (even `null`) when the key is present, the default when it is absent; otherwise the `AttributeError` message naming the value's type |
| `Json.NatToString` | app.py:62-66 | `str()` of a non-negative integer is a non-empty digit string with no leading zero except for zero |
| `Json.NatToStringRoundTrip` | app.py:62-66 | reading the digits of `str(n)` back gives `n` |
| `Json.IntToString` | app.py:62-66 | `str()` of an integer: a minus sign exactly for negative numbers, then digits that read back as the magnitude, with no leading zero except for zero itself |
| `Json.PyStr` | app.py:62-66 | an interpolated string appears verbatim; `None`, `True`, `False` and integers are rendered as Python prints them; lists and dictionaries are rendered by the supplied `str()` |
| `Prompts.RoadmapPrompt` | app.py:58-95 | the roadmap prompt opens with its fixed preamble and contains name, education, interests, skills and goals verbatim |
| `Prompts.ChatPrompt` | app.py:145-158 | the chat prompt opens with its preamble and contains career path, current phase and message verbatim |
| `Prompts.TransitionPrompt` | app.py:185-224 | the transition prompt opens with its preamble and contains current career, current skills, new interests, education and name verbatim |
| `Handlers.ReadProfile` | app.py:52-56 | reading succeeds exactly on a dictionary body; each of the five fields is the stored value when present and the empty string when absent; otherwise the `AttributeError` message |
| `Handlers.ProfileObject` | app.py:109-115 | the echoed profile has exactly the five profile keys, each with the value read from the request |
| `Handlers.ProfilePrompt` | app.py:58-66 | the `str()` of each profile field occurs in the roadmap prompt |
| `Handlers.Stamp` | app.py:108-115 | stamping succeeds exactly on a dictionary; the keys become the model's keys plus the stamped ones; stamped keys take the system's values whatever the model put there; every other key keeps the model's value; otherwise the `TypeError` message for that value |
| `Handlers.GeneratedStamps` | app.py:108-115 | a generated roadmap receives exactly `generatedDate` with the capture time and `userProfile` with the profile read |
| `Handlers.AskForRoadmap` | app.py:96-115 | a roadmap obtained by asking the model carries every stamp it was given (the same steps end the transition endpoint, app.py:226-238) |
| `Handlers.AskForRoadmapOk` | app.py:96-115 | a reply that decodes to a dictionary comes back as that dictionary with the stamps applied |
| `Handlers.GenerateTry` | app.py:49-120 | a success, or a `JSONDecodeError`, comes only from a dictionary body; a success carries every generated-roadmap stamp for the profile read from it |
| `Handlers.GenerateRoadmap` | app.py:122-135 | a generated roadmap comes only from a dictionary body and carries the capture time and the profile read from that body |
| `Handlers.GeneratedMerge` | app.py:108-115 | the stamped roadmap has the model's keys plus `generatedDate` and `userProfile`, with the system's values, and every other model key unchanged |
| `Handlers.GenerateRoadmapFailures` | app.py:122-135 | each failure in step order: an unreadable body gives its own message, a non-dictionary body the `AttributeError` message, a failed model call its message, a `JSONDecodeError` the fixed retry message, any other decoder exception its own message, a non-dictionary roadmap the `TypeError` message |
| `Handlers.GenerateRoadmapOk` | app.py:106-120 | a reply that decodes to a dictionary yields that dictionary with the generated-roadmap stamps applied |
| `Handlers.GenerateRoadmapSuccess` | app.py:106-120 | the roadmap has exactly the model's keys plus the two stamps, the stamps override the model's values, and every other value (the order of a `phases` list included) is the model's own |
| `Handlers.GenerateParseFailureReply` | app.py:122-128 | a reply that raises `JSONDecodeError` is answered with status 500, `success` false, no `roadmap` key and the non-empty retry message |
| `Handlers.GenerateNonObjectBody` | app.py:50-52 | a body that is not a dictionary fails on the first field read with the `AttributeError` message |
| `Handlers.GenerateNullBody` | app.py:50-52 | a `null` body is answered with `'NoneType' object has no attribute 'get'` (the quoted name followed by the fixed tail) |
| `Handlers.GenerateExample` | app.py:49-120 | a body with only a name and skills, answered with a `json`-fenced `{"a":1}`, gives the decoded object plus the capture time and the full profile, with the three absent fields empty |
| `Handlers.ReadSituation` | app.py:180-183 | reading succeeds exactly on a dictionary; the three text fields default to the empty string and the stored profile to an empty dictionary |
| `Handlers.SituationPrompt` | app.py:185-224 | building the prompt fails exactly when the stored profile is not a dictionary, with that value's `AttributeError`; otherwise the prompt contains the current career, skills and new interests, and the education and name read from the stored profile (empty when absent) |
| `Handlers.TransitionStamps` | app.py:236-238 | a transition roadmap receives exactly `generatedDate` with the capture time, `isTransition` true and `fromCareer` with the career read |
| `Handlers.RegenerateTry` | app.py:178-243 | a success comes only from a dictionary body and carries every transition stamp |
| `Handlers.RegenerateRoadmap` | app.py:245-250 | a transition roadmap comes only from a dictionary body and carries the capture time, the transition flag and the career read from the body |
| `Handlers.TransitionMerge` | app.py:236-238 | the stamped roadmap has the model's keys plus the three transition keys, with the system's values, and every other model key unchanged |
| `Handlers.RegenerateRoadmapFailures` | app.py:245-250 | each failure in step order, including a non-dictionary stored profile at prompt building; every failure, an undecodable reply included, reaches the caller with the exception's own message, whatever kind of exception the decoder raised |
| `Handlers.RegenerateTryOk` | app.py:226-238 | the `try` block returns the decoded dictionary with the transition stamps applied |
| `Handlers.RegenerateRoadmapOk` | app.py:226-243 | a reply that decodes to a dictionary yields that dictionary with the transition stamps applied |
| `Handlers.RegenerateRoadmapSuccess` | app.py:235-243 | the roadmap has exactly the model's keys plus the three stamps, the stamps override, and every other value is the model's own |
| `Handlers.ChatRequestPrompt` | app.py:141-158 | the prompt can be built exactly when the body and its context (by default empty) are dictionaries; a non-dictionary body or context gives that value's `AttributeError`; the prompt contains the message, and the context's career path and current phase (`Not specified` when absent) |
| `Handlers.ReadProfileGets` | app.py:52-56 | on a dictionary body each profile field is what `data.get(field, '')` returns; on any other body reading fails with the error of the first `.get` |
| `Handlers.ReadSituationGets` | app.py:180-183 | on a dictionary body each field is what its `data.get(...)` returns; on any other body reading fails with the error of the first `.get` |
| `Handlers.SituationPromptGets` | app.py:192-193 | a non-dictionary stored profile fails with the error of `user_profile.get('education', '')`; on a dictionary both `.get`s succeed |
| `Handlers.ChatRequestPromptGets` | app.py:142-150 | the message and context are what their `data.get(...)` return; a non-dictionary body fails with the error of `data.get('message', '')`, a non-dictionary context with that of `context.get('careerPath', ...)` |
| `Handlers.ChatContextDefaults` | app.py:143-150 | without a context both context lines of the prompt read `Not specified` |
| `Handlers.ChatTry` | app.py:140-165 | the try block succeeds exactly when the body is readable, the prompt can be built and the model call succeeds; an answer has no outer whitespace |
| `Handlers.Chat` | app.py:167-172 | it answers exactly when the body is readable, the prompt can be built and the model call succeeds; every failure reaches the caller as the one fixed message, and every answer has no outer whitespace |
| `Handlers.ChatFailures` | app.py:140-172 | each failure in step order ends in status 500 with only `success` false and the fixed message: an unreadable body, a non-dictionary body, a non-dictionary context, a failed model call |
| `Handlers.ChatSuccess` | app.py:160-165 | a model answer is relayed stripped under `response` with status 200 and `success` true |
| `Handlers.ChatFailureReply` | app.py:167-172 | any failure gives status 500 with only `success` false and the fixed message |
| `Handlers.RoadmapReply` | app.py:117-135 | status 200 exactly on success with the dictionary under `roadmap`; otherwise status 500 with the message under `error` and no `roadmap` |
| `Handlers.GenerateRoadmapReply` | app.py:47-135 | status 200 exactly when the handler produced a roadmap, else 500, `success` mirroring it; on 200 the roadmap is a dictionary carrying the capture time and the profile of a dictionary body; on 500 there is no roadmap and `error` holds the handler's message |
| `Handlers.RegenerateRoadmapReply` | app.py:175-250 | status 200 exactly when the handler produced a roadmap, else 500, `success` mirroring it; on 200 the roadmap carries the capture time, the transition flag and the starting career; on 500 there is no roadmap and `error` holds the handler's message |
| `Handlers.ChatReply` | app.py:138-172 | status 200 with exactly `success` true and a stripped `response`, or status 500 with exactly `success` false and the fixed message; status 200 exactly when chat answered |
| `Handlers.Respond` | app.py:117-135 | status 200 exactly on success and 500 otherwise; `success` mirrors the outcome; the payload key is present exactly on success and `error` exactly on failure, with the message; the reply has exactly two keys |

## Left out

- Page routes, template rendering, the session secret, the Firebase configuration, loading the environment, model configuration and `app.run` (`app.py:1-44`, `app.py:253-254`): they are start-up and static pages, not request logic.
- The language model itself: its reply enters as `Services.complete`. This includes a failure of `response.text`, which is part of that call's error. The kind of exception the model call raises is not represented, only its message. So the case where the call itself raises `JSONDecodeError` is not modelled: at `app.py:122-124` that clause would print the `response_text` it never assigned, and the handler would crash instead of replying.
- `json.loads`: it enters as `Services.loads`. Floating-point numbers in decoded JSON are not represented (`Json` has integers only). Which inputs make the decoder raise which exception is left to it.
- The clock: `Services.now` is the value `datetime.now().isoformat()` returns.
- Python's rendering of lists and dictionaries inside a prompt: it is `Services.repr`.
- `print` diagnostics (`app.py:123-124`, `131`, `168`, `246`): they only log.
- Flask's handling of `request.json` (content type, malformed bodies): its outcome is the `Result` the handlers receive.
- `jsonify`'s serialisation and key order: replies are maps, and key order is not modelled.
- `Prompts.RoadmapPrompt`: its contract states the fixed opening and that each field occurs verbatim, not the whole text; the whole text is the `RoadmapTemplate` constant.
- `Prompts.ChatPrompt`: likewise, the whole text is `ChatTemplate`.
- `Prompts.TransitionPrompt`: likewise, the whole text is `TransitionTemplate`.
- Strings are sequences of Dafny characters, which are Unicode scalar values. A Python `str` can also hold a lone surrogate such as `"\ud800"`, which this model cannot represent.
