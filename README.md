# Interview Question Generator: a Dafny model of its core

The application is a single-page form. It collects a candidate profile
(name, email, phone, years of experience, desired positions, location, tech
stack) and builds a natural-language prompt from it. It sends the prompt to a
remote large-language-model completion service and shows the streamed answer
as one block of text. This project models the four pieces of logic in
`app.py` and proves what they promise:

- `Prompt.GeneratePrompt` is the prompt builder `generate_prompt`. It is one
  concatenation: a fixed header, four labelled lines (`Name:`, `Experience:`,
  `Desired Positions:`, `Tech Stack:`), and fixed instructions asking for 15
  questions. `Decimal.NatToDecimal` renders the years as Python's `str` does.
  `Prompt.GeneratePrompt` itself has no contract; its promises are the
  lemmas `PromptFrame`, `PromptLayout`, `PromptMentionsFields` and
  `ParseGenerate`. Its partner is the reader `Prompt.ParsePrompt`, built
  from `StripPrefix`, `ParseLine`, `SplitLine`, `ParseYears` and
  `StripSuffix`: it strips the header, reads the name, experience and
  positions lines up to their newlines, and takes as tech stack everything
  between its label and the blank line before the instructions. It is
  proved to be the inverse of `GeneratePrompt` when the name and the
  positions hold no newline; the tech stack, typed into a text area, may
  hold any text.
- `Stream.AccumulateChunks` is the loop of `get_interview_questions`. It
  walks the chunk contents in arrival order, appends each one that is
  neither `None` nor empty to a list, and joins the list. It is proved equal
  to the specification `Stream.Accumulated`, a filter followed by a join.
  The lemmas about `Accumulated` relate it to `Stream.AllText`, a reference
  definition that does not filter.
- `Form.PhoneError` is the phone check on line 86. It only displays an error.
- `Form.RequiredFieldsPresent` is the gate on line 96. `Form.Page` and
  `Form.Submit` show the outcome of one run of `main`: no press, the "fill
  all fields" error, or the prompt with the accumulated answer.

Modules: `Wrappers` (the `Option` type), `Decimal`, `Prompt`, `Stream`, `Form`.

Notes on the code as it stands:

- The phone error does not stop generation: `main` shows it at line 86 and
  then checks the button on its own at lines 95-96 (`Form.PhoneDoesNotGate`).
- The instructions do not list all fifteen items. They list "1.", "2.", "3.",
  an ellipsis line and "15." (`Prompt.Instructions`).
- `get_interview_questions` returns a string (line 70), although its
  docstring calls the result a list of questions.

## Model

| member | source | states |
|---|---|---|
| `Prompt.GeneratePrompt` | app.py:17-41 | no contract of its own: the header, the four labelled lines and the instructions concatenated; its promises are proved by `PromptFrame`, `PromptLayout`, `PromptMentionsFields`, `ParseGenerate` and `GenerateParse` |
| `Decimal.NatToDecimal` | app.py:32 | the years as `str` renders a non-negative int: as many characters as the number has digits, all ASCII digits, no leading zero, no newline |
| `Decimal.DecimalRoundTrip` | app.py:32 | parsing the rendered years gives them back |
| `Decimal.DecimalOfDigitsValue` | app.py:32 | every canonical numeral is the rendering of its value, so renderings are exactly the canonical numerals |
| `Prompt.PromptFrame` | app.py:30-41 | for all inputs, including empty strings, the prompt starts with the fixed header and ends with the fixed instructions, so it ends in "...\n15."; its length is 282 plus the lengths of the name, positions and tech stack plus the digit count of the years |
| `Prompt.InstructionsEnd` | app.py:35-41 | the fixed instructions end with the ellipsis line and "15." |
| `Prompt.PromptLayout` | app.py:30-34 | after the header, the name, experience, positions and tech-stack lines appear as contiguous pieces in this order, at offsets 67, 74 + len(name), 95 + len(name) + digits, 115 + len(name) + digits + len(positions) |
| `Prompt.PromptMentionsFields` | app.py:31-34 | the prompt contains "Name: " + name, "Experience: " + years + " year(s)", "Desired Positions: " + positions and "Tech Stack: " + stack |
| `Prompt.JaneDoePrompt` | app.py:30-34 | the prompt for Jane Doe with 3 years contains "Experience: 3 year(s)" |
| `Prompt.ParseGenerate` | app.py:30-41 | reading back the prompt of a name and positions without newlines gives exactly the four fields back, whatever the tech stack holds |
| `Prompt.GenerateParse` | app.py:30-41 | every string the reader accepts is the prompt of the fields it returns, and their name and positions hold no newline |
| `Prompt.NewlinesMakePromptAmbiguous` | app.py:31-34 | a name or position holding a newline and a label makes two different profiles give the same prompt |
| `Stream.Truthy` | app.py:67 | no contract of its own: a content counts exactly when it is present and not empty, as Python's truth test of a string; `AccumulatedIgnoresFalsy` and `AccumulatedAppendsText` prove what it decides |
| `Stream.Accumulated` | app.py:64-70 | no contract of its own: the specification of the loop, the truthy contents joined in order; `AccumulateChunks` is proved equal to it and `AccumulatedAppend`, `AccumulatedIsAllText` prove its properties |
| `Stream.Kept` | app.py:65-68 | the appended contents are no more than the chunks, and none of them is empty |
| `Stream.AccumulateChunks` | app.py:64-70 | the loop's result equals the specification: the truthy contents, in arrival order, joined |
| `Stream.AccumulatedAppend` | app.py:64-70 | the result for s1 followed by s2 is the result for s1 followed by the result for s2, so nothing is reordered or repeated |
| `Stream.AccumulatedEmpty` | app.py:64-70 | no chunks give the empty string |
| `Stream.AccumulatedIgnoresFalsy` | app.py:67 | appending a `None` or empty content leaves the result unchanged |
| `Stream.AccumulatedAppendsText` | app.py:67-68 | appending a present content appends its text to the result; an empty one adds nothing |
| `Stream.AccumulatedIsAllText` | app.py:64-70 | filtering out the falsy contents gives the same text as reading every content with `None` as nothing |
| `Stream.AccumulatedExample` | app.py:64-70 | "A", "", `None`, "BC", "D" accumulate to "ABCD" |
| `Form.RequiredFieldsPresent` | app.py:96 | no contract of its own: name, positions and stack non-empty and years present; `GenerationGate` proves it is exactly the condition for generating |
| `Form.IsDigitString` | app.py:86 | `isdigit`: true exactly when the string is non-empty and all ASCII digits |
| `Form.PhoneError` | app.py:86 | the error shows exactly when the phone is non-empty and either its length is not 10 or some character is not a digit |
| `Form.PhoneAccepted` | app.py:86 | the accepted phones are exactly the empty one and the ten-digit ones |
| `Form.NineDigitPhoneRefused` | app.py:86 | "123456789" shows the error |
| `Form.LetteredPhoneRefused` | app.py:86 | "12345abcde" shows the error |
| `Form.TenDigitPhoneAccepted` | app.py:86 | "1234567890" passes |
| `Form.Page` | app.py:86-121 | no contract of its own: the phone error and the outcome of one run of `main`; `GenerationGate`, `PhoneDoesNotGate` and `UnusedFields` prove what it decides |
| `Form.Submit` | app.py:95-119 | running `main`'s decisions with the accumulation loop gives the page described by `Page` |
| `Form.GenerationGate` | app.py:95-121 | questions are generated exactly when the button is pressed and name, years, positions and stack are present; the "fill all fields" error shows exactly when pressed and one is missing; the prompt is built from the fields and the text shown is the whole streamed text |
| `Form.PhoneDoesNotGate` | app.py:86-96 | changing the phone changes only the phone error, never the outcome |
| `Form.UnusedFields` | app.py:82-98 | email and location have no effect on the page |
| `Form.JaneDoeEndToEnd` | app.py:86-119 | a complete profile with a nine-digit phone shows the phone error and still generates; the prompt mentions "Experience: 3 year(s)" and the two streamed fragments are shown joined |

## Left out

- Loading the environment, reading the secret key and building the client
  (app.py:7-15): configuration and a foreign library.
- The streaming request to the completion service (app.py:53-62), with its
  model name, sampling parameters and token limit: a remote call. The chunk
  contents it yields are an input (`stream`). Its failures propagate
  uncaught in the source, and the model has no error path for them either.
- Reaching into each chunk (`chunk.choices[0].delta.content`, app.py:66):
  the stream is given as the contents directly.
- All rendering (titles, inputs, markdown, the output text area, error
  display, app.py:78-121): only the decisions are modelled, as `View`.
- The 10-character limit of the phone widget (app.py:83) is a widget
  property; `PhoneError` is modelled on any string.
- Form.IsDigitString: Python's `str.isdigit` accepts every Unicode decimal
  digit and more; the model accepts only the ASCII digits '0' to '9'.
- Form.Profile: `years` can be `None` in the model, to keep the
  `is not None` test; the number widget with minimum 0 always gives a
  non-negative integer, so it is never `None` in practice.
- Determinism of the prompt builder needs no lemma: a Dafny function is
  deterministic by definition.
