# Claude Code Generator — verified model of the generation core

Claude Code Generator is a desktop application. It turns a natural-language
description into source code by calling a completion service. This project models
the logic behind its window, and proves properties of that model:

- **Response extraction** (`CodeExtraction`). The client splits the response on `\n`.
  It finds the first and last lines whose trimmed form starts with a code fence
  (three backquotes), joins the lines strictly between them and trims the result.
  If that leaves nothing, it returns the response itself.
- **The completion client** (`ClaudeApi`). The client is built from a key and keeps a
  current model, which `SetModel` changes. The model covers:
  - the system prompt;
  - the non-streaming call, with its retry loop: three attempts, doubling sleeps for
    rate limits, a fixed sleep otherwise, and no retry on an authentication failure;
  - the streaming call, which appends every fragment to a buffer and hands it to a
    callback;
  - the connection test.

  The service is abstract. `answers(i)` is how attempt `i` of a non-streaming call
  ends, and a `Stream` is the fragments a streaming call delivers and how it ends.
  Each sleep is recorded, in seconds, in the `delays` of the returned `Call`. Each
  request issued is recorded in `sent`, and each callback invocation in `delivered`.
- **The generator rules** (`CodeGeneration`):
  - language normalisation;
  - template substitution;
  - description validation;
  - routing between the streaming and the blocking call.
- **Validators** (`Validators`).
  - API key, temperature, token limit and file path each answer `(is_valid, message)`.
  - The file-name sanitiser replaces nine characters with `_`, trims the name, and
    falls back to `untitled`.
- **Settings** (`SettingsManager` in `Settings`). The in-memory configuration
  dictionary, with get, set, update, get-all and reset. The save loop encrypts the API
  key and the load loop decrypts it. Encryption and decryption are abstract functions
  that answer `None` where the real ones raise.
- **Constants** (`Constants`) and the Python built-ins the rules use (`Py`):
  - `str.strip()`, using exactly the characters `str.isspace()` accepts;
  - `split('\n')` and `'\n'.join`;
  - `startswith` and truthiness.

Exceptions become `Failure` values of a `Result`, and Python's dynamically typed
configuration values become the `Value` datatype.

## Model

| member | source | states |
|---|---|---|
| Py.StripEmptyIffBlank | claude-code-generator/core/claude_api.py:95-96 | `strip()` yields the empty string exactly for whitespace-only input, so `not s.strip()` is `Blank(s)` |
| Py.StripIsClean | claude-code-generator/core/claude_api.py:257 | the result of `strip()` has no whitespace at either end |
| Py.StripIdempotent | claude-code-generator/core/claude_api.py:257 | stripping twice is stripping once |
| Py.StripTrimsEnds | claude-code-generator/utils/validators.py:117 | `strip()` keeps a contiguous middle and removes only whitespace before and after it |
| Py.JoinSplit | claude-code-generator/core/claude_api.py:239 | joining the pieces of `split('\n')` with newlines gives back the string |
| Py.SplitPiecesHaveNoNewline | claude-code-generator/core/claude_api.py:239 | no piece of `split('\n')` contains a newline |
| Constants.LanguagesContainDefaults | claude-code-generator/config/constants.py:24-43 | the default language and "Other" are listed, and the languages are pairwise distinct |
| Constants.ModelTableConsistent | claude-code-generator/config/constants.py:12-19 | the default model is one of the identifiers; identifiers and display names are each pairwise distinct, so each side determines the other |
| Constants.TemplateNamesDistinct | claude-code-generator/config/constants.py:91-97 | template names are distinct, so the table is a dictionary |
| Constants.TemplatesWellFormed | claude-code-generator/config/constants.py:91-97 | every template is brace-free text around exactly one `{language}` followed by exactly one `{description}` |
| Constants.DefaultConfigConsistent | claude-code-generator/config/constants.py:73-83 | the default theme is listed; the default configuration holds the default model, temperature, token limit, theme and language, and an empty (falsy) API key |
| Constants.RetryPolicySane | claude-code-generator/config/constants.py:86-88 | at least one attempt is made and the base delay is positive |
| Constants.LookupTemplate | claude-code-generator/core/code_generator.py:95-97 | a template is found exactly when some entry has that name, and what is found is that entry's text |
| CodeExtraction.FirstFence | claude-code-generator/core/claude_api.py:245-248 | none exactly when no line is a fence; otherwise the index of a fence line with no fence line before it |
| CodeExtraction.LastFence | claude-code-generator/core/claude_api.py:250-253 | none exactly when no line is a fence; otherwise the index of a fence line with no fence line after it |
| CodeExtraction.FindStart | claude-code-generator/core/claude_api.py:242-248 | the forward loop with `break` stops one past the first fence line, and gives 0 when there is none |
| CodeExtraction.FindEnd | claude-code-generator/core/claude_api.py:243-253 | the backward loop with `break` stops at the last fence line, and gives the line count when there is none |
| CodeExtraction.ExtractCode | claude-code-generator/core/claude_api.py:227-259 | the split, the two searches, the slice, join and trim, and the fallback to the response compute `Extracted(text)` |
| CodeExtraction.ExtractedIsTextOrClean | claude-code-generator/core/claude_api.py:256-259 | the result is the response itself, or non-empty with no whitespace at either end |
| CodeExtraction.ExtractedWithoutFences | claude-code-generator/core/claude_api.py:239-259 | without fence lines the result is `text.strip()`, or the text itself when that is blank |
| CodeExtraction.ExtractedSingleFence | claude-code-generator/core/claude_api.py:245-259 | with exactly one fence line the response comes back unchanged, fence included |
| CodeExtraction.ExtractedBetweenFences | claude-code-generator/core/claude_api.py:245-259 | with the first fence at `f` and the last at `l`, the result is the trimmed join of lines `f+1..l-1`, or the response when that is blank |
| CodeExtraction.ExtractedIdempotentWithoutFences | claude-code-generator/core/claude_api.py:239-259 | on fence-free input, extracting twice is extracting once |
| CodeExtraction.ExtractedFencedLine | claude-code-generator/core/claude_api.py:239-259 | a line of prose followed by a fenced block of one non-fence line with no whitespace at its ends gives exactly that line |
| CodeExtraction.ExtractedExample | claude-code-generator/core/claude_api.py:239-259 | `"Here:"`, then a fenced `def f(): pass`, gives `def f(): pass` |
| ClaudeApi.MessagesIdentifyErrors | claude-code-generator/core/claude_api.py:121-144 | the seven failure texts, raised here and at lines 33 and 96 for the no-key and empty-input errors, are pairwise different, so a message tells which failure ended a call, and a service failure's message gives back its detail |
| ClaudeApi.NewClient | claude-code-generator/core/claude_api.py:32-37 | construction fails with the no-key error exactly for an empty key; otherwise the client keeps the key and starts on the default model |
| ClaudeApi.ClaudeApiClient.constructor | claude-code-generator/core/claude_api.py:35-37 | a client keeps its key and starts on the default model |
| ClaudeApi.ClaudeApiClient.SetModel | claude-code-generator/core/claude_api.py:39-46 | the current model becomes the given one |
| ClaudeApi.SystemPrompt | claude-code-generator/core/claude_api.py:48-69 | the instructions are the fixed opening words, the language, the fixed middle text ending in "Requirements:" and "- Follow ", the language again and the fixed closing requirements, each at its position, so the language appears twice |
| ClaudeApi.FramedDetermines | claude-code-generator/core/claude_api.py:58-69 | a text built as fixed opening words, `x`, fixed middle words, `x` and a fixed rest names `x` right after the opening words, so it determines `x` |
| ClaudeApi.SystemPromptDeterminesLanguage | claude-code-generator/core/claude_api.py:58-69 | the instructions name the language right after their opening words, and different languages give different instructions |
| ClaudeApi.ClaudeApiClient.RequestFor | claude-code-generator/core/claude_api.py:98-114 | the request carries the per-call model only when it is non-empty (else the current model), the language's system prompt, the prompt, temperature and token limit |
| ClaudeApi.Respond | claude-code-generator/core/claude_api.py:116-118 | a response ends the call with the code extracted from its text, and with the requests and sleeps made so far |
| ClaudeApi.Attempts | claude-code-generator/core/claude_api.py:101-144 | the retry loop, with its early return on a response, its immediate raise on an authentication failure and its sleeps, computes the blocking call for a non-blank prompt |
| ClaudeApi.ClaudeApiClient.GenerateCode | claude-code-generator/core/claude_api.py:95-144 | the blocking call for the request built from the arguments: a blank prompt fails before any request, and at most three requests are sent |
| ClaudeApi.RetryBounded | claude-code-generator/core/claude_api.py:101-144 | between one and the remaining number of attempts are made, and the fallback failure after the loop is never reached |
| ClaudeApi.RetryTrace | claude-code-generator/core/claude_api.py:120-142 | every call but the last failed retryably and was followed by a sleep: `API_RETRY_DELAY * 2^i` for a rate limit, `API_RETRY_DELAY` otherwise; the last call settles the outcome (the response text, or the error for its failure kind), and a retryable failure is raised only on the final attempt |
| ClaudeApi.NonStreamingTrace | claude-code-generator/core/claude_api.py:101-144 | the whole non-streaming call from attempt 0: one to three calls, one sleep fewer than calls, each sleep of its failure's kind, the result settled by the last reply, never the fallback |
| ClaudeApi.AuthenticationFailureStops | claude-code-generator/core/claude_api.py:120-121 | an authentication failure after `k` retryable failures raises the invalid-key error at once: `k + 1` calls and no sleep after it |
| ClaudeApi.RateLimitedTwiceThenAnswered | claude-code-generator/core/claude_api.py:123-126 | two rate limits and then a response: three calls, sleeps of one and two base delays, and the response text as the outcome |
| ClaudeApi.ClaudeApiClient.GenerateCodeStream | claude-code-generator/core/claude_api.py:172-208 | the aggregation loop computes the streaming call: a blank prompt fails before any request; otherwise one request, no sleep, every fragment delivered in order, and on a finished stream the extraction of the concatenation of what was delivered |
| ClaudeApi.StreamingSingleAttempt | claude-code-generator/core/claude_api.py:177-208 | a streaming call succeeds exactly when the stream finishes; a broken stream raises the error for its failure kind, with no retry |
| ClaudeApi.ClaudeApiClient.TestConnection | claude-code-generator/core/claude_api.py:217-225 | true exactly when the minimal request (current model, 10 tokens, content "test", no system prompt or temperature) is answered |
| CodeGeneration.NormaliseLanguage | claude-code-generator/core/code_generator.py:55-56 | the result is always a listed language; a listed language is kept and any other becomes "Python" |
| CodeGeneration.OtherTestRedundant | claude-code-generator/core/code_generator.py:55 | the `!= "Other"` half of the test never changes its outcome |
| CodeGeneration.Format | claude-code-generator/core/code_generator.py:98-101 | text without a brace is copied through unchanged |
| CodeGeneration.FormatFills | claude-code-generator/core/code_generator.py:98-101 | formatting a well-formed template puts the language and the description in its two fields and copies the rest |
| CodeGeneration.BuildPrompt | claude-code-generator/core/code_generator.py:78-106 | no template name, an empty one or an unknown one gives the description itself; the name of a table entry gives that entry's text formatted with the language and the description |
| CodeGeneration.BuildPromptVerbatim | claude-code-generator/core/code_generator.py:95-106 | no template, an empty name or an unknown name gives the description verbatim |
| CodeGeneration.BuildPromptTemplate | claude-code-generator/core/code_generator.py:95-101 | a known template name gives that template with the language and the description substituted |
| CodeGeneration.ValidateDescription | claude-code-generator/core/code_generator.py:118-127 | accepted exactly when not blank and 10 to 5000 characters long, counted untrimmed; `(True, "")` on success, otherwise `False` with the empty, too-short or too-long message |
| CodeGeneration.ValidateDescriptionUntrimmed | claude-code-generator/core/code_generator.py:121-122 | leading spaces count towards the minimum: two spaces and eight letters pass, nine letters do not |
| CodeGeneration.TemplateTypes | claude-code-generator/core/code_generator.py:129-136 | the template names in table order |
| CodeGeneration.TemplateTypesSelect | claude-code-generator/core/code_generator.py:129-136 | a name is listed exactly when it selects a template |
| CodeGeneration.SupportedLanguages | claude-code-generator/core/code_generator.py:138-145 | the language table itself: same length, same entries in the same order |
| CodeGeneration.NormalisedIsSupported | claude-code-generator/core/code_generator.py:55-56 | every language the generator passes on is a supported one, and supported ones pass unchanged |
| CodeGeneration.CodeGenerator.constructor | claude-code-generator/core/code_generator.py:20-27 | the generator keeps its client |
| CodeGeneration.CodeGenerator.Generate | claude-code-generator/core/code_generator.py:54-76 | the streaming call is used exactly when streaming is requested and a callback is present, otherwise the blocking call; both get the normalised language and the built prompt; every request carries the client's current model, the given temperature and token limit |
| Validators.ValidateApiKey | claude-code-generator/utils/validators.py:19-32 | accepted exactly when not blank and the stripped key starts with `sk-ant-` and has at least 20 characters; each failure carries its own message |
| Validators.ApiKeyIgnoresSurroundingSpace | claude-code-generator/utils/validators.py:19-22 | whitespace before or after a key does not change its verdict |
| Validators.ValidateTemperature | claude-code-generator/utils/validators.py:45-54 | accepted exactly for a number (int, float or bool) in [0, 2]; each failure carries its own message |
| Validators.ValidateMaxTokens | claude-code-generator/utils/validators.py:67-76 | accepted exactly for an integer (bool included) in 1..8192; each failure carries its own message |
| Validators.MaxTokensTypeRules | claude-code-generator/utils/validators.py:67-68 | a float is rejected as a token limit even when whole, `True` is accepted |
| Validators.DefaultsValid | claude-code-generator/config/constants.py:20-21 | the default temperature and token limit pass their validators |
| Validators.FirstPresent | claude-code-generator/utils/validators.py:93-96 | none exactly when no listed character occurs; otherwise the first listed character, in list order, that occurs |
| Validators.FilePathVerdict | claude-code-generator/utils/validators.py:89-98 | a blank path is rejected as empty; any other path is accepted exactly when it contains none of `< > : " \| ? *`, and otherwise the message names the first of those characters, in list order, that the path contains |
| Validators.ValidateFilePath | claude-code-generator/utils/validators.py:89-98 | the loop with early return computes the verdict |
| Validators.FilePathReportsListOrder | claude-code-generator/utils/validators.py:93-96 | the message names the first offending character in list order, not path order |
| Validators.SanitizeFilename | claude-code-generator/utils/validators.py:101-123 | the replacement loop, trim and fallback compute `Sanitized(filename)` |
| Validators.SanitizedIsValid | claude-code-generator/utils/validators.py:112-123 | the result contains none of the nine characters and is never empty |
| Validators.SanitizedKeepsValidName | claude-code-generator/utils/validators.py:112-123 | a non-empty, trimmed name without any of the nine characters comes back unchanged |
| Validators.SanitizedIdempotent | claude-code-generator/utils/validators.py:112-123 | sanitising twice is sanitising once |
| Validators.SanitizedBlankIsUntitled | claude-code-generator/utils/validators.py:116-121 | a name that is blank after replacement becomes "untitled" |
| Validators.ReplacementKeepsLength | claude-code-generator/utils/validators.py:112-114 | replacement keeps the length and changes exactly the listed characters, each to `_` |
| Validators.SanitizedTrimsEnds | claude-code-generator/utils/validators.py:116-117 | whenever the replaced name is not blank, so the fallback is not taken, the result is the replaced name minus whitespace at its ends |
| Settings.EncryptEntries | claude-code-generator/config/settings.py:71-79 | the save loop builds the entry-by-entry encrypted dictionary |
| Settings.DecryptEntries | claude-code-generator/config/settings.py:44-52 | the load loop builds the entry-by-entry decrypted dictionary |
| Settings.SettingsManager.Defaults | claude-code-generator/config/settings.py:59-61 | a manager over a copy of the defaults |
| Settings.SettingsManager.Loaded | claude-code-generator/config/settings.py:39-54 | a manager over the decrypted stored entries |
| Settings.Open | claude-code-generator/config/settings.py:32-62 | a readable file gives its decrypted entries and no write; a missing or unreadable file gives the defaults and writes them encrypted, and a failed write fails construction with the save error |
| Settings.SettingsManager.Get | claude-code-generator/config/settings.py:97-98 | the stored value when the key is present, the default otherwise |
| Settings.SettingsManager.Set | claude-code-generator/config/settings.py:107-108 | the key now maps to the value, and every other key reads as before |
| Settings.SettingsManager.GetAll | claude-code-generator/config/settings.py:117 | the whole dictionary, as an independent value |
| Settings.SettingsManager.Update | claude-code-generator/config/settings.py:126 | the keys of the argument take its values, every other entry stays |
| Settings.SettingsManager.SaveConfig | claude-code-generator/config/settings.py:64-85 | the encrypted dictionary is written, or the save fails with the save-error message and the write error's text |
| Settings.SettingsManager.ResetToDefault | claude-code-generator/config/settings.py:128-131 | the dictionary equals the defaults, even when the save then fails |
| Settings.EncryptedTouchesOnlyApiKey | claude-code-generator/config/settings.py:71-79 | saving keeps every key and every entry but the API key, and changes nothing when the key is absent or falsy |
| Settings.DecryptedTouchesOnlyApiKey | claude-code-generator/config/settings.py:44-52 | loading keeps every key and every entry but the API key, and changes nothing when the key is absent or falsy |
| Settings.FailedEncryptionKeepsPlaintext | claude-code-generator/config/settings.py:74-77 | when encryption raises, the plaintext key is saved |
| Settings.SaveLoadRoundTrip | claude-code-generator/config/settings.py:44-79 | when the ciphers invert each other, loading what was saved gives back the configuration |
| Settings.DefaultsSaveVerbatim | claude-code-generator/config/settings.py:59-62 | the defaults are saved unchanged, their API key being empty |

## Left out

- The user interface: windows, dialogs, clipboard, theming, the worker thread and its main-loop callbacks. These are widgets and concurrency, not logic.
- File dialogs and file reading and writing in the file-handling utility. Its only rules are the path validator and the file-name sanitiser, which are modelled.
- The operating system's data-protection calls and base64 are foreign code. Encryption and decryption are abstract functions that answer `None` where they raise.
- The JSON file itself: parsing, formatting and directory creation. Loading sees a `StoredConfig`, and a save sees an optional write error. Key order in the dictionaries is not modelled, because Dafny maps are unordered.
- The completion service and its SDK, real sleeping and timeouts. Replies are parameters, and sleeps are recorded as seconds, not waited for.
- Logging, the process-wide settings instance and the application entry point.
- Exceptions raised by the streaming callback are not modelled. In the source they end the call as a generic failure.
- ClaudeApi.ClaudeApiClient.constructor: does not build the SDK client object, which is foreign code.
- Validators.ValidateTemperature: temperatures are real numbers. Floating-point rounding, NaN and infinities are not modelled.
- CodeGeneration.Format: models `str.format` only for the two named fields. Escaped braces and other fields are not modelled, because no template has any.
- Default argument values are not modelled: every member takes temperature, token limit, template and model as explicit parameters. The generator passes no model to either client call and so relies on the default `None`; the model passes `None` there. The defaults themselves are checked by `Constants.DefaultConfigConsistent` and `Validators.DefaultsValid`.
- `Py.Value` has no list or object case, so a stored configuration holding a JSON list or object cannot be represented. Both transforms would copy such values unchanged, like every value that is not the API key.
- CodeGeneration.SupportedLanguages: returns a value. The source returns the module-level list object itself, so a caller that mutated the result would change the language table. No caller in the source does.
- Strings are Dafny `seq<char>`, sequences of Unicode scalar values. A Python `str` can also hold lone surrogates (U+D800 to U+DFFF); such strings are not modelled.
- The message datatype `ClaudeApi.ApiError` separates the source's `ValueError` and `RuntimeError` only in its documentation.
