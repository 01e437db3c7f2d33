# TalentScout hiring assistant, modelled in Dafny

TalentScout is a Streamlit chat application that screens job candidates. It
greets the candidate and collects seven profile fields in a fixed order: full
name, email, phone, years of experience, desired positions, location and tech
stack. Email and phone answers are validated, and a number is extracted from
the experience answer. Once every field is truthy, the assistant poses
technical questions and closes the session. When a language model answers,
there is one question per non-blank line of its reply. Otherwise a
deterministic offline generator matches the tech stack against a static
question bank and yields one to five questions.
An end keyword typed at any point ends the session.

The model has five modules:

- `Wrappers` (`wrappers.dfy`): `Option`, for Python's value-or-`None`.
- `PyStr` (`pystr.dfy`): the Python string builtins the program relies on.
  These are `strip()`, `strip(chars)`, `lower()`, `split(sep)`,
  `needle in hay` and `str(n)`, each given a characterisation. `Find` and
  `RFind` are helpers, not calls of the program. They locate the `@` and the
  final `.` that decide the email regex of `utils.py`, and the decimal point
  of a numeral.
- `Candidate` (`candidate.dfy`): the seven fields and the stored values.
  It also gives Python truthiness, which decides whether a field counts as
  collected.
- `Utils` (`utils.dfy`), for `utils.py`:
  - the email and phone validators;
  - the salted-hash record written at the end of a screening;
  - the offline question generator, as a specification function
    (`OfflineQuestions`) and as the loops of the source, proved equal to it
    (`GenerateQuestionsOffline`, `CollectChosen`, `DedupInOrder`).
- `App` (`app.dfy`), for `app.py`:
  - `END_KEYWORDS`, `FIELDS` and `get_next_field`;
  - one run of the script as a pure step function, `Step`, with the lemmas
    about it;
  - the class `Session`, whose fields are the four entries of
    `st.session_state`. Its method `Run` performs the run assignment by
    assignment, as the script does, and is proved to produce `Step` of the
    old state.

The language model's reply is a parameter `llm: Option<string>`. `None`
stands for "no API key" or "the call failed", and the offline generator is
then used. The generator's question bank is a parameter `bank` of the
generator and of `Step`. `Utils.Bank` is the literal bank of `utils.py`. A
`Session` is constructed with `bank == Bank`.

## Model

| member | source | states |
|---|---|---|
| PyStr.StripChars | app.py:209 | `s.strip(chars)`: the result is `s` with every character of `chars` removed from both ends, and what is kept neither starts nor ends with one of them |
| PyStr.StrippedAtUnique | utils.py:15 | any cut that removes only stripped characters and keeps a part with no stripped character at either end is exactly `strip()`'s result |
| PyStr.StripCharsPadding | app.py:110 | whitespace added around a string does not change what `strip()` leaves |
| PyStr.StripCharsOfStripped | utils.py:31 | stripping an already stripped string returns it unchanged |
| PyStr.LowerTwice | utils.py:31 | `lower()` is idempotent |
| PyStr.Split | utils.py:31 | `split(sep)` yields at least one part, no part holds the separator, and joining the parts with the separator gives the input back |
| PyStr.SplitJoin | app.py:209 | splitting a join of separator-free parts gives the parts back |
| PyStr.SplitAppend | utils.py:31 | splitting `a + sep + b`, with `sep` not in `a`, gives the parts of `a` followed by those of `b` |
| PyStr.IsSubstring | utils.py:99 | `key in t` holds exactly when `key` occurs at some index of `t` |
| PyStr.MissingChar | utils.py:99 | a key holding a character that the token lacks does not occur in it |
| PyStr.Find | utils.py:14 | the index of the first occurrence, or -1 exactly when the character is absent |
| PyStr.RFind | utils.py:14 | the index of the last occurrence, or -1 exactly when the character is absent |
| PyStr.NatToStringRoundTrip | app.py:206 | the decimal numeral `str(i+1)` reads back as `i+1` |
| PyStr.NatToStringInjective | app.py:206 | distinct line numbers are rendered differently |
| Candidate.NumeralValueSign | app.py:164-167 | the exact decimal value of the matched numeral is never negative and is zero exactly when every digit is `0`, so the truthiness test on the digits is the test "value non-zero"; see "## Left out" for how `float` can differ |
| Utils.ValidateEmail | utils.py:13-15 | true exactly when the trimmed input matches `local@domain.tld` (`[\w.-]+`, `@`, `[\w.-]+`, `.`, two or more letters); an input without `@` is refused; an accepted input holds exactly one `@` |
| Utils.EmailCheckComplete | utils.py:14 | a string has the email shape exactly when it has it at its first `@` and its last `.` |
| Utils.EmailHasOneAt | utils.py:14 | a string of the email shape holds `@` at a single index |
| Utils.AcceptedEmailHasOneAt | utils.py:15 | an accepted input contains `@`, and its trimmed form contains it once |
| Utils.ValidatePhone | utils.py:17-20 | true exactly when at least seven characters of the input are decimal digits |
| Utils.DigitsCount | utils.py:19 | `re.sub(r"\D", "", s)` keeps exactly as many characters as `s` has digit positions |
| Utils.PhoneIgnoresSeparator | utils.py:18-20 | inserting a non-digit anywhere never changes the phone verdict |
| Utils.HashIdentifier | utils.py:22-24 | definition: the digest of the salt followed by the trimmed value; its properties are `HashIgnoresPadding` and `IdentifierLinks` |
| Utils.IdentifierOf | utils.py:117-118 | definition of `id_email` and `id_phone`: an identifier exists exactly when the field is truthy; its properties are `IdentifierLinks`, `HashIgnoresPadding` and `RecordOnlyThroughDigests` |
| Utils.IdentifierLinks | utils.py:22-24 | with a collision-free digest, two truthy answers get the same identifier exactly when they agree once trimmed, so identifiers link one candidate's records |
| Utils.BuildRecord | utils.py:114-127 | definition of the record: every answer other than email and phone is kept as stored, the email and the phone appear only as identifiers (there is no plain slot for them), with the questions, the clock reading and the privacy note; the privacy promise is `RecordOnlyThroughDigests` |
| Utils.RecordOnlyThroughDigests | utils.py:115-127 | two profiles that differ only in contact details whose salted digests agree yield the same record, so no plain email or phone enters it |
| Utils.HashIgnoresPadding | utils.py:22-24 | whitespace around a value does not change its identifier |
| Utils.BankIsWellFormed | utils.py:32-94 | every entry of the bank has at least two questions |
| Utils.BankKeys | utils.py:32-94 | the bank has twelve keys, in insertion order: python, django, javascript, react, node, sql, mongodb, aws, docker, kubernetes, tensorflow, pytorch |
| Utils.Techs | utils.py:31 | definition of the tokens of a tech stack; its properties are `TechsIgnoreCase`, `TechsIgnorePadding`, `TechsAppend` and the worked cases |
| Utils.TechsIgnoreCase | utils.py:31 | the tokens of a lower-cased tech stack are its tokens |
| Utils.OfflineIgnoresCase | utils.py:31 | the offline questions do not depend on letter case |
| Utils.TechsIgnorePadding | utils.py:31 | whitespace around a part does not change its token |
| Utils.TechsAppend | utils.py:31 | the tokens of `a,b` are those of `a` followed by those of `b` |
| Utils.TechsOfWord | utils.py:31 | a trimmed word without a comma is one token, lower-cased |
| Utils.TechsOfTwo | utils.py:31 | two words separated by ", " give their two lower-cased tokens |
| Utils.TechsOfThree | utils.py:31 | three words separated by ", " give their three lower-cased tokens |
| Utils.ScanBank | utils.py:98-100 | definition of the inner loop over the bank; its properties are `ScanBankGrows`, `ScanBankProvenance`, `ScanBankEmpty` and the worked cases |
| Utils.ScanTokens | utils.py:96-100 | definition of the outer loop over the tokens; its properties are `ScanTokensBound`, `ScanTokensProvenance`, `ScanTokensEmpty`, and `CollectChosen` computes it |
| Utils.Chosen | utils.py:96-106 | definition of `chosen` after the fallback; its properties are `ChosenAtMostSix` and the worked cases |
| Utils.Dedup | utils.py:107-111 | definition of the de-duplication; its properties are `DedupSpec` and `DedupOfDistinct`, and `DedupInOrder` computes it |
| Utils.OfflineQuestions | utils.py:26-112 | the generator returns one to five questions, with no repeats |
| Utils.CollectChosen | utils.py:96-100 | the nested loops compute the specification `ScanTokens`: for each token in order, each bank entry in order, add the entry's first two questions on a hit while fewer than five are chosen |
| Utils.DedupInOrder | utils.py:107-111 | the de-duplication loop computes `Dedup` |
| Utils.GenerateQuestionsOffline | utils.py:26-112 | the loops, the fallback and the cut to five compute `OfflineQuestions`: one to five questions, no repeats |
| Utils.DedupSpec | utils.py:107-111 | de-duplication keeps each string of its input once, no other string, in the order of first occurrence |
| Utils.DedupOfDistinct | utils.py:107-111 | de-duplication leaves a repeat-free list unchanged |
| Utils.ScanBankGrows | utils.py:98-100 | scanning only appends to `chosen`, and a list of at most six stays at most six |
| Utils.ScanTokensBound | utils.py:96-100 | `chosen` never exceeds six questions |
| Utils.ChosenAtMostSix | utils.py:96-106 | the list before de-duplication holds at most six questions |
| Utils.ScanBankProvenance | utils.py:98-100 | a scan adds only first-two questions of keys found in the token |
| Utils.ScanTokensProvenance | utils.py:96-100 | every chosen question is one of the first two of a key occurring in some token |
| Utils.ScanBankEmpty | utils.py:98-100 | a scan ends empty exactly when it starts empty and no key occurs in the token |
| Utils.ScanTokensEmpty | utils.py:96-101 | nothing is chosen exactly when no key occurs in any token |
| Utils.OfflineFallback | utils.py:101-106 | when no key occurs in any token (or there is no token), the answer is the three generic questions, in order |
| Utils.OfflineFromHits | utils.py:96-112 | when some key occurs in some token, every question returned is one of the first two of such a key |
| Utils.GenericQuestionsDistinct | utils.py:102-106 | the generic questions are distinct |
| Utils.ScanBankNoHit | utils.py:98-100 | a token that no entry hits leaves `chosen` unchanged |
| Utils.ScanBankSingleHit | utils.py:98-100 | a token that hits exactly one entry appends that entry's first two questions |
| Utils.ScanPython | utils.py:97-100 | over a bank with the keys of `utils.py`, the token `python` hits only its own key: the scan appends exactly that entry's first two questions |
| Utils.ScanDjango | utils.py:97-100 | over a bank with the keys of `utils.py`, the token `django` hits only its own key: the scan appends exactly that entry's first two questions |
| Utils.ScanReact | utils.py:97-100 | over a bank with the keys of `utils.py`, the token `react` hits only its own key: the scan appends exactly that entry's first two questions |
| Utils.ScanCobol | utils.py:96-100 | over a bank with the keys of `utils.py`, the single token `cobol` hits no key, so nothing is chosen |
| Utils.TechsPythonReact | utils.py:31 | "Python, React" yields the tokens `python`, `react` |
| Utils.ChosenOfPythonReact | utils.py:96-100 | for "Python, React", `chosen` is the first two Python questions, then the first two React questions |
| Utils.OfflinePythonReact | utils.py:26-112 | "Python, React" yields exactly those four questions |
| Utils.ChosenOfPythonDjangoReact | utils.py:96-100 | for "Python, Django, React", `chosen` is the first two questions of Python, of Django and of React, in that order |
| Utils.ChosenReachesSix | utils.py:99-100 | for "Python, Django, React", `chosen` holds six distinct questions: four are chosen before React is scanned, and React still adds two |
| Utils.OfflinePythonDjangoReact | utils.py:107-112 | for "Python, Django, React", the answer is the first five of the six chosen |
| Utils.OfflineOfDistinct | utils.py:107-112 | when `chosen` has no repeats and at most five questions, it is the answer |
| Utils.OfflineOfDistinctCut | utils.py:107-112 | when `chosen` has no repeats and more than five questions, the answer is its first five |
| Utils.OfflineCobol | utils.py:101-106 | "COBOL" yields the generic questions |
| App.FieldsInOrder | app.py:22-30 | `FIELDS` lists the seven fields once each, in collection order |
| App.FirstUnfilledFrom | app.py:32-36 | the loop from position `k` returns the first field whose value is missing or falsy, and none exactly when all from `k` on are filled |
| App.NextField | app.py:32-36 | `get_next_field` returns none exactly when all seven fields are truthy; otherwise it returns a field that is not filled, and every field before it is filled |
| App.FirstDigit | app.py:161 | the index of the first digit, or -1 exactly when there is none |
| App.DigitRunEnd | app.py:161 | the end of the maximal run of digits from a position |
| App.FirstNumeral | app.py:161 | `re.findall(r"[0-9]+\.?[0-9]*", v)[0]`: none exactly when `v` has no digit; otherwise the match starts at the first digit and cannot be extended |
| App.Accept | app.py:134-178 | an answer is refused exactly when it is an invalid email, an invalid phone number, or an experience answer without a digit; the experience is stored as the number matched, every other field as the trimmed text |
| App.CleanLine | app.py:209 | definition: dashes and spaces stripped from both ends, then whitespace; its properties are `CleanLineShape` and `DashLineGivesEmptyQuestion` |
| App.CleanLineShape | app.py:209 | a cleaned line has no line break and no surrounding whitespace |
| App.KeptLines | app.py:209 | no more questions than lines, each one line without surrounding whitespace |
| App.LlmQuestions | app.py:209 | every question taken from the model's reply is one line without surrounding whitespace |
| App.LlmQuestionsAppend | app.py:209 | the reply is read line by line: the questions of two lines are those of each, in order |
| App.LlmQuestionsOfLine | app.py:209 | a blank line gives no question, any other line gives its cleaned text |
| App.DashLineGivesEmptyQuestion | app.py:209 | a line `---` is not blank, so it is kept, but cleaning leaves an empty question |
| App.NumberedList | app.py:205-212 | definition of the numbered reply; its properties are `NumberedListLines` and `NumberedLineReadsBack` |
| App.NumberedLineHasNoBreak | app.py:206 | a numbered line of a one-line question has no line break |
| App.NumberedListLines | app.py:205-212 | the numbered list, split at line breaks, gives back the numbered lines, one per question |
| App.NumberedLineReadsBack | app.py:206 | line `i` is a decimal numeral equal to `i+1`, then ". ", then the question |
| App.CollectFacts | app.py:125-184 | collecting writes at most the next field, adds at most one reply (the reprompt on a refusal, the next prompt or "Thanks!" on acceptance), and ends in questioning exactly when no field is missing |
| App.AskQuestionsFacts | app.py:186-230 | with a truthy tech stack, the questions are set, the numbered list and the closing line are added, and the session ends; otherwise only the tech stack is asked for again; the profile never changes |
| App.Greet | app.py:94-100 | definition of the greeting block: the greeting is the first message of a new session |
| App.Handle | app.py:108-230 | definition of the input handler: the end branch, or the input recorded, then collecting, then questioning; its properties are the lemmas below |
| App.Collect | app.py:125-184 | definition of the collecting branch; its properties are `CollectFacts`, `RejectedAnswer`, `AcceptedAnswer` and `OnlyNextFieldWritten` |
| App.AskQuestions | app.py:186-230 | definition of the questioning branch; its properties are `AskQuestionsFacts` and `CollectingRunCompletes` |
| App.Step | app.py:93-230 | definition of one run of the script: the greeting, then the handler when something was typed; its properties are the lemmas below and `StepPreservesInv` |
| App.EndBranch | app.py:110-119 | an end keyword ends the session whatever its phase, recording the input and the closing line |
| App.EndKeywordPrecedence | app.py:110-119 | an end keyword, in any phase, ends the session, records the input and the closing line, and changes neither the profile nor the questions |
| App.EndCommandIgnoresPadding | app.py:110 | whitespace around an input does not change whether it ends the session |
| App.EndCommandIgnoresCase | app.py:110 | letter case does not change whether an input ends the session |
| App.FalsyAnswerAskedAgain | app.py:32-36 | a falsy value stored for the next field leaves it the next field |
| App.TruthyAnswerAdvances | app.py:32-36 | a truthy value stored for the next field moves collection to a later field, or completes it |
| App.ExperienceAnswer | app.py:159-171 | an experience answer is accepted exactly when it contains a digit, and the stored number is never negative |
| App.RejectedAnswer | app.py:136-166 | a refused answer leaves the profile and questions unchanged, keeps collecting, and replies with the reprompt for the same field |
| App.AcceptedAnswer | app.py:143-178 | an accepted answer is stored under the field asked for; while a field is still missing, the reply is that field's prompt |
| App.OnlyNextFieldWritten | app.py:125-184 | a run changes at most the field `get_next_field` named at its start |
| App.BlankAnswerAskedAgain | app.py:133-178 | a blank answer to a free-text field is stored empty, which is falsy, so the same field's prompt is the reply |
| App.ZeroExperienceAskedAgain | app.py:159-171 | an experience answer whose number is all zeros is stored as zero, which is falsy, so the experience is asked again |
| App.GreetingLeaves | app.py:125-126 | the first non-empty input always leaves the greeting phase |
| App.NeverRestsInQuestioning | app.py:180-230 | a run never ends in the questioning phase |
| App.CandidateFrozen | app.py:186-230 | once questioning or ended, a run leaves the profile unchanged |
| App.EndedAbsorbing | app.py:110-230 | an ended session stays ended, and its profile and questions do not change |
| App.TranscriptAppendOnly | app.py:94-230 | a run only appends to the transcript, at most five messages |
| App.HandleExtends | app.py:120-230 | the handler for an input that is not an end keyword appends at most four messages |
| App.CollectingRunCompletes | app.py:180-230 | an answer that completes the profile, with a truthy tech stack, ends the session in the same run, with the numbered questions and the closing line as the last two messages |
| App.InitialInv | app.py:66-74 | the initial state satisfies the session invariant |
| App.CollectWellTyped | app.py:134-178 | collecting keeps the experience a number and every other field text |
| App.StepPreservesInv | app.py:94-230 | every run preserves the invariant: never resting in questioning, values well typed, no questions before the session has ended |
| App.Session.constructor | app.py:66-74 | the session state starts in the greeting phase with an empty profile, transcript and question list, and the bank is the one of `utils.py` |
| App.Session.Reset | app.py:83-84 | "Reset Session" restores the initial state |
| App.Session.GreetIfNew | app.py:94-100 | the greeting block computes `Greet` |
| App.Session.EndSession | app.py:110-119 | the end branch sets the phase to ended and appends the input and the closing line |
| App.Session.Store | app.py:143-178 | stores one value and replies with the next prompt, or "Thanks!" |
| App.Session.StoreAnswer | app.py:134-178 | the per-field branches: an accepted answer is stored under its field and the reply is the next prompt or "Thanks!"; a refused one leaves the state unchanged and the reply is that field's reprompt |
| App.Session.CollectAnswer | app.py:125-184 | the collecting branch, written as the source's per-field branches, computes `Collect` |
| App.Session.PoseQuestions | app.py:186-230 | the questioning branch computes `AskQuestions`, calling the offline generator's loops when the model gave nothing |
| App.Session.HandleInput | app.py:108-230 | the handler computes `Handle` |
| App.Session.Run | app.py:93-230 | one run of the script computes `Step` of the old state |

## Left out

- The Streamlit interface is not modelled: rendering, the sidebar texts, `st.rerun`, the chat input widget and the download section. The chat input is the parameter `input`, and an empty string stands for no input.
- The language model call (`llm_chat_completion`, including the API key lookup and exceptions) is not modelled. Its outcome is the parameter `llm`.
- prompts.py is not part of this model. The prompt texts are only sent to the language model.
- SHA-256 is not modelled. The digest is a parameter `digest`, and the salt is the parameter `salt`, which stands for the environment variable.
- Writing the record to `records.jsonl` and the clock `int(time.time())` are not modelled. The clock reading is the parameter `ts` of `BuildRecord`. A session run does not write a record, because the source ignores every failure of that write and the write has no effect on the session state.
- Candidate.NumeralValueSign: the model reads `float(num[0])` as an exact decimal (`Candidate.NumeralValue`), not as a binary floating-point number. The sign always agrees. Truthiness differs on underflow: for the answer `"0." + "0"*400 + "1"`, `float` gives `0.0`, which is falsy, so the source asks for the experience again, while the model's value is 10^-401 and the model moves on to the desired positions. The model also stores the matched numeral text (`"3.50"`) where the source stores the float (`3.5`), so the record's `experience_years` keeps that text.
- Unicode is not modelled. `strip()`, `lower()`, `\w` and `\d` are applied to ASCII only. Python applies them to all of Unicode, so for non-ASCII input the model can differ: for example, a non-ASCII letter counts as `\w` in Python but not here.
- Utils.GenerateQuestionsOffline: the bank is a parameter rather than a local constant. The source's bank is `Utils.Bank`, and `Session` passes exactly that bank.
- App.Session.Reset: the greeting added by the rerun after the reset is not part of `Reset`; it is added by the next `Run`.
