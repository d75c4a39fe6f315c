# Field Day Morse trainer: callers, generators and scorer

This project models the core of `FieldDayMorseTrainer.py`. The program is a
practice station for ARRL Field Day. The operator presses buttons (CQ, send
report, repeat call, repeat class, repeat section, confirm), and each press
leaves a message in a field that several simulated callers share. Each
caller polls that field and answers in Morse code. The model covers four
parts:

- **Scorer** (`scorer.dfy`). `levenshtein` is the two-row
  dynamic-programming edit distance, modelled as a method with loop
  invariants and proved equal to a recursive reference definition
  `EditDistance`. `run_ltest` divides that distance by the length of the
  true callsign. It is modelled over `real`, and an empty callsign gives an
  error result, the model's stand-in for the division by zero. Its three
  threshold tests (`== 0.0`, `< 1.0`, `< 0.5`) are proved equal to integer
  comparisons on the distance.
- **Identity generators** (`identity.dfy`). `generate_class`,
  `generate_callsign` and `generate_section` take each random draw as an
  explicit parameter, with its range stated as a precondition.
  - Every class and callsign they produce fits the Field Day grammar.
  - Every string of that grammar can be produced.
  - `generate_section` never fails on a generated callsign.
  - `generate_callsign` keeps its step-by-step form, including the loop
    over the suffix length.
- **Messages** (`messages.dfy`). The button texts form a tagged datatype
  with a clock stamp. The callers keep the program's substring tests
  (`"CQ " in message`, …), written out as a character-by-character
  predicate in `text.dfy`. The model proves that each substring test
  recognises exactly one kind of message.
- **Caller** (`agent.dfy`):
  - `Tick` is one pass of the `while True` loop of `thread_function`. It is
    a function over an explicit record: state, the message seen, the last
    answered message, the shared `call_resolved` flag, the identity, the
    operator's guesses, and the draws for a possible new identity.
  - `Tick` returns the new state and the phrases handed to the `morse`
    program, in order. It also returns the new `call_resolved`, whether the
    shared message is cleared, and whether the loop breaks.
  - `Run` folds `Tick` over a sequence of polls.
  - The class `Station` holds the two shared fields. Its method `RunCaller`
    is `thread_function`: it draws the identity, then loops over the polls
    with a `while` loop in place. It is proved to compute exactly `Run`.

Floating-point thresholds are integer comparisons on the distance:

| test in the code | in the model |
|---|---|
| `error_level == 0.0` | `lev == 0` |
| `error_level < 1.0` | `lev < |callsign|` |
| `error_level < 0.5` | `2*lev < |callsign|` |

The lemmas about one pass state their results in terms of the real-valued
`RunLTest` score. This shows that the integer form agrees with the
thresholds tested on the exact quotient; that Python's float division gives
the same answers is argued, not proved (see "Floating point" under
"## Left out").

## Model

| member | source | states |
|---|---|---|
| Scorer.Levenshtein | FieldDayMorseTrainer.py:457-477 | the two-row loop computes exactly the edit distance of the two strings, argument swap and empty-string shortcut included |
| Scorer.NextRow | FieldDayMorseTrainer.py:466-475 | from the row of a prefix of `str1`, the inner loop builds the row of the next prefix: each cell is the distance of that prefix to the matching prefix of `str2` |
| Scorer.EditDistanceCell | FieldDayMorseTrainer.py:469-474 | each table cell is the minimum of insertion + 1, deletion + 1 and substitution + (characters differ) |
| Scorer.EditDistanceBounds | FieldDayMorseTrainer.py:457-477 | the distance is at least the difference of the lengths and at most the longer length |
| Scorer.EditDistanceSymmetric | FieldDayMorseTrainer.py:459-460 | argument order does not matter, so the swap changes nothing |
| Scorer.EditDistanceZeroIff | FieldDayMorseTrainer.py:457-477 | the distance is 0 exactly when the strings are equal |
| Scorer.RunLTest | FieldDayMorseTrainer.py:479-482 | fails exactly when the true string is empty; otherwise the score is non-negative, is 0.0 iff the guess equals the callsign, is below 1.0 iff the distance is below the callsign length, and is below 0.5 iff twice the distance is below it |
| Scorer.EmptyGuessScoresOne | FieldDayMorseTrainer.py:479-482 | an empty guess scores exactly 1.0 |
| Scorer.ScoreIsNotSymmetric | FieldDayMorseTrainer.py:479-482 | the score does depend on argument order, because it divides by the first length: 1/2 for ("AB", "ABC"), 1/3 for ("ABC", "AB") |
| IdentityGenerator.GenerateClass | FieldDayMorseTrainer.py:353-367 | every class drawn is 1C, 1D, 1E, 1B/2B, nA with n in 3..20 or nF with n in 1..20, and ends in the drawn category letter |
| IdentityGenerator.GenerateClassCovers | FieldDayMorseTrainer.py:353-367 | every class of that list is produced by some draws |
| IdentityGenerator.CallsignOf | FieldDayMorseTrainer.py:370-420 | the callsign fits the grammar (prefix A/K/N/W; after A a letter A..L, a digit and 1-2 letters; otherwise an optional letter, a digit and 1-3 letters), with the drawn digit at index 2 when there is a second letter and at index 1 otherwise |
| IdentityGenerator.GenerateCallsign | FieldDayMorseTrainer.py:370-420 | the step-by-step construction, suffix loop included, yields exactly the callsign of the draws, which fits the grammar |
| IdentityGenerator.DrawsFor | FieldDayMorseTrainer.py:370-420 | every callsign of the grammar is produced by some valid draws |
| IdentityGenerator.AreaSections | FieldDayMorseTrainer.py:425-436 | every call area has at least one section |
| IdentityGenerator.GenerateSection | FieldDayMorseTrainer.py:423-442 | succeeds exactly when index 1, or failing that index 2, of the call exists and is a digit; the section then comes from that digit's area list |
| IdentityGenerator.SectionOfCallsign | FieldDayMorseTrainer.py:437-442 | on any callsign of the grammar, the area digit is at index 1 or 2 and the section lookup succeeds |
| IdentityGenerator.SectionOfGeneratedCallsign | FieldDayMorseTrainer.py:437-442 | on a generated callsign, the area found is the drawn digit, and the section is the picked entry of its list |
| IdentityGenerator.NewIdentity | FieldDayMorseTrainer.py:93-95 | callsign, class and section drawn in that order form a well-formed identity |
| IdentityGenerator.NewIdentityCovers | FieldDayMorseTrainer.py:93-95 | every well-formed identity is produced by some draws |
| Text.ContainsIsOccurrence | FieldDayMorseTrainer.py:107 | the character-wise substring test holds exactly when the key occurs at some position |
| Text.ContainsAppend | FieldDayMorseTrainer.py:113 | appending a stamp that never holds the key's last character does not change whether the key occurs |
| Text.NatToString | FieldDayMorseTrainer.py:363 | `str(n)` is a non-empty string of digits, with a leading zero only for 0, and one character exactly when n < 10 |
| Text.NatToStringRoundTrip | FieldDayMorseTrainer.py:363 | reading back the digits of `str(n)` gives n |
| Text.NatToStringInjective | FieldDayMorseTrainer.py:363-367 | different numbers give different texts, so different draws give different numbered classes |
| Messages.KeyInRender | FieldDayMorseTrainer.py:113 | a key occurs in a message exactly when it occurs in the message's head; the stamp never matters |
| Messages.DispatchKeys | FieldDayMorseTrainer.py:107-220 | each of the seven substring tests of the loop holds on a message exactly when the message is of the matching kind |
| Messages.RenderInjective | FieldDayMorseTrainer.py:110-111 | different broadcasts leave different texts, so comparing texts tells a new press from an old one |
| CallerAgent.Tick | FieldDayMorseTrainer.py:105-232 | breaks exactly on "DIE " and then changes and sends nothing; an already answered message changes nothing; otherwise the message becomes the answered one; `call_resolved` is never cleared; the identity changes only when the message is cleared, to the fresh well-formed one, with state CQ |
| CallerAgent.TickOnDie | FieldDayMorseTrainer.py:107-108 | "DIE " stops the caller in any state without sending or changing anything |
| CallerAgent.TickOnAnswered | FieldDayMorseTrainer.py:110-111 | a message equal to the last answered one is ignored |
| CallerAgent.TickOnCq | FieldDayMorseTrainer.py:113-129 | a new CQ in any state sends exactly the callsign and ends in RESOLVINGCALL, `call_resolved` unchanged |
| CallerAgent.TickOnPartial | FieldDayMorseTrainer.py:131-160 | while resolving: score 0.0 sends "rr" and resolves; otherwise the callsign is resent exactly when `(not call_resolved and score < 1.0) or guess == "?"`, state unchanged; in CQ or CALLRESOLVED nothing happens |
| CallerAgent.TickOnResponse | FieldDayMorseTrainer.py:162-199 | while resolving: score 0.0 resolves and sends "tu class section" twice; otherwise "de callsign class section" goes out exactly when `not call_resolved and score < 0.5`; once resolved, "tu class section" goes out once; in CQ nothing happens |
| CallerAgent.TickOnResendClass | FieldDayMorseTrainer.py:200-209 | a resolved caller sends "class class"; in other states nothing happens |
| CallerAgent.TickOnResendSection | FieldDayMorseTrainer.py:210-219 | a resolved caller sends "section section"; in other states nothing happens |
| CallerAgent.TickOnQrz | FieldDayMorseTrainer.py:220-230 | a resolved caller takes a fresh well-formed identity, clears the message and returns to CQ without sending; in other states nothing happens |
| CallerAgent.TickOnNoMessage | FieldDayMorseTrainer.py:110-111 | the empty message is recorded as answered and has no other effect |
| CallerAgent.DrawIdentity | FieldDayMorseTrainer.py:93-95 | running the three generators gives exactly the identity of the draws |
| CallerAgent.InitialAgent | FieldDayMorseTrainer.py:92-103 | the identity a caller starts with is well-formed (state CQ and nothing answered are set by its definition, not stated in its contract) |
| CallerAgent.Run | FieldDayMorseTrainer.py:105-232 | over any polls, every identity the caller holds is well-formed, and a run that stopped last saw "DIE " |
| CallerAgent.RunKeepsResolved | FieldDayMorseTrainer.py:131-187 | once `call_resolved` is set, no later pass clears it |
| CallerAgent.SameBroadcastAnsweredOnce | FieldDayMorseTrainer.py:110-111 | when the next poll brings no press, or rewrites the text just answered, the second pass sends nothing, including after a QRZ cleared the message |
| CallerAgent.RunOnCq | FieldDayMorseTrainer.py:113-129 | a poll with a new CQ sends the callsign, then the run continues in RESOLVINGCALL |
| CallerAgent.RunOnExactPartial | FieldDayMorseTrainer.py:131-146 | a poll with a new PARTIAL and the exact callsign typed, while resolving, sends "rr" and continues resolved |
| CallerAgent.QrzThenDie | FieldDayMorseTrainer.py:220-230 | after resolution, QRZ then DIE sends nothing and stops the caller in CQ with the fresh identity |
| CallerAgent.ContactResolves | FieldDayMorseTrainer.py:105-160 | from the start, CQ then an exact PARTIAL sends the callsign and "rr" and leaves the caller resolved |
| CallerAgent.ExactPartialThenQrzThenDie | FieldDayMorseTrainer.py:131-230 | while resolving, an exact PARTIAL, QRZ and DIE send only "rr" and stop with the fresh identity in CQ |
| CallerAgent.ContactScenario | FieldDayMorseTrainer.py:90-232 | a whole contact (CQ, exact PARTIAL, QRZ, DIE) sends exactly the callsign and "rr", sets `call_resolved`, and stops with a fresh identity in CQ |
| CallerAgent.Station.constructor | FieldDayMorseTrainer.py:64-65 | the shared message starts empty and `call_resolved` false |
| CallerAgent.Station.Pass | FieldDayMorseTrainer.py:105-230 | one loop pass on the shared fields does what `Tick` says, writing `call_resolved` and clearing the message as `Tick` decides |
| CallerAgent.Station.PollUntilDie | FieldDayMorseTrainer.py:105-232 | the `while` loop leaves the shared fields and returns the phrases and the break flag exactly as `Run` gives them |
| CallerAgent.Station.RunCaller | FieldDayMorseTrainer.py:90-232 | `thread_function` as a whole computes `Run` from the initial caller |

## Left out

- The PyQt window is left out, for presentation reasons. This covers widget
  loading, signal wiring, key handling, the upper-casing text handlers,
  fonts and `relpath`. The three guess fields are inputs of each poll.
- The `morse` subprocess, its arguments and its timeout handling are left
  out, because they are external I/O. Each transmission is one phrase
  appended to the output sequence.
- Pitch, speed and volume sampling and their formatting (lines 96-102) are
  left out. They only parameterise the external program.
- Threads, `spawn` and `time.sleep` are left out, as concurrency and wall
  clock. So are the races on the shared `message` and `call_resolved`
  between callers and buttons.
  - One pass reads the message once as a snapshot. The code reads the field
    several times, and another caller's QRZ can clear it in between.
  - A run models one caller. The other callers appear only through the
    polls' broadcasts.
- The `send_*` button handlers are not modelled as operations, because they
  are GUI side. Their message texts (lines 257, 273, 286, 299, 312, 316,
  322, 349) are the `Message` datatype.
  - The operator's own transmissions are left out.
  - So is the sequence in `send_confirm` (lines 314-325): QRZ, reset
    `call_resolved`, "DIE ", sleep, clear, respawn.
  - Polls therefore never reset `call_resolved`.
- `print` and `log` are left out as logging. This includes the "correct"
  message printed on QRZ when the class and section guesses match.
- `time.clock_gettime` stamps are abstract strings with no upper-case
  letter and no space. This holds for a float's text. Only their equality
  matters.
- Floating point: `run_ltest` is exact division over `real`. For the small
  integers involved, the float division and the three comparisons give the
  same answers.
- `str.isdigit` accepts Unicode digits, but the model tests ASCII digits
  only. Callsigns only ever hold ASCII.
- `str.split()` of the call-area table is written as literal lists of
  sections.
- In the generators, the draws are parameters, and a draw outside its range
  is excluded by precondition rather than modelled.
- IdentityGenerator.GenerateSection: explicit error results stand in for
  `IndexError` (a call that is too short) and `KeyError` (no digit at index
  2). Python raises these; the model does not model the exceptions.
- Scorer.RunLTest: a `Failure` result stands in for `ZeroDivisionError` on
  an empty true string.
- Where the documented protocol and the code differ, the model follows the
  code:
  - the PARTIAL threshold is 1.0, and there is no 0.8 threshold;
  - there is no substring-of-callsign matching;
  - RESEND requests are not answered while resolving;
  - PARTIAL does nothing once resolved;
  - QRZ publishes no result record, only `call_resolved` has been set;
  - every transmission uses a fixed 15-second timeout, with no duration
    computed per phrase.
