# Customer-support dashboard and philosophy crew, modelled in Dafny

The repository has two scripts that configure `crewai` agents backed by a
Gemini LLM. Most of their code is static configuration, so this model covers
the parts that branch, loop or keep state:

- **app.py, `run_analysis`**:
  - the credential check, then the order in which the LLM, the
    support-data tool, three agents, three tasks and a sequential crew are
    built;
  - the result formatter that turns the crew's output into
    `{findings, recommendations}`. It has two tiers: a JSON object, or a
    heuristic that splits the text at blank lines and classifies each
    section by a case-insensitive substring test.
- **app.py, session state**: the `analysis_result` and `running` entries of
  `st.session_state`, their defaults, and the guard on the "Run Analysis"
  button.
- **philosophy-discussion.py**:
  - the credential check at module load;
  - the two analyzer tools, whose `_run` returns fixed text;
  - the five philosopher agents;
  - `create_analysis_task`;
  - `create_philosophical_crew`, which creates one task per agent and
    assigns that agent to it.

Modules:
- `Wrappers`: Option and Result.
- `Text`: Python's `lower`, `in`, `split` and `join` on strings.
- `Setup`: the Gemini credential check and the LLM settings.
- `Aggregator`: the result formatter.
- `Dashboard`: the `run_analysis` control flow and the session.
- `Philosophy`: the second script.

`crew.kickoff` and `json.loads` are parameters. The kickoff either
completes with some output or raises. `json.loads` either fails or yields a
JSON value. The environment variable `GEMINI_API_KEY` is an
`Option<string>`.

## Model

| member | source | states |
|---|---|---|
| Setup.ConfigureGemini | app.py:74-82 | the LLM settings exist exactly when the key is present and non-empty; they then carry that key, the Gemini 2.0 Flash model and the given temperature, and otherwise the result is the "key not set" error |
| Text.Lower | app.py:163-165 | `lower()` keeps the length, turns every upper-case letter into the lower-case letter at the same place in the alphabet, and keeps every other character |
| Text.ContainsIgnoringCase | app.py:163-165 | for a lower-case word, `word in s.lower()` holds exactly when the word occurs in `s` with each letter in either case |
| Text.IndexOf | app.py:163-165 | the leftmost occurrence of a substring: it occurs at the returned index and at no earlier one, and when none is returned it occurs nowhere |
| Text.Split | app.py:161 | `split` yields at least one piece, no piece contains the separator, and no separator starts inside a piece that is followed by a cut, so every cut is at the leftmost remaining occurrence |
| Text.SplitUnique | app.py:161 | together with `Text.JoinSplit`, `Split`'s contract determines its result: any pieces that join back to the text and meet that contract are exactly the pieces `split` returns |
| Text.JoinSplit | app.py:161 | splitting loses no text: joining the pieces with the separator gives back the original string |
| Text.SplitJoin | philosophy-discussion.py:27-33 | joining pieces that are free of a one-character separator and splitting again gives back exactly those pieces |
| Aggregator.Structured | app.py:153-158 | the JSON tier yields a report exactly when `json.loads` gives a JSON object; a failed parse or any other JSON value falls through to the `except` branch |
| Aggregator.FormatResult | app.py:147-168 | a non-`str` result gives two empty lists; a JSON object gives its `findings` and `recommendations` values, each defaulting to `[]`; otherwise the sections of `split('\n\n')` go, in order, to findings when they contain "finding" and to recommendations when they contain "recommendation" but not "finding" |
| Aggregator.ClassifiedMembership | app.py:162-166 | in both directions: a section is among the findings iff it contains "finding" case-insensitively, and among the recommendations iff it contains "recommendation" but not "finding"; no section is in both |
| Aggregator.Partition | app.py:161-166 | findings, recommendations and discarded sections together are exactly the sections as a multiset, so the report never holds more entries than there are sections |
| Aggregator.FindingsInOrder | app.py:162-164 | the findings are the subsequence of sections, in their original order, at exactly the positions whose section is a finding |
| Aggregator.RecommendationsInOrder | app.py:162-166 | the recommendations are the subsequence of sections, in their original order, at exactly the positions whose section contains "recommendation" but not "finding" |
| Aggregator.ThreeNewlines | app.py:161 | three newlines in a row split into an empty section followed by a section holding one newline |
| Aggregator.FindingInAnyCase | app.py:163-164 | a section becomes a finding exactly when it holds "finding" with each letter in either case |
| Aggregator.RecommendationInAnyCase | app.py:163-166 | a section becomes a recommendation exactly when it holds "recommendation" with each letter in either case and does not hold "finding" in any case |
| Aggregator.SectionsRejoin | app.py:161 | joining the heuristic tier's sections with a blank line gives back the crew's output |
| Aggregator.RecommendWithoutTokenIsDropped | app.py:159-166 | for the non-JSON text "Key finding: churn rose." + blank line + "We recommend adding alerts.", the first section is the only finding and the second is discarded |
| Dashboard.RunAnalysis | app.py:71-168 | modelling the run with `CustomerSupportDataTool` defined (as written, line 85 raises; see `Dashboard.RunAnalysisAsWritten`): the outcome is a ValueError with nothing built when the key is missing or empty; otherwise the LLM, the tool, three agents, three tasks and a sequential crew are built in order, kickoff is called, and the run raises exactly when kickoff raises and otherwise returns the formatted result |
| Dashboard.RunAnalysisAsWritten | app.py:74-85 | as written, a missing key raises ValueError with nothing built, and any key that is set leads to the LLM being built and then a NameError on `CustomerSupportDataTool` |
| Dashboard.AsWrittenNeverStoresReport | app.py:9-12 | with `run_analysis` as written, from a fresh session and whatever the keys, `analysis_result` stays None and `running` stays True after the clicks |
| Dashboard.WithDefaults | app.py:9-12 | after initialisation both keys are present, every value already stored is kept, a missing `analysis_result` becomes None and a missing `running` becomes False |
| Dashboard.InitIdempotent | app.py:9-12 | initialising the defaults twice is the same as once |
| Dashboard.Session.InitDefaults | app.py:9-12 | the session after the top-of-script block is the stored session with the defaults added |
| Dashboard.ClickStep | app.py:32-36 | a click adds `analysis_result` to the session only when the guard was open and the run returned |
| Dashboard.Session.ClickRunAnalysis | app.py:32-36 | the call is made exactly when `running` is not truthy; while it runs `running` is True; a return stores the report and clears `running`; a raise leaves `running` True and `analysis_result` unchanged |
| Dashboard.GuardHoldsForever | app.py:33 | once `running` is truthy, no number of further clicks changes the session |
| Dashboard.RaiseLocksSession | app.py:33-36 | a run that raises leaves `running` True and `analysis_result` as it was, and every later click is a no-op |
| Dashboard.ReturnsReleaseGuard | app.py:33-36 | when every run returns, the guard is open after the clicks and the session holds the report of the last run |
| Philosophy.LoadLlm | philosophy-discussion.py:5-15 | module load fails exactly when the key is missing or empty; otherwise the shared LLM is Gemini 2.0 Flash with that key and temperature 0.7 |
| Philosophy.LoadModule | philosophy-discussion.py:5-115 | importing the script fails with the missing-key error exactly when the key is missing or empty, so no agent is defined then; otherwise it defines the five agents, each carrying the configured LLM with that non-empty key |
| Philosophy.RunIsFixedText | philosophy-discussion.py:25-48 | each tool's `_run` returns the same text whatever its argument, and splitting that text at newlines gives back its five lines, the first being the tool's analysis header |
| Philosophy.LinesHaveNoNewline | philosophy-discussion.py:27-47 | every one of the five lines of each tool's text is free of newlines |
| Philosophy.Philosophers | philosophy-discussion.py:143-150 | the crew's agent list holds five agents with distinct personas, all sharing the one LLM, none allowed to delegate and none given a tool |
| Philosophy.DescriptionQuotesTopic | philosophy-discussion.py:120-128 | the task description contains the topic in single quotes, right after the fixed prefix |
| Philosophy.DescriptionDeterminesTopic | philosophy-discussion.py:120-128 | different topics give different task descriptions |
| Philosophy.CreateAnalysisTask | philosophy-discussion.py:120-138 | a new task with the description template for the topic, the fixed expected output and no agent |
| Philosophy.CreatePhilosophicalCrew | philosophy-discussion.py:143-164 | the crew has the five agents in order and five new, pairwise distinct tasks; task i describes "The Nature of Freedom" and has agent i assigned; the process is sequential |

## Left out

- The Streamlit user interface is not modelled: widgets, rendering, the spinner, the download button and `json.dumps`. Neither is the rerun loop; the model takes one script pass at a time, a button click being an explicit call.
- Everything inside `crewai` is left out: `LLM`, `Agent`, `Task` and `Crew` internals, `kickoff`, and tool dispatch. A kickoff is an outcome supplied from outside (output or raise), and agents and tasks are records of the arguments the scripts pass.
- `json.loads` is a parameter. JSON syntax is not modelled.
- Text.Lower: only ASCII letters are lower-cased. Python's `str.lower()` also folds non-ASCII letters. The lower-cased text then differs, but the classification does not: the only non-ASCII characters that `str.lower()` maps to ASCII are U+0130 (to the pair "i" + U+0307, which occurs in neither token, and no token ends in "i") and U+212A (to "k", which neither token contains).
- The date range of `run_analysis`, the task description texts of app.py, `datetime`, the temperature slider's float range, and the `inputs` dictionaries given to `kickoff` are not modelled. Their only use is in text handed to crewai.
- The `print` calls inside the tools' `_run` and in the `__main__` blocks are left out as console output.
- The `__main__` block of philosophy-discussion.py only calls `create_philosophical_crew` and `kickoff` and prints, so it is not modelled separately.
- product-analysis.py is not part of this model: it is static personas and tasks, two constant-output tools, and a kickoff at import time.
- Exceptions are modelled only for the missing key, the undefined `CustomerSupportDataTool` and a raising kickoff. Anything else crewai or Streamlit may raise is left out.
- A section such as "We recommend adding alerts." contains "recommend" but not the substring "recommendation". The code therefore discards it. A prose description of the heuristic would put it among the recommendations; the model follows the code (`Aggregator.RecommendWithoutTokenIsDropped`).
- The two analyzer tools of philosophy-discussion.py are defined but never attached to an agent, so no agent's tool list contains them (`Philosophy.Philosophers`).
- The comment beside `process=` says the analyses run in parallel. The code configures `Process.sequential`, and so does the model.

## Findings

| source | as written | input that shows it | evidently intended | confidence | as-written member | corrected member |
|---|---|---|---|---|---|---|
| app.py:85 | `run_analysis` calls `CustomerSupportDataTool()`, which app.py neither defines nor imports; every run with a key set raises NameError after building the LLM, and since line 36 is then skipped, `running` stays True and no later click runs an analysis | any non-empty `GEMINI_API_KEY` and one click on "Run Analysis" | the tool is defined or imported, the crew runs, and a returned report is stored with `running` cleared | high, not executed | Dashboard.AsWrittenNeverStoresReport | Dashboard.ReturnsReleaseGuard |
