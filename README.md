# Retrieval-augmented Q&A helper and KPI catalog, modelled in Dafny

This project models the deterministic core of a small question-answering helper. The helper answers questions about a company's financial and ESG documents. The model has two halves.

**The Q&A pipeline** (`llm_agent.py`):
- `build_context_string` turns the retrieved chunk rows into one text. Each row gives a header line `[chunk_id=…, source=…, doc_type=…, year=…]`, a newline and the row's text. The blocks are joined with a blank line.
- `build_prompt` puts the question and the context into a fixed, indented f-string template. It then applies `textwrap.dedent` and `str.strip()`.
- `call_llm` raises an error when the API key is missing or empty. Otherwise it returns the model's reply. When the request raises, it returns a diagnostic text that ends with the whole prompt.
- `answer_question` retrieves, builds the prompt, calls the model once and returns `answer`, `chunks` and `prompt_used`.

The retriever and the completion endpoint are function-valued fields of a `Services` object. That object logs every call made to them, so "called once each" and "no request without a key" are stated about the log. The environment variable is an `Option<string>` parameter. The error `call_llm` raises, which `answer_question` lets through, is the `Failure` case of a `Result`.

**The KPI catalog** (`kpis.py`):
- the `KPI` record, with its closed category set;
- `to_dict`, which renders the id list as a `", "`-joined decimal text;
- the six-entry catalog, built by successive appends;
- `get_kpis`, which returns the whole catalog or an order-preserving filter by category.

The Python library behaviour the core relies on is modelled from its documented semantics. The `Text` module covers `str.join`, `str.strip()` (with the `str.isspace` character set) and `str(int)`. Its `Split` on one character is not a call the core makes: it models the lines `textwrap.dedent` works on, and it feeds the parsers that invert the header and id renderings. The `Dedent` module covers `textwrap.dedent` in its regular-expression form, as in CPython up to 3.13.

`build_prompt` dedents the template after the question and the context are interpolated. So the margin `dedent` removes is the common indentation of the template lines, the question's lines and the context's lines together. Lines without text do not count towards the margin: empty lines, and whitespace-only lines (non-empty lines made only of spaces and tabs). So a context holding a line with text at column 0 makes the margin empty (`FlushContextEmptiesMargin`). The context always has such a line when at least two chunks are retrieved, because the second header starts right after a blank line. With that empty margin the template's own lines keep their four spaces whatever the question and context hold. The lines of the question and the context pass through unchanged as well when none of them, indented, is whitespace-only: the prompt is then exactly the interpolated template without its opening and closing newline-plus-indent (`PromptKeepsTemplate`). This condition rules out an empty question as well. With no chunks and a one-line question, the margin is the full four spaces (`PromptWithoutContext`).

Whether a chunk's text reaches the prompt verbatim depends on two things. The first is the margin. The second is that `dedent` empties every whitespace-only line, including such lines inside a chunk text. `ChunkInPrompt` therefore asks for a context without whitespace-only lines (`NoBlankableLine`). The condition cannot be dropped: a chunk text with a whitespace-only line between two of its lines, such as `"Revenue 2024\n  \nEBITDA"`, never appears verbatim in the prompt (`BlankLineBreaksCitation`). Headers and the question need no such condition. A header, with its id, fills a line of its own: behind the template's spaces for the first chunk, at column 0 for the others. Dedenting keeps everything after a line's leading spaces. So every header reaches the prompt when its source and doc type are one line each (`HeaderInPrompt`). A one-line question with some text reaches it too (`QuestionInPrompt`). `ChunkInContext` states the unconditional fact about the context string.

## Model

| member | source | states |
|---|---|---|
| Text.Strip | llm_agent.py:100 | `str.strip()` leaves no whitespace at either end of its result |
| Text.StripAround | llm_agent.py:100 | stripping whitespace-only runs off both sides of a trimmed text gives exactly that text |
| Text.JoinPartAt | llm_agent.py:63 | in a join, part `i` sits at the offset of the earlier parts plus their separators, followed by a separator unless it is last |
| Text.SplitJoin | kpis.py:27 | splitting a join of separator-free parts on the separator gives the parts back |
| Text.JoinSplit | llm_agent.py:100 | joining the lines of a text with the newline gives the text back: the lines `dedent` works on re-join to the text |
| Text.IntToDecimal | llm_agent.py:54-57 | `str(n)` of an integer is digits, with a leading minus only for negative `n` |
| Text.DecimalRoundTrip | llm_agent.py:54-57 | `int(str(n)) == n`: the decimal rendering loses no information |
| Text.DecimalInjective | llm_agent.py:54-57 | distinct integers have distinct decimal renderings |
| Text.Join | llm_agent.py:63 | `sep.join(parts)`: the parts in their order with `sep` between neighbours, the empty text for no parts and the part itself for one; used for the blank-line join of the context blocks and for the `", "` join of `to_dict` (kpis.py:27) |
| Dedent.Indent | llm_agent.py:100 | the leading run of spaces and tabs of a line, and nothing more |
| Dedent.Margin | llm_agent.py:100 | the margin is `None` exactly when no line has text; otherwise it is the longest common prefix of the indentations of the lines with text, accumulated line by line |
| Dedent.MarginIsCommon | llm_agent.py:100 | the margin `dedent` computes is a prefix of the indentation of every line with text |
| Dedent.MarginIsGreatest | llm_agent.py:100 | every indentation prefix shared by all lines with text is a prefix of the margin |
| Dedent.MarginOfBlanked | llm_agent.py:100 | emptying the whitespace-only lines first does not change the margin |
| Dedent.DedentLineAt | llm_agent.py:100 | under `dedent`, a line with text loses exactly the margin and a whitespace-only line becomes empty |
| Dedent.DedentJoined | llm_agent.py:100 | dedenting a join of parts dedents each part with the margin of the whole |
| Dedent.Dedent | llm_agent.py:100 | `textwrap.dedent`: the text split into lines, whitespace-only lines emptied, the common margin cut off every line with text, and the lines joined again with newlines |
| Dedent.DedentedLineBetweenNewlines | llm_agent.py:100 | a line standing between two newlines of a dedented text is never made only of spaces and tabs |
| Context.ContextString | llm_agent.py:50-63 | the serialized context is empty exactly when no chunk was retrieved |
| Context.BuildContextString | llm_agent.py:50-63 | the block-collecting loop followed by the join yields the blocks of all rows in retrieval order, joined with a blank line |
| Context.ContextBlockAt | llm_agent.py:52-63 | block `i` is `header + "\n" + text` at the offset after the earlier blocks; a blank line follows unless it is the last, and the context ends right after the last block |
| Context.ChunkInContext | llm_agent.py:53-63 | at block `i`'s offset the context holds the chunk's header, its id right after `[chunk_id=`, and its text after the header's newline |
| Context.ChunkInText | llm_agent.py:53-63 | any text containing the context contains every chunk's header, decimal id and text |
| Context.HeaderOnLine | llm_agent.py:53-63 | each header fills a line of the context: a newline follows it, and a newline precedes it unless it is the first block, which starts the context |
| Context.HeaderShape | llm_agent.py:53-58 | a header is `[chunk_id=` + the four comma-joined fields + `]` |
| Context.Header | llm_agent.py:53-58 | the header line is `[chunk_id=`, the decimal id, `, source=`, the source, `, doc_type=`, the doc type, `, year=`, the decimal year and `]`; its contract states that it is non-empty and opens with `[` and closes with `]` |
| Context.HeaderRoundTrip | llm_agent.py:53-58 | when source and doc type hold no comma, parsing a header gives back the chunk's id, source, doc type and year |
| Prompt.BuildPrompt | llm_agent.py:69-100 | the prompt has no whitespace at either end |
| Prompt.Template | llm_agent.py:75-98 | the f-string before dedenting: an empty first line, the role and rule lines, the question, the "Retrieved chunks" lines, the context and the output list, each on a line behind four spaces, and a last line of four spaces |
| Prompt.TemplateMargin | llm_agent.py:75-100 | whatever the question and context, the margin `dedent` removes is at most the template's four spaces |
| Prompt.TemplateLinesShaped | llm_agent.py:75-98 | every literal template line is newline-free and starts flush, the first group opens and the last group closes with visible text |
| Prompt.PromptLayout | llm_agent.py:75-100 | for every question and chunk list, the prompt is the role lines, the question, the "Retrieved chunks" lines, the context and the output list, in that order; the template lines lose the common margin; each line of the question and of the context goes through `dedent` with that margin (a line with text loses the margin, a whitespace-only line becomes empty); and stripping then removes only the indentation the margin left in front |
| Prompt.PromptFrame | llm_agent.py:75-100 | the prompt begins with the role line and ends with `3. A list of chunk_ids used.` |
| Prompt.FallbackInPrompt | llm_agent.py:79-80 | the prompt contains the quoted fallback sentence verbatim |
| Prompt.CitationRuleInPrompt | llm_agent.py:83 | the prompt contains the citation rule with the `[chunk_id=5]` example |
| Prompt.FlushContextEmptiesMargin | llm_agent.py:75-100 | a context with a line of text at column 0 makes the margin `dedent` removes empty, whatever the question and any whitespace-only lines |
| Prompt.PromptKeepsTemplate | llm_agent.py:75-100 | when the context has a line with text at column 0, and no line of the indented question or the indented context is whitespace-only (so the question is not empty either), the prompt is the template minus its opening and closing newline-plus-indent, keeping its four-space indentation |
| Prompt.ContextInPrompt | llm_agent.py:73-100 | under the same conditions on the context, the whole context appears verbatim in the prompt |
| Prompt.ChunkInPrompt | llm_agent.py:73-100 | with two or more chunks, or one whose text starts with a character other than a space, tab or newline, and no whitespace-only context line, every chunk's header, id and text appear in the prompt |
| Prompt.BlankLineBreaksCitation | llm_agent.py:100 | if a chunk text holds a line made only of spaces and tabs with a newline on each side, that text does not appear anywhere in the prompt, whatever the question and the other chunks |
| Prompt.BlankLineExample | llm_agent.py:100 | the chunk text `"Revenue 2024\n  \nEBITDA"`, retrieved alone, is not contained in its prompt |
| Prompt.HeaderInPrompt | llm_agent.py:53-100 | whatever the chunk texts hold, every chunk whose source and doc type are one line has its header, and so its decimal id, verbatim in the prompt |
| Prompt.QuestionInPrompt | llm_agent.py:88-100 | a one-line question with some text appears verbatim in the prompt, whatever was retrieved |
| Prompt.PromptWithoutContext | llm_agent.py:75-100 | with no chunks and a one-line question, every template line loses exactly its four spaces and the context line is empty |
| Agent.FailureReport | llm_agent.py:38-39 | the diagnostic text starts with `LLM CALL FAILED: ` and ends with the whole prompt |
| Agent.ReplyTextCases | llm_agent.py:28-39 | a reply is returned untouched; a raised request yields the diagnostic, prefixed by the marker and ending with the prompt |
| Agent.CallLlmSpec | llm_agent.py:16-39 | `call_llm` as a value: a failure exactly when the key is missing or empty, and then the fixed missing-key message; otherwise the endpoint's reply or the diagnostic text |
| Agent.AnswerSpec | llm_agent.py:106-136 | `answer_question` as a value: a failure exactly when the key is missing or empty, with the missing-key message; otherwise the chunks are the retriever's result and the prompt used is `build_prompt` of the question and those chunks |
| Agent.Services.Retrieve | llm_agent.py:119-123 | returns the retriever's result for question, `k` and allowed doc types, and logs exactly that one call |
| Agent.Services.Complete | llm_agent.py:29-36 | returns the endpoint's completion of the prompt and logs exactly that one request |
| Agent.Services.CallLlm | llm_agent.py:16-39 | a missing or empty key is an error with the fixed message and no request is made; otherwise exactly one request is made and its reply or diagnostic is returned |
| Agent.Services.Ask | llm_agent.py:126-136 | builds the prompt from the given chunks, calls the model with it and returns answer, chunks and prompt |
| Agent.Services.AnswerQuestion | llm_agent.py:106-136 | the result and the call log are those of retrieve, build prompt, call model, return all three |
| Agent.MissingKeyRefused | llm_agent.py:21-26 | without a usable key the question ends in the missing-key error after the single retrieval, and the model is never asked |
| Agent.AnswerContract | llm_agent.py:119-136 | with a key: one retrieval, then one completion of `build_prompt(question, chunks)`; the chunks are the retriever's result unchanged and the answer is the reply (or diagnostic) for that prompt |
| Agent.PromptUsedShape | llm_agent.py:119-136 | the prompt sent starts with the role line, ends with the last output item and carries the fallback sentence; a failed request's answer ends with that same last line |
| Agent.NothingRetrieved | llm_agent.py:119-136 | when nothing is retrieved for a one-line question, the prompt sent is the template flush left with an empty context line |
| Kpis.CategoryOf | kpis.py:9 | a string is accepted as a category only if it is that category's literal |
| Kpis.CategoryRoundTrip | kpis.py:9 | every category's literal reads back as that category |
| Kpis.Decimals | kpis.py:27 | `map(str, chunk_ids)`: one decimal per id, in order |
| Kpis.ToDict | kpis.py:24-28 | the keys are the record's nine fields, `chunk_ids` is the `", "`-joined decimals, and every other key holds the field-by-field copy |
| Kpis.IdsRoundTrip | kpis.py:27 | the `", "`-joined text of an id list parses back to exactly that list |
| Kpis.ToDictRoundTrip | kpis.py:24-28 | reading the rendered dictionary back gives the original record: rendering loses no field |
| Kpis.SingleIdText | kpis.py:27 | the id list `[0]` renders as `"0"` |
| Kpis.BuildKpis | kpis.py:35-114 | the six successive appends to an empty list give the catalog |
| Kpis.Catalog | kpis.py:35-114 | the catalog holds six entries with pairwise distinct names |
| Kpis.CatalogContents | kpis.py:35-114 | six entries named Revenue, EBITDA, Total GHG, Scope 1, Scope 2, Scope 3 in that order; the first two financial without a value, the rest ESG with one; all for 2024, citing chunk 0 |
| Kpis.GhgTotalIsSum | kpis.py:64-112 | the total GHG value 4,119,954 equals Scope 1 + Scope 2 + Scope 3 |
| Kpis.Filter | kpis.py:131 | the comprehension keeps only entries of the requested category and is no longer than its input |
| Kpis.FilterMembers | kpis.py:131 | an entry is in the filtered list exactly when it is in the input and has the requested category |
| Kpis.FilterOrder | kpis.py:131 | the filtered list is a subsequence of the input: relative order is kept |
| Kpis.FilterConcat | kpis.py:131 | filtering a concatenation is the concatenation of the filtered halves |
| Kpis.FilterPartition | kpis.py:131 | the three category results together hold every entry of the input exactly as often as the input does |
| Kpis.FilterSizes | kpis.py:131 | the three category results' lengths add up to the input's length |
| Kpis.GetKpisSpec | kpis.py:125-131 | `get_kpis` returns the catalog entries matching the category (all without one), in catalog order, never more than the catalog holds |
| Kpis.GetKpis | kpis.py:125-131 | `get_kpis`: never more entries than the catalog, and for a category only entries of that category |
| Kpis.OneCategoryEach | kpis.py:131 | each catalog entry is in the result for its own category and in no other |
| Kpis.FinancialEntries | kpis.py:125-131 | `get_kpis("financial")` is Revenue then EBITDA |
| Kpis.EsgEntries | kpis.py:125-131 | `get_kpis("esg")` is Total GHG, Scope 1, Scope 2, Scope 3 in that order |
| Kpis.NoOtherEntries | kpis.py:125-131 | `get_kpis("other")` is empty |

## Left out

- The OpenAI client created at import time and the `chat.completions.create` request are foreign, networked code. The endpoint is an abstract function from prompt to reply or raised exception.
- The model name, temperature and token limit are provider settings with no logic.
- `os.getenv("OPENAI_API_KEY")` is an environment read; the key is a parameter.
- `retrieve_chunks` (TF-IDF ranking in `retrieval.py`) is not part of this model. It is an abstract function of question, `k` and allowed doc types, so nothing is assumed about how `k` or the doc-type filter act.
- Agent.Services.AnswerQuestion: the retriever is a total function, so a `retrieve_chunks` exception, which `answer_question` lets propagate, cannot be expressed.
- pandas: rows are a `seq` of chunk records instead of a DataFrame walked with `iterrows`, `str(row["text"])` is the identity on text, and `get_kpis_df` is not modelled.
- Agent.Services.CallLlm: the missing-key error is a `Failure` carrying the message, without the `RuntimeError` class. A reply whose content is `None` is not modelled; replies are strings.
- Agent.FailureReport: the exception's class name and message are taken as given strings; how Python renders an exception with `str(e)` is not modelled.
- Kpis.Kpi: the value is `Option<int>` instead of `float | None`; floating point is out of scope, and every catalog value is an integer or absent.
- Kpis.Category: the category is a closed datatype, so `get_kpis` with a string outside the three literals (which the Python returns as an empty list) is not expressible.
- Kpis.GetKpisSpec: lists are values here, so that `get_kpis(None)` returns a new list rather than the stored one, and that `to_dict` leaves `self.chunk_ids` unmodified, hold by construction and are not stated.
- Kpis.ToDict: the dictionary is an unordered map, so the key order of `asdict` is not modelled.
- Prompt.ChunkInPrompt: the text of a chunk holding a whitespace-only line between two of its lines never appears verbatim in the prompt, because `dedent` (llm_agent.py:100) empties that line (`BlankLineBreaksCitation`); so citation integrity, and the whole context appearing verbatim, hold only for contexts without whitespace-only lines, which is a requirement of the lemma. A lone chunk whose text starts with spaces may also lose them to the margin; no lemma states that case.
- Dedent.Dedent: the rewritten `textwrap.dedent` of Python 3.14 is not modelled; the model follows the regular-expression form of earlier versions.
- Text.IsSpace: the whitespace set is the characters `str.isspace` accepts; no Unicode normalisation is modelled.
