# Resume scorer core, modelled in Dafny

This project models the core of a resume-scoring tool. The tool sends one query per
resume to a chat agent. It pulls a JSON object out of each free-form answer and stamps
it with the query, the conversation id and a time. It then sorts the queries into
scored results and failure records. Two helpers of the web front end are modelled too:
turning uploaded file names into queries, and the collector that files printed lines
per resume.

Modules:

- `Text` (`text.dfy`): the Python string built-ins the core uses, over `seq<char>`:
  `strip`, `rstrip`, `lstrip`, `find`, `rfind`, one-character `split` and `join`.
- `JsonValues` (`json_values.dfy`) and `Wrappers` (`wrappers.dfy`): JSON values,
  Python truthiness, and `Option`.
- `ResponseParser` (`response_parser.dfy`): `extract_json_from_response`.
  - `json.loads` is a parameter of type `Parser`, so every property holds for any parser.
  - Each strategy is a specification function. The methods (the fence loop, the brace
    strategies, the depth-counting walk) are proved equal to those functions.
  - The depth scan is specified as a state machine over prefixes: `Depth`, `Open` and `Spans`.
- `ExtractionProperties` (`extraction_properties.dfy`): what the extractor guarantees.
  - Which objects the depth scan tries, and that it picks the earliest one that parses.
  - That a dict passes through unparsed.
  - That a ```` ```json ```` block is found and decides the result, whatever backtick-free
    text comes before it, however its body is padded and whatever follows it. The body may
    hold backticks, provided no closing fence starts inside it: the first ```` ``` ````
    after the marker closes the block.
  - That blank text yields nothing.
- `ChatTransport` (`chat_transport.dfy`): the agent conversation, as a scripted stand-in.
  - Its replies are fixed in advance. Each call hands out the next reply and logs the call.
  - Running out of replies raises.
- `ResumeScoring` (`resume_scorer.dfy`): the `ResumeScorer` class with its
  `scored_data` and `failed_scores` fields, `process_score_query` and `batch_score`.
  - A batch is specified as a function of the replies: `Outcomes`, `Successes` and `Failures`.
  - The loop is proved against those functions.
- `FileNames` (`file_names.dfy`): `strip_ext` and the file-name-to-query comprehension.
- `OutputCollection` (`output_collector.dfy`): the `PrintOutputCollector` class.

## Model

| member | source | states |
|---|---|---|
| ResponseParser.ExtractJsonFromResponse | resume_scorer.py:29-91 | The result equals the strategy chain `Extract`. A dict answer is returned unchanged. A string is stripped, then tried as fenced blocks, the whole text, and (only when it holds a `{`) the first-`{`-to-last-`}` slice, then the depth scan. The first value that parses wins; `None` when all fail. |
| ResponseParser.ExtractFromText | resume_scorer.py:38-89 | On stripped text, the strategies run in that order, and each later one only after the earlier ones failed. |
| ResponseParser.TryFences | resume_scorer.py:38-49 | Returns the value of the first fence candidate, in the marker order ```` ```json ````, ```` ```JSON ````, ```` ``` ````, that parses; `None` when none does. |
| ResponseParser.CandidateAt | resume_scorer.py:40-45 | A marker's candidate is the stripped text between the marker's first occurrence and the first closing fence after it. |
| ResponseParser.EnclosedNone | resume_scorer.py:40-44 | Without the marker, or without a closing fence after it, the marker has no candidate. |
| ResponseParser.FenceHit | resume_scorer.py:39-47 | A candidate that parses, after every earlier marker's candidate failed, is the fence strategy's value. |
| ResponseParser.FenceCandidatesSnoc | resume_scorer.py:39-49 | A marker whose candidate is missing or does not parse keeps all candidates so far failing. |
| ResponseParser.TryInOrderFirst | resume_scorer.py:39-49 | A chain value is the value of some candidate, and every earlier candidate failed. The chain yields `None` exactly when no candidate parses. |
| ResponseParser.FenceWins | resume_scorer.py:38-49 | A fenced block that parses decides the result. |
| ResponseParser.WholeWins | resume_scorer.py:51-55 | The whole text decides only after every fence attempt failed. |
| ResponseParser.NoBraceFails | resume_scorer.py:57-89 | After the fences and the whole text fail, a text without `{` yields `None`. |
| ResponseParser.BracesDecide | resume_scorer.py:57-87 | After the fences and the whole text fail, a text holding `{` is decided by the brace strategies. |
| ResponseParser.TryBraces | resume_scorer.py:58-87 | Tries the slice from the first `{` to the last `}` when that `}` follows the `{`, then falls back to the depth scan. |
| ResponseParser.BraceSlice | resume_scorer.py:58-63 | The slice, when there is one, starts with `{`, ends with `}` and holds at least two characters. |
| ResponseParser.BraceSliceIs | resume_scorer.py:61-63 | The slice runs from the first `{` through the last `}` when that `}` comes after the first `{`. |
| ResponseParser.NoBraceSlice | resume_scorer.py:61-62 | There is no slice when there is no `}` after the first `{`. |
| ResponseParser.ScanWins | resume_scorer.py:61-69 | When the slice is absent or fails to parse, the depth scan decides. |
| ResponseParser.ScanBalanced | resume_scorer.py:69-87 | The depth-counting walk returns the value of the first balanced top-level object, in text order, that parses. |
| ResponseParser.ScanHit | resume_scorer.py:77-83 | An object that closes at depth 0 and parses, after all earlier objects failed, is the scan's value. |
| ResponseParser.SpansTopLevel | resume_scorer.py:70-81 | Every object the scan tries opens with `{` at depth 0 and closes with the `}` that brings the depth back to 0, with the depth positive in between. |
| ResponseParser.SpansOrdered | resume_scorer.py:80-87 | Tried objects are disjoint and in text order: after a failed object, scanning resumes past its closing brace. |
| ResponseParser.SpansPrefix | resume_scorer.py:72-87 | Reading further only adds tried objects at the end. |
| ExtractionProperties.DepthCount | resume_scorer.py:73-79 | While no `}` is read at depth 0, the depth moves by the count of `{` minus the count of `}`. |
| ExtractionProperties.SegmentBalanced | resume_scorer.py:70-81 | Every tried object has as many `{` as `}`, and every proper prefix of it has more `{` than `}`. |
| ExtractionProperties.OpenIs | resume_scorer.py:73-76 | A `{` read at depth 0 is the start of the open object for as long as the depth stays positive. |
| ExtractionProperties.SpansComplete | resume_scorer.py:72-87 | Every balanced top-level object of the text is tried. |
| ExtractionProperties.NestedNotTried | resume_scorer.py:84-87 | An object nested inside a top-level one is never tried on its own. |
| ExtractionProperties.SpansByEnd | resume_scorer.py:72-87 | Of two tried objects, the one that closes first is tried first. |
| ExtractionProperties.ScanFailsIff | resume_scorer.py:69-89 | The scan yields `None` if and only if no balanced top-level object parses. |
| ExtractionProperties.ScanPicksEarliest | resume_scorer.py:72-87 | The scan's value is that of a balanced top-level object such that no object closing earlier parses. It is the earliest such object, not the longest or the last. |
| ExtractionProperties.DictPassesThrough | resume_scorer.py:32-34 | A dict answer is returned as it is, and the result does not depend on the parser. |
| ExtractionProperties.MarkersStartWithBacktick | resume_scorer.py:39 | Every opening marker starts with a backtick. |
| ExtractionProperties.NoBacktickNoFence | resume_scorer.py:38-49 | A text without backticks has no fence candidate. |
| ExtractionProperties.BlankTextFails | resume_scorer.py:36-91 | A blank answer yields `None`, for any parser that rejects the empty text. |
| ExtractionProperties.FreeUnfenced | resume_scorer.py:43 | A body without the fence's first character has no fence starting inside it. |
| ExtractionProperties.BlockEnclosed | resume_scorer.py:40-45 | After a lead free of the marker's first character, a marker, a body in which no fence starts (`Unfenced`), and a fence enclose exactly that body, whatever follows. |
| ExtractionProperties.StrippedBlockEnclosed | resume_scorer.py:36-45 | The same holds after the text is stripped, when the marker starts and the fence ends with non-space characters. |
| ExtractionProperties.StripAround | resume_scorer.py:36 | Stripping a text whose middle part has non-space ends keeps that middle part whole, between a tail of what precedes it and a head of what follows it. |
| ExtractionProperties.FencedBlockWins | resume_scorer.py:36-49 | A text holding a ```` ```json ```` block whose body parses yields that body's value, whatever backtick-free text precedes the block, however the body is padded with white space and whatever follows the block. The padded body may hold backticks but no fence may start inside it (`Unfenced`), since the first fence after the marker closes the block. |
| ExtractionProperties.BacktickInBody | resume_scorer.py:36-49 | A single backtick inside the body does not end the block: ```` ```json\n{`}\n``` ```` yields the value of `` {`} ``. |
| ExtractionProperties.FirstFenceWins | resume_scorer.py:36-47 | For any raw answer text: when the first marker's candidate in the stripped text parses, its value is the result. |
| ExtractionProperties.PlainTextWhole | resume_scorer.py:51-55 | A stripped text with no backtick and no `{` yields exactly what the whole-text parse yields. |
| Text.Strip | resume_scorer.py:36 | The stripped text neither starts nor ends with white space, and is no longer than the original. |
| Text.StripWindow | resume_scorer.py:36 | The stripped text is a contiguous window `s[i..j]` of the original with only white space on either side. |
| Text.StripEmptyIffBlank | streamlit_app.py:29 | `strip()` gives the empty text exactly when the text is all white space. |
| Text.StripPadded | resume_scorer.py:45 | Extra white space around an already stripped text is removed by `strip()`. |
| Text.RStrip | streamlit_app.py:36 | `rstrip()` is a prefix that does not end in white space, and only white space follows it. |
| Text.RStripKeepsNonBlank | streamlit_app.py:36 | `rstrip()` of a non-blank text is non-blank. |
| Text.Find | resume_scorer.py:40-43 | `find` returns an occurrence at or after the start position, with no occurrence between the start and it; `None` (Python's `-1`) when there is none. |
| Text.RFind | resume_scorer.py:61 | `rfind` returns the last position holding the character; `None` (Python's `-1`) when there is none. |
| Text.Split | streamlit_app.py:87 | `split` gives at least one piece; no piece holds the separator; a text without the separator is its own single piece. |
| Text.JoinSplit | streamlit_app.py:87 | Joining the pieces of a split with the same separator gives the text back. |
| Text.SplitJoin | streamlit_app.py:50 | Splitting a join of separator-free pieces gives the pieces back. |
| ChatTransport.ChatApi.SendMessage | resume_scorer.py:96 | Returns the next scripted reply (raising once the script is exhausted), consumes it, and logs the query. |
| ChatTransport.ChatApi.CreateOrLoadConversation | resume_scorer.py:120 | Returns the next scripted reply, consumes it, and logs the call with its `use_existing` flag. |
| ResumeScoring.ResumeScorer.constructor | resume_scorer.py:11-27 | A new scorer holds no scored data and no failure list yet. |
| ResumeScoring.ResumeScorer.ProcessScoreQuery | resume_scorer.py:93-117 | Sends exactly the query and consumes one reply. Returns the outcome `ScoreOutcome` gives for that reply. |
| ResumeScoring.ScoreOutcome | resume_scorer.py:93-117 | `None` when the transport raises or the reply has no `answer`; otherwise what `Finish` makes of the value extracted from the answer. |
| ResumeScoring.Finish | resume_scorer.py:104-114 | Gives a result exactly when the extracted value is a non-empty object. Falsy values and non-objects give `None`. The result has the object's keys plus `评分查询` = the query, `对话ID` = the reply's `conversation_id` (default `"unknown"`) and `时间戳` = the reply's `timestamp` (default: the current time). All other entries are kept. |
| ResumeScoring.AsAnswer | resume_scorer.py:33-36 | An object answer is passed to the extractor as a dict, and a string answer as that string. |
| ResumeScoring.Get | resume_scorer.py:111-112 | `dict.get`: the stored value when the key is present, the default otherwise. |
| ResumeScoring.ScoredNonEmpty | resume_scorer.py:105-114 | A scored result is never empty, so `batch_score` never counts it as a failure. |
| ResumeScoring.ResumeScorer.BatchScore | resume_scorer.py:119-140 | Opens the conversation with `use_existing=True` once, before any query; when that raises, nothing is stored. Otherwise it sends every query in order. It returns the successes, stores them in `scored_data`, and stores the failure records in `failed_scores`. |
| ResumeScoring.ResumeScorer.ScoreAll | resume_scorer.py:122-137 | The loop's results and failure records are `Successes` and `Failures` of the per-query outcomes, and the queries are sent in order. |
| ResumeScoring.Outcomes | resume_scorer.py:124-126 | Query `k` is scored with the `k`-th reply after the conversation was opened, at the time of its 1-based index. |
| ResumeScoring.Failures | resume_scorer.py:123-136 | Failure indices are 1-based, within `1..len(queries)` and strictly increasing. Each record carries the failed query, the failure time and the reason `评分失败或无返回数据`. |
| ResumeScoring.BatchStep | resume_scorer.py:126-137 | Each query adds its outcome to exactly one of the two lists. |
| ResumeScoring.BatchPartition | resume_scorer.py:124-137 | `len(results) + len(failed) == len(queries)`. |
| ResumeScoring.FailuresComplete | resume_scorer.py:130-136 | Every failed query has a failure record with its 1-based index. |
| ResumeScoring.SuccessPositions | resume_scorer.py:127-128 | The positions of the scored queries are increasing and point at successes. |
| ResumeScoring.SuccessesInOrder | resume_scorer.py:126-128 | The `j`-th result is the outcome of the `j`-th scored query, in input order, and every scored query contributes a result. |
| ResumeScoring.SuccessCarriesQuery | resume_scorer.py:110-128 | Each result's `评分查询` is the query it was scored for. |
| FileNames.StripExt | streamlit_app.py:84-87 | A name without a dot is returned unchanged; the stem is never longer than the name. |
| FileNames.Extension | streamlit_app.py:87 | The last dot-separated piece holds no dot. |
| FileNames.StripExtRoundTrip | streamlit_app.py:87 | `strip_ext(f) + "." + extension == f`: exactly the last extension is removed. |
| FileNames.StripExtDots | streamlit_app.py:87 | Removing the extension removes exactly one dot. |
| FileNames.StripExtLength | streamlit_app.py:87 | When a dot is present, the stem is strictly shorter than the name. |
| FileNames.FileQuery | streamlit_app.py:188 | A file's query is its stem followed by `的简历情况`. |
| FileNames.BatchQueries | streamlit_app.py:187-188 | One query per uploaded file, in upload order. |
| OutputCollection.PrintOutputCollector.constructor | streamlit_app.py:21-25 | A new collector has no filed outputs, no active key and an empty buffer. |
| OutputCollection.PrintOutputCollector.Write | streamlit_app.py:27-36 | Appends `text.rstrip()` only when `text.strip()` is non-empty and a key is active; otherwise the buffer is unchanged. Key and filed outputs never change. |
| OutputCollection.Appended | streamlit_app.py:29-36 | A write appends at most one line. It appends one exactly when the key is active and the text is not blank, and that line is `RStrip(text)`: the text without its trailing white space, itself not blank. |
| OutputCollection.PrintOutputCollector.StartCollecting | streamlit_app.py:42-45 | The active key becomes the given key and the buffer is emptied; filed outputs are untouched. |
| OutputCollection.PrintOutputCollector.StopCollecting | streamlit_app.py:47-52 | Files the newline-joined buffer under the active key only when the key is active and the buffer is non-empty; other keys are unchanged. Always clears the key and the buffer. |
| OutputCollection.Committed | streamlit_app.py:47-50 | The stored entry is the joined buffer; every other entry is preserved, and no other key appears. |
| OutputCollection.CommittedLines | streamlit_app.py:50 | A filed output splits back into the buffered lines when no line spans several lines. |
| OutputCollection.PrintOutputCollector.GetAllOutputs | streamlit_app.py:54-56 | Returns the filed outputs and changes nothing; every filed key and text is non-empty. |
| OutputCollection.PrintOutputCollector.ClearOutputs | streamlit_app.py:58-60 | Empties the filed outputs; a collection in progress goes on. |

## Left out

- `multi_round_chat.py` is not part of this model. The transport is a scripted stand-in: replies are an input sequence, and running out of them raises.
- The constructor's `TypeError` fallback (resume_scorer.py:14-26) only picks a constructor signature of the transport, so it is not modelled.
- `json.loads` is the `Parser` parameter; no JSON grammar is modelled. Its `None` result for `null` is `Some(JNull)`, which `process_score_query` treats as falsy just as Python does.
- `ResumeScoring.AsAnswer`: for an answer that is neither a dict nor a string, Python's `str()` rendering is a `Renderer` parameter, not a modelled function.
- `datetime.now()` (resume_scorer.py:112, 134) is a function parameter indexed by the 1-based query number.
- `print` progress output is not modelled, nor is the stdout forwarding and `flush` of `PrintOutputCollector` (streamlit_app.py:31-32, 38-40).
- Exceptions: every exception the source catches becomes `None`. An exception raised by `create_or_load_conversation` propagates out of `batch_score`; `BatchScore` models it as a `None` result with the stored lists untouched.
- `ResumeScoring.ResumeScorer.ProcessScoreQuery`: the parsed dict is updated in place in the source, so a dict answer inside the reply is changed too. The model builds a new map, so that aliasing and Python's dict key order are not captured.
- `Text.IsSpace` covers the characters Python's `str.isspace` accepts. There is no Unicode normalisation.
- Exporting to Excel or JSON, the Streamlit UI, secrets handling, and the bootstrap and demo scripts are I/O and are not modelled.
