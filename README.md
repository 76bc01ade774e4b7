# tutor-AI: a verified model of the job registry and the text pipeline

This project models the deterministic core of the tutor-AI backend, a
service that turns a maths topic into a narrated Manim tutorial video.
It proves properties of the model in Dafny.

The model covers these parts of the backend:

- **The job registry** (`src/backend/task_manager.py`). Task records and
  their dictionary form for the JSON persistence file. The `TaskManager`
  class, which owns the map from task id to record and creates, reads,
  updates, deletes and clears records.
- **The policy layer** (`src/backend/api.py`). Validation of the
  generate request. The writes the background worker makes to its task:
  pending, processing, then completed or error at progress 100. The
  status lookup, and the guard that lets only finished tasks be cleared.
- **The text pipeline.** The parsers and formatters around the language
  model and the renderer:
  - time codes, scene blocks, the timing table, the narration cleaner
    and the placeholder scripts (`script_generator.py`);
  - timing instructions, the generated animation code, topic
    truncation, the fallback scene and the repairs applied to generated
    code (`manim_generator.py`);
  - the post-processing rewrites, the fallback scene and the fence
    stripping (`generative_manim_integration.py`);
  - concept extraction and the bucket rules (`generate_script.py`);
  - subtitle chunking, numbering and timestamps, and the scene-timing
    partition (`video_generator.py`).

Each Python regular expression is modelled by a scanner written by hand.
The scanner follows Python's `re` semantics for that pattern: the
leftmost match, greedy or lazy repetition, and backtracking where the
pattern needs it. Each scanner is then proved against the shape of the
text it reads.

## Layout

| file | module | models |
|---|---|---|
| wrappers.dfy | `Wrappers` | `Option` |
| text.dfy | `Text` | Python string primitives: `in`, `find`, `replace`, `strip`, `split`, `join`, `lower`, `int`, `str` |
| json.dfy | `Json` | decoded JSON values and Python truthiness |
| regex.dfy | `Regex` | a small token matcher for the fixed patterns of the repairs |
| registry.dfy | `Registry` | `task_manager.py` |
| api.dfy | `Api` | `api.py` |
| script_generator.dfy | `ScriptGenerator` | `script_generator.py` |
| manim_generator.dfy, manim_code.dfy | `ManimGenerator`, `ManimCode` | `manim_generator.py` |
| generative_manim.dfy | `GenerativeManim` | `generative_manim_integration.py` |
| generate_script.dfy | `GenerateScript` | `generate_script.py` |
| video_generator.dfy | `VideoGenerator` | `video_generator.py` |

The state the Python code mutates in place is modelled in imperative
Dafny:

- `TaskManager` is a class whose `tasks` map its methods reassign.
- The worker's sequence of registry writes is a pair of methods.
- Loops that accumulate are methods with loop invariants: the timing
  table, the animation sequence, the subtitle chunking and numbering,
  the scene timeline and the code repairs.

Each such method is proved against a function that specifies it. The
expression-shaped code is modelled as functions and lemmas.

## Model

| member | source | states |
|---|---|---|
| Registry.NewTask | src/backend/task_manager.py:19-30 | a new record is pending at progress 0 with message "Task initialized"; its params are the given ones or `{}`; both timestamps are `now`; completion time, result and error are unset |
| Registry.Patched | src/backend/task_manager.py:140-157 | the record after an update: each field changes only when its argument was supplied (status and message when non-empty, the others when not None); a terminal status stamps `completed_at` with `now`; id, type, params and creation time never change; `updated_at` is always `now` |
| Registry.UpdateKeepsConsistent | src/backend/task_manager.py:140-143 | an update keeps "a terminal record has a completion time" |
| Registry.ReopenedTaskKeepsCompletedAt | src/backend/task_manager.py:140-143 | moving a completed task back to a non-terminal status keeps its old completion time |
| Registry.ToDict | src/backend/task_manager.py:32-46 | the dictionary form has exactly the eleven persisted keys |
| Registry.ToDictFields | src/backend/task_manager.py:34-46 | each persisted key holds the attribute it is named after |
| Registry.FromDict | src/backend/task_manager.py:49-60 | a record is read only from an object with `task_id` and `task_type`, and keeps the stored `task_id` |
| Registry.DictRoundTrip | src/backend/task_manager.py:32-60 | `from_dict(to_dict(t))` gives back every field of `t`, whatever the clock says |
| Registry.Loaded | src/backend/task_manager.py:82-102 | a missing or unparsable file gives an empty registry; a non-empty result has exactly the keys of the stored object |
| Registry.SavedRecordsRead | src/backend/task_manager.py:104-111 | every record of the saved document reads back as the task it came from |
| Registry.SaveLoadRoundTrip | src/backend/task_manager.py:82-111 | saving the registry and loading the file back gives the same task map |
| Registry.TaskManager.constructor | src/backend/task_manager.py:67-80 | a new registry holds what the persistence file yields |
| Registry.TaskManager.CreateTask | src/backend/task_manager.py:118-124 | stores a new pending record under the id and silently replaces any record already there; "terminal records have completion times" is preserved |
| Registry.TaskManager.GetTask | src/backend/task_manager.py:126-129 | the stored record for a known id, `None` otherwise; nothing changes |
| Registry.TaskManager.UpdateTask | src/backend/task_manager.py:131-159 | a missing id gives `None` and no change; otherwise the record becomes `Patched(old, update, now)` and no other record changes |
| Registry.TaskManager.DeleteTask | src/backend/task_manager.py:161-168 | answers true exactly when the id was present, and the map loses exactly that key |
| Registry.TaskManager.GetAllTasks | src/backend/task_manager.py:170-173 | a copy of the map with the registry's key set |
| Registry.TaskManager.ClearTasks | src/backend/task_manager.py:175-179 | the map is empty afterwards |
| Api.Truncate | src/backend/api.py:74 | `int(x)` on a float truncates toward zero, so the result lies within 1 of `x`, on the side of 0 |
| Api.IntOfRoundTrip | src/backend/api.py:74 | `int(str(i)) == i` for every integer `i` |
| Api.ParseIntRoundTrip | src/backend/api.py:74 | the literal parser reads a decimal integer back |
| Api.CheckParams | src/backend/api.py:67-70 | all present means every key is in the data; otherwise the first key missing is reported, or the data is not a container |
| Api.Validate | src/backend/api.py:61-93 | a request is accepted iff it is an object holding topic, level and duration, its duration converts with `int`, its topic is truthy and the duration lies in 1..10; a missing key gives 400; every refusal is a 400 or a 500 |
| Api.EmptyTopicRejected | src/backend/api.py:78-80 | an empty topic is refused with 400 "Topic cannot be empty" |
| Api.DurationOutOfRangeRejected | src/backend/api.py:82-84 | a duration outside 1..10 is refused with 400 |
| Api.StartedTask | src/backend/api.py:104-111 | after `generate_tutorial_task` the record is a tutorial task with the request's params, status "processing", progress 0 and the initializing message |
| Api.GenerateTutorialTask | src/backend/api.py:96-111 | the registry gains exactly the started task under the fresh id |
| Api.GenerateTutorial | src/backend/api.py:58-93 | a refused request changes no task; an accepted one answers with the fresh id and registers the started task |
| Api.AfterProgressStep | src/backend/api.py:120-122 | each progress callback patches the task reached so far |
| Api.ProgressKeepsOutcome | src/backend/api.py:120-122 | progress callbacks never change status, completion time, result, error, id or params |
| Api.Finished | src/backend/api.py:136-150 | the worker leaves a terminal record at progress 100 stamped with the finishing time; "completed" with the result exactly when the generator returned something truthy; otherwise "error" with a reason, the exception text when one was raised |
| Api.ReportProgress | src/backend/api.py:120-122 | the callbacks apply in order; a task removed meanwhile stays removed |
| Api.RunWorker | src/backend/api.py:113-150 | the worker's writes: the progress callbacks, then the final write chosen by the outcome |
| Api.Lifecycle | src/backend/api.py:96-150 | pending when created, processing through every progress report, completed or error at progress 100 at the end, params unchanged |
| Api.StatusOf | src/backend/api.py:160-185 | an unknown id gives 404 listing the known ids; otherwise the four status fields; error and result appear exactly when truthy |
| Api.ClearTaskAsWritten | src/backend/api.py:209-217 | 404 for an unknown id, 400 for a task still running, and 500 for a finished task, because `remove_task` does not exist |
| Api.ClearTask | src/backend/api.py:209-217 | as intended: 404 and 400 change nothing; a finished task is deleted and the answer is 200 |
| ScriptGenerator.StampAt | src/backend/script_generator.py:46 | a `[d+:d+]` match at the start spans at least five characters and opens with `[` |
| ScriptGenerator.StampTextRead | src/backend/script_generator.py:46 | a time code written `[mm:ss]` is read back as the same two numbers |
| ScriptGenerator.StampsAppend | src/backend/script_generator.py:46 | scanning splits at any `[` that begins the second part |
| ScriptGenerator.StampsNone | src/backend/script_generator.py:46 | text without `[` holds no time code |
| ScriptGenerator.LastStamp | src/backend/script_generator.py:44-47 | `None` iff there is no time code, otherwise the last one found |
| ScriptGenerator.LastStampWritten | src/backend/script_generator.py:44-47 | a time code followed by text without `[` is the one returned |
| ScriptGenerator.SceneAt | src/backend/script_generator.py:51 | the lazy `(.*?)` stops at the first `[/SCENE]` after the opening tag |
| ScriptGenerator.RawScenes | src/backend/script_generator.py:51 | no scene content holds a closing tag |
| ScriptGenerator.ExtractScenes | src/backend/script_generator.py:49-54 | one stripped content per scene block, in order |
| ScriptGenerator.ScenesSkip | src/backend/script_generator.py:51 | text in which no `[SCENE]` can begin adds no block |
| ScriptGenerator.ScenesBlock | src/backend/script_generator.py:51 | a block whose content has no `[` is read back as that content |
| ScriptGenerator.ScenesOfParts | src/backend/script_generator.py:51 | two blocks separated by text where no scene opens are exactly the scenes read |
| ScriptGenerator.SkeletonScenes | src/backend/script_generator.py:119-137 | the placeholder script holds exactly two scene blocks: the title screen and the second scene |
| ScriptGenerator.SkeletonEnd | src/backend/script_generator.py:135-136 | the placeholder's last time code is `[00:40]` |
| ScriptGenerator.SkeletonShape | src/backend/script_generator.py:119-137 | the placeholder's stripped scenes and last time code |
| ScriptGenerator.DryRunShape | src/backend/script_generator.py:117-137 | the dry-run script has exactly two scene blocks and ends at `[00:40]` |
| ScriptGenerator.TimeoutShape | src/backend/script_generator.py:255-275 | the API-timeout fallback has the same two blocks and also ends at `[00:40]` |
| ScriptGenerator.SceneCount | src/backend/script_generator.py:146-153 | 3 to 6 scenes: 3 up to 3 minutes and 6 beyond 7 |
| ScriptGenerator.SceneCountMonotone | src/backend/script_generator.py:146-153 | a longer video never gets fewer scenes |
| ScriptGenerator.LevelOf | src/backend/script_generator.py:283-292 | always 1, 2 or 3: an int in 1..3 is kept; the known words map to their level; everything else gives 1 |
| ScriptGenerator.LevelCaseInsensitive | src/backend/script_generator.py:286-292 | a string level and its lower-cased form map to the same level |
| ScriptGenerator.CheckLength | src/backend/script_generator.py:231-238 | the script is extended iff its last time code, in seconds, is below `duration*60 - 30`, and then only by the warning |
| ScriptGenerator.WarningKeepsLastStamp | src/backend/script_generator.py:236-237 | the warning quotes the last time code, so a script with the warning still ends at that code |
| ScriptGenerator.CheckLengthKeepsLastStamp | src/backend/script_generator.py:231-238 | the checked script's last time code is the original one |
| ScriptGenerator.TextAt | src/backend/script_generator.py:61 | the text part of the timing pattern matches a non-empty prefix of what follows the time code |
| ScriptGenerator.TextAtLine | src/backend/script_generator.py:61 | a line after a time code and a space is captured up to the end of the line |
| ScriptGenerator.TimedLineOfParts | src/backend/script_generator.py:61-62 | a time code followed by a captured text makes one match |
| ScriptGenerator.TimingOf | src/backend/script_generator.py:63-82 | one row per match, in order; the word total is the sum of the rows' counts; the duration is the last row's time, or 300 without rows; the pace follows from them |
| ScriptGenerator.ExtractTiming | src/backend/script_generator.py:56-82 | the same, for the matches the timing pattern finds in the script |
| ScriptGenerator.DropBraces | src/backend/script_generator.py:91 | no brace survives, and every other character does |
| ScriptGenerator.SquashSpaces | src/backend/script_generator.py:95 | no two whitespace characters are adjacent afterwards, and only spaces are brought in |
| ScriptGenerator.CleanForNarration | src/backend/script_generator.py:84-95 | the narration has no brace, no two adjacent whitespace characters, and no whitespace at either end |
| ManimGenerator.FieldEnd | src/backend/manim_generator.py:118-121 | a `(\d+)` field is a non-empty run of digits followed by the expected separator |
| ManimGenerator.ActionEnd | src/backend/manim_generator.py:118-121 | the lazy action ends at the first position where the lookahead holds (another instruction, a final full stop or the end), and not before |
| ManimGenerator.SortByTimeCorrect | src/backend/manim_generator.py:123 | the sort gives instructions ordered by (minutes, seconds), is a permutation of its input, and keeps the input order of instructions that share a time |
| ManimGenerator.TimingInstructionsSorted | src/backend/manim_generator.py:116-123 | the instructions come back sorted by time, as a stable rearrangement of what the pattern matched (the bracketed pattern only when the spoken one finds nothing) |
| ManimGenerator.GenerateAnimationSequence | src/backend/manim_generator.py:125-137 | the loop's code is the newline join of each instruction's block: its `# At` line, a wait line when it is not the first and the gap is positive, its `# TODO` line |
| ManimGenerator.AnimationLinesStep | src/backend/manim_generator.py:129-136 | one more instruction adds exactly its own block, computed from the instruction before it |
| ManimGenerator.AnimationLinesSplit | src/backend/manim_generator.py:130-135 | the code holds exactly one wait line per positive gap between consecutive instructions, carrying that gap, and besides them the two comment lines of every instruction in input order |
| ManimGenerator.WaitsSpan | src/backend/manim_generator.py:131 | when times never go back, the waits add up to the time from the first instruction to the last |
| ManimGenerator.SortedTimesNonDecreasing | src/backend/manim_generator.py:123-131 | sorted instructions whose seconds are below 60 have non-decreasing times in seconds |
| ManimGenerator.FillTemplate | src/backend/manim_generator.py:84-95 | filling the template replaces its one placeholder by the animation code; the literal `{{}}` before it is left alone |
| ManimGenerator.CreateBaseCodeWithTiming | src/backend/manim_generator.py:139-149 | with no instruction, the template around the basic "Math Concept" title animation; otherwise the template around the skeleton of the sorted instructions |
| ManimGenerator.ExtractSceneTopic | src/backend/manim_generator.py:372-378 | a topic of at most 30 characters is the text before the first `.`; a longer one is that text's first 30 characters followed by `...` |
| ManimGenerator.ShortTopicKept | src/backend/manim_generator.py:375-376 | a description of at most 30 characters without a `.` is its own topic |
| ManimGenerator.SceneTopicShort | src/backend/manim_generator.py:376 | the topic never exceeds 33 characters |
| ManimGenerator.QuotesEscaped | src/backend/manim_generator.py:187 | every quote of the escaped topic has a backslash before it |
| ManimGenerator.LiteralRoundTrip | src/backend/manim_generator.py:187-199 | a text escaped completely (backslash, quote, line breaks), then closed by a quote, reads back as a Python literal to exactly that text |
| ManimGenerator.EscapeQuotesSuffices | src/backend/manim_generator.py:187 | for a topic with no backslash and no line break, escaping the quotes alone is the complete escaping |
| ManimGenerator.FallbackTopicReadsBack | src/backend/manim_generator.py:182-217 | with the complete escaping, the topic's `Text('…')` literal in the fallback scene reads back as the topic |
| ManimGenerator.FallbackLineBreakBreaks | src/backend/manim_generator.py:185-199 | as written, a short first sentence holding a line break is kept whole as the topic and leaves the fallback scene with an unterminated literal |
| ManimGenerator.FallbackIntroCircleBreaks | src/backend/manim_generator.py:185-199 | the description `"Intro\nCircle"` gives a fallback scene whose topic literal is unterminated |
| ManimGenerator.FallbackDefinesScene | src/backend/manim_generator.py:188-190 | both fallback scenes define `class UserAnimationScene(Scene)` |
| ManimCode.CompatHasAliases | src/backend/manim_generator.py:259-268 | the compatibility block defines `ShowCreation = Create` and `FRAME_WIDTH = config.frame_width` |
| ManimCode.AfterTag | src/backend/manim_generator.py:334 | the optional `python` tag is dropped only when the text starts with it |
| ManimCode.FencedBlocks | src/backend/manim_generator.py:334-335 | every block found lies between two fences of the reply and holds no fence itself |
| ManimCode.NoFenceNoBlocks | src/backend/manim_generator.py:334-336 | a reply without a fence has no blocks |
| ManimCode.FirstScene | src/backend/manim_generator.py:339-342 | the position of the first block holding both "class" and "Scene", with no such block before it |
| ManimCode.ChosenBlock | src/backend/manim_generator.py:338-344 | the kept block is the first scene-like block, or the first block when none is scene-like |
| ManimCode.PickBlock | src/backend/manim_generator.py:338-344 | the selection loop with its `break` keeps that block |
| ManimCode.WithBlockHas | src/backend/manim_generator.py:346-352 | whatever the inserted block contains, the code with the block contains |
| ManimCode.WithCompatAliases | src/backend/manim_generator.py:346-352 | code with the compatibility block defines both aliases |
| ManimCode.ReplyText | src/backend/manim_generator.py:326-333 | the reply stands for itself, or for the `code` member of the JSON object it parses to; a non-string `code` member is an error |
| ManimCode.CleanedHasAliases | src/backend/manim_generator.py:336-367 | when a fenced block or a scene class was found, the cleaned code is produced and holds both aliases |
| ManimCode.CleanedBlank | src/backend/manim_generator.py:323-370 | a blank reply gives empty code; a reply that is not a JSON object gives empty code only when it is blank |
| ManimCode.CleanApiResponseCode | src/backend/manim_generator.py:312-370 | the step-by-step cleaning, with the block selection loop, gives the cleaned code |
| ManimCode.ShowCreationFixed | src/backend/manim_generator.py:513-514 | when fix 1 fires, no `ShowCreation(` call is left |
| ManimCode.FrameWidthFixed | src/backend/manim_generator.py:518-519 | when fix 2 fires, no `FRAME_WIDTH` is left |
| ManimCode.CleanedSkipsRenames | src/backend/manim_generator.py:513-519 | code cleaned through a fenced block or a scene class carries the aliases, so fixes 1 and 2 leave it unchanged |
| ManimCode.ThreeDFixed | src/backend/manim_generator.py:523-524 | when fix 3 fires, the code has the `ThreeDScene` class line |
| ManimCode.PhysicsFixed | src/backend/manim_generator.py:528-594 | when fix 4 fires on code with the star import, the physics block is present afterwards |
| ManimCode.RequiredImportsWellFormed | src/backend/manim_generator.py:597-601 | every entry of the required-imports table imports its own symbol from Manim |
| ManimCode.AddImport | src/backend/manim_generator.py:603-610 | code that already has the import, or does not use the symbol, is left unchanged |
| ManimCode.AddImportProvides | src/backend/manim_generator.py:603-610 | after the step, code that uses the symbol has its import |
| ManimCode.AddImportIdempotent | src/backend/manim_generator.py:604 | a second application of the step adds nothing |
| ManimCode.RequiredImportsProvideThreeDScene | src/backend/manim_generator.py:597-610 | code that names `ThreeDScene` when the last step starts ends up importing it |
| ManimCode.AddRequiredImports | src/backend/manim_generator.py:603-610 | the loop over the table applies the steps in table order |
| ManimCode.ApplyRenames | src/backend/manim_generator.py:512-525 | fixes 1 to 3 applied in order |
| ManimCode.ApplyPhysicsFix | src/backend/manim_generator.py:527-594 | fix 4 |
| ManimCode.ValidateAndFixManimCode | src/backend/manim_generator.py:499-612 | the five fixes applied in order |
| ManimCode.EnsureStarImport | src/backend/manim_generator.py:240-241 | the result starts with the star import; code without it gets it and a blank line in front, and nothing else changes |
| ManimCode.ClassFixed | src/backend/manim_generator.py:242-243 | after step 2 a `UserAnimationScene(Scene)` header is there, unless there was no class header to rename |
| ManimCode.DefFixed | src/backend/manim_generator.py:244-245 | after step 3 a `construct(self)` header is there, unless there was no method header to rename |
| ManimCode.TripleAt | src/backend/manim_generator.py:247 | a coordinate triple starts with `[` and spans at most the text |
| ManimCode.ClampSkipsPrefix | src/backend/manim_generator.py:246-250 | text before which no `[` occurs is copied through by step 4 |
| ManimCode.ClampNoBracket | src/backend/manim_generator.py:246-250 | text without `[` is left alone by step 4 |
| ManimCode.FinalWait | src/backend/manim_generator.py:251-256 | corrected step 5: the result ends with a wait call and starts with the whole right-stripped code |
| ManimCode.FinalWaitIdempotent | src/backend/manim_generator.py:251-256 | step 5, corrected or as written, makes no further change to its own output |
| ManimCode.FirstStepsKeepImport | src/backend/manim_generator.py:240-250 | steps 1 to 4 give code that starts with the star import |
| ManimCode.FixCommonKeepsImport | src/backend/manim_generator.py:238-257 | with step 5 corrected, the fixed code starts with the star import and ends with a wait call |
| ManimCode.FinalWaitAsWrittenCuts | src/backend/manim_generator.py:252-254 | as written, step 5 returns text starting at `def construct` whenever it finds one and no closing wait |
| ManimCode.FixCommonAsWrittenDropsImport | src/backend/manim_generator.py:238-257 | as written, the fixed code loses the star import whenever step 5 cuts at `def construct` |
| GenerativeManim.Between | src/backend/generative_manim_integration.py:169-174 | the text after the first opening fence up to the next fence holds no fence |
| GenerativeManim.FencesRemoved | src/backend/generative_manim_integration.py:168-174 | a reply with a fence gives code without one; a reply without a fence is kept as it is |
| GenerativeManim.PythonFenceRoundTrip | src/backend/generative_manim_integration.py:169-171 | code without a backquote put in a `python` fence comes back stripped, whatever follows the fence |
| GenerativeManim.RenameSceneDone | src/backend/generative_manim_integration.py:177 | after the rename no `class GenScene(Scene):` header is left, and a renamed header is there when one was |
| GenerativeManim.PolygonName | src/backend/generative_manim_integration.py:201-204 | a polygon name is found only when the right-angle pattern matches |
| GenerativeManim.RightAngleFixed | src/backend/generative_manim_integration.py:198-214 | the right-angle repair changes code only when it mentions `RightAngle` and `Polygon` and the captured name is assigned `= Polygon`; then the replacement lines are put in |
| GenerativeManim.SectorFixed | src/backend/generative_manim_integration.py:216-223 | the sector repair puts in `Sector(radius=` with the first match's value, and changes nothing without a match |
| GenerativeManim.AngleFixed | src/backend/generative_manim_integration.py:225-237 | the angle repair puts in the two-line angle built from the first match's three points, and changes nothing without a match |
| GenerativeManim.NoTexLeft | src/backend/generative_manim_integration.py:240-241 | either order of the last repair leaves no `Tex(`; as written, the `MathTex(` rewrite changes nothing |
| GenerativeManim.MathTexAsWritten | src/backend/generative_manim_integration.py:240-241 | as written, `MathTex(x)` becomes `MathText(x)` |
| GenerativeManim.MathTexFixed | src/backend/generative_manim_integration.py:240-241 | with `MathTex(` rewritten first, `MathTex(x)` becomes `Text(x)` |
| GenerativeManim.PostProcessUnchanged | src/backend/generative_manim_integration.py:198-243 | code without `Sector`, `Angle` or `Tex(` passes through both versions unchanged |
| GenerativeManim.PostProcessNoTex | src/backend/generative_manim_integration.py:240-243 | no `Tex(` is left after either version of the post-processing |
| GenerativeManim.FallbackTopic | src/backend/generative_manim_integration.py:250 | the topic is the first sentence cut to 30 characters, followed by `...`, so at most 33 characters |
| GenerativeManim.FallbackDefinesScene | src/backend/generative_manim_integration.py:245-255 | the fallback scene always defines `UserAnimationScene` and shows the topic |
| GenerativeManim.GeneratedCodeShape | src/backend/generative_manim_integration.py:164-186 | generated code, repaired by `post_process_code` as written, has no `Tex(`, and neither has the same code with the `MathTex(` repair in its intended order; when the call failed both are the fallback scene, which defines the scene class |
| GenerateScript.Level | src/backend/generate_script.py:73-74 | the level is 1, 2 or 3, and it is the requested level exactly when that is 1, 2 or 3 |
| GenerateScript.ConceptCount | src/backend/generate_script.py:79-86 | the count is 3, 5, 7 or 10; 3 exactly up to 3 minutes and 10 exactly beyond 7 |
| GenerateScript.ConceptCountMonotone | src/backend/generate_script.py:79-86 | longer videos never ask for fewer concepts |
| GenerateScript.ConceptAfterNone | src/backend/generate_script.py:45 | no concept is matched exactly when the end marker is missing or no `]` follows it |
| GenerateScript.ConceptAfterFits | src/backend/generate_script.py:45 | a matched concept is a lazy match: its narration holds no end marker and its description no `]` |
| GenerateScript.Scan | src/backend/generate_script.py:45-46 | every concept found is a block of the script, with no end marker in its narration and no `]` in its description; none is found without a start marker |
| GenerateScript.ExtractConcepts | src/backend/generate_script.py:43-55 | two lists of equal length, in match order: the stripped narrations and the stripped scene descriptions |
| GenerateScript.NoMarkerNoConcepts | src/backend/generate_script.py:43-55 | a script without `[NEW CONCEPT]` yields two empty lists |
| GenerateScript.BlockReadsBack | src/backend/generate_script.py:45-46 | a well-formed concept block is read back as exactly its concept, and the scan resumes after it |
| GenerateScript.RenderReadsBack | src/backend/generate_script.py:45-46 | scanning concepts written one after another gives those concepts back, in order |
| GenerateScript.ExtractRendered | src/backend/generate_script.py:43-55 | with trimmed fields, the extraction returns exactly the written narrations and descriptions |
| GenerateScript.FallbackConcepts | src/backend/generate_script.py:144-156 | the fallback script yields exactly its three narrations and three scene descriptions, with the topic in place |
| GenerateScript.GenerateScript | src/backend/generate_script.py:122-157 | the two lists have equal length; with a reply they are the reply's concepts |
| GenerateScript.FailedRequestThreeConcepts | src/backend/generate_script.py:141-157 | a failed request still produces three narrations and three scene descriptions |
| GenerateScript.NarrationsMentionTopic | src/backend/generate_script.py:144-155 | each fallback narration mentions the topic |
| VideoGenerator.ChunkWords | src/backend/video_generator.py:157-177 | the loop's chunks are non-empty, concatenate back to the words in order, each is cut at the first point where it closes, and only the last may be left open |
| VideoGenerator.ChunksIsChunking | src/backend/video_generator.py:161-177 | the chunking function meets that promise for every list of words |
| VideoGenerator.ChunkingUnique | src/backend/video_generator.py:161-177 | two chunkings of the same words that meet the promise are equal, so the promise fixes the result |
| VideoGenerator.AtMostTwelve | src/backend/video_generator.py:170 | a chunk cut at its first closing point has at most twelve words |
| VideoGenerator.TwelveCloses | src/backend/video_generator.py:170 | a chunk of twelve words closes |
| VideoGenerator.SentenceEndLast | src/backend/video_generator.py:166 | a sentence-ending word at the fifth position or later is the last word of its chunk |
| VideoGenerator.LongTextSplits | src/backend/video_generator.py:156-177 | more than fifteen words always make at least two chunks |
| VideoGenerator.CueAt | src/backend/video_generator.py:131 | a cue match spans at least the five characters of `[m:s]` and no more than the text |
| VideoGenerator.CueLinesReadBack | src/backend/video_generator.py:131-132 | cue lines `[m:ss] text` read back as the cues they were written from, in order |
| VideoGenerator.DisplayDuration | src/backend/video_generator.py:153 | the display time is at least 3 seconds and at least the word count at 2.2 words a second, and equals one of the two |
| VideoGenerator.BlankCueSkipped | src/backend/video_generator.py:139-141 | a cue whose stripped text is empty gives no subtitle |
| VideoGenerator.ShortCueCaption | src/backend/video_generator.py:189-202 | a cue of one to fifteen words gives one subtitle with its stripped text, from its time code, ending after the display time or 0.1 seconds before the next cue, whichever is first |
| VideoGenerator.ShortCueEndsEarly | src/backend/video_generator.py:194-197 | when the next cue has the same time code, the short subtitle ends before it starts |
| VideoGenerator.ChunkCaptionsTiming | src/backend/video_generator.py:180-183 | chunk subtitles share the time equally, run end to end from the start, and each shows its chunk's words joined by spaces |
| VideoGenerator.LongCueCaptions | src/backend/video_generator.py:155-188 | a cue of more than fifteen words gives one subtitle per chunk, at least two, sharing the display time end to end from its time code |
| VideoGenerator.NumbersAsWritten | src/backend/video_generator.py:137-202 | the numbers as written, one per subtitle: the cue's position plus the chunk's index |
| VideoGenerator.NumbersAsWrittenRepeat | src/backend/video_generator.py:137-202 | a long first cue followed by a non-blank one gives number 2 twice |
| VideoGenerator.NumberChunks | src/backend/video_generator.py:181-188 | one entry per chunk, in order, numbered on from the given number |
| VideoGenerator.CueEntries | src/backend/video_generator.py:138-202 | the entries of one cue are its subtitles, numbered on from the given number |
| VideoGenerator.LongCueEntries | src/backend/video_generator.py:156-188 | the same for a cue of more than fifteen words |
| VideoGenerator.ShortCueEntry | src/backend/video_generator.py:189-202 | the same for a non-blank cue of at most fifteen words |
| VideoGenerator.CuesEntries | src/backend/video_generator.py:137-202 | the loop over the cues gives every cue's subtitles in order, numbered 1, 2, 3, … |
| VideoGenerator.SubtitleEntries | src/backend/video_generator.py:131-202 | the entries carry the subtitles of the cues the pattern finds, in order, numbered consecutively from 1 |
| VideoGenerator.TimeFieldsSplit | src/backend/video_generator.py:185-186 | hours × 3600 + minutes × 60 + seconds is the whole seconds, with minutes and seconds below 60 and milliseconds below 1000 |
| VideoGenerator.PadIntReadsBack | src/backend/video_generator.py:185 | a zero-padded field of a number that fits its width reads back as the number |
| VideoGenerator.TimestampReadsBack | src/backend/video_generator.py:185-186 | below 100 hours a timestamp is `HH:MM:SS,mmm`, twelve characters whose fields read back as the time |
| VideoGenerator.EntryTextReadsBack | src/backend/video_generator.py:188 | an entry's block reads back as its number, its two timestamps and its text, each on its own line |
| VideoGenerator.SubtitleFileOne | src/backend/video_generator.py:206 | a file of one entry is that entry's block |
| VideoGenerator.SubtitleFileSnoc | src/backend/video_generator.py:206 | one more entry adds a line feed and its block after the file so far |
| VideoGenerator.PlannedTotal | src/backend/video_generator.py:640 | the planned total is at least the requested minutes in seconds and at least 20 seconds per scene |
| VideoGenerator.EdgeDuration | src/backend/video_generator.py:659-660 | the first and last scenes of three or more get at least 30 seconds and at least 15% of the total |
| VideoGenerator.MiddleDurationBounds | src/backend/video_generator.py:662-675 | each middle scene gets at least 45 seconds, and together they cover what the edges leave of the total |
| VideoGenerator.SectionDurations | src/backend/video_generator.py:645-678 | one duration per scene |
| VideoGenerator.SectionDurationsTotal | src/backend/video_generator.py:640-678 | the durations add up to at least the planned total |
| VideoGenerator.SectionDurationsMinimums | src/backend/video_generator.py:659-675 | with three scenes or more the edges last at least 30 seconds and each middle scene at least 45 |
| VideoGenerator.LayOut | src/backend/video_generator.py:680-687 | segment i starts at the sum of the durations before it and lasts its duration |
| VideoGenerator.LaidContiguous | src/backend/video_generator.py:680-687 | the segments start at 0, each ends where the next starts, and the last ends at the sum of the durations |
| VideoGenerator.CreateTimingData | src/backend/video_generator.py:634-687 | no scene gives no segment; otherwise the scenes' durations laid end to end from 0 |

## Left out

- Flask routing, request parsing and JSON responses: each endpoint is modelled by what it decides (a status code and the registry writes), not by the HTTP exchange.
- Threads and the registry's lock: the worker runs as a sequence of calls, so interleavings with other requests are not modelled.
- File persistence: the registry file is the `Stored` value `_load_tasks` finds (missing, unparsable or parsed), and `SavedDocument` is the document `_save_tasks` writes; opening, reading and writing files are not modelled.
- Registry.TaskManager.GetTask: the record is returned as a value; Python returns the live object, so a caller that mutates it changes the registry, and that aliasing is not modelled.
- Registry.FromDict: a field holding a value of another type than the record's (a number as `status`, say) makes the record unreadable here; Python copies it as it is, so such records load in Python and not in the model.
- Registry.Loaded: because `FromDict` refuses such ill-typed records, a stored file holding one loads as an empty registry here, where `_load_tasks` keeps every task.
- Api.Validate: the `int()` conversion of a string duration accepts optional sign, surrounding whitespace and ASCII digits only; Python's `int()` also accepts underscores between digits (`"1_0"`) and non-ASCII decimal digits, which the model treats as the `ValueError` the endpoint answers with 500.
- Api.StatusOf: the known ids of the 404 answer are a set; Python lists them in the dictionary's insertion order, which the model does not keep.
- Clocks: `time.time()` and `datetime.now()` are a `now` parameter supplied by the caller.
- The external calls (the language model, ElevenLabs, Manim, ffmpeg): their replies are parameters (`Option<string>`, `None` when the call raised), and rendering, audio and video assembly are not part of this model.
- `json.loads` is a parameter: the decoded object, or `None` when decoding fails; the JSON grammar itself is not modelled.
- The endpoints `generate_script_endpoint` and `create_tutorial_endpoint` (`src/backend/api.py:222-421`): they call a function that does not exist and pass `create_task` its arguments in the wrong order, so they cannot run as written.
- The logging calls and the prompt texts sent to the language model: they do not change any result.
- `inspect_code_for_issues`, `request_manim_code_from_gpt` and `generate_manim_code`'s dispatch in `manim_generator.py`: the first only reports, the others wrap external calls around the modelled pieces.
- The second definition of `extract_scene_topic` (`src/backend/manim_generator.py:684-690`) is the same as the first, which the model follows; its `except` branch cannot be reached, since `split('.')[0]` never raises on a string.
- Regular-expression character classes follow ASCII: `\d` is `0`-`9`, `\w` is ASCII letters, digits and `_`, and `\s` is the whitespace `str.isspace` accepts among the characters the model names.
- Floating-point arithmetic: times, durations and progress are exact `real` numbers; Python's `float` rounding, and the text `str(float)` prints, are not modelled.
- `Api.Display`: the rendering of non-string values only stands for Python's `str` (for example `<float>` for a fractional number); string values, the case the worker is given, are exact.
- ManimCode.Clamp: the text Python prints for `min(max(float(g), -b), b)` is the parameter `show`, so the clamped value itself is not computed.
- ManimCode.PhysicsFixed: states only that the physics block is present after fix 4, not the full text of the block.
- ManimGenerator.FallbackTopicReadsBack: Python literals are read with the escapes `\\`, `\'`, `\"`, `\n`, `\r`, `\t` and a backslash before a line break; other escape sequences (octal, `\x`, `\u`) are read as a backslash followed by the character.
- GenerativeManim.SectorFixed: states that `Sector(radius=` with the first match's value is put in, not that every occurrence is rewritten. The replacement text is inserted literally; `re.sub` reads backslashes in it as escapes (`\n` becomes a line break, `\1` a group, and an unknown escape such as `\l` raises, so that the `except` returns the fallback scene), which the model does not follow.
- GenerativeManim.AngleFixed: the replacement built from the matched points is inserted literally; a backslash in a matched point is read as an escape by `re.sub` (a line break, a group reference, or an error that sends the pipeline to the fallback scene), which the model does not follow.
- GenerativeManim.FallbackTopic: the topic is put into the scene without escaping, as the source does; the model does not state which topics make the scene invalid Python.
- GenerateScript.FallbackConcepts: requires the topic to hold no square bracket, because a bracket in the topic changes what the concept pattern matches.
- GenerateScript.FailedRequestThreeConcepts: stated only for a topic holding no `[` or `]`; the fallback puts any topic into its blocks, and a topic such as `Intervals [a, b]` still gives three concepts, which the model does not prove.
- ScriptGenerator.SkeletonScenes: stated only for a topic (and title suffix, second scene and last line) holding no `[`; a bracketed topic such as `Intervals [a, b]` still gives the two scene blocks unless it spells a scene tag, and that case is not proved.
- ScriptGenerator.SkeletonShape: stated only for texts holding no `[`, for the reason given for `SkeletonScenes`; its last-time-code clause holds for any topic through `SkeletonEnd`.
- ScriptGenerator.DryRunShape: its two stripped scenes are stated only for a topic holding no `[`, as for `SkeletonScenes`.
- ScriptGenerator.TimeoutShape: its two stripped scenes are stated only for a topic holding no `[`, as for `SkeletonScenes`.
- ScriptGenerator.SquashBlankLines, ScriptGenerator.DropLineIndents, ScriptGenerator.DropLineTrails: their contracts state only that no character is brought in besides line feeds; their exact output is stated by their bodies and used by `CleanForNarration`.
- VideoGenerator.LongCueCaptions: long cues are not cut short before the next cue, as in the source, so their subtitles can overlap the next cue's.
- VideoGenerator.SubtitleFileSnoc: writing the subtitle file to disk is left out; the model stops at its text.

## Findings

| source | as written | input that shows it | evidently intended | confidence | as-written member | corrected member |
|---|---|---|---|---|---|---|
| src/backend/api.py:216 | `clear_task` calls `task_manager.remove_task`, which `TaskManager` does not define | clearing any task whose status is "completed", "failed" or "error": the call raises, the request fails with 500 and the task stays | delete the task with `delete_task` and report success | high; not executed | Api.ClearTaskAsWritten | Api.ClearTask |
| src/backend/manim_generator.py:252-254 | without a closing wait, the code is rebuilt from the `def construct` match only, so everything before it is dropped | `from manim import *\n\nclass UserAnimationScene(Scene):\n    def construct(self):\n        pass`: the result starts at `def construct`, without the import or the class line | keep the whole code and append the wait | high; not executed | ManimCode.FixCommonAsWrittenDropsImport | ManimCode.FixCommonKeepsImport |
| src/backend/generative_manim_integration.py:240-241 | `Tex(` is rewritten before `MathTex(`, so `MathTex(` has already become `MathText(` | `MathTex(x)` becomes `MathText(x)`, a class Manim does not have | `MathTex(x)` becomes `Text(x)` | high; not executed | GenerativeManim.MathTexAsWritten | GenerativeManim.MathTexFixed |
| src/backend/manim_generator.py:187-199 | only single quotes of the topic are escaped before it is put in a `'…'` literal | the description `"Intro\nCircle"`: the literal ends at the line break and the fallback scene is not valid Python | escape backslashes and line breaks too, so the literal reads back as the topic | medium; not executed | ManimGenerator.FallbackIntroCircleBreaks | ManimGenerator.FallbackTopicReadsBack |
| src/backend/video_generator.py:137-202 | entries are numbered `idx + i`, the cue's position plus the chunk's index | a first cue of more than 15 words followed by a non-blank cue: its second chunk and the second cue are both numbered 2 | number the entries 1, 2, 3, … in order | high; not executed | VideoGenerator.NumbersAsWrittenRepeat | VideoGenerator.SubtitleEntries |
