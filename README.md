# DevHeat CodeColab core, modelled in Dafny

DevHeat CodeColab is a collaborative code editor. People in a room share one
editor buffer, see each other's cursors, chat, and run the buffer on the
server. The site also suggests people with similar interests. This project
models three parts of it and proves what they promise:

- **The interest-similarity engine** (`code_editor/utils.py`).
  - `create_tfidf_matrix` is modelled in `tfidf.dfy`. Words are lower-cased and split on whitespace (`text.dfy`).
  - `kmeans_clustering` is modelled in `kmeans.dfy`.
  - `find_similar_profiles` is modelled in `similarity.dfy`.
  - The loops of the first two are methods over `map`s and `array`s. Each method is proved equal to a specification function, and the lemmas are stated about those functions.
  - `math.log` and `math.sqrt` are passed in as a `MathLib`. The proofs use only the facts collected in `Numeric.Sound`.
  - The indices drawn by `random.sample` are passed in as `sample`.
- **The room relay** (`code_editor/consumers.py`).
  - `protocol.dfy` holds the JSON frames.
  - `execution.dfy` holds the language tables and `execute_code`. The temporary file is tracked in a set of existing files, and the process run is a `Host` parameter.
  - `relay.dfy` holds a `Relay` class. Its fields are the channel layer's groups, the live consumers and the frames sent to every channel. `connect`, `disconnect`, `receive` and `group_send` are methods of that class. Each consumer's handlers are a pure function of the event.
- **The browser client** (`static/code_editor/js/script.js`).
  - `editor.dfy` holds an `EditorClient` class. Its fields are the textarea (text and selection), the chat input, the remote-cursor map, the socket's send queue, the output pane and the chat log.
  - `stringToColor` is a loop method. It is proved against `Hash`, which wraps only the shift to 32 bits, as JavaScript does.

Timestamps are a parameter `now`: the server's `%I:%M %p` and the client's `formatTimestamp`.

Behaviour of the code worth noting:
- The joiner receives its own "joined the room" notice: the channel is added to the group before the notice is sent.
- The leaver is still in the group when the "left the room" notice goes out.
- A known frame kind that lacks its field makes `receive` raise a `KeyError`. The frame is not silently dropped.
- With other profiles and `max_clusters <= 0`, `find_similar_profiles` fails on `clusters[0]` (an `IndexError`). This is modelled as `None`.
- A `language` that is a JSON object raises inside `execute_code`, and so does a `code` field that is not a string. `receive` reports either as an `execution_error`.
- The cpp command is the list `g++ <file> -o <file>_executable && <file>_executable`. No shell reads it, so `&&` is an ordinary argument to the compiler. It is reproduced as data.
- The client ignores `system_message` frames: the `onmessage` switch has no case for them.

## Model

| member | source | states |
|---|---|---|
| Text.PyLower | code_editor/utils.py:19 | `str.lower` on ASCII keeps the length and leaves no upper-case letter |
| Text.PyLowerIdempotent | code_editor/utils.py:19 | lower-casing twice is lower-casing once |
| Text.PySplit | code_editor/utils.py:19 | `split()` yields non-empty words free of whitespace, made of the string's characters |
| Text.SplitJoin | code_editor/utils.py:19 | splitting words joined by spaces gives the words back |
| TfIdf.BuildVocabulary | code_editor/utils.py:15-22 | the vocabulary dict numbers the distinct lower-cased words 0..n-1 in order of first appearance, and holds nothing else |
| TfIdf.VocabularyFirstSeen | code_editor/utils.py:16-22 | a word with a smaller index first appears earlier in the documents |
| TfIdf.VocabularyCoversDocuments | code_editor/utils.py:18-22 | every word of every document has an index, and is lower-case |
| TfIdf.CountTerms | code_editor/utils.py:28-32 | the `tf` dict maps exactly the document's words to their numbers of occurrences; its keys are in first-seen order |
| TfIdf.CountsAreCounts | code_editor/utils.py:31-32 | the counting dict built word by word holds exactly the words that occur, with their counts |
| TfIdf.WeightedVector | code_editor/utils.py:35-46 | the weighting loop leaves `tf * idf` at each of the document's words' indices and 0 elsewhere |
| TfIdf.DocumentVector | code_editor/utils.py:28-53 | one document's vector, normalised when its magnitude is positive |
| TfIdf.CreateTfIdfMatrix | code_editor/utils.py:4-55 | the vocabulary, and one vector per document, in order, each as long as the vocabulary |
| TfIdf.TfIdfVector | code_editor/utils.py:35 | every vector has one entry per vocabulary word |
| TfIdf.TermFrequencyPositive | code_editor/utils.py:39 | a word that occurs has a positive term frequency; the divisor is at least 1 |
| TfIdf.InverseDocFreqAtLeastOne | code_editor/utils.py:42-43 | the smoothed idf is at least 1, since df <= N |
| TfIdf.RawEntrySign | code_editor/utils.py:35-46 | an unnormalised entry is non-negative, and positive exactly when the word occurs in the document |
| TfIdf.EntrySign | code_editor/utils.py:35-51 | a final entry is positive when the word occurs in the document and zero when it does not |
| TfIdf.MagnitudePositiveIffNonEmpty | code_editor/utils.py:49-51 | the magnitude is positive exactly for documents with words; an empty document keeps an all-zero vector |
| TfIdf.UnitLength | code_editor/utils.py:49-51 | a document with words gets a vector of squared length 1 |
| KMeans.NearestCentroid | code_editor/utils.py:87-95 | the inner loop picks the centroid `Nearest` describes |
| KMeans.NearestIsFirstMinimum | code_editor/utils.py:87-95 | that centroid is at minimum distance, and strictly nearer than every earlier centroid (strict `<` keeps the first on a tie) |
| KMeans.AssignAt | code_editor/utils.py:86-97 | every point is labelled with its own nearest centroid |
| KMeans.AssignPoints | code_editor/utils.py:86-97 | the assignment loop writes `Assign` into `clusters` |
| KMeans.ComputeMean | code_editor/utils.py:107-114 | the summing loop and the division give the mean of the cluster's points |
| KMeans.UpdateCentroids | code_editor/utils.py:104-114 | the update loop replaces each centroid as `Recompute` says |
| KMeans.Round | code_editor/utils.py:84-114 | one pass: assign; stop if nothing moved, else recompute the centroids |
| KMeans.Iterate | code_editor/utils.py:83-114 | the bounded loop ends in the state `Run` describes |
| KMeans.KMeansClustering | code_editor/utils.py:58-116 | the whole function returns `KMeansRun`'s labels and centroids |
| KMeans.RunShape | code_editor/utils.py:83-114 | labels stay one per point and below k, and k centroids remain; the loop stops on a fixed point or after `max_iterations` passes |
| KMeans.KMeansShape | code_editor/utils.py:72-116 | `([], [])` exactly on the degenerate inputs; otherwise one label in [0, k) per point and k centroids |
| KMeans.NoIterations | code_editor/utils.py:76-81 | with no passes, labels are all 0 and centroid j is the data point at the j-th sampled index |
| KMeans.MembersAreAssigned | code_editor/utils.py:105 | a cluster's points are exactly the points labelled with it |
| KMeans.EmptyClusterKeepsCentroid | code_editor/utils.py:104-106 | a cluster with no points keeps its centroid |
| KMeans.EqualPointsShareCluster | code_editor/utils.py:81-101 | equal points always end with equal labels |
| KMeans.CentroidsInBox | code_editor/utils.py:104-114 | centroids never leave a box that holds all the points |
| Similarity.Documents | code_editor/utils.py:135 | the user's interests come first, then each profile's, in order |
| Similarity.Matrix | code_editor/utils.py:138 | one row per document, all rows as long as the vocabulary |
| Similarity.NumClusters | code_editor/utils.py:141 | `min(len(profiles), max_clusters)` |
| Similarity.FindSimilarProfiles | code_editor/utils.py:119-154 | `[]` for no profiles; the `IndexError` exactly when there are profiles and `max_clusters <= 0` |
| Similarity.SameClusterIsSubsequence | code_editor/utils.py:150-152 | the comprehension keeps the profiles' order and adds nothing |
| Similarity.SameClusterCount | code_editor/utils.py:150-152 | it keeps as many profiles as there are matching labels |
| Similarity.SameClusterMembers | code_editor/utils.py:150-152 | a profile is kept exactly when one of its occurrences has the matching label |
| Similarity.SimilarProfilesAreTheUsersCluster | code_editor/utils.py:144-152 | the result is the ordered selection of the other profiles whose label equals the user's (label 0) |
| Similarity.SimilarProfilesComeFromProfiles | code_editor/utils.py:150-152 | everything returned is one of the given profiles |
| Similarity.SameTextSameRow | code_editor/utils.py:26-53 | documents with the same text get the same row |
| Similarity.SameInterestsAreSimilar | code_editor/utils.py:135-152 | a profile whose interests read exactly like the user's is always returned |
| Protocol.TypeOf | code_editor/consumers.py:61 | a kind is read only from a string `type` field |
| Execution.ExtensionTable | code_editor/consumers.py:166-173 | python, java, cpp and javascript get `.py`, `.java`, `.cpp` and `.js`; every other language gets `.txt` |
| Execution.CommandTable | code_editor/consumers.py:175-182 | the file is always the second argument; unknown languages run as `python3`; java is only compiled; cpp passes a literal `&&` |
| Execution.OutputMapping | code_editor/consumers.py:154-162 | the output is stdout then stderr; a timeout gives "Execution timed out"; any other failure gives "Execution error: " and the message |
| Execution.ExecutionRunsTheCommand | code_editor/consumers.py:147-158 | the process runs the language's command on the file with the language's suffix |
| Execution.ExecuteCodeRemovesTempFile | code_editor/consumers.py:146-164 | the corrected function leaves the set of files as it found it, on every path |
| Execution.AsWrittenLeaksTempFile | code_editor/consumers.py:148-150 | as written, a `code` that is an object leaves the temporary file behind |
| Execution.AsWrittenAgreesOnResult | code_editor/consumers.py:146-164 | the correction changes only which files remain, never the result |
| Relay.DisplayName | code_editor/consumers.py:27 | the username if authenticated, else "Anonymous" |
| Relay.GroupName | code_editor/consumers.py:16 | the group is "code_" followed by the room name |
| Relay.GroupNameInjective | code_editor/consumers.py:16 | different rooms have different groups |
| Relay.Handle | code_editor/consumers.py:115-144 | a handler sends nothing exactly when the event is a code or cursor broadcast from its own channel |
| Relay.Join | code_editor/consumers.py:20-23 | after `group_add` the group holds its old members and the new channel |
| Relay.Leave | code_editor/consumers.py:52-55 | after `group_discard` the group holds its old members except the channel, still each once |
| Relay.DeliverAt | code_editor/consumers.py:28-34 | `group_send` adds to each member's queue exactly the frame its handler produced, and to no one else's |
| Relay.CodeUpdateReachesOthers | code_editor/consumers.py:73-82 | an edit reaches every other member unchanged and is not echoed to its author (the check is at line 117) |
| Relay.CursorReachesOthers | code_editor/consumers.py:62-71 | a cursor move reaches every other member with the mover's name (the check is at line 139) |
| Relay.ChatReachesEveryone | code_editor/consumers.py:99-113 | a chat line reaches every member, the author too, with the name and the server's time |
| Relay.ExecutionRepliesToSender | code_editor/consumers.py:83-98 | a run request is answered to its sender only, with the program's output, and leaves no file behind |
| Relay.ExecutionDefaultsToPython | code_editor/consumers.py:86 | without a language the code runs as Python from a `.py` file |
| Relay.BadFramesSendNothing | code_editor/consumers.py:59-113 | a known kind without its field (`position`, `code`, `code`, `message`) raises; any other kind is ignored; neither sends anything |
| Relay.JoinReachesEveryone | code_editor/consumers.py:184-190 | every member, the newcomer included, is told "<name> joined the room" |
| Relay.LeaveReachesEveryone | code_editor/consumers.py:192-198 | every member at the time, the leaver included, is told "<name> left the room" |
| Relay.Relay.GroupAdd | code_editor/consumers.py:20-23 | the channel joins the group; nothing else changes |
| Relay.Relay.GroupDiscard | code_editor/consumers.py:52-55 | the channel leaves the group; nothing else changes |
| Relay.Relay.GroupSend | code_editor/consumers.py:28-34 | the loop over the members leaves the queues that `Deliver` describes |
| Relay.Relay.Connect | code_editor/consumers.py:13-37 | join the group, then send the join notice to the whole group; the class invariant holds |
| Relay.Relay.Disconnect | code_editor/consumers.py:39-57 | send the leave notice, then leave the group; without a session nothing changes |
| Relay.Relay.Receive | code_editor/consumers.py:59-113 | the queues change as `Route` and `Apply` say, and only there; the missing field is reported |
| Editor.ToInt32 | static/code_editor/js/script.js:245 | the result is a 32-bit value congruent to the input modulo 2^32 |
| Editor.JsRem | static/code_editor/js/script.js:247 | JavaScript's `%`: the remainder of truncating division, with the dividend's sign |
| Editor.StringToColor | static/code_editor/js/script.js:242-248 | the loop computes the hue of `Hash` modulo 360 |
| Editor.HashStep | static/code_editor/js/script.js:244-246 | while no shift overflows, each step is `31 * hash + charCode` |
| Editor.HueRange | static/code_editor/js/script.js:247 | the hue lies strictly between -360 and 360 and carries the hash's sign |
| Editor.Splice | static/code_editor/js/script.js:102 | the text before `start` and after `end` is kept, and the insert sits between them |
| Editor.TabSplice | static/code_editor/js/script.js:98-105 | Tab puts exactly four spaces in place of the selection, and the caret stays inside the text |
| Editor.ChatToSend | static/code_editor/js/script.js:73-74 | a message goes out exactly when the socket is open and the input has a non-space character; it is the trimmed input |
| Editor.Clamp | static/code_editor/js/script.js:280 | the restored caret is the old one if it fits, else the end of the new text |
| Editor.OutputDispatch | static/code_editor/js/script.js:284-293 | a result is shown as HTML in white without raw line breaks; an error in red after "Error: "; other frames leave the pane alone |
| Editor.CursorGetOrCreate | static/code_editor/js/script.js:185-205 | one cursor per user: the first update creates it in the user's colour; later ones keep its colour; other users' cursors do not change |
| Editor.CursorReused | static/code_editor/js/script.js:186-199 | a second update of the same user adds no entry and keeps the colour |
| Editor.EditorClient.Tab | static/code_editor/js/script.js:95-107 | the new text is the splice and the caret sits after the four spaces; nothing else changes |
| Editor.EditorClient.SendCodeUpdate | static/code_editor/js/script.js:45-52 | the buffer is queued only while the socket is open |
| Editor.EditorClient.RunClicked | static/code_editor/js/script.js:61-69 | a run request with buffer and language is queued only while open |
| Editor.EditorClient.SendCursorUpdate | static/code_editor/js/script.js:250-262 | the caret index and coordinates are queued only while open |
| Editor.EditorClient.SendChatMessage | static/code_editor/js/script.js:72-81 | the trimmed message is queued, and the input cleared, exactly when `ChatToSend` allows it |
| Editor.EditorClient.UpdateRemoteCursor | static/code_editor/js/script.js:185-205 | the cursor map becomes `CursorsAfter`, coloured by the user's hue |
| Editor.EditorClient.OnMessage | static/code_editor/js/script.js:270-302 | each frame kind changes only its own part of the state; a code update replaces differing text and clamps the caret |
| Editor.EditorClient.OnClose | static/code_editor/js/script.js:304-308 | once closed, nothing more is sent, and the pane shows the red notice |

## Left out

- Running code: `subprocess.run`, the temporary file's contents and its random name, `os.unlink` and the 10-second clock. The process is a `Host` value, and files are a set of names.
- Temporary-file creation failing: `NamedTemporaryFile` raising before any file exists is not modelled.
- Concurrency: `async`, `database_sync_to_async` worker threads, interleaving of events from different consumers, and channel-layer delivery failures. The relay is modelled as one sequence of steps.
- `accept`, `close` and the logged error path of `connect`. A consumer whose `connect` failed before `self.user` was set (code_editor/consumers.py:15-17) is one without a session; its later `disconnect` then changes nothing, as the caught `AttributeError` does.
- A `connect` that fails later is not modelled: `Relay.Relay.Connect` always completes. If `group_add` itself raises (code_editor/consumers.py:20-23), the later `disconnect` still sends the leave notice to the room's members. If `accept()` or the join `group_send` raises (code_editor/consumers.py:24-34), the channel is already in the group, and the later `disconnect` sends the leave notice and discards the channel (code_editor/consumers.py:43-55).
- A leave notice queued for the leaver's own channel is never read once its socket closes. The model keeps it in the queue.
- JSON parsing: envelopes are maps from field names to a string or a `{index, coords}` object. `json.loads` failures and other JSON value kinds (numbers, lists, null) are not modelled.
- Floating point: all numbers are `real`. `math.log` and `math.sqrt` are parameters, constrained only by `Numeric.Sound`. The exact weights and means are not computed.
- JavaScript numbers are doubles. `Hash` uses unbounded integers, which agree with doubles until the hash passes 2^53 in magnitude (over four million characters).
- `charCodeAt` reads UTF-16 code units. The model reads a character's code point, which is the same for the Basic Multilingual Plane.
- `str.lower` is modelled for the ASCII letters A–Z only; other upper-case letters are left as they are. `str.split` follows `str.isspace` in full.
- `random.seed(42)` and `random.sample` are a parameter `sample` of k distinct indices below `len(data)`.
- Relay.Relay.Receive: its `files` clause describes the corrected `execute_code`, which removes the temporary file also when `code` is not a string; the code as written leaves that file behind (see Findings).
- KMeans.KMeansClustering: requires every point to be at least as long as the first. The `IndexError` for a shorter point is not modelled. TF-IDF rows always have equal lengths.
- Clocks and time formatting (`datetime.now().strftime`, `formatTimestamp`) are a parameter `now`.
- DOM work: `getCaretCoordinates` is a `Coords` parameter. Also left out: the `hsl(...)` string, the `innerHTML` markup of chat lines and cursors, scrolling, CSS transitions, style injection and `console.log`.
- The 100 ms typing debounce is left out. `SendCodeUpdate` is the function the timer calls.
- A cursor move whose `position` is a plain string throws after the cursor was created. The model records the creation and no move.
- Room creation, views, models, routing and authentication are not part of this model.

## Findings

| source | as written | input that shows it | evidently intended | confidence | as-written member | corrected member |
|---|---|---|---|---|---|---|
| code_editor/consumers.py:148-150 | the file is created with `delete=False` and written before the `try` whose `finally` removes it; when the write raises, the exception skips that `finally` | `{"type": "execute_code", "code": {}}`: `write()` raises `TypeError` and the `.py` file stays on disk | the temporary file is removed on every path, including a failed write | high; not executed | Execution.AsWrittenLeaksTempFile | Execution.ExecuteCodeRemovesTempFile |

`Execution.ExecuteCodeAsWritten` models the code as written, and `Execution.ExecuteCode` is the corrected version. The relay uses the corrected one. `Execution.AsWrittenAgreesOnResult` shows that the two differ only in the files they leave.
