# Interactive video scenario editor — a Dafny model

This project models the logic of a web application for building interactive video scenarios:

- **Scenario editor.** A graph canvas of video and button nodes. Nodes are created by drag and drop, edited through per-node data callbacks and loaded from stored projects. A playback flag freezes the graph, and a fullscreen preview opens from playback mode.
- **Nodes.** The inline label editor every node shares, the video node's callback forwarding, and the interaction node's button list with its button editor dialog.
- **Autoplay playlist.** A fullscreen playlist that plays the video nodes one after the other and wraps around at the end. Its controls hide 2000 ms after the last mouse move.
- **Media store.** The in-memory media store of the Express server (upload, list, get, delete, patch), and the browser-side storage adapter that maps the server's records to `MediaFile`s and filters them.

## Form of the model

Each module follows one source file:

| module | source |
|---|---|
| `ScenarioEditor` | `ScenarioEditor.tsx` |
| `InteractionNode` | `InteractionNode.tsx` |
| `FullscreenPlaylist` | `FullscreenPlaylist.tsx` |
| `ScenarioPreview` | `ScenarioPreview.tsx` |
| `BaseNode` | `BaseNode.tsx` |
| `VideoNode` | `VideoNode.tsx` |
| `StorageAdapter` | `ServerStorageAdapter.ts` |
| `MediaServer` | `server/src/index.js` |
| `NodeTypes` | `types/nodes.ts` |
| `MediaTypes` | `types/media.ts` |

The shared modules are:

- `HideTimer`: the show/hide controls latch used by both the playlist and the preview;
- `Text`: the JavaScript string operations the source relies on (`parseInt`, `trim`, `toLowerCase`, `includes`, `split`, template rendering of numbers);
- `Seqs`: `filter`, `find`, `findIndex`, `some`, and the subsequence relation;
- `Wrappers`: `Option`, `Result` and JavaScript truthiness of an optional string.

A component whose state changes step by step is a `class`:

- the editor (with the module-level id counter as its own class `IdCounter`);
- the interaction node and its button dialog;
- the playlist;
- the preview;
- the label field;
- the server's media store.

Each method's contract states its new state. The editor's methods all ensure `State() == Step(old(State()), e)` for the matching event `e`. The pure function `Step` carries the lemmas about runs of events.

Pure code is modelled as functions: the merge, the filters, the mappings, the video node, the storage adapter, and the per-event transitions of the label editor and the timer latch.

JavaScript behaviour is written out explicitly:

- **Truthiness.** `x || d` and `if (x)` on strings, numbers and optional values.
- **Object spread.** `{ ...a, ...b }` is a field-by-field overlay in which `b`'s present fields win.
- **`parseInt`.** Leading ASCII digits after optional whitespace and sign; `None` stands for `NaN`.
- **`trim`.** Trims ASCII whitespace.
- **`toLowerCase`.** Lowercases ASCII only.

Callbacks stored in node data are data that says what a call will do:

- `onDataChange` is the node id it is bound to.
- `onButtonClick` is a `ClickHandler`: the target it will read, the `(id, position)` list it will search, and whether a canvas instance was available.
- The camera's `setCenter` is a recorded `CenterCall`.

ReactFlow's `addEdge` is an append. `screenToFlowPosition`, `Date.now()`, `new Date()`, a `fetch` reply, the uploaded file and the outcome of `fs.unlinkSync` are parameters. Timers are tokens: a mouse move schedules the timer with a fresh token, `Fire(t)` is timer `t` elapsing, and `Cleanup` is an effect cleanup.

Three behaviours of the code are modelled as written and proved as lemmas:

- **Reloaded ids collide.** The id counter is not reseeded from loaded nodes, so a fresh page that loads `node_0` and then drops a node creates a second `node_0` (`ReloadedIdsCollide`).
- **Dropped buttons never navigate.** A button node created by a drop never navigates. Its click closure reads the target of the object literal built at drop time, which has none (`DroppedButtonNeverNavigates`).
- **The play toggle reloads.** The load effect depends on the project id, the playback flag and the canvas instance, so toggling playback or the instance arriving loads the stored project again. With a project id, the toggle replaces the graph with the stored one and throws away unsaved edits (`ToggleReloads`, `ToggleDiscardsEdits`). The load run at mount has no instance yet, so its click closures never navigate; the run triggered by the instance arriving replaces them (`LoadBeforeInitNeverNavigates`, `InitReloadsWithInstance`). A mode switch that keeps the graph as it is, as the design describes it, is not what the code does.

The playlist keeps only nodes of type `video`, while the editor creates nodes of type `videoNode`; `EditorNodesNotPlayable` states the consequence.

## Model

| member | source | states |
|---|---|---|
| ScenarioEditor.NodeIdInjective | src/components/Editor/ScenarioEditor.tsx:32-33 | two ids `node_<n>` are equal exactly when their counter values are |
| ScenarioEditor.IdCounter.constructor | src/components/Editor/ScenarioEditor.tsx:32 | the module counter starts at 0 |
| ScenarioEditor.IdCounter.GetId | src/components/Editor/ScenarioEditor.tsx:33 | returns `node_` followed by the old counter and increments the counter by one |
| ScenarioEditor.Navigate | src/components/Editor/ScenarioEditor.tsx:101-112 | a click centres the camera if and only if an instance exists, the target id is truthy and some searched node has it; the call is at the first such node's position with duration 800 |
| ScenarioEditor.MergeData | src/components/Editor/ScenarioEditor.tsx:126-142 | same length; nodes with another id are unchanged; a node with the id keeps everything but its data, which becomes the merged data |
| ScenarioEditor.MergedDataFields | src/components/Editor/ScenarioEditor.tsx:131-137 | each field present in the update wins, each absent one keeps its old value (extra keys included); `isPlaybackMode` comes from the editor, `onDataChange` is bound to the node id, and `onButtonClick` is kept from the old data |
| ScenarioEditor.MergeDataIdempotent | src/components/Editor/ScenarioEditor.tsx:124-145 | applying the same data change twice is applying it once |
| ScenarioEditor.AttachCallbacks | src/components/Editor/ScenarioEditor.tsx:153-172 | each loaded node keeps id, type and position and all data except the three callbacks; it gets the editor's flag and a data callback bound to its id; it has a click handler if and only if it is a `buttonNode`, capturing its stored target and the whole loaded list |
| ScenarioEditor.Bindings | src/components/Editor/ScenarioEditor.tsx:282-302 | in playback mode no mutation entry point is bound (node and edge changes, connect, drag-over, drop, delete/selection keys, dragging, connecting, selecting); in edit mode all are, with the keys Delete, Shift and Control |
| ScenarioEditor.DropConsumesId | src/components/Editor/ScenarioEditor.tsx:59-122 | a drop without wrapper, instance or payload type changes nothing; any other drop uses one id and keeps the existing nodes as a prefix; it adds a node if and only if the type is `videoNode` or `buttonNode` |
| ScenarioEditor.DroppedVideoNode | src/components/Editor/ScenarioEditor.tsx:73-119 | a video drop appends one node with the fresh id as node id and `data.id`, label 'Nouvelle vidéo', empty `videoUrl`, no buttons and a data callback bound to its id |
| ScenarioEditor.CounterMonotone | src/components/Editor/ScenarioEditor.tsx:32-33 | along any run of events the counter never decreases |
| ScenarioEditor.SuccessiveDropsDistinct | src/components/Editor/ScenarioEditor.tsx:32-33 | two node-adding drops of one session, whatever happens between them, give different node ids |
| ScenarioEditor.LoadKeepsCounter | src/components/Editor/ScenarioEditor.tsx:147-185 | loading never changes the id counter |
| ScenarioEditor.ReloadedIdsCollide | src/components/Editor/ScenarioEditor.tsx:147-185 | on a fresh page with a project id, the load run by the canvas instance arriving brings in a stored `node_0`, and dropping a video node then yields two nodes with id `node_0` |
| ScenarioEditor.LoadReplacesPresentParts | src/components/Editor/ScenarioEditor.tsx:147-185 | the project id is recorded; an empty project id or a failed load changes nothing else; otherwise each part the project has replaces its collection (stored nodes in order with id, type, position, the editor's flag, and click handlers exactly on button nodes) and a missing part stays; the flags, the instance, the counter and the camera stay |
| ScenarioEditor.LoadStepFrame | src/components/Editor/ScenarioEditor.tsx:147-183 | one run of the load effect changes only nodes and edges; with no project id or a failed load nothing; with a stored project each part it has is shown, the nodes carrying the editor's current flag |
| ScenarioEditor.DataChangeOnlyMatching | src/components/Editor/ScenarioEditor.tsx:124-145 | a data change leaves edges, counter, flag and node count alone, changes no node with another id, and keeps every node's id, type and position |
| ScenarioEditor.PlaybackFreezesGraph | src/components/Editor/ScenarioEditor.tsx:282-302 | in playback mode any run of canvas and toolbar events that do not re-run the load leaves nodes, edges and counter unchanged and the editor in playback |
| ScenarioEditor.PreviewOnlyFromPlayback | src/components/Editor/ScenarioEditor.tsx:223-231 | the preview flag is raised only by the fullscreen button, and only in playback mode |
| ScenarioEditor.ClosePreviewKeepsGraph | src/components/Editor/ScenarioEditor.tsx:239 | closing the preview lowers the preview flag and keeps the graph, the playback flag, the instance, the counter, the camera and the project id |
| ScenarioEditor.ToggleReloads | src/components/Editor/ScenarioEditor.tsx:147-185 | the play toggle flips the flag and, through the load effect's dependency on it, reloads: with a stored project the canvas is the stored graph with every node carrying the new flag; with no project id or a failed load the graph stays, its nodes keeping their old flag; the preview flag, instance, counter and camera stay |
| ScenarioEditor.EditsKeepModes | src/components/Editor/ScenarioEditor.tsx:124-145 | data changes, node and edge changes and connections change only the nodes and the edges |
| ScenarioEditor.ToggleDiscardsEdits | src/components/Editor/ScenarioEditor.tsx:147-185 | with a stored project holding nodes and edges, toggling playback after any run of graph edits gives the same state as toggling without them: unsaved edits are lost |
| ScenarioEditor.LoadBeforeInitNeverNavigates | src/components/Editor/ScenarioEditor.tsx:159-169 | the click closures a load attaches before the canvas instance exists never centre the camera |
| ScenarioEditor.InitReloadsWithInstance | src/components/Editor/ScenarioEditor.tsx:147-185 | the instance arriving re-runs the load: the canvas is the stored graph, and every button node's closure holds the instance and its stored target and centres exactly when that target is a truthy id of a stored node |
| ScenarioEditor.ClickCentresOnce | src/components/Editor/ScenarioEditor.tsx:159-170 | a button click adds at most one camera call, exactly when the clicked node's handler resolves its target, with duration 800, and changes no node or edge |
| ScenarioEditor.DroppedButtonNeverNavigates | src/components/Editor/ScenarioEditor.tsx:101-112 | a button node created by a drop has a click handler that never centres the camera |
| ScenarioEditor.Editor.constructor | src/components/Editor/ScenarioEditor.tsx:40-48 | empty graph, both flags off, no canvas instance, the given project id, sharing the module counter |
| ScenarioEditor.Editor.OnInit | src/components/Editor/ScenarioEditor.tsx:50-52 | the canvas instance becomes available and the load effect runs again with it |
| ScenarioEditor.Editor.RunLoadEffect | src/components/Editor/ScenarioEditor.tsx:147-183 | the new state is one run of the load effect with the current project id, flag and instance |
| ScenarioEditor.Editor.OnDragOver | src/components/Editor/ScenarioEditor.tsx:54-57 | sets the drop effect `move` if and only if the handler is bound, that is outside playback |
| ScenarioEditor.Editor.OnDrop | src/components/Editor/ScenarioEditor.tsx:59-122 | the new state is the drop transition, using and incrementing the shared counter |
| ScenarioEditor.Editor.HandleNodeDataChange | src/components/Editor/ScenarioEditor.tsx:124-145 | the nodes become the merged nodes |
| ScenarioEditor.Editor.OnConnect | src/components/Editor/ScenarioEditor.tsx:187-190 | the edge is appended, outside playback only |
| ScenarioEditor.Editor.OnNodesChange | src/components/Editor/ScenarioEditor.tsx:282 | the canvas's node list is taken, outside playback only |
| ScenarioEditor.Editor.OnEdgesChange | src/components/Editor/ScenarioEditor.tsx:283 | the canvas's edge list is taken, outside playback only |
| ScenarioEditor.Editor.LoadProject | src/components/Editor/ScenarioEditor.tsx:147-185 | the project id is recorded and the new state is the load transition |
| ScenarioEditor.Editor.TogglePlayback | src/components/Editor/ScenarioEditor.tsx:248 | the playback flag flips and the load effect runs again with the new flag |
| ScenarioEditor.Editor.OpenPreview | src/components/Editor/ScenarioEditor.tsx:223-231 | the preview flag is set, in playback mode only |
| ScenarioEditor.Editor.ClosePreview | src/components/Editor/ScenarioEditor.tsx:235-241 | the preview flag is cleared |
| ScenarioEditor.Editor.ClickButtonNode | src/components/Editor/ScenarioEditor.tsx:159-170 | the camera records the call the clicked node's handler makes, if any |
| ScenarioEditor.Editor.Save | src/components/Editor/ScenarioEditor.tsx:192-203 | the saved project is the current nodes and edges |
| InteractionNode.AppendButton | src/components/Editor/nodes/InteractionNode.tsx:195-209 | exactly one button more, at the end, the old list (a missing one counting as empty) before it |
| InteractionNode.ReplaceById | src/components/Editor/nodes/InteractionNode.tsx:211-216 | same length and order; every button with the edited id becomes the edited button, every other stays |
| InteractionNode.ReplaceByIdKeepsIds | src/components/Editor/nodes/InteractionNode.tsx:211-216 | the id sequence is kept; with no matching id the list is unchanged; with one the edited button is in the result |
| InteractionNode.ReplaceByIdIdempotent | src/components/Editor/nodes/InteractionNode.tsx:211-216 | saving the same button twice is saving it once |
| InteractionNode.RemoveByIdSpec | src/components/Editor/nodes/InteractionNode.tsx:218-220 | every button with the id is gone, every other stays in order, and an absent id changes nothing; each kept element occurs as often as in the input |
| InteractionNode.NewButtonShowsDefaults | src/components/Editor/nodes/InteractionNode.tsx:195-209 | a new button shows position 50/50, centred alignment, font text `14px`, radius text `4px`, white background and black text; a button with no settings shows the same with texts `14` and `4`; in both cases the sliders read 14 and 4 |
| InteractionNode.DefaultFontSizeParses | src/components/Editor/nodes/InteractionNode.tsx:124 | the default font size reads as 14 with or without its unit |
| InteractionNode.DefaultRadiusParses | src/components/Editor/nodes/InteractionNode.tsx:140 | the default border radius reads as 4 with or without its unit |
| InteractionNode.PxParses | src/components/Editor/nodes/InteractionNode.tsx:124-129 | a size written back as `<v>px` reads back as `v` |
| InteractionNode.EditKeepsId | src/components/Editor/nodes/InteractionNode.tsx:39 | no dialog edit changes the id or the target of the copy |
| InteractionNode.EditShowsValue | src/components/Editor/nodes/InteractionNode.tsx:49-177 | each slider, select, colour or text edit is read back by its own control (0 showing as 50, font and radius written as `<v>px` and their sliders then reading `v`, an empty colour showing the default) and leaves every other shown value unchanged; x keeps y (or 50), y keeps x |
| InteractionNode.FontSizeParses | src/components/Editor/nodes/InteractionNode.tsx:124-130 | after the font slider writes `v`, the slider reads `v` |
| InteractionNode.BorderRadiusParses | src/components/Editor/nodes/InteractionNode.tsx:140-146 | after the radius slider writes `v`, the slider reads `v` |
| InteractionNode.SlidersShowInRange | src/components/Editor/nodes/InteractionNode.tsx:56-149 | a value a slider can produce (position 0 to 100, font 12 to 32, radius 0 to 20) is shown within that slider's range, a zero position showing as 50 |
| InteractionNode.TimingText | src/components/Editor/nodes/InteractionNode.tsx:294-297 | throws if and only if the node has no timing; shows 'Fin de la vidéo' if and only if `showAtEnd`; otherwise text ending in `s` whose number parses back to `showAtTime` |
| InteractionNode.DurationText | src/components/Editor/nodes/InteractionNode.tsx:298-300 | a duration line appears if and only if the duration is present and non-zero, and carries that number |
| InteractionNode.InteractionNodeView.constructor | src/components/Editor/nodes/InteractionNode.tsx:192-193 | the node starts with its data's buttons and no dialog open |
| InteractionNode.InteractionNodeView.HandleAddButton | src/components/Editor/nodes/InteractionNode.tsx:195-209 | the list becomes the old list with the new button appended |
| InteractionNode.InteractionNodeView.StartEditing | src/components/Editor/nodes/InteractionNode.tsx:262 | the dialog opens on the clicked button; the list is untouched |
| InteractionNode.InteractionNodeView.HandleSaveButton | src/components/Editor/nodes/InteractionNode.tsx:211-216 | throws if and only if the node has no button list; otherwise the list becomes the replaced list and the dialog closes |
| InteractionNode.InteractionNodeView.CloseEditor | src/components/Editor/nodes/InteractionNode.tsx:183 | cancel closes the dialog and leaves the list |
| InteractionNode.InteractionNodeView.HandleDeleteButton | src/components/Editor/nodes/InteractionNode.tsx:218-220 | throws if and only if the node has no button list; otherwise the list loses the buttons with the id |
| InteractionNode.ButtonEditor.constructor | src/components/Editor/nodes/InteractionNode.tsx:39 | the dialog works on a copy of the button |
| InteractionNode.ButtonEditor.Edit | src/components/Editor/nodes/InteractionNode.tsx:49-177 | the copy becomes the copy with the edit applied |
| InteractionNode.ButtonEditor.Save | src/components/Editor/nodes/InteractionNode.tsx:184 | Save hands back the edited copy |
| InteractionNode.EditsKeepId | src/components/Editor/nodes/InteractionNode.tsx:39-184 | any sequence of dialog edits keeps the id |
| InteractionNode.EditAndSave | src/components/Editor/nodes/InteractionNode.tsx:211-216 | editing a button with a unique id and saving it changes that button only, at its own place |
| FullscreenPlaylist.VideoNodesSpec | src/components/FullscreenPlaylist/FullscreenPlaylist.tsx:21-24 | the playlist is exactly the nodes of type `video` with a non-empty url, as a subsequence in the original order; each kept element occurs as often as in the input |
| FullscreenPlaylist.NextIndex | src/components/FullscreenPlaylist/FullscreenPlaylist.tsx:28-36 | index+1 while that is within the list, else 0; always within the list when it is not empty |
| FullscreenPlaylist.AdvanceAdd | src/components/FullscreenPlaylist/FullscreenPlaylist.tsx:28-36 | a+b video ends advance as a ends then b ends |
| FullscreenPlaylist.AdvanceWithin | src/components/FullscreenPlaylist/FullscreenPlaylist.tsx:30-31 | before the last video, k ends advance the index by k |
| FullscreenPlaylist.FullCycle | src/components/FullscreenPlaylist/FullscreenPlaylist.tsx:30-35 | from the start, as many ends as videos bring the index back to 0 |
| FullscreenPlaylist.AdvanceWraps | src/components/FullscreenPlaylist/FullscreenPlaylist.tsx:30-35 | from the start, q full rounds and r more ends put the index at r |
| FullscreenPlaylist.CurrentNode | src/components/FullscreenPlaylist/FullscreenPlaylist.tsx:26 | no current node if and only if the index is past the playlist; otherwise the playlist entry at the index, a playable node of the list with a non-empty url |
| FullscreenPlaylist.PlayedAfter | src/components/FullscreenPlaylist/FullscreenPlaylist.tsx:26-35 | from the first video, after q full rounds and r more ends the video playing is playlist entry r: A, B, C, A, ... |
| FullscreenPlaylist.EditorNodesNotPlayable | src/components/FullscreenPlaylist/FullscreenPlaylist.tsx:21-24 | the nodes the editor creates by drop never enter the playlist, so a graph built by drops has an empty playlist |
| FullscreenPlaylist.NoneKept | src/components/FullscreenPlaylist/FullscreenPlaylist.tsx:21-24 | with no playable node the playlist is empty |
| FullscreenPlaylist.Playlist.constructor | src/components/FullscreenPlaylist/FullscreenPlaylist.tsx:16-18 | index 0, controls hidden, no timer |
| FullscreenPlaylist.Playlist.HandleVideoEnd | src/components/FullscreenPlaylist/FullscreenPlaylist.tsx:82-89 | the index advances with wrap-around over the playlist of this render; nothing else changes |
| FullscreenPlaylist.Playlist.SetOpen | src/components/FullscreenPlaylist/FullscreenPlaylist.tsx:58-62 | opening resets the index to 0; any other prop change keeps it |
| FullscreenPlaylist.Playlist.ControlsEvent | src/components/FullscreenPlaylist/FullscreenPlaylist.tsx:38-55 | mouse moves, timer elapses and cleanup drive only the controls latch |
| FullscreenPlaylist.Playlist.Render | src/components/FullscreenPlaylist/FullscreenPlaylist.tsx:64-125 | renders a url if and only if there is a current node, and then it is the url of the playlist entry at the index, with the progress `index+1 / len` |
| HideTimer.StepValid | src/components/FullscreenPlaylist/FullscreenPlaylist.tsx:38-55 | at most the pending timer is live, before and after any event |
| HideTimer.RunValid | src/components/FullscreenPlaylist/FullscreenPlaylist.tsx:38-55 | the same along any run of events |
| HideTimer.MoveRestartsTimer | src/components/FullscreenPlaylist/FullscreenPlaylist.tsx:38-47 | a move shows the controls, cancels the earlier timer and leaves only its own new timer live |
| HideTimer.OnlyNewestHides | src/components/Preview/ScenarioPreview.tsx:24-36 | after a move, a timer from before it elapsing changes nothing |
| HideTimer.VisibleUntilLastTimer | src/components/Preview/ScenarioPreview.tsx:24-36 | after a move, stale timers elapsing keep the controls visible; the move's own timer hides them |
| HideTimer.StaleFiresNoOp | src/components/Preview/ScenarioPreview.tsx:24-36 | elapses of timers other than the live one change nothing |
| HideTimer.CleanupSilences | src/components/Preview/ScenarioPreview.tsx:49-55 | after cleanup no timer is live and no elapse changes anything |
| ScenarioPreview.ReadOnlyNodes | src/components/Preview/ScenarioPreview.tsx:72-80 | same count and order; each node is not draggable, not selectable, in playback, with every other node and data field kept |
| ScenarioPreview.ReadOnlyNodesIdempotent | src/components/Preview/ScenarioPreview.tsx:72-80 | making read-only nodes read-only again changes nothing |
| ScenarioPreview.Preview.constructor | src/components/Preview/ScenarioPreview.tsx:20 | controls start hidden, with no timer; both window listeners are registered |
| ScenarioPreview.Preview.Render | src/components/Preview/ScenarioPreview.tsx:72-81 | the canvas gets the read-only nodes and the edges unchanged |
| ScenarioPreview.Preview.KeyDown | src/components/Preview/ScenarioPreview.tsx:39-44 | Escape calls `onClose` once, no other key does, and nothing else changes |
| ScenarioPreview.Preview.CloseClick | src/components/Preview/ScenarioPreview.tsx:106 | the close button calls `onClose` |
| ScenarioPreview.Preview.MouseMove | src/components/Preview/ScenarioPreview.tsx:24-36 | a window mouse move steps the latch while the listener is registered, and does nothing after |
| ScenarioPreview.Preview.TimerElapsed | src/components/Preview/ScenarioPreview.tsx:31-33 | a timer elapsing steps the latch |
| ScenarioPreview.Preview.Unmount | src/components/Preview/ScenarioPreview.tsx:49-55 | cleanup removes both listeners and clears the pending timer |
| BaseNode.BlurOutcome | src/components/Editor/nodes/BaseNode.tsx:39-46 | editing ends; `onLabelChange` is called with the untrimmed text if and only if it exists and the text is not blank; otherwise the text reverts to the label |
| BaseNode.ClickAndTyping | src/components/Editor/nodes/BaseNode.tsx:29-37 | clicking the label or the icon starts editing if and only if not in playback and a callback exists; typing in the input changes only the edit text and never commits |
| BaseNode.EnterIsBlur | src/components/Editor/nodes/BaseNode.tsx:48-52 | in the input, Enter behaves exactly like blur; other keys do nothing |
| BaseNode.UndeliveredIgnored | src/components/Editor/nodes/BaseNode.tsx:67-103 | the input exists only while editing and the label and icon only while not, so an event aimed at an absent element changes nothing; a callback call happens only on blur or Enter while editing |
| BaseNode.EditThenBlur | src/components/Editor/nodes/BaseNode.tsx:19-46 | click, type, blur commits the typed text if and only if it is not blank, and otherwise returns to the mounted state |
| BaseNode.LabelField.constructor | src/components/Editor/nodes/BaseNode.tsx:19-20 | not editing, edit text equal to the label |
| BaseNode.LabelField.Rerender | src/components/Editor/nodes/BaseNode.tsx:19-20 | new props do not reset the edit text |
| BaseNode.LabelField.Handle | src/components/Editor/nodes/BaseNode.tsx:29-103 | each event gives the state and the callback call of the label transition, events aimed at an absent element doing nothing |
| BaseNode.LabelField.HandleBlur | src/components/Editor/nodes/BaseNode.tsx:39-46 | the state and the recorded calls become those of the blur outcome |
| VideoNode.HandleDataChange | src/components/Editor/nodes/VideoNode.tsx:78-82 | forwards if and only if `onDataChange` exists, with `id` set to the node id over any id in the updates, every other field as given |
| VideoNode.HandleCreateInteraction | src/components/Editor/nodes/VideoNode.tsx:84-88 | the node id is forwarded if and only if the callback exists |
| VideoNode.LabelProps | src/components/Editor/nodes/VideoNode.tsx:94 | label editing is possible if and only if the node is not in playback |
| VideoNode.View | src/components/Editor/nodes/VideoNode.tsx:109-147 | the player renders if and only if the url is non-empty; the placeholder if and only if there is no url and no playback; player controls only in playback; the add-interaction control only in edit mode |
| VideoNode.ButtonClickTarget | src/components/Editor/nodes/VideoNode.tsx:46 | the button's target, or '' when it has none |
| VideoNode.ButtonClick | src/components/Editor/nodes/VideoNode.tsx:43-136 | a click on an overlay button calls `onNavigate` with the button's target (or '') if and only if the callback exists, the player is shown, the node is not in playback (its icon buttons take no pointer events there) and the button is in the node's button list; in playback no click gets through |
| VideoNode.RenameReachesEditor | src/components/Editor/nodes/VideoNode.tsx:78-94 | a non-blank rename of a video node in edit mode reaches the editor and sets that node's label and id, changing no other node |
| MediaServer.NewRecord | server/src/index.js:69-79 | id is the upload time, url `/uploads/` plus the stored filename, name, type and size from the file, both dates the upload time, tags parsed (else []) |
| MediaServer.ListResultSpec | server/src/index.js:88-107 | the listing keeps exactly the records matching the search (name or any tag, case-insensitive) and having a listed tag, in store order; with no query every record; each kept element occurs as often as in the input |
| MediaServer.Lookup | server/src/index.js:110-119 | none if and only if no record has the id; otherwise the first record with it |
| MediaServer.MediaStore.constructor | server/src/index.js:48 | the store starts empty |
| MediaServer.MediaStore.Upload | server/src/index.js:29-86 | a type outside mp4/webm/ogg or a size over 100 MiB is a 500, a missing file a 400, both with the store unchanged; otherwise the new record is appended and returned |
| MediaServer.MediaStore.List | server/src/index.js:88-108 | the reply is the listing of the store, which is not changed |
| MediaServer.MediaStore.Get | server/src/index.js:110-119 | 404 if and only if no record has the id; otherwise the first record with it; the store is not changed |
| MediaServer.MediaStore.Delete | server/src/index.js:121-139 | an absent id is a 404 and an unlink failure a 500, both with the store unchanged; otherwise every record with the id is removed |
| MediaServer.MediaStore.Patch | server/src/index.js:141-161 | an absent id is a 404 with the store unchanged; otherwise the first record with the id gets the new tags when given (an empty list included) and `updatedAt`, in place |
| MediaServer.PatchKeepsIdentity | server/src/index.js:150-157 | a patch keeps every record's id, filename, url, type and creation date, changes no other record, and sets the given tags |
| MediaServer.SameInstantUploadsShareId | server/src/index.js:70 | two uploads in the same millisecond get the same id, and deleting it removes both |
| StorageAdapter.MediaTypeOf | src/services/storage/ServerStorageAdapter.ts:55 | the type is video if and only if the MIME type starts with `video/` |
| StorageAdapter.ToMediaFile | src/services/storage/ServerStorageAdapter.ts:51-63 | id, mime type and size from the record, name from `originalName`, the type from the mime type, tags defaulting to [], both dates from the record, url prefixed with `http://localhost:3000`, no duration or dimensions |
| StorageAdapter.MapRecords | src/services/storage/ServerStorageAdapter.ts:75-87 | every record mapped, in server order |
| StorageAdapter.FilterChainSpec | src/services/storage/ServerStorageAdapter.ts:89-105 | the result keeps exactly the files meeting every rule switched on (type exact, any requested tag, lowercase search in the lowercased name or a tag), as an order-preserving subsequence; no filter keeps all |
| StorageAdapter.FilterChainCounts | src/services/storage/ServerStorageAdapter.ts:89-105 | with a filter, a file it accepts is kept as often as it occurs in the input, and a file it rejects not at all |
| StorageAdapter.SaveMedia | src/services/storage/ServerStorageAdapter.ts:6-40 | fails with 'Failed to upload file' if and only if the reply is not ok; otherwise name, type and size from the file, tags from the request (default []), id, both dates and url from the reply, and no duration or dimensions |
| StorageAdapter.GetMedia | src/services/storage/ServerStorageAdapter.ts:42-64 | fails with 'Media not found: ' and the id if and only if the reply is not ok; otherwise the mapped record |
| StorageAdapter.ListMedia | src/services/storage/ServerStorageAdapter.ts:66-108 | fails if and only if the reply is not ok; otherwise the filter chain over the mapped records |
| StorageAdapter.DeleteMedia | src/services/storage/ServerStorageAdapter.ts:110-118 | fails with 'Failed to delete media' if and only if the reply is not ok |
| StorageAdapter.UpdateMetadata | src/services/storage/ServerStorageAdapter.ts:120-134 | fails if the PATCH reply is not ok; otherwise the result of getting the media |
| StorageAdapter.StoredFilesAreVideos | src/services/storage/ServerStorageAdapter.ts:55-92 | every record the server accepts maps as a video, so an image filter over them returns nothing |
| StorageAdapter.SaveMatchesGet | src/services/storage/ServerStorageAdapter.ts:25-63 | the file returned by a save is the one a later get of the stored record returns |
| StorageAdapter.PatchSeenByGet | src/services/storage/ServerStorageAdapter.ts:120-134 | after a tag patch the next get sees the new tags and the new update date, everything else as before |
| MediaTypes.SharesTagIff | src/services/storage/ServerStorageAdapter.ts:93-97 | a file passes the tag filter if and only if some tag of it is a requested one |
| NodeTypes.ParseNodeType | src/types/nodes.ts:3 | a string is a node type if and only if it is one of the five names, and names it |
| NodeTypes.ParseNodeTypeName | src/types/nodes.ts:3 | every node type's name reads back as that type |
| Text.ParseIntOfRenderedInt | src/components/Editor/nodes/InteractionNode.tsx:124 | `parseInt` of a rendered integer followed by a non-digit gives the integer |
| Text.ParseIntOfNegative | src/components/Editor/nodes/InteractionNode.tsx:124 | `parseInt` of a minus sign, a rendered natural and a non-digit gives the negated natural |
| Text.TrimEmptyIffBlank | src/components/Editor/nodes/BaseNode.tsx:41 | the trimmed text is empty if and only if the text is all whitespace |
| Text.JoinSplit | server/src/index.js:100-105 | splitting on ',' loses nothing: joining the parts gives the query back |

## Left out

- Rendering is not modelled: React and MUI layout, styling, z-index, opacity, the snap grid, the ChromePicker colour dialogs and react-draggable. It is reduced to the flags and values listed above.
- `InteractionNode.DurationText`: does not model that `duration && …` renders a stray `0` for a zero duration; only whether the duration line appears is stated.
- ReactFlow internals are foreign code. `addEdge` is a plain append, `screenToFlowPosition` a parameter, `setCenter` a recorded call, and `onNodesChange`/`onEdgesChange` take the list the canvas computes.
- `fetch`, `FormData`, JSON parsing, multer's disk storage and filenames, and `fs` are outside the model. Their results are parameters (a reply, an uploaded file, a parsed tags field, whether unlinking succeeded). A `tags` field that parses to something other than an array is not modelled.
- `MediaServer.NewRecord`: `Date.now()` and `new Date()` are one parameter `now`, shared by the id and both dates; the code reads the clock three times, so the id and the dates may differ by a millisecond. Timestamps are numbers, not ISO strings.
- Real time is not modelled: a timer is a token that elapses when its `Fire` event arrives, and the 2000 ms delay is a constant only.
- `Text.ToLower`: lowercases ASCII letters only; full Unicode case mapping is not modelled.
- `Text.ParseInt`: ASCII whitespace and decimal digits only; hexadecimal prefixes and `Infinity` are not modelled.
- `Text.Trim`: trims ASCII whitespace only. JavaScript's `trim` also removes Unicode spaces such as U+00A0, so a label made only of those is committed by `BaseNode.BlurOutcome` in the model and reverted by the code.
- `InteractionNode.TimingText`: JavaScript numbers (button positions, timings, canvas positions, durations) are modelled as integers. A fractional `showAtTime` such as 2.5 renders as `2.5s`, which `parseInt` reads as 2, so the parse-back holds only for whole numbers; the fractional coordinates `screenToFlowPosition` produces are not modelled either.
- `InteractionNode.InteractionNodeView.HandleAddButton` and `InteractionNode.InteractionNodeView.HandleDeleteButton`: the code assigns `data.buttons` in place without a state update, inside a memoised component, so the list on screen only changes at some later render. The model updates the node's list at once and does not capture when the screen follows; saving does re-render, through `setEditingButton`.
- Stale React closures and races between an async load and later edits are not modelled. Each run of the load effect is applied whole at the event that triggers it (mount or a new project id, the canvas instance arriving, the play toggle), with the gateway's result as a parameter. Each event sees the current state, except the click closures, which capture their lookup list and the instance as the source does.
- The `MediaStorageAdapter` interface of `src/types/media.ts` is represented by the five `StorageAdapter` functions, not by an interface type.
- The `isSaving` flag of the editor only drives a button's disabled state and is not modelled.
- `ProjectService` is not part of this model; its load result is the `LoadOutcome` parameter and its save is `Editor.Save`'s result.
- `src/components/MediaLibrary/MediaLibrary.tsx`, `MediaCard.tsx`, `Sidebar.tsx` and `App.tsx` are UI without modelled logic.
- `BaseNode.BlurOutcome`: a missing label (`undefined.trim()` throwing) is not modelled; props carry a string label.
- `ScenarioPreview.Preview.CloseClick`: the close button is counted as clickable even while it is faded out.
- `BaseNode.ClickAndTyping`: the edit icon's click is stated under the same condition as the label click, because the icon only renders under that condition.
- `InteractionNode.TimingText`: the error message is the model's own text; what matters is that rendering fails.
- The `onCreateInteraction` prop only reaches `VideoNode.HandleCreateInteraction`; no consumer of it is modelled.
