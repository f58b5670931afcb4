# EDAmame core, modelled in Dafny

EDAmame is a JavaFX desktop EDA tool with symbol, footprint and PCB editors.
Most of it builds and wires the scene graph. This project models the parts
underneath that keep state of their own and follow rules that can be stated,
and proves those rules:

- **Undo/redo histories.** `memento/Recorder.java` keeps two stacks capped at
  10, dropping the oldest entry first (`MementoRecorder`). Undo and redo
  put the editor's node list back to the popped memento's and push the
  memento `restore()` returns for the list they replaced; what a memento
  restores and what it saves are parameters (`stateOf`, `save`).
  `memento/MementoExperimental.java` keeps snapshot stacks trimmed to
  `Editor_UndoStackMaxLen` (`MementoExperimental`). `util/Recorder.java` keeps
  two unbounded stacks (`UtilRecorder`).
- **State hash.** `StateHashUtil.generateStateHash` is the 31-multiplier fold
  with signed 32-bit wrap-around (`StateHash`).
- **Net-list containers.** These are the four `netlist` classes
  (`NetLists`, `NetListNodes`, `ExperimentalNetLists`,
  `ExperimentalNetListNodes`).
- **List search helpers.** These are the first-argmax/argmin loops, the
  lookup by name and the dimension check of `misc/Utils.java` and
  `util/Utils.java` (`ListSearch`).
- **Canvas render model.**
  - `CanvasRenderShape` holds parallel point and line lists and draws them
    after checking them (`CanvasRenderShapes`).
  - `CanvasRenderSystem` and `RenderSystem` hold the bounded shape queue, the
    zoom clamp, the ALT reset and the pan clamp at the theatre edge
    (`CanvasRenderSystems`, `RenderSystems`, `Viewport`).
  - `RenderNode` holds its snap points beside their offsets and builds its
    FXML text (`RenderNodes`).
- **Editor nodes.** `EDANode`'s add/remove against the editor's capped node
  list, its highlight and select flags kept in step with the editor's
  counters, magnetic snapping, and fill colours as hex codes (`Nodes`,
  `Colors`). Snap-point creation and refresh are shared by all kinds
  (`Snaps`).
- **Property panels.** The load/apply rules of every node kind:
  - the shared field rules (`Props`);
  - `EDARectangle`, `EDALine`, `EDAText` and `EDACircle` (`Rectangles`,
    `Lines`, `Texts`, `Circles`);
  - `EDAGroup`, `EDAHole`, `EDAVia` and `EDAPin` (`Groups`, `Holes`, `Vias`,
    `Pins`).
- **Controller.** `EDAmameController`'s global key list, the window-position
  clamp, the log-tab toggle and the basic canvas shapes (`Controller`).

How the model represents the source:

- Java classes whose fields change in place are Dafny classes with those
  fields. Their methods state the new state in `ensures` and name what they
  may change in `modifies`.
- The rules behind them are functions, with lemmas relating the functions:
  - round trips (undo then redo, apply then load);
  - invariants that operations preserve (no duplicate keys, counters equal
    to the number of flagged nodes, parallel lists of equal length);
  - reference definitions.
- Doubles are `real`. Java `int` arithmetic is wrapped to 32 bits explicitly
  where the source relies on it (the state hash, `Color.hashCode`).
- A `throw` in the source is an `Err` result, a `thrown` flag that is true
  exactly when the source throws (with the state the source leaves behind),
  or a `false` flag where the source only stops. A `LinkedList` index out of range is a caller error, so
  it is a precondition.
- A property-panel text field is a `Field`: a number, the `"<mixed>"`
  sentinel, or other text. A panel box that is missing is `None`. Each
  refusal is a `Status` value standing for the status-bar message.
- The following JavaFX and editor services are parameters of the operations
  that use them:
  - `localToParent`, bounds in local or parent coordinates, `PosOnNode`;
  - the grid snap, the pane size, the PCB layer list and its colours;
  - the editor's limits;
  - preferences and the screen size.

The source files come from revisions that do not fully agree with each other,
and the model follows each file as written:

- `CanvasRenderSystem` uses `posReal` and `posMousePress` on shapes that
  `CanvasRenderShape` does not declare. The model gives the shape these two
  fields.
- `EDAText.ToGerberStr` calls a two-argument `NodeToGerberStr` that `EDANode`
  does not define.

## Model

| member | source | states |
|---|---|---|
| MementoRecorder.Trimmed | src/main/java/com/cyte/edamame/memento/Recorder.java:96-98 | the eviction loop leaves fewer than 10 entries, the newest ones in their old order, and leaves a shorter stack alone |
| MementoRecorder.PushCappedFacts | src/main/java/com/cyte/edamame/memento/Recorder.java:45-48 | the guarded push keeps a stack of at most 10 within 10, puts the memento on top and drops only the bottom entry, and only when the stack was full |
| MementoRecorder.UndoStepFacts | src/main/java/com/cyte/edamame/memento/Recorder.java:41-54 | undo keeps both stacks within 10; on an empty history it changes nothing; otherwise history loses exactly its top and the future's new top is the memento `restore()` returns for the state it replaced |
| MementoRecorder.RedoStepFacts | src/main/java/com/cyte/edamame/memento/Recorder.java:60-73 | the mirror image for redo: future loses its top, history gains the memento of the replaced state on top, both stay within 10 |
| MementoRecorder.RecordStepFacts | src/main/java/com/cyte/edamame/memento/Recorder.java:95-101 | after `record` the history holds at most 10 entries with the new memento on top and the newest old entries below it in order; the future is empty |
| MementoRecorder.RedoUndoRoundTrip | src/main/java/com/cyte/edamame/memento/Recorder.java:41-73 | redo right after undo gives back both stacks and the editor's node list, when the future had room and a memento restores exactly the state it was saved from |
| MementoRecorder.UndoFullFutureLosesOldest | src/main/java/com/cyte/edamame/memento/Recorder.java:45-48 | with a full future an undo evicts the oldest future entry, and a redo does not bring it back, whatever the mementos restore |
| MementoRecorder.Recorder.constructor | src/main/java/com/cyte/edamame/memento/Recorder.java:30-35 | both stacks start empty, bound to the given editor |
| MementoRecorder.Recorder.Undo | src/main/java/com/cyte/edamame/memento/Recorder.java:41-54 | the stacks and the editor's node list become `UndoSession` of the old ones: the popped memento's node list is put back and a memento of the replaced list goes onto the future, both stacks within 10; a successful undo zeroes both editor counters; an empty history changes nothing |
| MementoRecorder.Recorder.Redo | src/main/java/com/cyte/edamame/memento/Recorder.java:60-73 | the mirror image through `RedoSession`: the popped future memento's node list is put back and a memento of the replaced list goes onto the history; a successful redo zeroes both editor counters; an empty future changes nothing |
| MementoRecorder.Recorder.Update | src/main/java/com/cyte/edamame/memento/Recorder.java:79-88 | records (and reports `stateRecorded`) exactly when the state changed; otherwise both stacks are unchanged |
| MementoRecorder.Recorder.Record | src/main/java/com/cyte/edamame/memento/Recorder.java:95-101 | the stacks become `RecordStep` of the old ones: trimmed history plus the memento, empty future |
| MementoRecorder.Recorder.ResetCounters | src/main/java/com/cyte/edamame/memento/Recorder.java:106-109 | both editor counters become 0 and the node list is untouched |
| UtilRecorder.StepsKeepTotal | src/main/java/com/cyte/edamame/util/Recorder.java:16-22 | undo and redo move one memento between the stacks: the total count is kept and the moved memento's `restore()` lands on top |
| UtilRecorder.RedoUndoRoundTrip | src/main/java/com/cyte/edamame/util/Recorder.java:16-22 | redo right after undo gives back both stacks whenever restoring twice returns the popped memento |
| UtilRecorder.UndoRedoRoundTrip | src/main/java/com/cyte/edamame/util/Recorder.java:16-22 | undo right after redo gives back both stacks, symmetrically |
| UtilRecorder.Recorder.constructor | src/main/java/com/cyte/edamame/util/Recorder.java:13-14 | both stacks start empty |
| UtilRecorder.Recorder.Undo | src/main/java/com/cyte/edamame/util/Recorder.java:16-18 | an empty history throws (`EmptyStackException`) before anything changes and both stacks stay as they were; otherwise the stacks become `UndoStep` of the old ones |
| UtilRecorder.Recorder.Redo | src/main/java/com/cyte/edamame/util/Recorder.java:20-22 | an empty future throws before anything changes and both stacks stay as they were; otherwise the stacks become `RedoStep` of the old ones |
| UtilRecorder.Recorder.Record | src/main/java/com/cyte/edamame/util/Recorder.java:24-26 | pushes onto the history with no bound and leaves the future unchanged |
| MementoExperimental.Newest | src/main/java/com/cyte/edamame/memento/MementoExperimental.java:94-95 | the trimming loop leaves at most the limit's number of entries, the newest ones in order, and leaves a short stack alone |
| MementoExperimental.UndoStepFacts | src/main/java/com/cyte/edamame/memento/MementoExperimental.java:37-58 | an empty undo stack is left alone; otherwise exactly its top moves onto the top of the redo stack and nothing else changes |
| MementoExperimental.RedoAfterUndo | src/main/java/com/cyte/edamame/memento/MementoExperimental.java:40-70 | redo right after a successful undo gives back both stacks |
| MementoExperimental.UndoAfterRedo | src/main/java/com/cyte/edamame/memento/MementoExperimental.java:40-70 | undo right after a successful redo gives back both stacks |
| MementoExperimental.Memento.constructor | src/main/java/com/cyte/edamame/memento/MementoExperimental.java:27-32 | both stacks start empty, bound to the given editor |
| MementoExperimental.Memento.NodesUndo | src/main/java/com/cyte/edamame/memento/MementoExperimental.java:35-59 | the stacks take `UndoStep`; on success the editor's nodes become the popped snapshot and both counters are 0; on an empty stack the editor is untouched |
| MementoExperimental.Memento.NodesRedo | src/main/java/com/cyte/edamame/memento/MementoExperimental.java:62-86 | the mirror image: the stacks take `RedoStep` and the editor shows the snapshot moved |
| MementoExperimental.Memento.Restore | src/main/java/com/cyte/edamame/memento/MementoExperimental.java:46-51 | clearing and re-adding leaves exactly the snapshot as the editor's nodes, with both counters 0 |
| MementoExperimental.Memento.NodeHistoryUpdate | src/main/java/com/cyte/edamame/memento/MementoExperimental.java:89-98 | the undo stack becomes the newest `maxLen` of old undo plus the clone, with the clone on top when the limit is positive; the redo stack is empty |
| StateHash.Wrap32 | src/main/java/com/cyte/edamame/memento/StateHashUtil.java:34 | Java `int` overflow: the result is a 32-bit signed value congruent to the input modulo 2^32 |
| StateHash.Wrap32Congruent | src/main/java/com/cyte/edamame/memento/StateHashUtil.java:34 | values congruent modulo 2^32 wrap to the same `int` |
| StateHash.Hashes | src/main/java/com/cyte/edamame/memento/StateHashUtil.java:33-34 | one contribution per element in iteration order: its hash code, or 0 for a null element |
| StateHash.StepCongruent | src/main/java/com/cyte/edamame/memento/StateHashUtil.java:34 | one fold step `31 * hash + h` respects congruence modulo 2^32 |
| StateHash.FoldIsWrappedPoly | src/main/java/com/cyte/edamame/memento/StateHashUtil.java:31-37 | wrapping after every step equals computing the polynomial `31^n + sum h_i * 31^(n-1-i)` exactly and wrapping once, so the hash depends only on the element hashes in order |
| StateHash.FoldAppend | src/main/java/com/cyte/edamame/memento/StateHashUtil.java:33-35 | appending an element gives `wrap(31 * hash(s) + h(x))` |
| StateHash.GenerateStateHash | src/main/java/com/cyte/edamame/memento/StateHashUtil.java:24-38 | a null collection hashes to 0, an empty one to 1, any other to the wrapped fold (equivalently the wrapped polynomial) of its element hashes |
| Common.InsertAt | src/main/java/com/cyte/edamame/netlist/NetList.java:26-29 | `list.add(idx, x)`: one longer, x at idx, earlier elements in place and later ones shifted up by one |
| Common.RemoveAt | src/main/java/com/cyte/edamame/netlist/NetList.java:31-34 | `list.remove(idx)`: one shorter, earlier elements in place and later ones shifted down by one |
| Common.RemoveAfterInsert | src/main/java/com/cyte/edamame/netlist/NetList.java:26-34 | removing at the index just inserted at gives back the list |
| Common.InsertAfterRemove | src/main/java/com/cyte/edamame/netlist/NetList.java:26-34 | re-inserting the removed element where it was gives back the list |
| Common.IndexOf | src/main/java/com/cyte/edamame/netlist/NetListExperimental.java:63-70 | the first index holding the value, or -1 exactly when there is none |
| Common.RemoveFirst | src/main/java/com/cyte/edamame/render/CanvasRenderSystem.java:213-216 | `list.remove(Object)`: unchanged when the element is absent, otherwise the removal at its first index |
| Common.RemoveFirstAtFirstIndex | src/main/java/com/cyte/edamame/render/CanvasRenderSystem.java:213-216 | removing by value equals removing at the first index holding that value |
| NetLists.NetList.constructor | src/main/java/com/cyte/edamame/netlist/NetList.java:16-19 | a new list is empty |
| NetLists.NetList.Append | src/main/java/com/cyte/edamame/netlist/NetList.java:21-24 | the element goes last and every earlier element keeps its index |
| NetLists.NetList.Insert | src/main/java/com/cyte/edamame/netlist/NetList.java:26-44 | the list becomes `InsertAt` of the old one, so `Get(idx)` is the new element and later ones shift |
| NetLists.NetList.Remove | src/main/java/com/cyte/edamame/netlist/NetList.java:31-34 | returns the element that was at idx and the list becomes `RemoveAt` of the old one |
| NetLists.NetList.Clear | src/main/java/com/cyte/edamame/netlist/NetList.java:36-39 | the list is empty |
| NetListNodes.NetListNode.constructor | src/main/java/com/cyte/edamame/netlist/NetListNode.java:12-15 | an object fresh from `new` holds a null value and null connections, since the class declares no constructor |
| NetListNodes.NetListNode.NetListNode | src/main/java/com/cyte/edamame/netlist/NetListNode.java:17-21 | the `void` initialiser stores the value and an empty connection list |
| NetListNodes.NetListNode.Set | src/main/java/com/cyte/edamame/netlist/NetListNode.java:23-31 | `Get` returns the value just set and the connections are unchanged |
| NetListNodes.NetListNode.ConnAppend | src/main/java/com/cyte/edamame/netlist/NetListNode.java:33-36 | the connection goes last; the value is unchanged |
| NetListNodes.NetListNode.ConnInsert | src/main/java/com/cyte/edamame/netlist/NetListNode.java:38-56 | the connections become `InsertAt` of the old ones and `ConnGet(idx)` is the new one |
| NetListNodes.NetListNode.ConnRemove | src/main/java/com/cyte/edamame/netlist/NetListNode.java:43-46 | returns the connection that was at idx and the list becomes `RemoveAt` of the old one |
| NetListNodes.NetListNode.ConnClear | src/main/java/com/cyte/edamame/netlist/NetListNode.java:48-51 | the connection list is empty and the value is unchanged |
| ExperimentalNetListNodes.NetListExperimentalNode.constructor | src/main/java/com/cyte/edamame/netlist/NetListExperimentalNode.java:17-21 | stores the value with an empty connection list |
| ExperimentalNetListNodes.NetListExperimentalNode.Copy | src/main/java/com/cyte/edamame/netlist/NetListExperimentalNode.java:23-30 | the copy has the same value and all connections in the same order, in a fresh list |
| ExperimentalNetListNodes.NetListExperimentalNode.SetValue | src/main/java/com/cyte/edamame/netlist/NetListExperimentalNode.java:32-40 | `GetValue` then returns the value set; the connections are unchanged |
| ExperimentalNetListNodes.NetListExperimentalNode.ConnAppend | src/main/java/com/cyte/edamame/netlist/NetListExperimentalNode.java:42-75 | the count rises by one with the new connection last; the value is unchanged |
| ExperimentalNetListNodes.NetListExperimentalNode.ConnInsert | src/main/java/com/cyte/edamame/netlist/NetListExperimentalNode.java:47-50 | the connections become `InsertAt` of the old ones, so later connections shift |
| ExperimentalNetListNodes.NetListExperimentalNode.ConnRemove | src/main/java/com/cyte/edamame/netlist/NetListExperimentalNode.java:52-55 | returns the connection at idx and closes the gap |
| ExperimentalNetListNodes.NetListExperimentalNode.ConnClear | src/main/java/com/cyte/edamame/netlist/NetListExperimentalNode.java:57-60 | the connection list is empty; the value is unchanged |
| ExperimentalNetListNodes.NetListExperimentalNode.ConnSet | src/main/java/com/cyte/edamame/netlist/NetListExperimentalNode.java:62-65 | only the connection at idx changes |
| ExperimentalNetListNodes.NetListExperimentalNode.ToString | src/main/java/com/cyte/edamame/netlist/NetListExperimentalNode.java:77-85 | succeeds exactly when the value is a `String`, returning it; otherwise fails with the stringify error |
| ExperimentalNetLists.ValuesOf | src/main/java/com/cyte/edamame/netlist/NetListExperimental.java:58-61 | the node values, one per node in list order |
| ExperimentalNetLists.Lines | src/main/java/com/cyte/edamame/netlist/NetListExperimental.java:85-93 | the lines the outer loop writes; a failure is always the stringify error |
| ExperimentalNetLists.LinesAppend | src/main/java/com/cyte/edamame/netlist/NetListExperimental.java:85-93 | one more node whose value is a `String` adds exactly its line: name, " --> ", each connection with ", ", newline |
| ExperimentalNetLists.LinesOkIffAllStrings | src/main/java/com/cyte/edamame/netlist/NetListExperimental.java:85-87 | the rendering succeeds exactly when every node's value is a `String` |
| ExperimentalNetLists.AppendLine | src/main/java/com/cyte/edamame/netlist/NetListExperimental.java:87-92 | the inner loop appends exactly one node's line to the string |
| ExperimentalNetLists.SetOnCopy | src/main/java/com/cyte/edamame/netlist/NetListExperimental.java:23-56 | `Set` on a copy changes the copy's value at idx and leaves the original's nodes and values as they were |
| ExperimentalNetLists.NetListExperimental.constructor | src/main/java/com/cyte/edamame/netlist/NetListExperimental.java:18-75 | a new list has no nodes |
| ExperimentalNetLists.NetListExperimental.Copy | src/main/java/com/cyte/edamame/netlist/NetListExperimental.java:23-29 | the same count of nodes, each a fresh, distinct copy with the same value and connections |
| ExperimentalNetLists.NetListExperimental.Append | src/main/java/com/cyte/edamame/netlist/NetListExperimental.java:31-34 | the node goes last and the earlier nodes are unchanged |
| ExperimentalNetLists.NetListExperimental.Insert | src/main/java/com/cyte/edamame/netlist/NetListExperimental.java:36-39 | the node lands at idx and later nodes shift up by one |
| ExperimentalNetLists.NetListExperimental.Remove | src/main/java/com/cyte/edamame/netlist/NetListExperimental.java:41-44 | returns the node at idx; the others keep their order |
| ExperimentalNetLists.NetListExperimental.Clear | src/main/java/com/cyte/edamame/netlist/NetListExperimental.java:46-49 | no nodes remain |
| ExperimentalNetLists.NetListExperimental.Set | src/main/java/com/cyte/edamame/netlist/NetListExperimental.java:51-56 | the node at idx takes the value, every index holding that same object sees it, other nodes and all connections are unchanged |
| ExperimentalNetLists.NetListExperimental.Find | src/main/java/com/cyte/edamame/netlist/NetListExperimental.java:63-70 | the smallest index whose value equals the one searched for, or -1 when there is none |
| ExperimentalNetLists.NetListExperimental.ToString | src/main/java/com/cyte/edamame/netlist/NetListExperimental.java:77-98 | "[\n", one line per node, "]", or the stringify error of the first node whose value is not a `String` |
| ListSearch.FindCanvasShape | src/main/java/com/cyte/edamame/misc/Utils.java:34-41 | the first index whose node has the name, or -1 exactly when no node has it |
| ListSearch.FindShapeName | src/main/java/com/cyte/edamame/util/Utils.java:22-29 | the first index of the name among the shapes' names, or -1 |
| ListSearch.ListFindMaxIdx | src/main/java/com/cyte/edamame/misc/Utils.java:43-58 | -1 exactly when no value exceeds `-Double.MAX_VALUE`; otherwise the first index of a largest value |
| ListSearch.ListFindMinIdx | src/main/java/com/cyte/edamame/misc/Utils.java:60-75 | -1 exactly when no value is below `Double.MAX_VALUE`; otherwise the first index of a smallest value |
| ListSearch.ListFindMax | src/main/java/com/cyte/edamame/misc/Utils.java:77-92 | fails (`get(-1)`) exactly when no value beats the sentinel; otherwise a value of the list that no element exceeds |
| ListSearch.ListFindMin | src/main/java/com/cyte/edamame/misc/Utils.java:94-109 | fails exactly when no value is below the sentinel; otherwise a value of the list no element is below |
| ListSearch.MaxOfLowestDoubleIsMissed | src/main/java/com/cyte/edamame/misc/Utils.java:46-50 | the strict comparison against the sentinel reports no maximum for the list `[-Double.MAX_VALUE]` |
| ListSearch.SquaredSumSelf | src/main/java/com/cyte/edamame/misc/Utils.java:26-29 | a point is at squared distance 0 from itself |
| ListSearch.SquaredSumSymmetric | src/main/java/com/cyte/edamame/misc/Utils.java:26-29 | the squared distance from a to b equals that from b to a |
| ListSearch.GetDistSquared | src/main/java/com/cyte/edamame/misc/Utils.java:21-32 | the dimension error exactly when the lists differ in length, otherwise the sum of squared differences that the square root is taken of |
| Colors.ToInt32 | src/main/java/com/cyte/edamame/node/EDANode.java:511 | the Java int reading of an unsigned 32-bit value: in int range and congruent to it modulo 2^32 |
| Colors.ToUint32 | src/main/java/com/cyte/edamame/node/EDANode.java:511 | the unsigned reading `Integer.toHexString` takes: in [0, 2^32) and congruent to the int |
| Colors.Packed | src/main/java/com/cyte/edamame/node/EDANode.java:511 | the four channels packed into one value below 2^32 |
| Colors.HashCode | src/main/java/com/cyte/edamame/node/EDARectangle.java:438 | `Color.hashCode()` is a Java int whose unsigned reading is the packed channels |
| Colors.HashZeroIffTransparent | src/main/java/com/cyte/edamame/node/EDARectangle.java:438 | the hash is zero exactly for TRANSPARENT, so the pickers' two tests accept the same colours |
| Colors.PackedInjective | src/main/java/com/cyte/edamame/node/EDANode.java:511 | different colours pack to different values |
| Colors.HexDigitsFacts | src/main/java/com/cyte/edamame/node/EDANode.java:511 | the digits of n below 16^k number at most k, are hexadecimal and read back as n |
| Colors.ToHexStringFacts | src/main/java/com/cyte/edamame/node/EDANode.java:511 | `Integer.toHexString` gives one to eight hexadecimal digits that read back as the unsigned value |
| Colors.LeadingZerosKeepValue | src/main/java/com/cyte/edamame/node/EDANode.java:1094-1095 | prepended zeros change no hexadecimal value |
| Colors.PadTo8Facts | src/main/java/com/cyte/edamame/node/EDANode.java:1090-1102 | padding gives exactly eight characters for a text of at most eight, keeps the text as suffix behind zeros, leaves longer text alone and keeps the value |
| Colors.HexCodeFacts | src/main/java/com/cyte/edamame/node/EDANode.java:511 | the written fill code is eight hexadecimal digits that read back as the packed channels |
| Colors.HexCodeInjective | src/main/java/com/cyte/edamame/node/EDANode.java:511 | two colours with the same written fill code are the same colour |
| Colors.LeftPadZeros | src/main/java/com/cyte/edamame/node/EDANode.java:1092-1096 | the padding loop yields the zero-padded text |
| Colors.Hex2Facts | src/main/java/com/cyte/edamame/node/EDANode.java:515 | a channel's two digits are hexadecimal and read back as the channel |
| Colors.HexValueAppend | src/main/java/com/cyte/edamame/node/EDANode.java:515 | the value of a concatenation is the left part shifted by the right's length plus the right part |
| Colors.ColorToStringIsHexCode | src/main/java/com/cyte/edamame/node/EDANode.java:511-515 | the stroke's `toString` with "0x" dropped equals the fill's padded hash code, so both write the same eight digits |
| Colors.ChannelDigitsFacts | src/main/java/com/cyte/edamame/node/EDANode.java:515 | the channel digits of `toString` are eight hexadecimal digits whose value is the packed channels |
| Colors.HexValueInjective8 | src/main/java/com/cyte/edamame/node/EDANode.java:515 | two hexadecimal texts of equal length and equal value are equal |
| Props.ApplyNumber | src/main/java/com/cyte/edamame/node/EDARectangle.java:354-377 | a number is stored through the conversion (snap, then half the pane added); the sentinel and a missing box keep the value silently; other text keeps it and is reported as not numeric |
| Props.ApplyRanged | src/main/java/com/cyte/edamame/node/EDARectangle.java:462-476 | the value changes only for a number inside the limits, and then to the number times the scale; out-of-limits and non-numeric text keep it and are reported; the sentinel is silent |
| Props.RangedRoundTrip | src/main/java/com/cyte/edamame/node/EDARectangle.java:410-469 | loading after a successful apply divides by the scale the apply multiplied by and gives back the entered number |
| Props.RangedReapplyIdempotent | src/main/java/com/cyte/edamame/node/EDARectangle.java:410-469 | applying the value a load showed leaves the property unchanged and reports nothing |
| Props.PositionRoundTrip | src/main/java/com/cyte/edamame/node/EDARectangle.java:303-361 | a typed position comes back from the next load as its grid-snapped value |
| Props.ApplyColor | src/main/java/com/cyte/edamame/node/EDARectangle.java:436-446 | a missing box or a null colour keeps the current colour without a message |
| Props.ColorAcceptsExactlyOpaque | src/main/java/com/cyte/edamame/node/EDARectangle.java:436-446 | the picker applies every colour but TRANSPARENT; TRANSPARENT keeps the old colour and is reported |
| Props.ApplyName | src/main/java/com/cyte/edamame/node/EDARectangle.java:326-335 | the name changes only to text that is neither empty nor the sentinel, and then to that text; exactly the empty text is reported |
| Props.ApplyNameAnyText | src/main/java/com/cyte/edamame/node/EDACircle.java:321-330 | circles and groups take any non-empty text; the empty text keeps the name and is reported; a missing box changes nothing |
| Props.NameRulesDifferOnlyOnSentinel | src/main/java/com/cyte/edamame/node/EDACircle.java:321-330 | the circle rule and the rectangle rule differ exactly when "<mixed>" is entered for a name that is not already "<mixed>" |
| Props.ApplyText | src/main/java/com/cyte/edamame/node/EDAText.java:463-473 | the content changes only to non-empty text other than the sentinel, and then to that text; exactly the empty text is reported |
| Props.NameAndTextAgree | src/main/java/com/cyte/edamame/node/EDAText.java:463-473 | the name rule and the text rule accept and refuse the same entries with the same messages |
| Props.ChooseLayer | src/main/java/com/cyte/edamame/node/EDARectangle.java:589-604 | a layer is chosen exactly when the entry is one of the PCB layers, and it is that entry; an unknown entry other than the sentinel is reported |
| Props.Recolored | src/main/java/com/cyte/edamame/node/EDARectangle.java:595-599 | a layer change keeps a transparent fill transparent and gives any other fill the layer colour |
| Props.FillChecked | src/main/java/com/cyte/edamame/node/EDARectangle.java:650-653 | the fill is transparent when unchecked and, for an opaque layer colour, opaque exactly when checked |
| Props.RotateStep | src/main/java/com/cyte/edamame/node/EDACircle.java:110-121 | a scroll turns by ten degrees, downwards exactly when the scroll is negative |
| Props.RotateStepsCancel | src/main/java/com/cyte/edamame/node/EDACircle.java:110-121 | one scroll up and one scroll down bring a selected node back to its angle |
| CanvasRenderShapes.ExtentCoversPoints | src/main/java/com/cyte/edamame/render/CanvasRenderShape.java:188-194 | every coordinate lies between the first minimum and the first maximum, so the extent is at least their distance and not negative |
| CanvasRenderShapes.CanvasRenderShape.constructor | src/main/java/com/cyte/edamame/render/CanvasRenderShape.java:39-57 | a new shape has no points or lines, global opacity 1, zoom scaling on, not permanent, zero bounding box and draw position |
| CanvasRenderShapes.CanvasRenderShape.Copy | src/main/java/com/cyte/edamame/render/CanvasRenderShape.java:59-83 | the copy holds the other shape's points and lines in order, its name, opacity, flags, bounding box and draw position |
| CanvasRenderShapes.CanvasRenderShape.CopyPoints | src/main/java/com/cyte/edamame/render/CanvasRenderShape.java:73-74 | the point lists grow by the other shape's points in order; the line lists are unchanged |
| CanvasRenderShapes.CanvasRenderShape.CopyLines | src/main/java/com/cyte/edamame/render/CanvasRenderShape.java:75-76 | the line lists grow by the other shape's lines in order; the point lists are unchanged |
| CanvasRenderShapes.CanvasRenderShape.AddPoint | src/main/java/com/cyte/edamame/render/CanvasRenderShape.java:210-216 | one entry appended to each of the four point lists, keeping them of equal length |
| CanvasRenderShapes.CanvasRenderShape.AddLine | src/main/java/com/cyte/edamame/render/CanvasRenderShape.java:218-224 | one entry appended to each of the four line lists, keeping them of equal length |
| CanvasRenderShapes.CanvasRenderShape.DrawOps | src/main/java/com/cyte/edamame/render/CanvasRenderShape.java:92-142 | drawing succeeds exactly when the list lengths agree, the opacities cover the elements and every line joins existing points; each failure gives its own error, the first bad line deciding start or end; on success one oval per point then one stroke per line, with the global opacity overriding when below 1 |
| CanvasRenderShapes.CanvasRenderShape.CalculateBoundingBox | src/main/java/com/cyte/edamame/render/CanvasRenderShape.java:173-195 | succeeds exactly when both axes have a maximum and a minimum beating the sentinels; each stored extent is measured between the first maximum and first minimum; the x extent is stored even when the y search fails; nothing else changes |
| CanvasRenderShapes.CanvasRenderShape.DrawShape | src/main/java/com/cyte/edamame/render/CanvasRenderShape.java:85-171 | the drawing operations and the new bounding box when every check and all four searches succeed, the count error first otherwise; only the bounding box changes |
| CanvasRenderShapes.CanvasRenderShape.DrawSucceedsMeans | src/main/java/com/cyte/edamame/render/CanvasRenderShape.java:85-171 | the lists `DrawShape` accepts are exactly those whose counts agree, whose opacity lists cover them, whose lines join existing points and whose coordinates have a maximum and a minimum on both axes |
| CanvasRenderSystems.FilterKeeps | src/main/java/com/cyte/edamame/render/CanvasRenderSystem.java:122-127 | filtering keeps exactly the elements in the kept set |
| CanvasRenderSystems.FilterIdempotent | src/main/java/com/cyte/edamame/render/CanvasRenderSystem.java:122-127 | filtering twice equals filtering once |
| CanvasRenderSystems.FilterAllKept | src/main/java/com/cyte/edamame/render/CanvasRenderSystem.java:122-127 | a queue whose elements are all kept is unchanged |
| CanvasRenderSystems.FilterStep | src/main/java/com/cyte/edamame/render/CanvasRenderSystem.java:122-129 | one loop step: keeping the shape advances the index, dropping it removes its first occurrence, which is at the index, and leaves the index in place |
| CanvasRenderSystems.Permanent | src/main/java/com/cyte/edamame/render/CanvasRenderSystem.java:122 | the set of queued shapes marked permanent, and no other |
| CanvasRenderSystems.PermanentsKeeps | src/main/java/com/cyte/edamame/render/CanvasRenderSystem.java:122-127 | a render pass keeps exactly the queued permanent shapes |
| CanvasRenderSystems.RenderTwiceKeepsQueue | src/main/java/com/cyte/edamame/render/CanvasRenderSystem.java:81-131 | a second render pass right after the first removes nothing more |
| CanvasRenderSystems.AddThenRemoveShape | src/main/java/com/cyte/edamame/render/CanvasRenderSystem.java:196-217 | adding a shape at an index and removing it by value restores the queue when it was not queued before that index |
| CanvasRenderSystems.RenderPass | src/main/java/com/cyte/edamame/render/CanvasRenderSystem.java:85-130 | the remove-and-step-back loop stops at the first shape `DrawShape` throws on and reports the throw; the shapes before it are filtered to the permanent ones in order and it and all later ones stay queued; every shape up to it with a real position gets its draw position at the zoom and a shape without one keeps its draw position |
| CanvasRenderSystems.Unplaced | src/main/java/com/cyte/edamame/render/CanvasRenderSystem.java:289-296 | the index where the ALT recentring throws: every shape before it has a real position and, when it is short of the queue, the shape at it has none |
| CanvasRenderSystems.Unpressed | src/main/java/com/cyte/edamame/render/CanvasRenderSystem.java:385-396 | the index where moving the shapes throws: every positioned shape before it has a press position and, when it is short of the queue, the shape at it is positioned without one |
| CanvasRenderSystems.Drawn | src/main/java/com/cyte/edamame/render/CanvasRenderSystem.java:87-108 | the number of queue entries drawn before the first throw: every shape before it draws and, when it is short of the queue, the shape at it does not |
| CanvasRenderSystems.RenderStep | src/main/java/com/cyte/edamame/render/CanvasRenderSystem.java:89-129 | one turn of the loop: the shape's draw position is set from its real position and nothing else changes; it reports whether `DrawShape` succeeds and, when it does, the list and index move on as the filtered walk says |
| CanvasRenderSystems.Advance | src/main/java/com/cyte/edamame/render/CanvasRenderSystem.java:122-129 | after a drawn shape a permanent one is stepped over and any other is removed, which leaves the list as the queue filtered one entry further |
| CanvasRenderSystems.CanvasRenderSystem.constructor | src/main/java/com/cyte/edamame/render/CanvasRenderSystem.java:60-73 | an empty queue, centre at the origin, zoom 1, no drag in progress |
| CanvasRenderSystems.CanvasRenderSystem.Render | src/main/java/com/cyte/edamame/render/CanvasRenderSystem.java:81-131 | the pass throws exactly when some queued shape cannot be drawn; the queue becomes the permanent shapes before the first such shape followed by that shape and everything after it (all permanent shapes when none throws); every positioned shape up to it is placed at `CalculatePosDraw` of its real position and unpositioned shapes keep their draw position |
| CanvasRenderSystems.CanvasRenderSystem.CalculatePosDraw | src/main/java/com/cyte/edamame/render/CanvasRenderSystem.java:186-194 | the draw position is `Viewport.PosDraw` at the system's current zoom, so the inverse proved there applies |
| CanvasRenderSystems.CanvasRenderSystem.AddShape | src/main/java/com/cyte/edamame/render/CanvasRenderSystem.java:196-211 | a full queue is unchanged; otherwise a negative index appends and any other inserts there; the queue never grows past the maximum |
| CanvasRenderSystems.CanvasRenderSystem.RemoveShape | src/main/java/com/cyte/edamame/render/CanvasRenderSystem.java:213-217 | removes the first occurrence of the shape at the index, one shape fewer; in a queue without repeats that is the shape at the index |
| CanvasRenderSystems.CanvasRenderSystem.MousePressed | src/main/java/com/cyte/edamame/render/CanvasRenderSystem.java:254-278 | the next drag starts afresh |
| CanvasRenderSystems.CanvasRenderSystem.MouseReleased | src/main/java/com/cyte/edamame/render/CanvasRenderSystem.java:280-317 | with the right button and ALT the recentring throws exactly when some queued shape has no real position; then the shapes before the first such shape have been moved by minus the centre, the rest are untouched, and the centre and zoom are unchanged; otherwise every shape's position relative to the view centre is kept while the centre returns to the origin and the zoom to 1; without both, nothing changes |
| CanvasRenderSystems.CanvasRenderSystem.MouseDragged | src/main/java/com/cyte/edamame/render/CanvasRenderSystem.java:319-407 | a new drag records the mouse, the centre and each shape's position; the offset is the scaled mouse offset, and with the right button it is clamped at the theatre edge and the centre and every positioned shape keep their offsets from the press; with the right button in a drag under way it throws exactly when a positioned shape has no press position, after moving the centre and the shapes before the first such shape, leaving the later ones untouched |
| CanvasRenderSystems.CanvasRenderSystem.Pan | src/main/java/com/cyte/edamame/render/CanvasRenderSystem.java:355-396 | the offset and the edge flag are `Viewport.PanClamp` of the mouse offset, the centre is the recorded centre plus the offset; it throws exactly when a positioned shape has no press position, and every positioned shape before the first such one (all of them when none throws) keeps its offset from the press while the later ones are untouched |
| CanvasRenderSystems.CanvasRenderSystem.RecordPressPositions | src/main/java/com/cyte/edamame/render/CanvasRenderSystem.java:333-344 | every positioned shape remembers its real position; the others keep their press position |
| CanvasRenderSystems.CanvasRenderSystem.MoveFromPress | src/main/java/com/cyte/edamame/render/CanvasRenderSystem.java:385-396 | throws exactly when a positioned shape has no press position; every positioned shape before the first such one (all of them when none throws) moves to its press position plus the offset, the later ones are untouched; which shapes are positioned does not change |
| CanvasRenderSystems.CanvasRenderSystem.Scroll | src/main/java/com/cyte/edamame/render/CanvasRenderSystem.java:409-455 | while rotating the zoom is unchanged; otherwise it takes one zoom step clamped at the limits |
| Viewport.PosDrawFacts | src/main/java/com/cyte/edamame/render/CanvasRenderSystem.java:186-194 | the real origin is drawn in the middle of the canvas, and a real offset is drawn scaled by the zoom |
| Viewport.PosDraw | src/main/java/com/cyte/edamame/render/CanvasRenderSystem.java:186-194 | at a non-zero zoom the real position is recovered from the drawn one by taking off half the canvas and dividing by the zoom |
| Viewport.ZoomStep | src/main/java/com/cyte/edamame/render/CanvasRenderSystem.java:420-443 | a negative scroll divides by the factor and never goes below the low limit, landing on it exactly when the step would reach it; any other scroll multiplies and never goes above the high limit, landing on it exactly when the step would reach it |
| Viewport.ZoomStepStaysWithin | src/main/java/com/cyte/edamame/render/CanvasRenderSystem.java:420-443 | a zoom inside the limits stays inside them after a step |
| Viewport.ZoomInThenOut | src/main/java/com/cyte/edamame/render/CanvasRenderSystem.java:420-443 | one unclamped step in and one out give back the zoom |
| Viewport.PanAxis | src/main/java/com/cyte/edamame/render/CanvasRenderSystem.java:359-380 | without an edge case the offset is unchanged; a reached edge puts the first centre plus the offset exactly on that edge; an outward push from at or past an edge always reaches it |
| Viewport.PanClamp | src/main/java/com/cyte/edamame/render/CanvasRenderSystem.java:359-380 | a pan that reaches no edge keeps the mouse offset; one that reaches an edge puts the first centre plus the new offset on an edge of one axis |
| Viewport.DragDiff | src/main/java/com/cyte/edamame/render/CanvasRenderSystem.java:347-348 | the drag offset times the zoom is the mouse offset times the drag factor, on each axis |
| RenderSystems.PanLandsOnEdge | src/main/java/com/cyte/edamame/render/RenderSystem.java:332-426 | a drag pushing outward from an edge the centre is at or past puts the centre exactly on that edge, on each axis, and marks the edge as reached |
| RenderSystems.RenderSystem.constructor | src/main/java/com/cyte/edamame/render/RenderSystem.java:53-79 | centre at the origin, zoom 1, no drag in progress |
| RenderSystems.RenderSystem.Render | src/main/java/com/cyte/edamame/render/RenderSystem.java:83-135 | the commented-out render changes neither the centre nor the zoom |
| RenderSystems.RenderSystem.CalculatePosDraw | src/main/java/com/cyte/edamame/render/RenderSystem.java:190-198 | the draw position is `Viewport.PosDraw` at the system's current zoom, so the inverse proved there applies |
| RenderSystems.RenderSystem.MousePressed | src/main/java/com/cyte/edamame/render/RenderSystem.java:262-286 | the next drag starts afresh |
| RenderSystems.RenderSystem.MouseReleased | src/main/java/com/cyte/edamame/render/RenderSystem.java:289-329 | with the right button and ALT the centre returns to the origin and the zoom to 1; otherwise both are unchanged |
| RenderSystems.RenderSystem.MouseDragged | src/main/java/com/cyte/edamame/render/RenderSystem.java:332-426 | a new drag records the mouse and the centre; the offset is the scaled mouse offset, and with the right button it is clamped at the theatre edge and the centre and the canvas layout move to the recorded centre plus it |
| RenderSystems.RenderSystem.Scroll | src/main/java/com/cyte/edamame/render/RenderSystem.java:429-475 | while rotating the zoom is unchanged; otherwise it takes one zoom step clamped at the limits |
| RenderNodes.SelectedRect | src/main/java/com/cyte/edamame/render/RenderNode.java:153-179 | the selection rectangle has the local bounds' size and the node's rotation; it sits at the node's translate for rectangles and labels and is centred on it for every other class |
| RenderNodes.HighlightedRect | src/main/java/com/cyte/edamame/render/RenderNode.java:142-151 | the highlight rectangle spans exactly the bounds in the parent and keeps its rotation |
| RenderNodes.Emitted | src/main/java/com/cyte/edamame/render/RenderNode.java:275-278 | the polygon writer emits every coordinate but the last |
| RenderNodes.FxmlString | src/main/java/com/cyte/edamame/render/RenderNode.java:199-323 | the FXML text fails exactly for a node class other than circle, rectangle, polygon, line and label |
| RenderNodes.FillCode | src/main/java/com/cyte/edamame/render/RenderNode.java:210-219 | the fill code written is the eight-digit padded hash code |
| RenderNodes.PointEntries | src/main/java/com/cyte/edamame/render/RenderNode.java:274-279 | the points loop yields one entry for every coordinate but the last, in order |
| RenderNodes.FxmlDeterminesFill | src/main/java/com/cyte/edamame/render/RenderNode.java:199-323 | two circles, rectangles, polygons or labels that differ only in fill give different FXML text |
| RenderNodes.PolygonDropsLastCoordinate | src/main/java/com/cyte/edamame/render/RenderNode.java:275-278 | the last polygon coordinate never reaches the text: two polygons differing only there write the same FXML |
| RenderNodes.RenderNode.constructor | src/main/java/com/cyte/edamame/render/RenderNode.java:40-109 | no flags set; a passive node has no rectangles and no snap points; any other node two empty rectangles and a centre snap point, a line two more at its ends |
| RenderNodes.RenderNode.SnapPointsRefresh | src/main/java/com/cyte/edamame/render/RenderNode.java:116-126 | every snap point ends at its own offset from the node's translate |
| RenderNodes.RenderNode.ShapeHighlightedRefresh | src/main/java/com/cyte/edamame/render/RenderNode.java:142-151 | throws, changing nothing, exactly when the node has no highlight rectangle (a passive node); otherwise the rectangle becomes the bounds in the parent |
| RenderNodes.RenderNode.ShapeSelectedRefresh | src/main/java/com/cyte/edamame/render/RenderNode.java:153-179 | throws, changing nothing, exactly when the node has no selection rectangle; otherwise the rectangle becomes `SelectedRect` of the node |
| RenderNodes.RenderNode.BoundsRefresh | src/main/java/com/cyte/edamame/render/RenderNode.java:128-140 | throws exactly when a rectangle is missing; a missing highlight rectangle stops it before anything changes, and each rectangle present up to the throw is refreshed |
| RenderNodes.RenderNode.ToFXMLString | src/main/java/com/cyte/edamame/render/RenderNode.java:199-323 | the text is exactly `FxmlString` of the node |
| Nodes.MouseHighlight | src/main/java/com/cyte/edamame/node/EDANode.java:192-211 | off the shape the mouse source is cleared; on it without Q it is set; with Q and exactly one shape highlighted it is kept |
| Nodes.HighlightCheckEffect | src/main/java/com/cyte/edamame/node/EDANode.java:182-250 | selection is untouched; CONTROL clears both sources and the highlight; otherwise the box source is the overlap test and the mouse source follows `MouseHighlight` |
| Nodes.HighlightCheckSyncs | src/main/java/com/cyte/edamame/node/EDANode.java:245-249 | afterwards the highlight flag agrees with its two sources and the counter moved by exactly the flag's change |
| Nodes.SelectCheckEffect | src/main/java/com/cyte/edamame/node/EDANode.java:266-277 | selected afterwards exactly when a source highlights or the node was selected with SHIFT held; a box-only highlight is dropped; the sources are untouched |
| Nodes.SelectCheckBalanced | src/main/java/com/cyte/edamame/node/EDANode.java:266-277 | from flags whose highlight agrees with its sources, both counters move by exactly their flags' changes |
| Nodes.SelectCheckTwiceDrifts | src/main/java/com/cyte/edamame/node/EDANode.java:273-274 | two checks in a row on a box-only highlighted node clear its highlight once but lower the highlight counter twice |
| Nodes.StraightOffset | src/main/java/com/cyte/edamame/node/EDANode.java:97-106 | without CONTROL no offset; with it the drag keeps only its larger component |
| Nodes.FindById | src/main/java/com/cyte/edamame/node/EDANode.java:142-145 | the first index holding the id, or -1 exactly when no node has it |
| Nodes.CountOneChange | src/main/java/com/cyte/edamame/node/EDANode.java:252-264 | changing one node's flag moves the count of set flags by that flag's change |
| Nodes.CountOneRemoved | src/main/java/com/cyte/edamame/node/EDANode.java:147-159 | removing one node lowers the count by one exactly when its flag was set |
| Nodes.CountOneAppended | src/main/java/com/cyte/edamame/node/EDANode.java:127 | appending a node raises the count by one exactly when its flag is set |
| Nodes.FoundIsOnlyOccurrence | src/main/java/com/cyte/edamame/node/EDANode.java:142-147 | with unique ids, removing the node found by id leaves no other copy and keeps the ids unique |
| Nodes.Editor.constructor | src/main/java/com/cyte/edamame/node/EDANode.java:122-127 | an editor starts with no nodes and both counters at zero |
| Nodes.EDANode.constructor | src/main/java/com/cyte/edamame/node/EDANode.java:34-48 | a new node carries no flag, no press position and no snap points |
| Nodes.EDANode.Add | src/main/java/com/cyte/edamame/node/EDANode.java:122-138 | refused exactly when the editor already holds its maximum; otherwise the node is appended, and an unflagged node with a fresh id keeps the counters consistent |
| Nodes.EDANode.Unlist | src/main/java/com/cyte/edamame/node/EDANode.java:147-162 | the node leaves the list at the index, each counter whose flag was set drops by one, and both flags are cleared |
| Nodes.EDANode.Remove | src/main/java/com/cyte/edamame/node/EDANode.java:140-168 | false and nothing changed when the id is not listed; otherwise the node is removed at its index with the counters lowered for its flags, and a consistent editor stays consistent |
| Nodes.EDANode.Move | src/main/java/com/cyte/edamame/node/EDANode.java:92-112 | only a selected node moves, to the snapped press position plus the drag with the straight-line offset; a selected node without a press position fails and stays put; flags unchanged |
| Nodes.EDANode.MoveReset | src/main/java/com/cyte/edamame/node/EDANode.java:114-120 | a selected node takes its translate as press position; nothing else changes |
| Nodes.EDANode.Highlight | src/main/java/com/cyte/edamame/node/EDANode.java:252-257 | the highlight flag is set and the counter raised by one |
| Nodes.EDANode.Unhighlight | src/main/java/com/cyte/edamame/node/EDANode.java:259-264 | the highlight flag is cleared and the counter lowered by one |
| Nodes.EDANode.Select | src/main/java/com/cyte/edamame/node/EDANode.java:279-284 | the selection flag is set and the counter raised by one |
| Nodes.EDANode.Unselect | src/main/java/com/cyte/edamame/node/EDANode.java:286-291 | the selection flag is cleared and the counter lowered by one |
| Nodes.EDANode.HighlightSources | src/main/java/com/cyte/edamame/node/EDANode.java:189-243 | the two sources become what `MouseHighlight` and the overlap test say, both cleared under CONTROL |
| Nodes.EDANode.HighlightFlags | src/main/java/com/cyte/edamame/node/EDANode.java:187-249 | the flags and highlight counter become `HighlightCheckEffect` of the old state |
| Nodes.EDANode.HighlightCheck | src/main/java/com/cyte/edamame/node/EDANode.java:182-250 | passive nodes are untouched; otherwise flags and counter follow `HighlightCheckEffect`, and a consistent editor (counters equal the set flags, ids unique) stays consistent |
| Nodes.EDANode.SelectFlags | src/main/java/com/cyte/edamame/node/EDANode.java:268-274 | flags and both counters become `SelectCheckEffect` of the old state |
| Nodes.EDANode.SelectCheck | src/main/java/com/cyte/edamame/node/EDANode.java:266-277 | flags and counters follow `SelectCheckEffect`, the press position is cleared, and a consistent editor stays consistent when the node's highlight agreed with its sources |
| Nodes.EDANode.MagneticSnapCheck | src/main/java/com/cyte/edamame/node/EDANode.java:338-360 | passive nodes return the input; otherwise the distance is at most the limit and at most every snap point's, the input is kept when no snap point is that close, and otherwise the result is a snap point at that distance with no later one as close |
| Nodes.HullUnique | src/main/java/com/cyte/edamame/node/EDANode.java:1057-1088 | the box reaching every bounds' edge is unique |
| Nodes.NodesGetRealBounds | src/main/java/com/cyte/edamame/node/EDANode.java:1057-1088 | zero for no nodes; otherwise the smallest box holding every node's bounds |
| Nodes.NodesGetMiddlePos | src/main/java/com/cyte/edamame/node/EDANode.java:1049-1055 | the centre of that box, or the origin for no nodes |
| Nodes.FillAddLeadingZeros | src/main/java/com/cyte/edamame/node/EDANode.java:1090-1102 | the fill attribute around the code padded with zeros to eight characters |
| Snaps.Refreshed | src/main/java/com/cyte/edamame/node/EDARectangle.java:169-230 | the refreshed list has the same length, and each point keeps its id and its creation position |
| Snaps.RefreshedPlacesAll | src/main/java/com/cyte/edamame/node/EDARectangle.java:169-230 | when every id is known, every point is moved to exactly the place its id gives |
| Snaps.RefreshedStopsAtUnknown | src/main/java/com/cyte/edamame/node/EDARectangle.java:220-223 | at the first unknown id the refresh stops: the points before it are placed and that point and all later ones are unchanged |
| Snaps.RefreshedSplit | src/main/java/com/cyte/edamame/node/EDARectangle.java:169-230 | when the first part has only known ids, refreshing a concatenation is refreshing each part |
| Snaps.Refresh | src/main/java/com/cyte/edamame/node/EDARectangle.java:165-231 | the loop reports success exactly when every id is known, and leaves the list equal to `Refreshed` of the old list |
| Snaps.AtOrigin | src/main/java/com/cyte/edamame/node/EDARectangle.java:233-290 | one new snap point per id, in order, with that id and position (0, 0) |
| Snaps.Manual | src/main/java/com/cyte/edamame/node/EDAGroup.java:157-168 | one `snapManual` point per given position, in order, at that position |
| Snaps.Translates | src/main/java/com/cyte/edamame/node/EDAPin.java:156-159 | the current translates of the points, one per point, in order |
| Snaps.BoxOffset | src/main/java/com/cyte/edamame/node/EDARectangle.java:175-218 | an offset exists exactly for the nine box ids; every other id is unknown |
| Snaps.BoxPlace | src/main/java/com/cyte/edamame/node/EDARectangle.java:175-222 | a box node places a point exactly when its id is one of the nine |
| Snaps.BoxPlaceOnBounds | src/main/java/com/cyte/edamame/node/EDARectangle.java:141-149 | when the shape is only translated, each of the nine points lands at the bounds' middle, moved by half the width and height in its id's direction, plus the translate |
| Snaps.BoxCornersOnBounds | src/main/java/com/cyte/edamame/node/EDARectangle.java:175-218 | when the shape is only translated, `snapTopLeft` lands on the minimum corner of the bounds and `snapBottomRight` on the maximum corner, both plus the translate |
| Snaps.ManualPlace | src/main/java/com/cyte/edamame/node/EDAGroup.java:139-147 | a point is placed exactly when its id is `snapManual`; any other id is the unknown-id error |
| Rectangles.EDARectangle.constructor | src/main/java/com/cyte/edamame/node/EDARectangle.java:36-62 | a new rectangle starts unhighlighted, unselected, with no press position, and has the nine box snap points at the origin exactly when it is not passive and snap points were asked for |
| Rectangles.EDARectangle.Rotate | src/main/java/com/cyte/edamame/node/EDARectangle.java:116-127 | a selected rectangle turns ten degrees in the scroll's direction; an unselected one keeps its angle |
| Rectangles.EDARectangle.SnapPointsCreate | src/main/java/com/cyte/edamame/node/EDARectangle.java:233-290 | the nine box points are appended in order, at the origin |
| Rectangles.EDARectangle.SnapPointsRefresh | src/main/java/com/cyte/edamame/node/EDARectangle.java:165-231 | success exactly when every point has one of the nine box ids; the list becomes the box refresh of the old list |
| Rectangles.EDARectangle.PropsLoadGlobal | src/main/java/com/cyte/edamame/node/EDARectangle.java:294-307 | a selected rectangle appends its name, its position relative to the pane's centre and its rotation; an unselected one appends nothing |
| Rectangles.EDARectangle.PropsApplyGlobal | src/main/java/com/cyte/edamame/node/EDARectangle.java:309-401 | an unselected rectangle is untouched; a selected one takes the name rule, the grid-snapped position and the rotation, and reports their messages in that order |
| Rectangles.EDARectangle.PropsLoadSymbol | src/main/java/com/cyte/edamame/node/EDARectangle.java:403-417 | a selected rectangle appends fill, border width, border colour, width and height, the lengths in tenths; it reports whether it loaded |
| Rectangles.EDARectangle.PropsApplySymbol | src/main/java/com/cyte/edamame/node/EDARectangle.java:419-550 | an unselected rectangle is untouched; a selected one takes both colours through the picker rule and the three lengths through the ranged rule at ten times the entry |
| Rectangles.EDARectangle.PropsLoadFootprint | src/main/java/com/cyte/edamame/node/EDARectangle.java:552-570 | a selected rectangle appends its layer, whether its fill is not TRANSPARENT, and its lengths in tenths |
| Rectangles.EDARectangle.PropsApplyFootprint | src/main/java/com/cyte/edamame/node/EDARectangle.java:572-704 | a chosen PCB layer moves the rectangle to it, colours its border and recolours a non-transparent fill; the fill checkbox then fills with the layer colour or clears; the lengths follow the ranged rule |
| Lines.LinePlace | src/main/java/com/cyte/edamame/node/EDALine.java:163-185 | a line places a point exactly when its id is `snapStart`, `snapMiddle` or `snapEnd`; the start point lands on the line's start and the end point on its end, taken to the parent |
| Lines.LineSnapsOnLine | src/main/java/com/cyte/edamame/node/EDALine.java:93-98 | for a line that is only translated, the refreshed start point is the start moved by the translate (the line's snap position), and the middle point is halfway between the refreshed start and end |
| Lines.EDALine.GetSnapPos | src/main/java/com/cyte/edamame/node/EDALine.java:93-98 | the snap position is the start point moved exactly by the translate |
| Lines.EDALine.constructor | src/main/java/com/cyte/edamame/node/EDALine.java:35-61 | a new line starts unhighlighted, unselected, with no press position, and has its three snap points at the origin exactly when it is not passive and snap points were asked for |
| Lines.EDALine.Rotate | src/main/java/com/cyte/edamame/node/EDALine.java:117 | rotating a line never changes its angle |
| Lines.EDALine.SnapPointsCreate | src/main/java/com/cyte/edamame/node/EDALine.java:195-216 | start, middle and end points are appended in that order, at the origin |
| Lines.EDALine.SnapPointsRefresh | src/main/java/com/cyte/edamame/node/EDALine.java:155-193 | success exactly when every point has a line id; the list becomes the line refresh of the old list |
| Lines.EDALine.PropsLoadGlobal | src/main/java/com/cyte/edamame/node/EDALine.java:220-231 | a selected line appends its name and its position relative to the pane's centre and no rotation; an unselected one appends nothing |
| Lines.EDALine.PropsApplyGlobal | src/main/java/com/cyte/edamame/node/EDALine.java:233-305 | an unselected line is untouched; a selected one takes the name rule and the grid-snapped position, and its rotation is never set |
| Lines.EDALine.PropsLoadSymbol | src/main/java/com/cyte/edamame/node/EDALine.java:307-319 | a selected line appends its colour, its end point and its width as stored |
| Lines.EDALine.PropsApplySymbol | src/main/java/com/cyte/edamame/node/EDALine.java:321-408 | a selected line takes the colour through the picker rule, any number as end point and the width within its limits; messages in that order |
| Lines.EDALine.PropsLoadFootprint | src/main/java/com/cyte/edamame/node/EDALine.java:410-422 | a selected line appends its layer, its end point and its width |
| Lines.EDALine.PropsApplyFootprint | src/main/java/com/cyte/edamame/node/EDALine.java:424-513 | a chosen PCB layer moves the line to it and gives it the layer colour, an unchosen one leaves both; end point and width follow the symbol rules |
| Texts.TextPlace | src/main/java/com/cyte/edamame/node/EDAText.java:164-227 | a text places a point exactly when its id is a box id or `snapManual`: box ids as for a rectangle, a manual point at its own position taken to the parent |
| Texts.EDAText.constructor | src/main/java/com/cyte/edamame/node/EDAText.java:35-61 | a new text starts unhighlighted, unselected, with no press position, and has the nine box snap points exactly when it is not passive and snap points were asked for |
| Texts.EDAText.Rotate | src/main/java/com/cyte/edamame/node/EDAText.java:115-126 | a selected text turns ten degrees in the scroll's direction; an unselected one keeps its angle |
| Texts.EDAText.SnapPointsCreate | src/main/java/com/cyte/edamame/node/EDAText.java:237-294 | the nine box points are appended in order, at the origin |
| Texts.EDAText.SnapPointsRefresh | src/main/java/com/cyte/edamame/node/EDAText.java:164-235 | success exactly when every id is a box id or `snapManual`; the list becomes the text refresh of the old list |
| Texts.EDAText.PropsLoadGlobal | src/main/java/com/cyte/edamame/node/EDAText.java:298-311 | a selected text appends its name, its position relative to the pane's centre and its rotation |
| Texts.EDAText.PropsApplyGlobal | src/main/java/com/cyte/edamame/node/EDAText.java:313-405 | an unselected text is untouched; a selected one takes the name rule, the grid-snapped position and the rotation |
| Texts.EDAText.PropsLoadSymbol | src/main/java/com/cyte/edamame/node/EDAText.java:407-418 | a selected text appends its colour, content and font size |
| Texts.EDAText.PropsApplySymbol | src/main/java/com/cyte/edamame/node/EDAText.java:420-503 | a selected text takes the colour through the picker rule, the content through the text rule and the font size within its limits |
| Texts.EDAText.PropsLoadFootprint | src/main/java/com/cyte/edamame/node/EDAText.java:505-516 | a selected text appends its layer, content and font size |
| Texts.EDAText.PropsApplyFootprint | src/main/java/com/cyte/edamame/node/EDAText.java:518-603 | a chosen PCB layer moves the text to it and fills it with the layer colour, an unchosen one leaves both; content and font size follow the symbol rules |
| Circles.EDACircle.constructor | src/main/java/com/cyte/edamame/node/EDACircle.java:37-61 | a new circle starts unhighlighted, unselected, with no press position, and has the nine box snap points exactly when it is not passive |
| Circles.EDACircle.Rotate | src/main/java/com/cyte/edamame/node/EDACircle.java:110-121 | a selected circle turns ten degrees in the scroll's direction; an unselected one keeps its angle |
| Circles.EDACircle.SnapPointsCreate | src/main/java/com/cyte/edamame/node/EDACircle.java:227-284 | the nine box points are appended in order, at the origin |
| Circles.EDACircle.SnapPointsRefresh | src/main/java/com/cyte/edamame/node/EDACircle.java:159-225 | success exactly when every point has one of the nine box ids; the list becomes the box refresh of the old list |
| Circles.EDACircle.PropsLoadGlobal | src/main/java/com/cyte/edamame/node/EDACircle.java:288-302 | a selected circle appends its name, its position relative to the pane's centre, its rotation and its fill colour |
| Circles.EDACircle.PropsApplyGlobal | src/main/java/com/cyte/edamame/node/EDACircle.java:304-422 | a selected circle takes any non-empty name, the position as entered without grid snapping, the rotation and the fill through the picker rule; an unselected one is untouched |
| Circles.EDACircle.PropsLoadSymbol | src/main/java/com/cyte/edamame/node/EDACircle.java:424-434 | a selected circle appends its radius, border width and border colour as stored |
| Circles.EDACircle.PropsApplySymbol | src/main/java/com/cyte/edamame/node/EDACircle.java:436-522 | a selected circle takes the radius and border width within their limits as entered, then the border colour through the picker rule |
| Groups.WithFill | src/main/java/com/cyte/edamame/node/EDAPin.java:104-105 | setting the fill of a shape child keeps its kind (and a text's content) and gives it exactly the new fill; a child that is not a shape is refused |
| Groups.ManualPlacer | src/main/java/com/cyte/edamame/node/EDAGroup.java:139-147 | a group places exactly the `snapManual` points, each at its own position taken to the parent |
| Groups.EDAGroup.constructor | src/main/java/com/cyte/edamame/node/EDAHole.java:26-49 | a new group node starts unhighlighted, unselected, with no press position and no snap points, holding the given children |
| Groups.EDAGroup.Rotate | src/main/java/com/cyte/edamame/node/EDAGroup.java:82-93 | a selected group turns ten degrees in the scroll's direction; an unselected one keeps its angle |
| Groups.EDAGroup.SnapPointsCreate | src/main/java/com/cyte/edamame/node/EDAGroup.java:157-168 | one `snapManual` point per given position is appended, in order, at that position |
| Groups.EDAGroup.SnapPointsRefresh | src/main/java/com/cyte/edamame/node/EDAGroup.java:131-155 | success exactly when every id is `snapManual`; the list becomes the manual refresh of the old list |
| Groups.EDAGroup.PropsLoadGlobal | src/main/java/com/cyte/edamame/node/EDAGroup.java:172-185 | a selected group appends its name, its position relative to the pane's centre and its rotation |
| Groups.EDAGroup.PropsApplyGlobal | src/main/java/com/cyte/edamame/node/EDAGroup.java:187-284 | a selected group takes any non-empty name, the position as entered without grid snapping and the rotation; an unselected one is untouched |
| Holes.RadiiOf | src/main/java/com/cyte/edamame/node/EDAHole.java:72-73 | the reported outer and inner radii are the ring's edges: they differ by the stroke width and their mean is the circle's radius |
| Holes.RingOf | src/main/java/com/cyte/edamame/node/EDAHole.java:121-122 | the stored ring's inner edge is the entered inner radius, and its width is positive whenever the outer radius is above the inner one |
| Holes.LoadAfterApply | src/main/java/com/cyte/edamame/node/EDAHole.java:72-122 | loading a ring the panel stored gives back exactly the entered outer and inner radii |
| Holes.ApplyAfterLoad | src/main/java/com/cyte/edamame/node/EDAHole.java:72-122 | applying the radii a load reported stores the same ring again |
| Holes.HoleRule | src/main/java/com/cyte/edamame/node/EDAHole.java:86-145 | the ring is resized exactly when both fields are numbers inside their limits and outer is above inner, and then to a ring with those radii; the mixed sentinel (outer, or inner after a numeric outer) or a missing box is silent; within the limits a refusal is the outer-not-above-inner message |
| Holes.HoleRoundTrip | src/main/java/com/cyte/edamame/node/EDAHole.java:104-123 | after the panel resizes a hole, loading it reports the entered radii, and the ring's width is positive |
| Holes.EDAHole.constructor | src/main/java/com/cyte/edamame/node/EDAHole.java:26-49 | a new hole starts unhighlighted and unselected with no press position and no snap points, holding the given children |
| Holes.EDAHole.PropsLoadFootprint | src/main/java/com/cyte/edamame/node/EDAHole.java:64-76 | an unselected hole loads nothing; a selected one with other than one child, or whose child is not a circle, is an error; otherwise it appends the ring's outer and inner radii |
| Holes.EDAHole.PropsApplyFootprint | src/main/java/com/cyte/edamame/node/EDAHole.java:78-146 | an unselected hole is untouched; other than one child is an error; otherwise the hole rule decides: a resize sets the circle's radius and stroke (an error if the child is not a circle), a refusal reports its message, and the rest leave the hole as it was |
| Vias.ViaRing | src/main/java/com/cyte/edamame/node/EDAVia.java:105-106 | the stored circle's stroke width is half its radius |
| Vias.LoadAfterApply | src/main/java/com/cyte/edamame/node/EDAVia.java:72-106 | loading a via the panel just resized reports exactly the entered radius |
| Vias.ApplyAfterLoad | src/main/java/com/cyte/edamame/node/EDAVia.java:72-106 | applying the radius a load reported keeps the circle's radius and sets its stroke to half of it |
| Vias.ViaRule | src/main/java/com/cyte/edamame/node/EDAVia.java:85-118 | the ring is resized exactly when the field is a number inside the via-radius limits, and then a load reports that number; a missing box or the mixed sentinel is silent; a refusal is the out-of-limits message for a number and the non-numeric message otherwise |
| Vias.EDAVia.constructor | src/main/java/com/cyte/edamame/node/EDAVia.java:26-49 | a new via starts unhighlighted and unselected with no press position and no snap points, holding the given children |
| Vias.EDAVia.PropsLoadFootprint | src/main/java/com/cyte/edamame/node/EDAVia.java:64-75 | an unselected via loads nothing; a selected one with other than one child, or whose child is not a circle, is an error; otherwise it appends a tenth of half the circle's radius |
| Vias.EDAVia.PropsApplyFootprint | src/main/java/com/cyte/edamame/node/EDAVia.java:77-119 | an unselected via is untouched; other than one child is an error; otherwise the via rule decides: a resize sets the circle's radius and stroke (an error if the child is not a circle), a refusal reports its message, and the rest leave the via as it was |
| Pins.EDAPin.constructor | src/main/java/com/cyte/edamame/node/EDAPin.java:33-57 | a new pin starts unhighlighted and unselected with no press position, holding the given children, and has one `snapManual` point per given position exactly when it is not passive |
| Pins.EDAPin.PropsLoadSymbol | src/main/java/com/cyte/edamame/node/EDAPin.java:61-76 | an unselected pin loads nothing; a selected pin without two children, whose second child is not a text or whose first is not a circle, is an error; otherwise it appends the circle's fill and the label |
| Pins.EDAPin.PropsApplySymbol | src/main/java/com/cyte/edamame/node/EDAPin.java:78-139 | an unselected pin is untouched; without two children or a text second child it is an error; otherwise an accepted colour fills both children (an error when the first is not a shape) and the label follows the text rule; messages in that order |
| Pins.EDAPin.PropsLoadFootprint | src/main/java/com/cyte/edamame/node/EDAPin.java:141-147 | a pin loads nothing in the footprint panel and reports only whether it is selected |
| Pins.EDAPin.PropsApplyFootprint | src/main/java/com/cyte/edamame/node/EDAPin.java:149-150 | applying the footprint panel leaves a pin's children unchanged |
| Pins.EDAPin.Clone | src/main/java/com/cyte/edamame/node/EDAPin.java:154-162 | the clone has the same name, children, translate, rotation and passivity, is unselected, and its snap points are manual points at this pin's current snap positions, in order (none when passive) |
| Controller.RemoveFirstCounts | src/main/java/com/cyte/edamame/EDAmameController.java:623 | removing a key from the list takes away exactly one copy of it, and nothing when it is absent |
| Controller.RemoveFirstDistinct | src/main/java/com/cyte/edamame/EDAmameController.java:623 | removing a key from a list without duplicates leaves a list without duplicates that no longer holds it |
| Controller.Pressed | src/main/java/com/cyte/edamame/EDAmameController.java:594-595 | after a press the key is held; no other key's count changes; the key occurs once if it was not held before; a list without duplicates stays so |
| Controller.Released | src/main/java/com/cyte/edamame/EDAmameController.java:622-623 | a release removes exactly one copy of the key and leaves every other key as it was; on a list without duplicates the key is then no longer held |
| Controller.ReleaseUndoesPress | src/main/java/com/cyte/edamame/EDAmameController.java:591-626 | releasing a key that was just pressed, when it was not held before, restores the key list exactly |
| Controller.Step | src/main/java/com/cyte/edamame/EDAmameController.java:591-626 | each key event keeps the key list free of duplicates |
| Controller.ReplayKeepsDistinct | src/main/java/com/cyte/edamame/EDAmameController.java:591-626 | whatever sequence of key events arrives, the list never holds a key twice |
| Controller.ReplayTracksLastEvent | src/main/java/com/cyte/edamame/EDAmameController.java:630-633 | after any sequence of events a key counts as pressed exactly when the last event about it was a press, or, when there was none, when it was held before |
| Controller.ClampedPos | src/main/java/com/cyte/edamame/EDAmameController.java:482-485 | the clamped coordinate is never negative; a window that fits keeps its far edge on the screen; a position already on the screen is kept; a window wider than the screen or a negative position goes to 0 |
| Controller.RestoredPos | src/main/java/com/cyte/edamame/EDAmameController.java:479-485 | with no saved position a window that fits is centred; a saved position on the screen is kept; the result is always on the screen when the window fits |
| Controller.Toggled | src/main/java/com/cyte/edamame/EDAmameController.java:550-558 | toggling removes one copy of a shown log tab, or appends a hidden one at the right end; other tabs are unaffected; on a list without duplicates the tab is shown afterwards exactly when it was hidden before |
| Controller.ToggleTwice | src/main/java/com/cyte/edamame/EDAmameController.java:547-561 | toggling the log tab twice gives back the same tab list, whether it started hidden or shown at the right end |
| Controller.GridBoxOutlinesTheater | src/main/java/com/cyte/edamame/EDAmameController.java:648-655 | every grid-box line joins two of the four corners along one axis, for the full theatre width or height, and each corner starts one line and ends another |
| Controller.CrosshairCentred | src/main/java/com/cyte/edamame/EDAmameController.java:662-667 | the crosshair's two strokes are one vertical and one horizontal, of equal length, both centred on the origin |
| Controller.EDAmameController.constructor | src/main/java/com/cyte/edamame/EDAmameController.java:132-152 | a new controller holds no keys and its menu text says whether the log tab is shown; the static basic-shapes list keeps what it held and gains a new grid point, grid box and crosshair, in that order |
| Controller.EDAmameController.GlobalKeyPress | src/main/java/com/cyte/edamame/EDAmameController.java:591-617 | the key list becomes the pressed list, the key is held afterwards, and the list stays free of duplicates |
| Controller.EDAmameController.GlobalKeyRelease | src/main/java/com/cyte/edamame/EDAmameController.java:620-626 | the key list becomes the released list, and on a list without duplicates the key is no longer held |
| Controller.EDAmameController.RestoreWindowContext | src/main/java/com/cyte/edamame/EDAmameController.java:469-492 | the stage takes the saved size (800 by 1000 when none was saved) and the restored position on each axis |
| Controller.EDAmameController.ToggleLogTabVisibility | src/main/java/com/cyte/edamame/EDAmameController.java:547-574 | the tab list is toggled; showing the log tab selects it; hiding it leaves the selection alone; the menu text then says whether it is shown |
| Controller.EDAmameController.CreateBasicCanvasShapes | src/main/java/com/cyte/edamame/EDAmameController.java:637-673 | three new shapes are appended in order (the grid point, the grid box and the crosshair), and the existing shapes are kept |
| Controller.NewGridPoint | src/main/java/com/cyte/edamame/EDAmameController.java:639-642 | a new permanent, drawable shape: one grey dot of width 5 at half opacity on the origin |
| Controller.NewGridBox | src/main/java/com/cyte/edamame/EDAmameController.java:646-656 | a new permanent, drawable shape: the theatre's four corners joined in a closed loop by black lines of width 1.5 |
| Controller.NewCrosshair | src/main/java/com/cyte/edamame/EDAmameController.java:660-669 | a new permanent, drawable shape: two red strokes of width 0.5 through the origin, not scaled by the zoom |

## Left out

- **Drawing.** The highlight and selection shapes of the nodes and the pixel output of `DrawShape` are not modelled. `DrawShape` is modelled as the list of drawing operations it issues, plus its checks.
- **Zoom scaling in `CanvasRenderSystem.Render`.** The multiply-then-divide rescaling of every shape's points is not modelled. It is floating-point arithmetic that is not an exact round trip in doubles. Whether `DrawShape` succeeds is decided on the unscaled lists: in doubles a coordinate scaled past `Double.MAX_VALUE` becomes an infinity that can make a bounding-box search fail where the model's succeeds. When `DrawShape` throws, the source leaves that shape's points scaled; the model leaves them as they were.
- CanvasRenderSystems.RenderPass: does not state that the draw positions of the shapes after the one that throws are unchanged, because a shape may be queued twice and then has been placed already; `CanvasRenderSystems.CanvasRenderSystem.Render` inherits this.
- CanvasRenderSystems.CanvasRenderSystem.Render: states the draw positions only up to the shape that throws, as `RenderPass` does.
- ExperimentalNetLists.NetListExperimental.Find: compares values with Dafny's `==`. For a class type that is identity, as Java's `==` is. For a value type such as `String` it is equality of contents, so the model finds an equal string held in another object, which the source does not.
- Rectangles.EDARectangle.PropsLoadFootprint: reads a fill as unfilled when it equals `TRANSPARENT` in value. The source tests `getFill() == Color.TRANSPARENT`, which is identity, so a colour with the same channels held in another object reads as filled there. The transparent fills the source itself sets are the `Color.TRANSPARENT` object.
- Rectangles.EDARectangle.PropsApplyFootprint: keeps a fill transparent on a layer change when it equals `TRANSPARENT` in value, with the same difference from the source's identity test as `PropsLoadFootprint`.
- Props.Recolored: the same value test for the layer change that `PropsApplyFootprint` makes.
- **`ListSearch.GetDistSquared`.** It stops before the final square root of `GetDist`, because a square root over reals is not available here. The pair form of `GetDist` is left out for the same reason.
- **Timing and concurrency.** The heartbeat timeline, `Platform.runLater` and the `nanoTime` drag throttle are not modelled. Every drag event is treated as passing the throttle.
- **UI wiring.** Editor callbacks are not modelled. The menu and tab-pane plumbing is not modelled either, apart from the log-tab list. After a tab is removed, JavaFX selects another tab; that reselection is not modelled.
- **Status-bar wording.** Messages are modelled as `Status` values naming the field and the failed check. Their exact text, which includes the limits, is not modelled.
- **Missing panel widgets.** The errors thrown when a panel box exists but a child widget is missing are not modelled. They concern the panel's construction, not the rules.
- **`IsStringNum` and `Double.parseDouble`.** These are not part of this model. Their outcome is the `Field` datatype.
- **PCB twins.** `PropsLoadPCB` and `PropsApplyPCB` of rectangles, lines, texts, holes and vias are the same as the footprint methods. Only the footprint ones are modelled.
- **Empty symbol handlers.** The symbol-panel stubs of holes and vias only return `selected` or do nothing; they are not modelled separately.
- **Gerber and FXML export in `EDANode`.** `NodeToGerberStr`, `NodeToFXMLString`, `ToGerberStr`, `PositionFormatting`, `PositionFormattingDouble` and `round` are not modelled. They rely on JavaFX transforms, `Double.toString`, `BigDecimal` and a static aperture counter. `RenderNode`'s FXML text is modelled.
- **Cloning.** `NodeClone` copies a JavaFX node's properties. Only what the pin clone passes on is modelled: the snap positions, and the fields the model keeps.
- **The editor-null check.** Every node constructor throws when no editor is given. The model's editor is a non-null reference, so it leaves this check out.
- **The crosshair's `posStatic`.** `CreateBasicCanvasShapes` sets a `posStatic` field that `CanvasRenderShape` does not declare; the model has no such field.
- **Zoom steps.** `Viewport.ZoomStep`, `Viewport.ZoomStepStaysWithin` and `Viewport.ZoomInThenOut` assume a zoom factor other than zero, and the drag offset assumes a zoom other than zero. The source divides by these, and Java doubles would give an infinity there that the model does not represent.
- **Preferences, screen, logging.** Preferences, the screen size and the logger are not modelled. `restoreWindowContext` takes the saved values and the screen size as parameters. Console output is not modelled.
- **`Editor.java`.** It is not part of this model. Its node list, counters and `maxShapes` are the `Nodes.Editor` class. Its `NodeFindByID` is the first index with the id, as `Nodes.FindById` states.
- **JavaFX geometry.** `Heartbeat`, `SnapPointsCheck`, `PosOnNode` and `BoundsPosToHolderPane` appear only through their results, which are parameters of the operations that use them.
- **Commented-out code.** `RenderSystem.AddShape` and `RenderSystem.RemoveShape` are commented out in this revision, and so is the body of `RenderSystem.Render`. The model's `RenderSystem.Render` does nothing.
- **Canvas housekeeping.** `BindSize`, `UnbindSize`, `SetSize`, `GetSize` and `Clear` of the two render systems only touch the JavaFX canvas. They are not modelled.
