# HXWE windows: dragging, resizing and the task runner, in Dafny

HXWE is a web desktop. Each task (an application) is rendered by a task
runner, and each window can be dragged by its title bar and resized from
its corner. This project models two parts of HXWE and proves properties
of the model.

**The pointer hooks.** There are four generations of the hook, and each
turns pointer events into window coordinates and an inline `style`
attribute:

- `useDraggable.ts`, the one the windows use (module `LiveDraggable`);
- `DEP_useDraggable.ts`, its deprecated predecessor that truncates to
  whole pixels (`DepDraggable`);
- `useDraggable/index.ts`, which keeps its session record at module level
  and reads the window's rectangle from an IntersectionObserver
  (`ModuleDraggable`);
- `useDraggableTransform/index.ts`, which moves the window with a CSS
  `transform` and writes the real position on pointer-up
  (`TransformDraggable`).

**The hooks' helpers:**

- `computeBoxSize` (`BoxSize`);
- `propertyWithDangerouslyRemovedCssUnit` (`CssValue`);
- `getMatrixTransform` (`MatrixTransform`);
- `buildInlineStyle` and `buildTransformStyle` (`InlineStyle`);
- `num2Unit` (`StyleUnits`).

**The task registry.** The functions in `src/system/tasks/utils.ts` are
modelled in `Tasks`. The `TaskRunner` component is modelled in
`TaskRunner`. It keeps two JavaScript `Map`s of running tasks, which are
modelled in `JsMaps` as insertion-ordered maps.

**How each kind of code is modelled:**

- Pure code becomes functions over datatypes.
- A hook's state becomes a class whose fields the handlers reassign.
- Each handler's `ensures` ties the new state to a transition function on
  a value of the same state. The properties of a session are proved about
  those functions:
  - what a drag or a resize does to the window;
  - that a pointer-up ends the session;
  - that the written style is what `buildInlineStyle` would produce;
  - that the window stays inside the viewport.
- The runner is a class with the component's state variables. Its mount
  effect is a loop proved against the map it builds.

**The browser:**

- Pointer coordinates are `real`. Layout metrics (`offsetLeft`,
  `offsetHeight`, …) are `int`.
- `window.getComputedStyle` is a map from property names to strings.
- `window.innerWidth` and `window.innerHeight` are a `Viewport`
  parameter.
- `setAttribute("style", …)` is the string a handler returns.
- JavaScript's `parseFloat`, `Math.trunc`, `toFixed` and `${n}` are
  written out in `Numbers`.
- `String.split` and `trim` are written out in `Text`.

## Model

| member | source | states |
|---|---|---|
| Numbers.Trunc | src/system/utils/hooks/DEP_useDraggable.ts:132-135 | `Math.trunc` rounds toward zero: the result is within 1 of x, on x's side of zero, and no farther from zero than x |
| Numbers.ParseFormatInt | src/styles/utils.ts:5 | `parseFloat` reads back the integer that `${n}` wrote, whatever follows it when that does not start with a digit |
| Numbers.ParseIgnoresUnitSuffix | src/system/utils/hooks/useDraggable/utils/propertyWithDangerouslyRemovedCssUnit.ts:4 | appending a unit that starts with a non-digit, non-sign, non-space character does not change what `parseFloat` reads |
| Numbers.RoundHalfUp | src/system/utils/hooks/useDraggableTransform/index.ts:142-153 | the whole number `toFixed(0)` writes for a magnitude lies within one half of it, a tie going up |
| Numbers.ToFixedZeroDigits | src/system/utils/hooks/useDraggableTransform/index.ts:142-153 | `toFixed(0)` writes "-" for a negative number, then the digits of the rounded magnitude |
| Numbers.ToFixedZeroParsesBack | src/system/utils/hooks/useDraggableTransform/index.ts:142-153 | `toFixed(0)` of x writes a whole number that `parseFloat` reads back as x rounded half away from zero |
| Text.Join | src/system/utils/hooks/useDraggable/utils/buildInlineStyle.ts:15 | joining no parts gives "", joining one part gives that part |
| Text.JoinAppend | src/system/utils/hooks/useDraggable/utils/buildInlineStyle.ts:15 | joining a + b is joining a, the separator, then joining b |
| Text.Split | src/system/utils/hooks/useDraggable/utils/getMatrixTransform.ts:14 | splitting on a character gives at least one piece, no piece holds the character, and joining the pieces with it gives the input back |
| Text.SplitJoin | src/system/utils/hooks/useDraggable/utils/getMatrixTransform.ts:14 | splitting a join of pieces free of the separator gives those pieces back |
| Text.Trim | src/system/utils/hooks/useDraggable/utils/getMatrixTransform.ts:15 | the result neither starts nor ends with white space; every text is blanks, a value and blanks, and `TrimPadded` and `TrimAllSpace` state the result for each such text |
| Text.TrimPadded | src/system/utils/hooks/useDraggable/utils/getMatrixTransform.ts:15 | trimming removes exactly the white space before and after a value that neither starts nor ends with white space, and nothing of the value |
| Text.TrimAllSpace | src/system/utils/hooks/useDraggable/utils/getMatrixTransform.ts:15 | text of white space only trims to the empty string |
| CssValue.GetPropertyValue | src/system/utils/hooks/useDraggable/utils/propertyWithDangerouslyRemovedCssUnit.ts:4 | a property the style does not hold reads as "" |
| CssValue.StripPx | src/system/utils/hooks/useDraggable/utils/propertyWithDangerouslyRemovedCssUnit.ts:4 | a value ending in "px" loses exactly that suffix; any other value is unchanged |
| CssValue.PropertyWithDangerouslyRemovedCssUnit | src/system/utils/hooks/useDraggable/utils/propertyWithDangerouslyRemovedCssUnit.ts:1-4 | an empty value, which is what a property the style does not hold gives, reads as NaN; PropertyReadsRawValue and PixelValueRoundTrip give what a held value reads as |
| CssValue.StripPxOnlyLast | src/system/utils/hooks/useDraggable/utils/propertyWithDangerouslyRemovedCssUnit.ts:4 | only the final "px" is removed, an earlier one stays |
| CssValue.PropertyReadsRawValue | src/system/utils/hooks/useDraggable/utils/propertyWithDangerouslyRemovedCssUnit.ts:1-4 | the number read is the one `parseFloat` reads from the raw property value: removing "px" never changes it |
| CssValue.StripPxKeepsNumber | src/system/utils/hooks/useDraggable/utils/propertyWithDangerouslyRemovedCssUnit.ts:4 | `parseFloat` reads the same number before and after "px" is removed |
| CssValue.PixelValueRoundTrip | src/system/utils/hooks/useDraggable/utils/propertyWithDangerouslyRemovedCssUnit.ts:1-4 | a property written as `${n}px` reads back as n |
| BoxSize.OrElse | src/system/utils/hooks/useDraggable/utils/computeBoxSize.ts:35-36 | `a \|\| b` on a number: a non-zero number is kept, 0 and NaN give the fallback |
| BoxSize.ComputeBoxSize | src/system/utils/hooks/useDraggable/utils/computeBoxSize.ts:3-12 | no rectangle without a container or without its computed style; a rectangle otherwise |
| BoxSize.ComputedPixelsAreUsed | src/system/utils/hooks/useDraggable/utils/computeBoxSize.ts:17-36 | non-zero pixel values of left, top, height and width in the computed style are the rectangle |
| BoxSize.Field | src/system/utils/hooks/useDraggable/utils/computeBoxSize.ts:21-36 | a field is the computed value when it reads as a non-zero number, and the fallback when it is NaN or zero |
| BoxSize.BoxSizeFields | src/system/utils/hooks/useDraggable/utils/computeBoxSize.ts:21-36 | left and top fall back to the layout offsets, height and width to the layout size plus padding and border |
| BoxSize.UnreadableValuesFallBack | src/system/utils/hooks/useDraggable/utils/computeBoxSize.ts:21-36 | when no computed value can be read, the rectangle is the layout box with padding and border added to height and width |
| BoxSize.ZeroLeftIsReplaced | src/system/utils/hooks/useDraggable/utils/computeBoxSize.ts:35 | a computed left of "0px" falls back to `offsetLeft` |
| MatrixTransform.StripMatrixSyntax | src/system/utils/hooks/useDraggable/utils/getMatrixTransform.ts:13 | what the regular expression leaves holds no ")" |
| MatrixTransform.StripMatrixWrapper | src/system/utils/hooks/useDraggable/utils/getMatrixTransform.ts:13 | removing the syntax from "matrix(" + numbers + ")" leaves the numbers |
| MatrixTransform.ParseValues | src/system/utils/hooks/useDraggable/utils/getMatrixTransform.ts:14-15 | the split always yields at least one value |
| MatrixTransform.At | src/system/utils/hooks/useDraggable/utils/getMatrixTransform.ts:18-23 | `values[i] ?? 0`: a present position gives its value (NaN included), a missing one gives 0 |
| MatrixTransform.GetMatrixTransform | src/system/utils/hooks/useDraggable/utils/getMatrixTransform.ts:10-25 | scaleX is always the first parsed value, never the default |
| MatrixTransform.MatrixValuesRoundTrip | src/system/utils/hooks/useDraggable/utils/getMatrixTransform.ts:13-15 | the values of a rendered `matrix(v0, v1, …)` are read back in order |
| MatrixTransform.MatrixRoundTrip | src/system/utils/hooks/useDraggable/utils/getMatrixTransform.ts:10-25 | `matrix(a, b, c, d, e, f)` fills scaleX, skewY, skewX, scaleY, translateX, translateY in that order |
| MatrixTransform.MatrixIgnoresLaterValues | src/system/utils/hooks/useDraggable/utils/getMatrixTransform.ts:10-25 | in `matrix(v0, v1, …)` with six or more values, the first six fill the fields in order and any later value is ignored |
| MatrixTransform.WordReadsNaN | src/system/utils/hooks/useDraggable/utils/getMatrixTransform.ts:13-15 | a word such as "none" survives the replacement and the split whole and reads as a single NaN |
| MatrixTransform.NoTransform | src/system/utils/hooks/useDraggable/utils/getMatrixTransform.ts:10-25 | a style without a matrix gives scaleX NaN and every other field 0 |
| InlineStyle.EntriesOf | src/system/utils/hooks/useDraggable/utils/buildInlineStyle.ts:7-12 | a pair array is used as given; a Map or a plain object gives its entries |
| InlineStyle.Defined | src/system/utils/hooks/useDraggable/utils/buildInlineStyle.ts:13 | the filter keeps no entry when every value is undefined and every entry when every value is defined |
| InlineStyle.Renders | src/system/utils/hooks/useDraggable/utils/buildInlineStyle.ts:14 | each kept entry becomes one declaration, `property: value` or `property(value)` |
| InlineStyle.BuildAppend | src/system/utils/hooks/useDraggable/utils/buildInlineStyle.ts:13-15 | the style of two entry lists is the two styles joined by the separator, when both are non-empty |
| InlineStyle.UndefinedDropped | src/system/utils/hooks/useDraggable/utils/buildInlineStyle.ts:13 | an undefined entry leaves the style exactly as without it |
| InlineStyle.EmptyIffAllUndefined | src/system/utils/hooks/useDraggable/utils/buildInlineStyle.ts:13-15 | the style is "" if and only if every value is undefined |
| InlineStyle.BuildInlineStyle | src/system/utils/hooks/useDraggable/utils/buildInlineStyle.ts:1-15 | the style is "" exactly when no entry is kept, and otherwise begins with the first defined entry as `property: value`; BuildAppend, UndefinedDropped, EmptyIffAllUndefined and MapMatchesPairs give the rest |
| InlineStyle.BuildTransformStyle | src/system/utils/hooks/useDraggable/utils/buildTransformStyle.ts:1-15 | the transform is "" exactly when no entry is kept, and otherwise begins with the first defined entry as `property(value)`; BuildAppend, UndefinedDropped and SingleTransform give the rest |
| InlineStyle.SingleDeclaration | src/system/utils/hooks/useDraggable/utils/buildInlineStyle.ts:14 | one defined entry renders as `property: value` |
| InlineStyle.SingleTransform | src/system/utils/hooks/useDraggable/utils/buildTransformStyle.ts:14 | one defined entry renders as `property(value)` |
| InlineStyle.MapOfEntries | src/system/utils/hooks/useDraggable/utils/buildInlineStyle.ts:7-8 | a Map built from pairs with distinct properties gives those pairs back, in order |
| InlineStyle.MapMatchesPairs | src/system/utils/hooks/useDraggable/utils/buildInlineStyle.ts:7-12 | a Map and the pair array it was built from render the same style |
| InlineStyle.Truthy | src/system/utils/hooks/useDraggable.ts:139 | `filter(Boolean)` keeps no more parts than it is given, and never an empty string |
| InlineStyle.TruthyMatchesInlineStyle | src/system/utils/hooks/useDraggable.ts:130-142 | the hand-built declarations filtered and joined with "; " are what `buildInlineStyle` gives for the same entries |
| JsMaps.Get | src/system/tasks/utils.ts:30 | `get` finds a value exactly for the keys the map holds |
| JsMaps.Set | src/system/tasks/Runner.tsx:31-37 | `set` stores the value; a new key goes last, a present key keeps its place |
| JsMaps.Remove | src/system/tasks/utils.ts:32 | removing a key from the key order keeps every other key |
| JsMaps.Delete | src/system/tasks/utils.ts:31-32 | `delete` drops exactly that key and its value |
| JsMaps.Entries | src/system/tasks/Runner.tsx:75 | `Array.from(map)` lists the entries in insertion order |
| JsMaps.DeleteIdempotent | src/system/tasks/utils.ts:31-32 | deleting a key twice is deleting it once |
| StyleUnits.Num2Unit | src/styles/utils.ts:1-5 | a number gives one string, an array gives one string per element |
| StyleUnits.Num2UnitEndsWithUnit | src/styles/utils.ts:1-5 | every string produced ends with the unit |
| StyleUnits.Num2UnitReadsBack | src/styles/utils.ts:1-5 | `parseFloat` reads each produced string back as its number |
| Tasks.TaskIsRunning | src/system/tasks/utils.ts:4-10 | a task, or a name, is running if and only if some task in the list has that name; none is when the list is undefined |
| Tasks.Includes | src/system/tasks/utils.ts:10 | `includes` is membership |
| Tasks.SetTasksComponentProps | src/system/tasks/utils.ts:12-21 | the name is kept; the element gets the given props, `name` unless a prop overrides it, and keeps its other props |
| Tasks.SetPropsIdempotent | src/system/tasks/utils.ts:12-21 | giving a task the same props twice is giving them once |
| Tasks.EndTaskMaybe | src/system/tasks/utils.ts:23-37 | an absent name leaves the registry as it was; a present one is removed with nothing else changed |
| Tasks.EndTaskRemovesOnlyIt | src/system/tasks/utils.ts:30-34 | after ending a task it is no longer running and every other task still is |
| Tasks.EndTaskIdempotent | src/system/tasks/utils.ts:29-37 | ending a task twice is ending it once |
| Tasks.EndTaskCommutes | src/system/tasks/utils.ts:29-37 | ending two tasks gives the same registry in either order |
| TaskRunner.Prepared | src/system/tasks/Runner.tsx:50-56 | a filed task keeps its name and carries the start-sibling callback and an end callback for its own name |
| TaskRunner.InitialTaskMap | src/system/tasks/Runner.tsx:47-57 | the map built from the initial tasks is well formed |
| TaskRunner.InitialTaskMapOwns | src/system/tasks/Runner.tsx:49-57 | every initial task is filed under its own name and its end callback ends that name |
| TaskRunner.InitialTaskMapNames | src/system/tasks/Runner.tsx:49-57 | a name is in the map if and only if some initial task has it |
| TaskRunner.InitialTaskMapLastWins | src/system/tasks/Runner.tsx:49-57 | of two initial tasks with the same name, the later one is kept |
| TaskRunner.StartSiblingUpdate | src/system/tasks/Runner.tsx:27-41 | the sibling map after a start request is well formed |
| TaskRunner.StartSiblingFirstWins | src/system/tasks/Runner.tsx:30-38 | starting a name that is already running changes nothing; a new name is appended |
| TaskRunner.StartSiblingOwns | src/system/tasks/Runner.tsx:30-37 | a started sibling is filed under its own name and ends itself |
| TaskRunner.EndTaskOwns | src/system/tasks/Runner.tsx:15-23 | ending a task keeps every other task's callbacks |
| TaskRunner.RenderEntries | src/system/tasks/Runner.tsx:70-88 | nothing is rendered for an undefined map; otherwise one fragment per entry, keyed by name, in insertion order |
| TaskRunner.Runner.constructor | src/system/tasks/Runner.tsx:10-13 | no task map yet and the initial tasks not processed |
| TaskRunner.Runner.RequestInitialTaskEnd | src/system/tasks/Runner.tsx:15-18 | the initial tasks become `endTaskMaybe` of them; the siblings are unchanged |
| TaskRunner.Runner.RequestSiblingTaskEnd | src/system/tasks/Runner.tsx:20-23 | the siblings become `endTaskMaybe` of them; the initial tasks are unchanged |
| TaskRunner.Runner.RequestSiblingTaskStart | src/system/tasks/Runner.tsx:25-43 | the siblings become the start update of them; the initial tasks are unchanged |
| TaskRunner.Runner.Invoke | src/system/tasks/Runner.tsx:33-54 | calling a task's callback ends that task in its registry or starts a sibling |
| TaskRunner.FileInitialTasks | src/system/tasks/Runner.tsx:47-57 | filing each initial task in turn under its name, a later task replacing an earlier one of the same name, builds exactly the map `InitialTaskMap` describes |
| TaskRunner.Runner.InitialTasksEffect | src/system/tasks/Runner.tsx:45-68 | on the first run with initial tasks, the task map becomes the one built from them and the effect is marked done; otherwise nothing changes |
| TaskRunner.Runner.Rendered | src/system/tasks/Runner.tsx:90-95 | the initial tasks are rendered first, then the siblings |
| TaskRunner.OwnEndCallbackRemovesOwnTask | src/system/tasks/Runner.tsx:15-23 | a task's own end callback removes exactly that task |
| TaskRunner.MountRendersInitialTasks | src/system/tasks/Runner.tsx:45-78 | after mounting, a name is rendered if and only if an initial task has it, and no name is rendered twice |
| Geometry.InitialRect | src/system/utils/hooks/useDraggable.ts:51-56 | missing initial coordinates default to left 100, top 100, height 240, width 320 |
| Geometry.RectStyleIsInlineStyle | src/system/utils/hooks/useDraggable/index.ts:47-61 | the four-coordinate style written by hand is `buildInlineStyle` of height, left, top and width in pixels |
| Geometry.InitialStyleDefaults | src/system/utils/hooks/useDraggable/index.ts:47-61 | with no initial coordinates the mount style is "height: 240px; left: 100px; top: 100px; width: 320px" |
| Geometry.Clamp | src/system/utils/hooks/useDraggable.ts:144-162 | a coordinate between 0 and the limit is kept, one at or past a non-negative limit becomes the limit, one at or before 0 becomes 0, and a negative limit gives 0; the result always lies between 0 and the limit |
| Geometry.ClampInt | src/system/utils/hooks/DEP_useDraggable.ts:159-177 | the same restriction on whole pixels, agreeing with `Clamp` on every input |
| LiveDraggable.Init | src/system/utils/hooks/useDraggable.ts:48-61 | neither dragging nor resizing, no offsets, the initial coordinates with their defaults |
| LiveDraggable.Down | src/system/utils/hooks/useDraggable.ts:63-92 | ignored while a session of its kind runs; otherwise it records the pointer's offset from the container and the window's current size, sets its own flag and leaves the other flag and the coordinates alone |
| LiveDraggable.Up | src/system/utils/hooks/useDraggable.ts:94-111 | clears the offsets and the flag of its own kind |
| LiveDraggable.Move | src/system/utils/hooks/useDraggable.ts:113-177 | nothing happens without a session; a drag changes only left and top, a resize only height and width, and the flags and offsets stay |
| LiveDraggable.MoveStyle | src/system/utils/hooks/useDraggable.ts:130-142 | a move writes a style exactly when a session runs, styles are on and the container exists; MoveStyleIsInlineStyle gives its text |
| LiveDraggable.MoveStyleIsInlineStyle | src/system/utils/hooks/useDraggable.ts:130-142 | the style a move writes is `buildInlineStyle` of the active coordinates with three decimals |
| LiveDraggable.UpStopsMoves | src/system/utils/hooks/useDraggable.ts:102-117 | after a pointer-up of the session's kind a move changes nothing and writes nothing |
| LiveDraggable.DragFollowsPointer | src/system/utils/hooks/useDraggable.ts:78-177 | without bounds, dragging moves the window by exactly the pointer's displacement |
| LiveDraggable.ResizeFollowsPointer | src/system/utils/hooks/useDraggable.ts:119-128 | resizing grows the window by exactly the pointer's displacement |
| LiveDraggable.MovesArePathIndependent | src/system/utils/hooks/useDraggable.ts:119-177 | the coordinates after a move depend only on the last pointer position, not on the moves before it |
| LiveDraggable.DragStaysInViewport | src/system/utils/hooks/useDraggable.ts:144-177 | with bounds on, a drag from rest moves the window by the pointer's displacement while that stays between 0 and the viewport size less the handle, stops at that limit beyond it and at 0 before the corner, and keeps the size |
| LiveDraggable.DefaultDragExample | src/system/utils/hooks/useDraggable.ts:51-177 | a default window grabbed at (110, 110) and dropped at (210, 160) ends at left 200, top 150 |
| LiveDraggable.LiveHook.constructor | src/system/utils/hooks/useDraggable.ts:48-61 | the hook starts in the initial state |
| LiveDraggable.LiveHook.HandlePointerDown | src/system/utils/hooks/useDraggable.ts:63-92 | the hook's new state is `Down` of the old one |
| LiveDraggable.LiveHook.HandlePointerUp | src/system/utils/hooks/useDraggable.ts:94-111 | the hook's new state is `Up` of the old one |
| LiveDraggable.LiveHook.HandlePointerMove | src/system/utils/hooks/useDraggable.ts:113-188 | the new state is `Move` of the old one and the style written is the move's style |
| DepDraggable.Init | src/system/utils/hooks/DEP_useDraggable.ts:58-69 | no offsets and the initial coordinates with their defaults |
| DepDraggable.Down | src/system/utils/hooks/DEP_useDraggable.ts:71-113 | ignored while a session of the same kind runs; otherwise a record of this kind with the pointer's offset from the container and the window's current size; the coordinates stay |
| DepDraggable.Up | src/system/utils/hooks/DEP_useDraggable.ts:115-122 | clears the session whatever its kind |
| DepDraggable.Move | src/system/utils/hooks/DEP_useDraggable.ts:124-195 | nothing happens without a session; a drag changes only left and top, a resize only height and width |
| DepDraggable.MoveStyle | src/system/utils/hooks/DEP_useDraggable.ts:145-157 | a move writes a style exactly when a session runs, styles are on and the container exists; MoveStyleIsInlineStyle gives its text |
| DepDraggable.MoveStyleIsInlineStyle | src/system/utils/hooks/DEP_useDraggable.ts:145-157 | the style a move writes is `buildInlineStyle` of the active coordinates in whole pixels |
| DepDraggable.UpStopsMoves | src/system/utils/hooks/DEP_useDraggable.ts:115-128 | after a pointer-up a move changes nothing and writes nothing |
| DepDraggable.OtherKindTakesOver | src/system/utils/hooks/DEP_useDraggable.ts:77-104 | a pointer-down of the other kind during a session replaces its record |
| DepDraggable.DragFollowsPointer | src/system/utils/hooks/DEP_useDraggable.ts:86-135 | without bounds, dragging moves the window to its start plus the pointer's displacement, truncated |
| DepDraggable.ResizeFromViewport | src/system/utils/hooks/DEP_useDraggable.ts:132-143 | a resize from rest sets the size from where the pointer is now, measured from the viewport's corner, whatever the pointer did since pointer-down; the position is kept |
| DepDraggable.ResizeAtRestExample | src/system/utils/hooks/DEP_useDraggable.ts:58-143 | a default window pressed and held at (420, 340) on its resize handle becomes 480 high and 640 wide |
| DepDraggable.MovesArePathIndependent | src/system/utils/hooks/DEP_useDraggable.ts:132-192 | the coordinates after a move depend only on the last pointer position |
| DepDraggable.DragStaysInViewport | src/system/utils/hooks/DEP_useDraggable.ts:159-192 | with bounds on, a drag from rest puts the window at its start plus the displacement, truncated, while that stays between 0 and the viewport size less the handle, at that limit beyond it and at 0 before the corner, and keeps the size |
| DepDraggable.DepHook.constructor | src/system/utils/hooks/DEP_useDraggable.ts:58-69 | the hook starts in the initial state |
| DepDraggable.DepHook.HandlePointerDown | src/system/utils/hooks/DEP_useDraggable.ts:71-113 | the hook's new state is `Down` of the old one |
| DepDraggable.DepHook.HandlePointerUp | src/system/utils/hooks/DEP_useDraggable.ts:115-122 | the hook's new state is `Up` of the old one |
| DepDraggable.DepHook.HandlePointerMove | src/system/utils/hooks/DEP_useDraggable.ts:124-195 | the new state is `Move` of the old one and the style written is the move's style |
| ModuleDraggable.MountStyle | src/system/utils/hooks/useDraggable/index.ts:47-61 | with styles on and a container, the mount writes the initial coordinates with their defaults |
| ModuleDraggable.Measure | src/system/utils/hooks/useDraggable/index.ts:78-113 | the record holds the padding-and-border sums, the border-box size and the pointer's offset from the container |
| ModuleDraggable.Down | src/system/utils/hooks/useDraggable/index.ts:63-116 | ignored while a session of the same kind runs; otherwise the measured record replaces the old one |
| ModuleDraggable.CurrentRect | src/system/utils/hooks/useDraggable/index.ts:135-145 | the observed rectangle, or zeros before the first report, less padding and border |
| ModuleDraggable.Written | src/system/utils/hooks/useDraggable/index.ts:147-174 | a drag keeps the current size, a resize keeps the current position |
| ModuleDraggable.MoveStyle | src/system/utils/hooks/useDraggable/index.ts:118-179 | a move writes a style exactly when a session runs, the container exists and styles are on, so once any window's pointer-up clears the shared record no window writes; the style is the four written coordinates |
| ModuleDraggable.DragFollowsPointer | src/system/utils/hooks/useDraggable/index.ts:100-174 | dragging moves the window by the pointer's displacement, truncated, and keeps the observed content size |
| ModuleDraggable.ResizeMeasuresFromViewport | src/system/utils/hooks/useDraggable/index.ts:154-165 | a resize sets the size to the border-box size at pointer-down plus where the pointer is now, measured from the observed corner, whatever point it was pressed at; the observed position is kept |
| ModuleDraggable.DraggableModule.constructor | src/system/utils/hooks/useDraggable/index.ts:30-34 | no session record and no observed rectangle |
| ModuleDraggable.DraggableModule.Observed | src/system/utils/hooks/useDraggable/index.ts:34-39 | the observer replaces the rectangle and leaves the session alone |
| ModuleDraggable.DraggableModule.HandlePointerDown | src/system/utils/hooks/useDraggable/index.ts:63-116 | the session record becomes `Down` of the old one |
| ModuleDraggable.DraggableModule.HandlePointerUp | src/system/utils/hooks/useDraggable/index.ts:118-125 | the session record is cleared |
| ModuleDraggable.DraggableModule.HandlePointerMove | src/system/utils/hooks/useDraggable/index.ts:127-202 | the style returned is the move's style, and nothing changes |
| TransformDraggable.Idle | src/system/utils/hooks/useDraggableTransform/index.ts:59-60 | no start coordinates and no offsets |
| TransformDraggable.StartRect | src/system/utils/hooks/useDraggableTransform/index.ts:77-105 | without a container the start rectangle is all zeros; `StartFields` and `FieldAgrees` state the rest |
| TransformDraggable.Down | src/system/utils/hooks/useDraggableTransform/index.ts:62-122 | ignored while a session of the same kind runs; otherwise records the start rectangle and the pointer's offset from it |
| TransformDraggable.MoveGeometry | src/system/utils/hooks/useDraggableTransform/index.ts:191-244 | a drag changes only the translation, a resize only height and width |
| TransformDraggable.MoveStyle | src/system/utils/hooks/useDraggableTransform/index.ts:171-264 | a move writes a style exactly when a session runs, the container exists and styles are on |
| TransformDraggable.UpStyle | src/system/utils/hooks/useDraggableTransform/index.ts:124-159 | the release writes a style exactly when a container exists and styles are on, with or without a session; `UpStyleIsInlineStyle` states what it writes |
| TransformDraggable.UpStyleIsInlineStyle | src/system/utils/hooks/useDraggableTransform/index.ts:124-159 | the release writes the computed height and width as they stand, then the pointer less the drag offset rounded by `toFixed(0)` as left and top: exactly `buildInlineStyle` of those four entries |
| TransformDraggable.ResizeReleasesAtPointer | src/system/utils/hooks/useDraggableTransform/index.ts:142-153 | outside a drag the offset defaults to 0, so releasing a resize writes the pointer's own position as left and top |
| TransformDraggable.Up | src/system/utils/hooks/useDraggableTransform/index.ts:161-162 | the release clears the start coordinates and the offsets |
| TransformDraggable.UpStopsMoves | src/system/utils/hooks/useDraggableTransform/index.ts:161-175 | after the release a move writes nothing |
| TransformDraggable.MoveStyleIsInlineStyle | src/system/utils/hooks/useDraggableTransform/index.ts:251-264 | the style of a move is `buildInlineStyle` of the transform, height and width |
| TransformDraggable.StartFields | src/system/utils/hooks/useDraggableTransform/index.ts:77-105 | with a container, each start field is the computed value when it reads as a non-zero number, otherwise the layout offset or size alone |
| TransformDraggable.FieldAgrees | src/system/utils/hooks/useDraggableTransform/index.ts:77-105 | a start field equals `computeBoxSize`'s field whenever the computed value reads as a non-zero number or both fall back to the same value |
| TransformDraggable.StartPositionMatchesBoxSize | src/system/utils/hooks/useDraggableTransform/index.ts:77-105 | the start rectangle and `computeBoxSize` always agree on left and top |
| TransformDraggable.StartHeightOmitsEdges | src/system/utils/hooks/useDraggableTransform/index.ts:93-95 | when the height cannot be read, the start height falls short of `computeBoxSize`'s by exactly the vertical padding and border |
| TransformDraggable.DragFollowsPointer | src/system/utils/hooks/useDraggableTransform/index.ts:107-229 | dragging translates the window by the pointer's position less its offset from the start corner, and keeps the start size |
| TransformDraggable.ResizeCountsPointerTwice | src/system/utils/hooks/useDraggableTransform/index.ts:232-244 | a resize's width is the pointer's x at pointer-down plus its x now less the start width (twice the x less the start width when the pointer has not moved), the same for the height, and the position is the start's |
| TransformDraggable.ReleaseMatchesLastMove | src/system/utils/hooks/useDraggableTransform/index.ts:142-153 | the position written at release is the translation of the last move, rounded |
| TransformDraggable.TransformHook.constructor | src/system/utils/hooks/useDraggableTransform/index.ts:59-60 | the hook starts idle |
| TransformDraggable.TransformHook.MountEffect | src/system/utils/hooks/useDraggableTransform/index.ts:43-57 | the mount writes the initial coordinates' style, when styles are on and a container exists |
| TransformDraggable.TransformHook.HandlePointerDown | src/system/utils/hooks/useDraggableTransform/index.ts:62-122 | the hook's new state is `Down` of the old one |
| TransformDraggable.TransformHook.HandlePointerUp | src/system/utils/hooks/useDraggableTransform/index.ts:124-169 | the style returned is the release style, and the hook becomes idle |
| TransformDraggable.TransformHook.HandlePointerMove | src/system/utils/hooks/useDraggableTransform/index.ts:171-287 | the style returned is the move's style, and nothing changes |

## Left out

- Numbers.ParseFloat: only an optional sign and a run of digits are read. Fractions, exponents and `Infinity` are not modelled, so "12.5px" reads as 12. Every value the model writes is a whole number or goes through `toFixed`.
- Numbers.ToFixed: the exponent form that `toFixed` uses at 1e21 and above is not modelled.
- Pointer arithmetic is exact on reals. Floating-point rounding is not modelled.
- Text.Trim: white space is the ASCII space, tab, line feed, carriage return, form feed and vertical tab. Other Unicode white space is not trimmed.
- BoxSize.EdgeWidth: a padding or border value that does not parse counts as 0. In the source the sum becomes NaN.
- ModuleDraggable.Measure: on a pointer-down without a container, the sums and size are 0. In the source they are NaN.
- TransformDraggable.StartRect: without a container the start height and width are 0. In the source they are NaN.
- An element with no computed style is read as one with no properties.
- TransformDraggable.UpParts: the `initialCoords` fallback of useDraggableTransform/index.ts:136-140 is not modelled. With a container present, `getComputedStyle` always returns a declaration whose `height` and `width` are strings, so `??` never reaches it; without a container nothing is written.
- ModuleDraggable.DraggableModule.Observed: the IntersectionObserver's bounding rectangle is whole pixels, and its arrival is an explicit call. The observer's timing is not modelled.
- The `debounce` option of the deprecated hook is not modelled. It is a timer.
- React's `useState`, `useCallback`, `useMemo` and `useRef` are plain fields updated at once. Batching, stale closures and effect scheduling are not modelled.
- The handler tables built for each drag and resize handle are not modelled. They only bind the handlers to a kind.
- `setPointerCapture` and `releasePointerCapture` are not modelled.
- `setAttribute("style", …)` is the string a handler returns.
- `console.log` at useDraggable/index.ts:142 is not modelled.
- `cancelPendingAnimationFrames`, the `quality` option and the overlay are not part of this model.
- `useResizeable`, the theme tables and the UI components are not part of this model.
- StyleUnits.Num2Unit: numbers are whole. `${n}` of a fraction or of a number written in exponent form is not modelled.
- InlineStyle.EntriesOf: a plain object's entries are taken in insertion order. JavaScript puts integer-like keys first, and that is not modelled.
- TaskRunner: `React.cloneElement` is a map of props on a component value. The callbacks are data naming what they do: end this name in this registry, or start a sibling. React element identity and keys are not modelled beyond the rendered (name, component) pairs.
- The commented-out `restrictBounds` code in useDraggable/index.ts and useDraggableTransform/index.ts is not modelled. It is not executed.

## Findings

| source | as written | input that shows it | evidently intended | confidence | as-written member | corrected member |
|---|---|---|---|---|---|---|
| src/system/utils/hooks/DEP_useDraggable.ts:132-143 | a resize record has no drag offsets, so `newTop`/`newLeft` are the pointer's viewport position, and the size becomes the size at pointer-down plus the pointer's distance from the window's corner | a default window (100, 100, 240 × 320) pressed and held still at (420, 340) on its resize handle: a move there sets height 480 and width 640 | the size changes by the pointer's displacement since pointer-down, as in useDraggable.ts, which measures both kinds from the recorded offsets | high; not executed | DepDraggable.ResizeAtRestExample | LiveDraggable.ResizeFollowsPointer |
