# Placer: a Dafny model of the scatter-placement editor tool

The tool is a Unity editor window that works like a brush. It projects a circle of radius `radius` onto the surface under the mouse. It scatters `spawnCount` prefab instances inside that circle.

The window keeps a batch of samples in the unit disc, `prefabsInsideCircle`. Each sample has a point, a random yaw angle, and a prefab drawn from the selection with that prefab's height. The batch is drawn again whenever the selection, the inspector fields or the scene's undo history change, and after every commit.

Each editor frame does the following:
- It places every sample on the surface's tangent plane under the mouse hit.
- It casts a probe ray down to find the actual surface point.
- It rejects the sample if anything stands within the prefab's height above that point.
- It collects the samples that pass in `pointsToSpawnPrefabs`.
- On a Space key-down it instantiates one object per collected sample that carries a prefab.

The mouse wheel scales the radius by 5% and keeps it at least `minRadius`.

The model is imperative where the source is:
- `PlacerTool.Placer` is a class with the window's fields: `radius`, `spawnCount`, `selectedPrefabs`, the array `prefabsInsideCircle` and the list `pointsToSpawnPrefabs`.
- A ghost log `instantiated` records every object created.
- Each method is proved against a reference function in the modules `Sampler`, `Selection`, `Radius` and `Pipeline`. The lemmas in those modules prove the properties the tool relies on.
- `Unity` holds the host types.

How the host is represented:
- **Random numbers.** Unity's `Random` is an oracle: a fixed stream of answers indexed by the number of calls made so far. Its stated ranges are:
  - `value` is in [0, 1];
  - `insideUnitCircle` has x² + y² ≤ 1;
  - `Range(lo, hi)` is in [lo, hi).
- **Ray-casts.** `Physics.Raycast` is a function parameter. The primary mouse-ray hit is an input.
- **Rotations.** `Quaternion.LookRotation`, `Quaternion.Euler` and their product are symbolic terms, not computed.
- **Normalising and the up axis.** `Vector3.normalized` and a rotation's up axis are function parameters.
- **Numbers.** Floats are reals.

The spacing test `Vector2.Distance(p, q) < distanceBetweenPrefabs` is stated on squares: `SqDistance(p, q) < 0.09 * PI / n`. That is the square of `(sqrt(PI / n) / 2) * 2 * 0.30`, with `PI` the value of the float `Mathf.PI` rounded to nine digits.

Behaviour of the code worth noting:
- **The retry loop (Assets/Placer.cs:398-407).** The distance is measured once per earlier sample and never again inside the `while`. A sample that starts too close to an earlier one is therefore redrawn exactly ten times for that earlier sample, and it keeps the tenth point whatever its spacing. A sample that is not too close to that earlier sample is not redrawn for it. The check against the next earlier sample measures the point as it now stands and may redraw it ten more times, so one sample can take up to ten draws per earlier sample. Nothing guarantees the minimum spacing at all. `Sampler.RetryZeroOrAll` states this exactly.
- **The yaw angle.** It is `Random.value * 360` with `value` in [0, 1] inclusive, so 360 itself can occur.
- **Scrolling.** A scroll changes the radius, but it does not draw a new batch: `HandleInput` ignores the result of `ApplyModifiedProperties`. Only an inspector edit (`OnGUI`) draws one.
- **Prefab heights.** Each prefab's height is computed when the batch is drawn, not when a frame is evaluated.

## Model

| member | source | states |
|---|---|---|
| `Sampler.PrefabData.SetRandValues` | Assets/Placer.cs:42-47 | resets prefab to none and height to 0, keeps the point, sets the angle to value·360, which lies in [0, 360] for a value in [0, 1] |
| `Sampler.MaxFilterHeightIsMax` | Assets/Placer.cs:321-343 | the running maximum started at 0 is at least 0, at least every filter's height, and is either 0 or one of those heights |
| `PlacerTool.Placer.CalculateObjectHeight` | Assets/Placer.cs:314-347 | 0 for a null prefab; otherwise at least 0, at least every per-filter height, and 0 or one of them |
| `Sampler.PickPrefab` | Assets/Placer.cs:392 | the prefab chosen by `Random.Range(0, Count)` is an element of the selection |
| `Sampler.RetryZeroOrAll` | Assets/Placer.cs:398-407 | because the distance is not recomputed, the retry loop makes no draw or exactly `maxTriesToSpawn` (10) draws; after 10 the point is the last draw |
| `Sampler.SeparateInDisc` | Assets/Placer.cs:386-408 | the retries keep the sample's point inside the unit disc |
| `Sampler.SeparateKeepsSpacedPoint` | Assets/Placer.cs:396-408 | a point already far enough from every earlier sample is never redrawn and consumes no draw |
| `Sampler.MinSpacingSq` | Assets/Placer.cs:378 | the squared minimum spacing `0.09·PI/n` is positive and at most its value for a single sample |
| `Sampler.MaxFilterHeight` | Assets/Placer.cs:321-343 | the running maximum of the filter heights, started at 0, is at least 0 and at least the last filter's height |
| `Sampler.ObjectHeight` | Assets/Placer.cs:314-347 | the height `CalculateObjectHeight` returns is at least 0, and 0 for a null prefab |
| `Sampler.FilterHeight` | Assets/Placer.cs:334 | no contract; the per-filter height formula of line 334: world y plus the bounds' top times the lossy y scale |
| `Sampler.TooClose` | Assets/Placer.cs:399-402 | no contract; the spacing comparison of lines 399 and 402, `Vector2.Distance < distanceBetweenPrefabs`, done on squares |
| `Sampler.Retry` | Assets/Placer.cs:398-407 | the retry loop against one earlier sample, with the distance fixed before the loop: when that distance is not too small it returns the point unchanged and draws nothing |
| `Sampler.Separate` | Assets/Placer.cs:396-408 | the `for j` loop from the previous sample down to sample 0, one `Retry` each; it never goes back in the random stream |
| `Sampler.Drawn` | Assets/Placer.cs:385-394 | the draws before the retries: `Random.value` gives the angle in [0, 360], `insideUnitCircle` a point in the disc, and `Range` a selected prefab with its computed height (none and height 0 for an empty selection); 3 draws, or 2 without a selection |
| `Sampler.Entry` | Assets/Placer.cs:382-408 | one sample is the drawn sample with its point replaced by the retries' result, and takes at least 2 draws |
| `Sampler.Batch` | Assets/Placer.cs:373-409 | the batch drawn for `spawnCount` holds exactly that many samples |
| `Sampler.EntryWellFormed` | Assets/Placer.cs:382-409 | one sample has angle value·360 for a drawn value, a point in the disc, and either no prefab and height 0 (empty selection) or a selected prefab with its computed height |
| `Sampler.BatchWellFormed` | Assets/Placer.cs:370-410 | every sample of a batch is as `EntryWellFormed` says, and there are exactly `spawnCount` of them |
| `Sampler.BatchPrefixStable` | Assets/Placer.cs:382-409 | drawing sample i never changes samples 0..i-1: the retries redraw only the current sample |
| `PlacerTool.Placer.GenerateSpawnPoints` | Assets/Placer.cs:370-410 | allocates a new array of `spawnCount` samples and fills it with exactly the batch the reference definition draws from the current random state |
| `PlacerTool.Placer.DrawSample` | Assets/Placer.cs:385-394 | sample i gets the angle, point, prefab and height from the next draws; no other sample changes |
| `PlacerTool.Placer.SeparateSample` | Assets/Placer.cs:396-408 | the `for j` loop from i-1 down to 0 changes only the point of sample i, as the reference definition says |
| `PlacerTool.Placer.RetryAgainst` | Assets/Placer.cs:398-407 | the `while` redraws only sample i's point, as many times as `Retry` says for the distance measured before the loop |
| `Selection.Remove` | Assets/Placer.cs:237 | `List.Remove` leaves the list alone when the item is absent, otherwise shortens it by one, and adds nothing |
| `Selection.RemoveDistinct` | Assets/Placer.cs:237 | in a list without duplicates, removing an item removes it completely, keeps the list free of duplicates and keeps every other member |
| `Selection.Toggled` | Assets/Placer.cs:230-239 | the toggle appends an absent prefab at the end, and removes one element when the prefab is present |
| `Selection.RemoveIsWithout` | Assets/Placer.cs:237 | on a list without duplicates, `List.Remove` gives exactly the list without that element, the others in their order |
| `Selection.ToggledFlips` | Assets/Placer.cs:230-239 | the toggle flips whether the selection contains the prefab and adds no duplicate |
| `Selection.ToggledKeepsOthers` | Assets/Placer.cs:230-239 | the toggle leaves every other prefab's membership unchanged |
| `Selection.ToggledKeepsOrder` | Assets/Placer.cs:230-239 | the toggle leaves the relative order of all other prefabs unchanged |
| `PlacerTool.Placer.TogglePrefab` | Assets/Placer.cs:228-241 | a button press adds the prefab when it is absent and removes it otherwise; membership flips, others are kept in order, and a new batch is drawn |
| `Unity.Sign` | Assets/Placer.cs:202 | `Mathf.Sign` is 1 exactly for zero and positive values, otherwise -1 |
| `Unity.Cross` | Assets/Placer.cs:130-131 | no contract; `Vector3.Cross`, the right-handed cross product used at lines 130, 131 and 153 |
| `Unity.Clamp` | Assets/Placer.cs:208 | `Mathf.Clamp` lies in the bounds, leaves a value already inside unchanged, and otherwise gives a bound |
| `Radius.ScrolledRadius` | Assets/Placer.cs:200-208 | a scroll gives `r·1.05` for a delta ≥ 0 and `r·0.95` for a negative one, raised to 0.1 when below it and lowered to float.MaxValue when above it; the result is always at least `minRadius` |
| `Radius.ScrollDirection` | Assets/Placer.cs:202-208 | from a radius inside the bounds, a negative delta never grows it and any other delta never shrinks it |
| `Radius.IsRadiusScroll` | Assets/Placer.cs:196-200 | no contract; the test of lines 196-200: a scroll-wheel event without Alt held |
| `PlacerTool.Placer.HandleInput` | Assets/Placer.cs:187-215 | a wheel event without Alt sets the radius as `ScrolledRadius` does and consumes the event; any other event leaves both alone |
| `Pipeline.SpawnFor` | Assets/Placer.cs:143-171 | a sample yields a spawn point if and only if its probe ray from 2 units above the surface, 6 units long, hits something and the ray of the prefab's height up from that hit meets nothing; the point then is at that hit, with the normal-aligned rotation turned by the sample's angle, and carries the sample's prefab |
| `Pipeline.Candidates` | Assets/Placer.cs:139-173 | the spawn points collected for a batch, in sample order; never more than there are samples |
| `Pipeline.CandidatesAppend` | Assets/Placer.cs:139-173 | the spawn points collected from two parts of a batch are those of the first part followed by those of the second: sample order is kept |
| `Pipeline.CandidatesExactly` | Assets/Placer.cs:139-173 | a spawn point is collected if and only if some sample's probe ray hits, its obstruction ray misses, and the sample yields that point |
| `Pipeline.CandidatesAllAccepted` | Assets/Placer.cs:139-173 | when every sample's probe hits without obstruction, sample i yields collected point i, placed at the probe hit |
| `Pipeline.CandidatesSkipDropped` | Assets/Placer.cs:146-171 | a sample whose probe misses or is obstructed adds nothing, and the samples around it keep their order |
| `PlacerTool.Placer.CollectSpawnPoints` | Assets/Placer.cs:139-173 | appends to `pointsToSpawnPrefabs` exactly the reference list of collected spawn points for the whole batch |
| `Pipeline.Instantiate` | Assets/Placer.cs:352-363 | a spawn point creates an object if and only if it carries a prefab; the object has that prefab and the spawn point's rotation |
| `Pipeline.Instances` | Assets/Placer.cs:350-368 | the objects a commit creates, in list order; never more than there are spawn points |
| `Pipeline.InstancesAppend` | Assets/Placer.cs:350-368 | a commit over two parts of the list creates the first part's objects, then the second's |
| `Pipeline.InstancesExactly` | Assets/Placer.cs:350-368 | an object is created if and only if a spawn point with a prefab yields it |
| `Pipeline.InstancesCount` | Assets/Placer.cs:350-368 | a commit creates exactly one object per spawn point that carries a prefab |
| `Pipeline.InstancesAllPlaced` | Assets/Placer.cs:350-368 | when every spawn point has a prefab, object i uses spawn point i's prefab and rotation; its position is the pose position plus the prefab's y times the new object's up axis |
| `PlacerTool.Placer.TrySpawnPoints` | Assets/Placer.cs:348-369 | the log grows by exactly the reference objects for `pointsToSpawnPrefabs`, in list order |
| `PlacerTool.Placer.IsCommit` | Assets/Placer.cs:175 | no contract; the test of line 175: a key-down event whose key is Space |
| `PlacerTool.Placer.Commit` | Assets/Placer.cs:177-181 | a Space key-down instantiates the collected spawn points, then draws a new batch |
| `PlacerTool.Placer.SceneFrame` | Assets/Placer.cs:121-184 | with a mouse hit, a Space key-down instantiates exactly the collected points of the current batch and draws a new batch; any other event creates nothing and keeps the batch; the list is empty again afterwards |
| `PlacerTool.Placer.DuringSceneGui` | Assets/Placer.cs:114-185 | one scene event toggles the clicked prefab, applies the scroll, then commits exactly the points collected from the batch then in force, and only on a Space key-down with a mouse hit |
| `PlacerTool.Placer.UndoRedoPerformed` | Assets/Placer.cs:87-91 | an undo or redo draws a new batch of the current `spawnCount`, even when the undo has left the old array at a different length |
| `PlacerTool.Placer.OnGui` | Assets/Placer.cs:102-112 | an inspector edit, held to its `[Min]` bounds, draws a new batch of the new size; an unchanged edit keeps the batch |
| `PlacerTool.Placer.constructor` | Assets/Placer.cs:60-75 | the window starts with the saved radius and count, an empty selection, no spawn points, and a batch drawn for the saved count |
| `Unity.Random.Value` | Assets/Placer.cs:45 | `Random.value` is the stream's next value and lies in [0, 1] |
| `Unity.Random.InsideUnitCircle` | Assets/Placer.cs:386 | `Random.insideUnitCircle` is the stream's next point and lies in the unit disc |
| `Unity.Random.Range` | Assets/Placer.cs:392 | `Random.Range(min, max)` is the stream's next index and lies in [min, max) |

## Left out

- Editor UI and drawing are not modelled, because they only draw and compute nothing the model states: `OnGUI`'s layout, the icon buttons and toggles, `DrawPreviewPrefabMeshes` and `DrawPreviewPrefabMeshesRed`, every `Handles` call and every `Repaint`. Rejected samples are drawn red in the source; here they are only absent from the collected list.
- Persistence is host I/O. `EditorPrefs` loading is a pair of constructor arguments, and `OnDisable`'s saving is not modelled.
- Asset discovery (`AssetDatabase.FindAssets` and `LoadAssetAtPath`) is host I/O. The prefab list is a constructor argument.
- Event subscription and unsubscription, `Undo.RegisterCreatedObjectUndo` and `PrefabUtility.InstantiatePrefab` are foreign host calls. Instantiation is an entry appended to the ghost log `instantiated`.
- Floating point: all floats are reals.
  - Rounding is not modelled.
  - Overflow of `radius * 1.05` is not modelled; only the clamp to float.MaxValue is kept.
  - `PI` is the float `Mathf.PI` (3.1415927410125732421875) rounded to nine digits, 3.14159274.
- `Vector2.Distance` needs a square root, which reals do not provide here. The spacing test compares squared distances, which is equivalent for non-negative values.
- The uniformity of `Random.insideUnitCircle` and of `Random.value` is a distribution claim and is not stated. Only their documented ranges are stated.
- `Physics.Raycast`, `Vector3.normalized`, the quaternion constructors and a transform's up axis are float geometry from the host. They appear as function parameters or symbolic terms. The tangent-frame formulas are encoded as written (`Pipeline.TangentProbe`, with `normalized` an oracle), but no property of the frame is stated or proved: neither that tangent, bitangent and normal are orthogonal, nor what happens in the degenerate case where the normal is parallel to the camera's up axis, nor that a placed object's up axis equals the surface normal.
- The primary mouse ray (`HandleUtility.GUIPointToWorldRay` and its ray-cast) is host input. Its hit is a parameter.
- The `MouseMove` repaint in `HandleInput` is a rendering side effect.
- The icon loop's `GUI.Button` is UI input. At most one button fires per event, and that button's prefab is the `clicked` parameter of `DuringSceneGui`.
- The `[Min]` clamping of the inspector fields is done by Unity's property drawer. `OnGui` models it by clamping the entered values itself and states the clamped values in its postcondition.
- The geometric definitions `Pipeline.TangentProbe` (Assets/Placer.cs:129-132), `Pipeline.ProbeOrigin` (:143) and `Pipeline.SpawnRotation` (:153-155) are plain formulas over the host's vector operations. They carry no contract of their own, because the vector operations they use are oracles.
- Host exceptions are not modelled. Two matter:
  - A mesh filter without a `sharedMesh` throws at Assets/Placer.cs:334. This aborts `GenerateSpawnPoints` after line 373 has already replaced the array, so the remaining samples keep their default values. `PlacerTool.Placer.Regenerated` then does not hold.
  - A mesh filter without a `MeshRenderer` throws at :270, inside the preview drawing at :165. That skips the commit and the clearing at :175-183, so `pointsToSpawnPrefabs` carries over into the next event.
  - The model's `MeshFilter` always has bounds and a renderer. `PlacerTool.Placer.Valid`'s `pointsToSpawnPrefabs == []` therefore holds only as long as no such exception escapes.
- The undo system restores `radius` and `spawnCount` itself before `UndoRedoPerformed` runs, because `ApplyModifiedProperties` records them. That restoring is host behaviour. `PlacerTool.Placer.UndoRedoPerformed` takes the fields as it finds them and does not require the array's length to match `spawnCount`.
- `PlacerTool.Placer.GenerateSpawnPoints`: `spawnCount` is a `nat`. A negative count, which would make `new PrefabData[spawnCount]` throw, cannot be represented.
- `Unity.Random.Range`: covers only the case `min < max`, the only one the source uses (it calls `Range(0, Count)` only when `Count > 0`).
- `PlacerTool.Placer.DuringSceneGui`: `Event.current.Use()` is modelled only as changing the event's kind to `Used`.
