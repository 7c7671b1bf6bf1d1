# OpenGL exploration engine: UI, resources, scene and input core

This project models the core of a small OpenGL engine.
- **Resource registry.** Shaders and textures are stored by name. Loading a shader checks its source files and records their names.
- **Shader.** A shader keeps its program ID and the three source names it was built from.
- **Game objects.** Each object has a transform, a model matrix composed from it, a mesh and a material.
- **Built-in shapes.** The cube, square, axis gizmo and sphere each come with their vertex and index tables.
- **Scene.** A scene holds objects by name and a camera, and draws every object once in map order.
- **Current UI revision.** Elements live in panels. An element is a button, float slider, vector slider, checkbox, select or label, with at most one bound handler. A UI manager owns the panels: it builds the engine's five panels, fills the shader and object info panels from what is selected, and runs the scene pass.
- **Older UI revision.** A flat map of elements whose render reports a change. It generates shader-uniform sliders and raises a "uniforms changed this frame" flag.
- **Window callbacks.** They keep the key table, the mouse slots, three toggles and the drag origin.

Objects whose fields the source updates in place are Dafny classes:
- elements and panels;
- the UI managers;
- the resource registry;
- shaders;
- game objects and scenes;
- the game's input state.

Each class's methods are proved against functions on values. For example, `Model()` of a panel is a map from names to element states, and rendering is proved to produce `RenderedModel(old(Model()), frame)`.

Several things the engine gets from outside are inputs or traces rather than computed behaviour:
- **ImGui widgets.** Each widget call reports what the user did as an `Interaction`, an input. Draw calls and handler runs come back as a trace of events.
- **Handlers.** A handler is a callable with its bound arguments. Running it yields an `Invocation`. The methods `ApplyTransformSlider`, `ShowSelectedShader`, `ShowSelectedObject`, `Recompile` and `ViewModeFor` state what each callable the engine binds does when invoked.
- **GL queries.** A program's active uniforms are given as a list. File existence is a set of paths. GL-assigned IDs are parameters.
- **Callback effects.** What a window callback asks of GLFW, the GL or the camera is a list of `Effect`s. Which scene is the main one is the flag `hasMainScene`.

The names `STD_SCENE`, `STD_SHADER` and `SHADER_SOURCE_DIR` are not defined in any file of this model. They are parameters.

The key order of a `std::map` is lexicographic string order (`Ordering.SortedNames`). Every loop over such a map visits keys in that order.

## Model

| member | source | states |
|---|---|---|
| Linear.Compose | src/Classes/GameObject.cpp:61-66 | the model matrix is Translate·Rotate·Scale; the default transform (zero translation, identity rotation, unit scale) composes to the identity matrix |
| Linear.WithComponent | src/Classes/UI/UIManager.cpp:227-230 | replacing one component sets that component and keeps the other two |
| Ordering.SortedNames | src/Classes/UI/UIManager.cpp:53 | the map's iteration order lists each key exactly once |
| Ordering.SortedNamesIncreasing | src/Classes/UI/UIPanel.cpp:12 | a std::map visits its keys in strictly increasing order |
| Ordering.BelowTotal | src/Classes/UI/UIPanel.cpp:12 | any two distinct keys are ordered one way |
| Ordering.BelowTransitive | src/Classes/UI/UIPanel.cpp:12 | the key order is transitive |
| Ordering.LeastExists | src/Classes/UI/UIPanel.cpp:12 | every non-empty key set has a first key |
| UIElements.LastPick | src/Classes/UI/UISelect.cpp:39-47 | after the option loop the index is the last option picked, or unchanged when none was |
| UIElements.AnyPickedMeansSome | src/Classes/UI/UISelect.cpp:43-46 | the select's change flag is set iff some option was picked |
| UIElements.RenderRunsBoundHandlerOnce | includes/UIClasses/UIBaseElement.h:25 | a render draws exactly one control and runs the bound handler exactly once when the widget reports, else never |
| UIElements.RenderKeepsShape | src/Classes/UI/UISelect.cpp:32-62 | rendering keeps a select's index valid and never changes kind, caption, bounds, options or handler |
| UIElements.RenderAfterBindRunsIt | includes/UIClasses/UIBaseElement.h:30-42 | after binding a handler, whatever was bound before, a reporting render invokes exactly that handler's callable on its arguments once, and a non-reporting render invokes nothing |
| UIElements.RenderTwiceRunsTwice | includes/UIClasses/UIBaseHandler.h:32-45 | a bound handler keeps its callable and tuple: two consecutive reporting renders each make the same call |
| UIElements.ButtonRender | src/Classes/UI/UIButton.cpp:9-17 | a button runs its handler exactly on a reported click with a bound handler, and keeps its state |
| UIElements.CheckboxRender | src/Classes/UI/UICheckBox.cpp:9-16 | a checkbox runs its handler exactly on a reported toggle, which flips its state |
| UIElements.SliderFloatRender | src/Classes/UI/UISliderFloat.cpp:9-16 | a float slider takes the widget's value unclamped and runs its handler exactly on a reported change |
| UIElements.SliderVec3Render | src/Classes/UI/UISliderVec3.cpp:10-17 | a vector slider takes all three components at once and runs its handler exactly on a reported change |
| UIElements.LabelRender | src/Classes/UI/UILabel.cpp:8-11 | a label draws its text as caption and text, never runs a handler and never changes |
| UIElements.EmptySelectRender | src/Classes/UI/UISelect.cpp:36 | a select without options previews "None" and never runs its handler |
| UIElements.SelectPickRunsHandler | src/Classes/UI/UISelect.cpp:36-60 | a pick moves the select to the last picked option and runs its handler once, observing the new index, even when it was already selected |
| UIElements.SelectWithoutPick | src/Classes/UI/UISelect.cpp:57-60 | without a pick the index stays and nothing runs |
| UIElements.RunsAppend | src/Classes/UI/UIPanel.cpp:12-15 | the handler runs of consecutive renders concatenate |
| UIElements.DrawsAppend | src/Classes/UI/UIPanel.cpp:12-15 | the draw calls of consecutive renders concatenate |
| UIElements.UIElement.ButtonElement | src/Classes/UI/UIButton.cpp:3-7 | a new button holds its caption and no handler |
| UIElements.UIElement.SliderFloatElement | src/Classes/UI/UISliderFloat.cpp:3-7 | a new float slider stores value and bounds as given |
| UIElements.UIElement.SliderVec3Element | src/Classes/UI/UISliderVec3.cpp:4-8 | a new vector slider stores vector and bounds as given |
| UIElements.UIElement.CheckboxElement | src/Classes/UI/UICheckBox.cpp:3-7 | a new checkbox has its caption; its checked state is not initialised |
| UIElements.UIElement.SelectElement | src/Classes/UI/UISelect.cpp:4-9 | a new select starts at index 0 whatever its options |
| UIElements.UIElement.LabelElement | src/Classes/UI/UILabel.cpp:3-6 | a new label holds its text |
| UIElements.UIElement.SetHandler | includes/UIClasses/UIBaseElement.h:31-37 | binding replaces any previous handler and leaves the control alone |
| UIElements.UIElement.RunHandler | includes/UIClasses/UIBaseElement.h:39-42 | runs the bound handler once, observing the element's current state; a handler must be bound, because the source dereferences it unchecked |
| UIElements.UIElement.GetHandler | includes/UIClasses/UIBaseElement.h:44-47 | the bound handler, if any |
| UIElements.UIElement.Render | includes/UIClasses/UIBaseElement.h:25 | the virtual render: new state and event trace are those of the element's kind |
| UIElements.UIElement.RenderButton | src/Classes/UI/UIButton.cpp:9-17 | draws the button, then runs the handler on a click when bound |
| UIElements.UIElement.RenderSliderFloat | src/Classes/UI/UISliderFloat.cpp:9-16 | draws, stores the reported value, runs the handler on a change |
| UIElements.UIElement.RenderSliderVec3 | src/Classes/UI/UISliderVec3.cpp:10-17 | draws, stores the reported vector, runs the handler on a change |
| UIElements.UIElement.RenderCheckbox | src/Classes/UI/UICheckBox.cpp:9-16 | draws, flips on a toggle, runs the handler on a toggle |
| UIElements.UIElement.RenderSelect | src/Classes/UI/UISelect.cpp:32-62 | the option loop leaves the last pick selected; the handler runs iff a pick happened |
| UIElements.UIElement.RenderLabel | src/Classes/UI/UILabel.cpp:8-11 | draws the label text twice and nothing else |
| UIElements.UIElement.SetSelectedIndex | src/Classes/UI/UISelect.cpp:11-17 | an index inside the option list is stored, any other is ignored |
| UIElements.UIElement.GetSelectedIndex | src/Classes/UI/UISelect.cpp:19-22 | the stored index, a position in the option list (or 0 for an empty list) for a valid element |
| UIElements.UIElement.GetSelectedOption | src/Classes/UI/UISelect.cpp:24-30 | the option at the index, or "" for an empty list |
| UIElements.UIElement.GetValue | src/Classes/UI/UISliderFloat.cpp:18-21 | the value last stored by a render or setValue |
| UIElements.UIElement.SetValue | src/Classes/UI/UISliderFloat.cpp:23-26 | stores the value as given, even outside the bounds |
| UIElements.UIElement.GetVec | src/Classes/UI/UISliderVec3.cpp:19-22 | the vector last stored by a render or setValue |
| UIElements.UIElement.SetVec | src/Classes/UI/UISliderVec3.cpp:24-27 | replaces the whole vector |
| UIPanels.RenderedOnStep | src/Classes/UI/UIPanel.cpp:12-15 | rendering one more element changes only that element |
| UIPanels.RenderedOnAll | src/Classes/UI/UIPanel.cpp:12-15 | rendering every name renders the whole panel |
| UIPanels.RenderedPrefixStep | src/Classes/UI/UIPanel.cpp:12-15 | with distinct names each element is rendered from its state before the pass |
| UIPanels.DrawnAll | src/Classes/UI/UIPanel.cpp:12-15 | one control per element, in order |
| UIPanels.ElementsTraceDraws | src/Classes/UI/UIPanel.cpp:12-15 | the draws of the element loop are each element's control in order |
| UIPanels.PanelRenderDrawsEachOnce | src/Classes/UI/UIPanel.cpp:9-17 | a panel render draws Begin, every element exactly once in ascending name order, then End |
| UIPanels.ElementsTraceRuns | src/Classes/UI/UIPanel.cpp:12-15 | at most one handler run per element, and none when nothing reported |
| UIPanels.UIPanel.constructor | src/Classes/UI/UIPanel.cpp:4-7 | a new panel has its title and no elements |
| UIPanels.UIPanel.AddUIElement | src/Classes/UI/UIPanel.cpp:20-29 | stores the element under its name, replacing what was there, and returns it |
| UIPanels.UIPanel.ClearUIElements | src/Classes/UI/UIPanel.cpp:31-38 | the panel becomes empty |
| UIPanels.UIPanel.Find | src/Classes/UI/UIPanel.cpp:40-79 | non-null exactly when the name is present with an element of the requested kind |
| UIPanels.UIPanel.GetButton | src/Classes/UI/UIPanel.cpp:40-47 | the button under the name, or null when absent or of another kind |
| UIPanels.UIPanel.GetSliderFloat | src/Classes/UI/UIPanel.cpp:48-55 | the float slider under the name, or null |
| UIPanels.UIPanel.GetSliderVec3 | src/Classes/UI/UIPanel.cpp:56-63 | the vector slider under the name, or null |
| UIPanels.UIPanel.GetSelect | src/Classes/UI/UIPanel.cpp:64-71 | the select under the name, or null |
| UIPanels.UIPanel.GetLabel | src/Classes/UI/UIPanel.cpp:72-79 | the label under the name, or null |
| UIPanels.UIPanel.RenderElement | src/Classes/UI/UIPanel.cpp:14 | renders one element; no other element changes |
| UIPanels.UIPanel.RenderInOrder | src/Classes/UI/UIPanel.cpp:12-15 | renders the named elements in order; the trace is their events concatenated |
| UIPanels.UIPanel.Render | src/Classes/UI/UIPanel.cpp:9-17 | every element ends in its rendered state and the trace is the panel trace |
| Shaders.Reported | src/Classes/Shader.cpp:16-29 | a getter reports null for an empty name, else the name |
| Shaders.Stored | src/Classes/Shader.cpp:31-56 | a setter ignores null and stores any other name |
| Shaders.SetThenGet | src/Classes/Shader.cpp:16-56 | setting then getting returns the name (absent for ""), and setting null keeps the old name |
| Shaders.Shader.constructor | src/Classes/Shader.cpp:5-8 | a new shader has program 0 and no source names |
| Shaders.Shader.GetVertexSource | src/Classes/Shader.cpp:21-24 | null iff no vertex name is recorded |
| Shaders.Shader.GetFragmentSource | src/Classes/Shader.cpp:16-19 | null iff no fragment name is recorded |
| Shaders.Shader.GetGeometrySource | src/Classes/Shader.cpp:26-29 | null iff no geometry name is recorded |
| Shaders.Shader.SetVertexSource | src/Classes/Shader.cpp:39-45 | only the vertex name changes, and only for a non-null argument |
| Shaders.Shader.SetFragmentSource | src/Classes/Shader.cpp:31-37 | only the fragment name changes, and only for a non-null argument |
| Shaders.Shader.SetGeometrySource | src/Classes/Shader.cpp:47-56 | only the geometry name changes, and only for a non-null argument |
| Shaders.Shader.SetSources | src/Classes/Shader.cpp:58-63 | each of the three names is set when given and kept otherwise |
| Resources.LoadedShaderOutcome | src/Classes/ResourceManager.cpp:65-110 | with every file present the program is built and all names recorded; a name is recorded only if its file and every earlier-checked file exist |
| Resources.LoadShaderFromFile | src/Classes/ResourceManager.cpp:48-125 | the new shader is the one the check-then-record sequence yields |
| Resources.ResourceManager.constructor | src/Classes/ResourceManager.cpp:7-8 | the registry starts without shaders or textures |
| Resources.ResourceManager.LoadShader | src/Classes/ResourceManager.cpp:12-16 | the slot for the name holds the loaded shader, overwritten in place; other slots and textures are kept |
| Resources.ResourceManager.Overwrite | src/Classes/ResourceManager.cpp:14 | copy-assignment replaces the stored shader's value |
| Resources.ResourceManager.GetShader | src/Classes/ResourceManager.cpp:18-21 | the stored shader; an absent name gets a new default shader inserted |
| Resources.ResourceManager.LoadTexture | src/Classes/ResourceManager.cpp:23-27 | stores and returns the texture under the name |
| Resources.ResourceManager.GetTexture | src/Classes/ResourceManager.cpp:29-32 | the stored texture; an absent name gets a default one inserted |
| Resources.ResourceManager.ShowResources | src/Classes/ResourceManager.cpp:146-161 | every shader name in map order, then every texture name in map order |
| Resources.ResourceManager.Clear | src/Classes/ResourceManager.cpp:34-46 | deletes every program and every texture ID once, in map order, and keeps the entries |
| Resources.ResourceManager.DeletePrograms | src/Classes/ResourceManager.cpp:37-40 | one deleted program per listed shader, in order |
| Resources.ResourceManager.DeleteTextures | src/Classes/ResourceManager.cpp:42-45 | one deleted texture per listed texture, in order |
| Resources.ListingCoversBoth | src/Classes/ResourceManager.cpp:146-161 | the listing has one entry per shader and per texture and names exactly both key sets |
| Resources.PushAll | src/Classes/ResourceManager.cpp:152-159 | push_back appends the names in order |
| Meshes.CubeTables | src/Classes/Cube.cpp:4-61 | 8 vertices, 36 indices in 12 triangles, every index valid and every vertex used |
| Meshes.CubeFacePlanar | src/Classes/Cube.cpp:37-61 | each face uses four distinct corners lying in one face plane |
| Meshes.SquareTables | src/Classes/Square.cpp:5-16 | 4 vertices in z = 0, two triangles sharing the diagonal 1–3, every index valid |
| Meshes.AxisSegments | src/Classes/Axis.cpp:5-15 | three segments from the origin, one along each axis of the given length, coloured by axis |
| Meshes.AtLeast | src/Classes/Sphere.cpp:6-9 | the resolution is raised to its least allowed value and otherwise kept |
| Meshes.GridAt | src/Classes/Sphere.cpp:21-51 | the vertex at latitude i and longitude j sits at position i·(longitudes+1)+j |
| Meshes.SphereVertices | src/Classes/Sphere.cpp:21-51 | the nested loops produce the vertex grid row by row |
| Meshes.SphereIndices | src/Classes/Sphere.cpp:60-82 | the nested loops produce the index list segment by segment |
| Meshes.RowIndicesBound | src/Classes/Sphere.cpp:63-81 | a latitude band only names vertices of its two rows |
| Meshes.SphereIndexListShape | src/Classes/Sphere.cpp:60-82 | 6·longitudes·(latitudes−1) indices, whole triangles, every index a vertex of the grid |
| Meshes.SphereMesh | src/Classes/Sphere.cpp:4-86 | the mesh of the clamped resolution |
| GameObjects.Mesh.constructor | includes/ResourceClasses/Mesh.h:30 | a mesh keeps its vertex and index data |
| GameObjects.Material.constructor | src/Classes/Material.cpp:3-6 | a material refers to its shader |
| GameObjects.GameObject.constructor | src/Classes/GameObject.cpp:3-13 | origin, no rotation, unit scale, no mesh or material, identity model matrix |
| GameObjects.GameObject.WithParts | src/Classes/GameObject.cpp:15-24 | mesh and material as given, identity model matrix set directly |
| GameObjects.GameObject.Cube | src/Classes/Cube.cpp:4-65 | the cube tables and the standard shader; the shader lookup keeps an existing slot and the whole registry, and only for an absent name inserts a fresh default shader (program 0, no names); textures are untouched |
| GameObjects.GameObject.Square | src/Classes/Square.cpp:3-20 | the square tables and the shader "basic"; the shader lookup keeps an existing slot and the whole registry, and only for an absent name inserts a fresh default shader (program 0, no names); textures are untouched |
| GameObjects.GameObject.Axis | src/Classes/Axis.cpp:3-19 | the non-indexed axis mesh, drawn as lines, with the standard shader; the shader lookup keeps an existing slot and the whole registry, and only for an absent name inserts a fresh default shader (program 0, no names); textures are untouched |
| GameObjects.GameObject.Sphere | src/Classes/Sphere.cpp:4-86 | the sphere grid and index list of the clamped resolution, with the standard shader; the shader lookup keeps an existing slot and the whole registry, and only for an absent name inserts a fresh default shader (program 0, no names); textures are untouched |
| GameObjects.GameObject.UpdateModelMatrix | src/Classes/GameObject.cpp:61-80 | the model matrix becomes the composition of the transform; nothing else changes |
| GameObjects.GameObject.SetPosition | src/Classes/GameObject.cpp:26-30 | sets the position and recomposes the model matrix |
| GameObjects.GameObject.SetRotation | src/Classes/GameObject.cpp:32-36 | sets the rotation and recomposes the model matrix |
| GameObjects.GameObject.SetScale | src/Classes/GameObject.cpp:38-42 | sets the scale and recomposes the model matrix |
| GameObjects.GameObject.SetMesh | src/Classes/GameObject.cpp:44-47 | replaces the mesh pointer only |
| GameObjects.GameObject.SetMaterial | src/Classes/GameObject.cpp:49-52 | replaces the material pointer only |
| GameObjects.GameObject.GetModel | src/Classes/GameObject.cpp:54 | the model matrix is the composition of the current transform |
| GameObjects.GameObject.GetPosition | src/Classes/GameObject.cpp:55 | the position the last setPosition stored |
| GameObjects.GameObject.GetRotation | src/Classes/GameObject.cpp:56 | the rotation the last setRotation stored |
| GameObjects.GameObject.GetScale | src/Classes/GameObject.cpp:57 | the scale the last setScale stored |
| GameObjects.GameObject.GetMesh | src/Classes/GameObject.cpp:58 | the mesh pointer, null when none was given |
| GameObjects.GameObject.GetMaterial | src/Classes/GameObject.cpp:59 | the material pointer, null when none was given |
| GameObjects.GameObject.Draw | src/Classes/GameObject.cpp:82-90 | draws with the material's shader, the composed model matrix and the given view and projection |
| GameObjects.NewCubeAt | src/Classes/Cube.cpp:67-71 | a cube moved to the given position, with the cube constructor's registry frame |
| GameObjects.NewAxisAt | src/Classes/Axis.cpp:21-25 | an axis gizmo moved to the given position, with the axis constructor's registry frame |
| GameObjects.NewSphereAt | src/Classes/Sphere.cpp:88-92 | a sphere moved to the given position, with the sphere constructor's registry frame |
| Scenes.Camera.constructor | src/Classes/Scene.cpp:8-12 | a camera holds a view and a projection |
| Scenes.Scene.constructor | src/Classes/Scene.cpp:3-6 | an active scene without objects; the camera is never initialised and is arbitrary |
| Scenes.Scene.WithCamera | src/Classes/Scene.cpp:8-12 | an active scene with the given camera |
| Scenes.Scene.AddGameObject | src/Classes/Scene.cpp:14-20 | stores the object under its name, replacing any there |
| Scenes.Scene.GetGameObjects | src/Classes/Scene.cpp:22-25 | the scene's current objects |
| Scenes.Scene.SetCamera | src/Classes/Scene.cpp:27-30 | replaces the camera only |
| Scenes.Scene.GetCamera | src/Classes/Scene.cpp:32-35 | the current camera |
| Scenes.Scene.RenderScene | src/Classes/Scene.cpp:37-46 | draws every object exactly once, in ascending name order, with the camera's view and projection |
| Scenes.RenderOrder | src/Classes/Scene.cpp:39 | the draw order lists every object once, in strictly increasing name order |
| Uniforms.ReportedName | src/Classes/UI/UIManager.cpp:300-314 | the name read through the 256-byte buffer: at most 255 characters, a prefix of the full name |
| Uniforms.RFind | src/Classes/UI/UIManager.cpp:318 | the last occurrence at or before the position, or none |
| Uniforms.Find | src/Classes/UI/UIManager.cpp:318 | the first position of the character, or none iff it does not occur |
| Uniforms.SkippedIff | src/Classes/UI/UIManager.cpp:318 | a uniform is skipped iff it starts with "gl_", is model, view or projection, or contains '[' |
| Uniforms.ControlFor | src/Classes/UI/UIManager.cpp:318-357 | a non-skipped float gets a float slider, a non-skipped vec3 a vector slider, anything else nothing |
| Uniforms.GeneratedStep | src/Classes/UI/UIManager.cpp:312-358 | one more uniform adds its control, if any, over what was there |
| Uniforms.GeneratedCovers | src/Classes/UI/UIManager.cpp:312-358 | every accepted uniform's name is generated |
| Uniforms.GeneratedLastWins | src/Classes/UI/UIManager.cpp:330-337 | the control stored under a name is that of the last uniform yielding it |
| Uniforms.GeneratedNotSkipped | src/Classes/UI/UIManager.cpp:318-325 | no generated control has a skipped name |
| EngineUI.PanelNamesDistinct | src/Classes/UI/UIManager.cpp:124-128 | the five panel names are different |
| EngineUI.ControlState | src/Classes/UI/UIManager.cpp:330-337 | a generated slider starts at zero with bounds −10 and 10 and no handler |
| EngineUI.ShaderInfoContentsShape | src/Classes/UI/UIManager.cpp:284-358 | the shader info panel holds the recompile button plus exactly one slider per generated uniform name |
| EngineUI.AddWithHandler | src/Classes/UI/UIManager.cpp:225-231 | adds the element and binds the handler to it |
| EngineUI.AddTransformSlider | src/Classes/UI/UIManager.cpp:225-268 | adds one transform slider with its bound handler; the handler's arguments record the captured object, and the slider's value reaches it as the element state the `Run` event observes rather than as a second captured pointer |
| EngineUI.AddPlain | src/Classes/UI/UIManager.cpp:222 | adds an element without a handler |
| EngineUI.WithControlsUpdate | src/Classes/UI/UIManager.cpp:330-337 | storing one more control by name over the panel contents |
| EngineUI.AddUniformControl | src/Classes/UI/UIManager.cpp:313-357 | one loop step adds the uniform's control, if any, under its name |
| EngineUI.AddUniformControls | src/Classes/UI/UIManager.cpp:312-358 | the uniform loop stores the generated controls over the panel |
| EngineUI.AddSelect | src/Classes/UI/UIManager.cpp:148-150 | adds a select at index 0 whose handler captured it |
| EngineUI.RenderOne | src/Classes/UI/UIManager.cpp:55-64 | an active scene is rendered, an inactive one is not |
| EngineUI.ListPanelModel | src/Classes/UI/UIManager.cpp:135-207 | a list panel holds just its select |
| EngineUI.FillShaderList | src/Classes/UI/UIManager.cpp:142-157 | the "shaders" select lists every shader name in map order |
| EngineUI.FillObjectList | src/Classes/UI/UIManager.cpp:167-183 | the "gameObjects" select lists the standard scene's objects in map order |
| EngineUI.FillFeatures | src/Classes/UI/UIManager.cpp:192-206 | the "ViewMode" select offers line and fill |
| EngineUI.FillEngineLists | src/Classes/UI/UIManager.cpp:130-132 | the three list panels each hold just their select |
| EngineUI.ApplyTransformSlider | src/Classes/UI/UIManager.cpp:226-268 | the slider's value replaces one component of position or scale; everything else is kept |
| EngineUI.SliderComponentFollows | src/Classes/UI/UIManager.cpp:227-230 | the edited component equals the slider value, the others are kept, and writing back the old value restores the vector |
| EngineUI.ViewModeFor | src/Classes/UI/UIManager.cpp:194-205 | line exactly for index 0, fill for every other index |
| EngineUI.ViewModeMatchesOption | src/Classes/UI/UIManager.cpp:192-205 | the mode applied is the one the selected option names |
| EngineUI.RecompileAsWritten | src/Classes/UI/UIManager.cpp:285-292 | as written: reloads the captured slot from its recorded names, which must both be recorded since they are turned into strings unchecked |
| EngineUI.ReloadLosesSourceNames | src/Classes/ResourceManager.cpp:65-70 | a reload records no vertex name exactly when the vertex file is missing, and no fragment name exactly when the vertex or fragment file is missing |
| EngineUI.ReloadWithoutVertexFile | src/Classes/ResourceManager.cpp:57-68 | a reload whose vertex file is gone leaves a slot with no source names, which the next click passes to an unchecked string conversion |
| EngineUI.Recompile | src/Classes/UI/UIManager.cpp:285-292 | corrected: reloads the captured slot from its recorded names when vertex and fragment are recorded, and otherwise changes nothing |
| EngineUI.ClickAfterFailedReload | src/Classes/UI/UIManager.cpp:285-292 | with the correction, the click after a reload that found a file missing is defined and leaves the slot as that reload left it |
| EngineUI.RecompileKeepsSources | src/Classes/UI/UIManager.cpp:285-292 | with all files present, recompiling keeps the recorded names and changes only the program ID |
| EngineUI.UIManager.constructor | includes/UIClasses/UIManager.h:35-37 | no scenes and no panels |
| EngineUI.UIManager.AddScene | src/Classes/UI/UIManager.cpp:99-102 | stores the scene under its name |
| EngineUI.UIManager.AddUIPanel | src/Classes/UI/UIManager.cpp:104-111 | stores the panel under its name |
| EngineUI.UIManager.GetUIPanel | src/Classes/UI/UIManager.cpp:113-120 | the panel under the name, null iff absent |
| EngineUI.UIManager.PopulateGameObjectInfoPanel | src/Classes/UI/UIManager.cpp:209-269 | the object info panel is emptied, then holds a label alone for a null object or the name label and six transform sliders |
| EngineUI.UIManager.PopulateShaderInfoPanel | src/Classes/UI/UIManager.cpp:271-359 | the shader info panel is emptied, stays empty for a null or unbuilt shader, else holds the recompile button and the generated sliders |
| EngineUI.UIManager.PopulateShaderListPanel | src/Classes/UI/UIManager.cpp:135-158 | when the panel exists it gains the shader list select |
| EngineUI.UIManager.PopulateGameObjectListPanel | src/Classes/UI/UIManager.cpp:160-184 | when the panel exists it gains the object list select |
| EngineUI.UIManager.PopulateFeaturesPanel | src/Classes/UI/UIManager.cpp:186-207 | when the panel exists it gains the view-mode select |
| EngineUI.UIManager.ShowSelectedShader | src/Classes/UI/UIManager.cpp:150-157 | a selected shader that exists fills the shader info panel; otherwise nothing changes |
| EngineUI.UIManager.ShowSelectedObject | src/Classes/UI/UIManager.cpp:173-183 | a selected object that exists fills the object info panel; otherwise nothing changes |
| EngineUI.UIManager.RegisterEnginePanels | src/Classes/UI/UIManager.cpp:124-128 | five new empty panels under their five names; other panels kept |
| EngineUI.UIManager.GenerateEngineUI | src/Classes/UI/UIManager.cpp:122-133 | five new panels; the three lists filled, the two info panels empty |
| EngineUI.UIManager.Shutdown | src/Classes/UI/UIManager.cpp:27-38 | every registered panel is emptied |
| EngineUI.UIManager.RenderActiveScenes | src/Classes/UI/UIManager.cpp:51-66 | one outcome per scene in map order: active scenes drawn, inactive ones not |
| FlatUI.ClickedIsLastRender | src/Classes/UIManager.cpp:230-238 | a button's clicked flag is what its last render reported |
| FlatUI.SelectChangeSeenByPoll | src/Classes/UIManager.cpp:283-308 | a select never reports through render; a change becomes visible to the poll iff a different option is picked |
| FlatUI.FlatElement.ButtonElement | src/Classes/UIManager.cpp:225-229 | a new button is not clicked |
| FlatUI.FlatElement.SliderFloatElement | src/Classes/UIManager.cpp:240-244 | value and bounds as given |
| FlatUI.FlatElement.SliderVec3Element | src/Classes/UIManager.cpp:258-262 | vector and bounds as given |
| FlatUI.FlatElement.SelectElement | src/Classes/UIManager.cpp:276-282 | a new select has index −1 and no pending change |
| FlatUI.FlatElement.Render | src/Classes/UIManager.cpp:230-308 | the new state is the widget's frame update and the result is whether it reports |
| FlatUI.FlatElement.RenderSelect | src/Classes/UIManager.cpp:293-308 | the option loop leaves the last pick selected |
| FlatUI.FlatElement.IsClicked | src/Classes/UIManager.cpp:235-238 | the clicked flag |
| FlatUI.FlatElement.GetValue | src/Classes/UIManager.cpp:249-252 | the float value |
| FlatUI.FlatElement.SetValue | src/Classes/UIManager.cpp:253-256 | stores the value unclamped |
| FlatUI.FlatElement.GetVec3Value | src/Classes/UIManager.cpp:267-270 | the vector value |
| FlatUI.FlatElement.SetVec3Value | src/Classes/UIManager.cpp:271-274 | stores the vector |
| FlatUI.FlatElement.IsChanged | src/Classes/UIManager.cpp:283-288 | reports whether the index moved since the last poll, and clears the pending change |
| FlatUI.FlatElement.GetSelected | src/Classes/UIManager.cpp:289-292 | the selected index |
| FlatUI.AnyReportsIff | src/Classes/UIManager.cpp:50-57 | the flag accumulated over a name list is set iff some listed element reports |
| FlatUI.AnyReportsInModel | src/Classes/UIManager.cpp:50-57 | over all names, the flag is set iff some element reports |
| FlatUI.FlatRenderedOnAll | src/Classes/UIManager.cpp:50-57 | rendering every name renders every element |
| FlatUI.FlatRenderedStep | src/Classes/UIManager.cpp:50-57 | each element is rendered from its state before the pass |
| FlatUI.FlatControl | src/Classes/UIManager.cpp:159-168 | a float gets a float slider at 0, a vec3 a vector slider at 0, bounds −10 and 10 |
| FlatUI.FlatWithControlsUpdate | src/Classes/UIManager.cpp:159-168 | storing one more control by name |
| FlatUI.FlatShaderContentsShape | src/Classes/UIManager.cpp:115-184 | the button plus one slider per generated name, that of the last uniform yielding it |
| FlatUI.RevisionsGenerateSameNames | src/Classes/UIManager.cpp:142-184 | both UI revisions generate the same element names and the same slider per name |
| FlatUI.FlatUIManager.constructor | src/Classes/UIManager.cpp:4-6 | no elements and the flag clear |
| FlatUI.FlatUIManager.AddUIElement | src/Classes/UIManager.cpp:95-101 | stores the element under its name, replacing any there |
| FlatUI.FlatUIManager.ClearDynamicUIElements | src/Classes/UIManager.cpp:108-110 | drops every element |
| FlatUI.FlatUIManager.HasShaderUniformsChanged | src/Classes/UIManager.cpp:103-106 | the flag |
| FlatUI.FlatUIManager.ResetShaderUniformsChangedFlag | includes/UtilClasses/UIManager.h:107 | clears the flag and nothing else |
| FlatUI.FlatUIManager.Find | src/Classes/UIManager.cpp:192-222 | non-null exactly for a present element of the requested kind |
| FlatUI.FlatUIManager.GetButton | src/Classes/UIManager.cpp:192-198 | the button under the name, or null |
| FlatUI.FlatUIManager.GetSliderFloat | src/Classes/UIManager.cpp:199-206 | the float slider under the name, or null |
| FlatUI.FlatUIManager.GetSliderVec3 | src/Classes/UIManager.cpp:207-214 | the vector slider under the name, or null |
| FlatUI.FlatUIManager.GetSelect | src/Classes/UIManager.cpp:215-222 | the select under the name, or null |
| FlatUI.FlatUIManager.RenderElement | src/Classes/UIManager.cpp:53 | renders one element; no other changes |
| FlatUI.FlatUIManager.RenderInOrder | src/Classes/UIManager.cpp:50-57 | renders the named elements in order, accumulating whether any reported |
| FlatUI.FlatUIManager.RenderAll | src/Classes/UIManager.cpp:50-57 | every element rendered; the result is set iff some element reported |
| FlatUI.FlatUIManager.RenderGameUI | src/Classes/UIManager.cpp:44-61 | every element rendered; the flag is set exactly when some element reported this frame |
| FlatUI.FlatUIManager.AddUniformControl | src/Classes/UIManager.cpp:143-183 | one loop step adds the uniform's control, if any |
| FlatUI.FlatUIManager.GenerateUIFromShader | src/Classes/UIManager.cpp:112-185 | cleared; empty for a null or unbuilt shader, else the button and the generated sliders |
| FlatUI.FlatUIManager.GenerateUI | src/Classes/UIManager.cpp:187-190 | adds the "ViewMode" select with options line and fill |
| Input.KeyTable | src/callbacks.cpp:61-71 | a key in the table is held after a press and free after a release; no other key changes |
| Input.ToggleTwiceRestores | src/callbacks.cpp:34-59 | releasing the same toggle key twice restores every toggle |
| Input.TogglesOnlyOnRelease | src/callbacks.cpp:34-59 | a toggle flips exactly on a release of its own key |
| Input.CloseOnlyOnEscape | src/callbacks.cpp:26-32 | the window is asked to close exactly on an ESC press |
| Input.PressThenRelease | src/callbacks.cpp:61-71 | a press then a release leaves the key free and the others as they were |
| Input.AfterButton | src/callbacks.cpp:122-141 | middle and right buttons drive the middle slot: a press records the drag origin, a release resets it to −1 |
| Input.AfterCursor | src/callbacks.cpp:81-91 | a cursor move always records the position |
| Input.DragOffsetsAdd | src/callbacks.cpp:88-104 | two moves in a drag move the camera by the same total offset as one move, y growing upwards |
| Input.ReleaseEndsDrag | src/callbacks.cpp:133-138 | after a release no cursor move reaches the camera |
| Input.PressStartsDrag | src/callbacks.cpp:127-131 | a press starts a drag unless the cursor x is exactly the −1 sentinel |
| Input.Game.State | src/Classes/Game.cpp:3-11 | the input state as a value |
| Input.Game.constructor | src/Classes/Game.cpp:3-11 | no key held and every mouse slot released |
| Input.KeyboardCallback | src/callbacks.cpp:21-73 | with a game: ESC closes, 1/2/3 releases flip toggles and emit their effect, the key table follows |
| Input.MouseButtonCallback | src/callbacks.cpp:122-141 | with a game the state follows the button event |
| Input.CursorPositionCallback | src/callbacks.cpp:75-107 | records the position; during a drag with a main scene, pans (shift) or orbits by the offset |
| Input.MouseScrollCallback | src/callbacks.cpp:109-120 | zooms the main scene's camera by the vertical offset |
| Input.FramebufferSizeCallback | src/callbacks.cpp:4-19 | sets the viewport, then updates the main scene's projection when there is one |

## Left out

- GL, GLFW and ImGui calls: `Shader::Compile`, `Use` and the uniform setters, `glPolygonMode`, `glViewport`, buffer set-up and the window/frame functions (`Init`, `StartFrame`, `EndFrame`, `update`). These are foreign calls. Their effects are recorded as draw calls, events or effects.
- `RenderEngineUI` (src/Classes/UI/UIManager.cpp:68-82). It renders every panel. Panels are references and may share elements or be stored under two names, and a sequence of panel renders over shared state is not modelled. One panel's render is modelled by `UIPanels.UIPanel.Render`.
- Camera arithmetic. Pan, orbit, zoom, `updateProjection` and the view/projection matrices are numerics outside these files; they appear as effects and as given matrices.
- Floating point. Components, slider values and cursor offsets are reals, and the double-to-float narrowing of cursor offsets is not modelled. The sphere's trigonometry is a vertex function parameter. The radius reaches it unchecked, including the division by a zero radius.
- Meshes.SphereIndices: does not model 32-bit unsigned wrap-around of `k1` and `k2`. Indices are naturals.
- File contents and image decoding. Texture loading keeps only the ID and the alpha flag. Shader loading sees which files exist, as a set of paths.
- Logging and exceptions that are only logged. A failed file check abandons the load; that is modelled.
- The older revision's `addScene` (src/Classes/UIManager.cpp:82-85), which copies a scene value, and its `RenderActiveScenes` (9-24), which is the same loop as the current one.
- Clamping of slider values: the sliders never clamp to [min, max]. They store what the widget wrote, and setValue stores its argument as given. The model follows the code.
- The capture of `this` and of raw element pointers by handlers. A handler's pointer argument is kept, but it is not checked that the pointee is still alive.
- Input.FramebufferSizeCallback: the lookup `Scenes[STD_SCENE]` (src/callbacks.cpp:13) inserts a null entry when the name is absent. The model takes the lookup's result as `hasMainScene` and does not add the entry. The next `RenderActiveScenes` (src/Classes/UI/UIManager.cpp:53-55) then dereferences that null scene; the model does not capture this.
- Input.CursorPositionCallback: the same lookup (src/callbacks.cpp:94) inserts a null entry when the name is absent, with the same consequence for `RenderActiveScenes`. The model does not add the entry.
- Input.MouseScrollCallback: the same lookup (src/callbacks.cpp:114) inserts a null entry when the name is absent, with the same consequence for `RenderActiveScenes`. The model does not add the entry.
- Input.Game.constructor: the toggles and the last cursor position are not initialised in the shown code, so they are constructor parameters.
- The game loop, `Game::Init` and scene set-up (src/Classes/Game.cpp, src/main.cpp), and `Mesh.cpp` buffer handling. These are context, not core.

## Findings

| source | as written | input that shows it | evidently intended | confidence | as-written member | corrected member |
|---|---|---|---|---|---|---|
| src/Classes/UI/UIManager.cpp:285-292 with src/Classes/ResourceManager.cpp:57-68 | the recompile handler passes the captured slot's vertex and fragment names to `loadShaderFromFile`, which turns them into strings unchecked; a reload that finds a file missing stores a shader without those names in the same slot | a shader built from `basic.vert` and `basic.frag`; `basic.vert` is removed; the button is clicked twice: the second click converts a null vertex name | a click with no recorded names does nothing, so the button can be clicked any number of times | not executed; medium | EngineUI.RecompileAsWritten, EngineUI.ReloadLosesSourceNames, EngineUI.ReloadWithoutVertexFile | EngineUI.Recompile, EngineUI.ClickAfterFailedReload |
