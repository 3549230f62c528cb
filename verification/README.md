# pytti loss orchestration, modelled in Dafny

pytti drives gradient-guided image synthesis. An optimiser repeatedly changes
an image representation to lower a weighted sum of loss terms. This project
models the part that decides which auxiliary loss terms join a run, and how
each one is set up: its loss class, display name, target image, image shape
and enabled flag. That part has two sources:

- **The three configurators** of `LossOrchestratorClass.py`:
  - `configure_init_image` encodes the init image and builds the `direct_init_weight` term. With a live `semantic_init_weight` it then calls the prompt parser. As written, that call raises `NameError` (see Findings); the model's configurator uses the corrected step.
  - `configure_stabilization_augs` builds the direct, depth and edge stabilization terms.
  - `configure_optical_flows` builds the temporal optical-flow terms. It also adds the total-variation smoothing term.
- **The helpers they rely on**, from `Notebook.py`:
  - the loss factory `build_loss`;
  - the numbered-output-file helpers `get_last_file` and `get_next_file`;
  - the CLIP model cache `load_clip`.

How the state is represented:

- Loss terms are values (`LossAug.LossTerm`).
- Three objects are classes whose fields the methods update:
  - the caller's `loss_augs` list (`LossAug.LossAugList`);
  - the image, which records what it was asked to encode (`LossAug.Image`);
  - the run parameters (`LossOrchestrator.RunParams`). Only its `flow_stabilization_weight` is ever written.
- `LOSS_DICT` is passed in as a map from loss-kind prefix to loss class.
- Python exceptions are modelled as `Err` results:
  - `ValueError` from unpacking a split with no `_`;
  - `KeyError` for an unregistered prefix;
  - `IndexError` for an empty template list;
  - `RuntimeError` when no CLIP model is selected;
  - `NameError` as described under Findings.

How the enabled flag comes about:

- **Sentinel weights.** The init and stabilization comprehensions skip a `""` or `"0"` weight, so no term is built for it (`InitTermsExact`, `StabilizationTermsExact`).
- **Terms built by `build_loss`** are enabled exactly when a target image is given. Stabilization terms built while there is no init image therefore start disabled.
- **Optical-flow terms** are the only terms built disabled whatever their weight and target, including `"0"` in Video Source mode.

## Model

| member | source | states |
|---|---|---|
| Text.SplitAtFirst | src/pytti/Notebook.py:254 | `split("_", 1)` has two parts exactly when the separator occurs. The parts rebuild the text around the first separator, and the head holds no separator. |
| Text.SplitAtFirstOf | src/pytti/Notebook.py:254 | Splitting `head + "_" + tail`, where `head` has no `_`, gives back exactly `head` and `tail`. |
| Text.NatToStringRoundTrip | src/pytti/LossAug/LossOrchestratorClass.py:91 | Reading back the decimal rendering of a number gives the number. |
| Text.IntToStringInjective | src/pytti/LossAug/LossOrchestratorClass.py:91 | Different integers are formatted as different texts, sign included. |
| LossAug.Image.EncodeImage | src/pytti/LossAug/LossOrchestratorClass.py:33 | Encoding records exactly one more image, at the end of the encode log. |
| LossAug.LossAugList.Extend | src/pytti/LossAug/LossOrchestratorClass.py:50 | `loss_augs.extend(ts)` appends `ts` in order and keeps every earlier entry. |
| LossAug.LossAugList.Append | src/pytti/LossAug/LossOrchestratorClass.py:116 | `loss_augs.append(t)` appends one term and keeps every earlier entry. |
| Notebook.BuildLoss | src/pytti/Notebook.py:251-263 | A weight name without `_` raises `ValueError`. A built term always has the image's shape and the given target, and it is enabled exactly when a target was given. |
| Notebook.BuildLossOf | src/pytti/Notebook.py:254-261 | For `kind_rest`: `direct` selects the image's preferred loss and any other kind its `LOSS_DICT` entry; an unregistered kind raises `KeyError(kind)`. The term is named `"<kind> <name>:<weight>"`. |
| Notebook.InsertByKey | src/pytti/Notebook.py:73 | Inserting into a key-sorted list keeps it sorted and adds exactly the one file. |
| Notebook.SortByKey | src/pytti/Notebook.py:73 | `files.sort(key=key)` returns a key-sorted permutation of the files. |
| Notebook.InsertByKeyLast | src/pytti/Notebook.py:73-74 | After inserting, the last file is the new one only if its key is strictly larger than the last key; an equal key stays behind the existing file. |
| Notebook.SortByKeyLast | src/pytti/Notebook.py:73-75 | The file the stable sort puts last has the largest key, and no file listed after it has that key. |
| Notebook.LastFile | src/pytti/Notebook.py:65-75 | `get_last_file` finds no file exactly when none matched. Otherwise it returns the last-listed file with the largest index, and that index (an empty index counts as 0). |
| Notebook.NextFile | src/pytti/Notebook.py:79-113 | See the note below the table. |
| Notebook.SortByKeyStrict | src/pytti/Notebook.py:89 | Sorting files with pairwise different indices gives strictly increasing indices. |
| Notebook.NextIndexIsSmallestFree | src/pytti/Notebook.py:89-105 | For distinct non-negative indices, the index `get_next_file` settles on is the smallest index no file carries, and every smaller index is taken. |
| Notebook.SelectedModelNames | src/pytti/Notebook.py:211-219 | `CLIP_MODEL_NAMES` holds exactly the selected models, each once, in the fixed order RN50x4, RN50, ViT-B/32, ViT-B/16. It is empty exactly when none is selected. |
| Notebook.ClipSession.LoadClip | src/pytti/Notebook.py:202-227 | See the note below the table. |
| Notebook.ClipSession.FreeClip | src/pytti/Notebook.py:222 | `free_clip` unloads the perceptors. |
| Notebook.ClipSession.InitClip | src/pytti/Notebook.py:226 | `init_clip(names)` loads perceptors for exactly those names. |
| LossOrchestrator.BuildAll | src/pytti/LossAug/LossOrchestratorClass.py:74-78 | The `build_loss` comprehension yields at most one term per key. Each term has the image shape and the given target, and is enabled exactly when the target is present. |
| LossOrchestrator.BuildForOf | src/pytti/LossAug/LossOrchestratorClass.py:75 | What `build_loss` makes of each weight key: the loss class, the name, or the `KeyError` naming the kind. |
| LossOrchestrator.BuildAllCons | src/pytti/LossAug/LossOrchestratorClass.py:74-78 | The comprehension handles its keys in order, and the first exception raised ends it. |
| LossOrchestrator.BuildOneOf | src/pytti/LossAug/LossOrchestratorClass.py:74-78 | Each key contributes nothing when its weight is `""` or `"0"`, and otherwise its term or its `KeyError`. |
| LossOrchestrator.InitTermsExact | src/pytti/LossAug/LossOrchestratorClass.py:38-49 | `init_augs` never raises. It is empty for a sentinel `direct_init_weight`. Otherwise it holds one enabled term of the preferred loss, aimed at the init image and named `direct init image (<path>):<weight>`. |
| LossOrchestrator.SemanticInitPromptAsWritten | src/pytti/LossAug/LossOrchestratorClass.py:51-59 | As written, a live `semantic_init_weight` raises `NameError` on `embedder`; a sentinel weight gives no semantic prompt. |
| LossOrchestrator.SemanticInitPrompt | src/pytti/LossAug/LossOrchestratorClass.py:51-59 | As intended: a sentinel weight gives no prompt. A live weight gives the prompt parsed from `init image [<path>]:<weight>` against the init image, or the parser's exception. |
| LossOrchestrator.SemanticInitNameError | src/pytti/LossAug/LossOrchestratorClass.py:52-56 | Whenever the prompt parses, the written code raises where the intended step returns the parsed prompt. |
| LossOrchestrator.ConfigureInitImage | src/pytti/LossAug/LossOrchestratorClass.py:21-63 | See the note below the table. Its semantic step is the corrected `SemanticInitPrompt` of the Findings row, not the code as written. |
| LossOrchestrator.StabilizationTermsJoin | src/pytti/LossAug/LossOrchestratorClass.py:69-78 | The stabilization list is the contributions of direct, depth and edge, joined in that order. |
| LossOrchestrator.StabilizationTermsExact | src/pytti/LossAug/LossOrchestratorClass.py:66-81 | See the note below the table. |
| LossOrchestrator.ConfigureStabilizationAugs | src/pytti/LossAug/LossOrchestratorClass.py:66-81 | It returns the stabilization terms and appends exactly them to `loss_augs`. A raised exception leaves the list unchanged. |
| LossOrchestrator.Pow2Increasing | src/pytti/LossAug/LossOrchestratorClass.py:91 | `2**i` is strictly increasing in `i`, so the look-back frames differ. |
| LossOrchestrator.VideoFlowTermsAt | src/pytti/LossAug/LossOrchestratorClass.py:89-97 | The i-th Video Source term is an `OpticalFlowLoss` of the image shape with no target, starts disabled, and is named after offset `-(2**i)`. |
| LossOrchestrator.VideoFlowNamesDistinct | src/pytti/LossAug/LossOrchestratorClass.py:89-95 | Any two Video Source terms have different names, so each term's look-back can be read from its name. |
| LossOrchestrator.OpticalFlowTermsShape | src/pytti/LossAug/LossOrchestratorClass.py:86-113 | See the note below the table. |
| LossOrchestrator.DisableAll | src/pytti/LossAug/LossOrchestratorClass.py:96-97 | The loop leaves the list the same length, with each term disabled and otherwise unchanged. |
| LossOrchestrator.NewVideoFlowTerms | src/pytti/LossAug/LossOrchestratorClass.py:89-97 | Building one term per `i in range(n + 1)` and disabling them all gives exactly the Video Source term list. |
| LossOrchestrator.ConfigureOpticalFlows | src/pytti/LossAug/LossOrchestratorClass.py:84-118 | See the note below the table. |
| LossOrchestrator.VideoSourceExample | src/pytti/LossAug/LossOrchestratorClass.py:86-97 | Video Source with `flow_long_term_samples = 2` and weight `"1.0"` gives three disabled terms, looking back frames -1, -2 and -4. |

The rows whose "states" cell says "see the note" state the following.

`Notebook.NextFile` (`get_next_file`):
- It raises `IndexError` exactly when the template list is empty.
- Otherwise the index is in `0..|files|`. It is the first sorted position whose key differs from the position, or `|files|` when there is none.
- Index 0 returns the first template unchanged.
- A larger index is substituted into `templates[min(i, n)]`. Here `i` is the position where the scan stopped, which is the last position on the fall-through path.

`Notebook.ClipSession.LoadClip` (`load_clip`):
- The cache always becomes the selected names.
- When the names are unchanged and perceptors are loaded, nothing else happens.
- Otherwise, with no model selected, it frees the perceptors and raises `RuntimeError("Please select at least one CLIP model")`.
- Otherwise it frees, then initialises, the selected models.
- If the loaded perceptors matched the cache before the call, they match it after the call.

`LossOrchestrator.ConfigureInitImage` (`configure_init_image`):
- With no init image, nothing changes and it returns `([], None)`.
- Otherwise it encodes the init image unless restoring.
- It then appends exactly `init_augs` to `loss_augs`.
- It returns `init_augs` with the result of the corrected semantic step `SemanticInitPrompt`: the parsed prompt, or the prompt parser's exception. As written, the code raises `NameError` at this point for every live `semantic_init_weight` (see Findings).

`LossOrchestrator.StabilizationTermsExact` (the stabilization list):
- There is one term per key among direct, depth and edge whose weight is not a sentinel, in that order.
- Each term is enabled exactly when an init image is present. It targets the init image and is named in the `stabilization` context.
- An unregistered live `depth` kind raises `KeyError("depth")`. This is checked before `edge`.

`LossOrchestrator.OpticalFlowTermsShape` (the optical-flow list):
- Its length is `n + 1` for Video Source (none when `n + 1 <= 0`), and 1 for 3D with a live weight. It is 0 otherwise.
- Every term is a disabled target-image term with no target.

`LossOrchestrator.ConfigureOpticalFlows` (`configure_optical_flows`):
- Video Source turns an empty flow weight into `"0"`.
- The returned list is the optical-flow list for the mode.
- `loss_augs` gains exactly those terms, then the TV term when the smoothing weight is non-zero.

## Left out

- `display.display(img.decode_image())`, `logger` calls and the tensor contents of the image are not modelled. The image is known only by its shape, its preferred loss and the log of images it encoded.
- `prompts[0].append(semantic_init_prompt)`: `prompts`, like `embedder`, is not defined in the module. The corrected model returns the semantic prompt and does not model the scene prompt list it was meant to join.
- Loss terms are values. The model therefore does not capture that the objects returned in `optical_flows` are the same objects appended to `loss_augs`. For the same reason, later in-place changes by the animation driver are not captured.
- `os.listdir`, `re.match` and `re.sub` in `get_last_file` and `get_next_file` are abstracted:
  - The input is the list of matching files, in listing order, each with its parsed `index` group. An empty group is `None` and counts as 0.
  - The returned name is `Verbatim(template)` or `Substituted(template, number)` rather than the substituted text.
  - `int()` failing on a non-numeric group is not modelled.
- `Notebook.LastFile` returns the file and key as a pair. Python's `(None, None)` for no match is `None`.
- `Notebook.SortByKey` is an insertion sort that specifies Python's stable `list.sort`. Only its result is modelled, not Timsort.
- `Perceptor.free_clip` and `Perceptor.init_clip` are known only by the calls made and the names loaded. The CLIP models and the GPU are not modelled. The global `CLIP_MODEL_NAMES` is a field of `ClipSession` and holds model identifiers; `ClipModel.Name` gives their strings.
- The loss classes are not part of this model. `cls.TargetImage(name, shape, target)` is taken to be the `LossTerm` constructor `TargetImageLoss(cls, name, shape, target, true)`, and `TVLoss(weight=w)` to be `TVLoss(w, true)`: every fresh term is enabled. `set_enabled(e)` is the record update `.(enabled := e)`. How the loss classes parse the weight out of the term name is not modelled either, so a malformed weight string, which would raise inside them, is not reached.
- `smoothing_weight` is modelled as a number (`real`), since the code compares it with `!= 0`. The other weights are strings, compared with `""` and `"0"` as the code does.
- Integers are unbounded, as in Python. `flow_long_term_samples` may be negative, in which case `range(n + 1)` is empty.
- The other functions of `Notebook.py` are outside the orchestration and are not modelled: `is_notebook`, `change_tqdm_color`, `make_hbox`, `load_settings`, `write_settings`, `save_settings`, `save_batch` and `get_frames`. They are widget, settings-file and video I/O.
- tests/test_models_load.py concerns model loading elsewhere and is not part of this model.

## Findings

| source | as written | input that shows it | evidently intended | confidence | as-written member | corrected member |
|---|---|---|---|---|---|---|
| src/pytti/LossAug/LossOrchestratorClass.py:52-57 | `parse_prompt(embedder, …)` and `prompts[0].append(…)` use names that the module neither defines nor imports. | An init image with `semantic_init_weight = "1"`: evaluating the call raises `NameError` on `embedder`. This happens after the image was encoded and `init_augs` was appended. | Parse `init image [<path>]:<weight>` against the init image with the run's embedder, and return the parsed prompt as the semantic init prompt. | high (not executed) | LossOrchestrator.SemanticInitPromptAsWritten, LossOrchestrator.SemanticInitNameError | LossOrchestrator.SemanticInitPrompt |
