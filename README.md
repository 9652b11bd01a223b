# r6-nice-talker, modelled in Dafny

This project models the core of r6-nice-talker and proves properties of that model. r6-nice-talker is a desktop tool. It generates short in-game chat lines through a remote chat-completion API under a selectable persona, then either types them or speaks them through a chosen audio device. The model covers the following parts of the program:

- **Message providers** (`Providers`, providers.dfy):
  - the fixed and random providers;
  - the ChatGPT provider with its persona list, wrapping persona index and five-line rolling history;
  - the request it sends;
  - the clean-up of a completion: strip, quote removal, the hashtag cut and emoji removal.
- **Emoji removal** (`Emoji`, emoji.dfy): `remove_emojis`, which deletes seven fixed code-point ranges and then strips.
- **The development cache** (`DevCache`, cache.dfy):
  - a directory of JSON records keyed by a hash of the sorted call parameters;
  - strict time-to-live expiry;
  - lazy deletion on `get`, the maintenance sweeps and `stats`.
- **The event bus** (`Events`, events.dfy): a FIFO queue. It drops publications when no event loop was captured or the loop has stopped.
- **The ROI editor of debug_rois.py**:
  - `RoiCommands` (roi_commands.dfy): the insertion-ordered ROI dictionary, the four undoable commands, and the undo and redo stacks bounded at 50.
  - `RoiEditor` (roi_editor.dfy): resize-handle hit testing, resizing, and the mouse and key handlers over the editor's fields.
- **The health check** (`HealthChecks`, health_check.dfy):
  - the result recorder and its counters;
  - the Python-version, packages, `.env`, API-key and `prompts.json` validators;
  - `run_all_checks` and its exit code.
- **Audio output** (`Voice`, voice.dfy):
  - device resolution by index, exact name or case-insensitive substring;
  - the rule that turns monitoring off without a target device;
  - the guards of ElevenLabs synthesis.
- **The device listing of list_devices.py** (`DeviceListing`, list_devices.dfy):
  - the filter, de-duplication and default-marker pass over the devices.
- **Python string and collection semantics** the code relies on (`Text`, text.dfy): `str.isspace`, `strip`, `split(sep)[0]`, substring `in`, ASCII `lower`, `str(n)` for naturals, `join`, and `deque(maxlen=N).append`.

Everything outside the process is a parameter of the operation that reads it:

- the clock (`now`);
- the file contents and whether they exist or parse;
- the interpreter version;
- which modules import;
- the configuration values;
- the device list;
- the outcome of the remote completion or speech call;
- the random choice.

Facts about the code that shape the model:

- `ChatGPTProvider.get_message` keeps no response cache and has no dry-run flag.
- The persona list is read once, in `ChatGPTProvider.__init__`.
- A persona is read as an object with a `name` and a `prompt`, and `_load_prompts` returns the file's entries without filtering them.
- `DevCache` keys are a hash of whatever keyword arguments a caller passes.

A few behaviours of the code that a reader might not expect are kept as written and proved:

- `remove_emojis` is documented as removing every non-BMP character. It removes only its seven ranges, so U+1D11E survives (`Emoji.NonBmpCharacterSurvives`).
- `check_packages` tests for a comment on the unstripped line. An indented `# pinned` therefore becomes the requirement `# pinned` (`HealthChecks.IndentedCommentKept`).
- An undone deletion puts the ROI's name last in dictionary order, so click priority among overlapping ROIs can change (`RoiCommands.RevertRestores`).
- Naming a new ROI with a name already taken overwrites that ROI. Undoing the creation then deletes the name, so the overwritten ROI is lost (`RoiCommands.CreateOverExisting`).

## Model

| member | source | states |
|---|---|---|
| Text.LStrip | src/utils.py:56 | left strip: never longer, and the result does not start with whitespace |
| Text.RStrip | src/utils.py:56 | right strip: never longer, and the result does not end with whitespace |
| Text.Strip | src/utils.py:56 | `str.strip()`: never longer, and no whitespace at either end of the result |
| Text.StripOnlyDrops | src/providers.py:131 | stripping introduces no character that was not in the input |
| Text.StripKeeps | src/providers.py:131 | every non-whitespace character of the input survives stripping |
| Text.StripUnchanged | src/providers.py:131 | a string without surrounding whitespace is its own strip |
| Text.StripIdempotent | src/providers.py:131 | stripping twice equals stripping once |
| Text.StripEmptyIffAllSpace | src/voice.py:108 | `s.strip()` is empty exactly when every character of `s` is whitespace |
| Text.ContainsChar | src/providers.py:137 | `c in s` as a one-character substring test is character membership |
| Text.FindFrom | src/health_check/__init__.py:74 | the first occurrence of the pattern at or after `start`, with no earlier one; `None` only when there is none |
| Text.Find | src/health_check/__init__.py:74 | found exactly when the pattern occurs; the index is that of the first occurrence |
| Text.SplitHead | src/health_check/__init__.py:74 | `s.split(sep)[0]` is a prefix of `s` without `sep`; it is all of `s` when `sep` does not occur, and otherwise `sep` follows it |
| Text.Lower | src/voice.py:217 | same length, each character lowered as ASCII `lower` does |
| Text.NatToString | src/health_check/__init__.py:93 | `str(n)`: non-empty decimal digits without a leading zero |
| Text.NatToStringRoundTrip | src/health_check/__init__.py:93 | reading back the digits of `str(n)` gives `n` |
| Text.NatToStringInjective | src/health_check/__init__.py:257 | different counts render differently |
| Text.Join | src/health_check/__init__.py:90 | `sep.join(parts)`: empty for no parts; otherwise it starts with the first part and its length is that of all parts plus one separator between each two |
| Text.TotalLength | src/health_check/__init__.py:90 | the number of characters over all parts; a helper for the length of `Join` |
| Text.BoundedAppend | src/providers.py:63 | `deque(maxlen=cap).append(x)`: the length grows by one up to `cap`, and `x` is last |
| Text.BoundedAppendKeepsNewest | src/providers.py:144 | the bounded deque is the newest suffix of the plain append: only the oldest entries are evicted |
| Emoji.EmojiIsNotSpace | src/utils.py:46-56 | no character of the seven ranges is whitespace, so removal and stripping do not interfere |
| Emoji.InEmojiRange | src/utils.py:46-55 | the character class of the pattern: a code point in one of the seven ranges, emoticons, symbols and pictographs, transport and map, flags, dingbats, miscellaneous symbols and supplemental symbols |
| Emoji.DropEmojis | src/utils.py:56 | `emoji_pattern.sub('', text)`: the characters outside the ranges in their order, never longer than the input (`DropEmojisMembers` and `DropEmojisUnchanged` give its meaning) |
| Emoji.RemoveEmojis | src/utils.py:34-56 | `remove_emojis`: the substitution followed by `strip()`; its properties are the `RemoveEmojis*` lemmas below |
| Emoji.DropEmojisMembers | src/utils.py:46-56 | a character survives the substitution exactly when it was present and lies outside the seven ranges |
| Emoji.DropEmojisUnchanged | src/utils.py:46-56 | a string with no in-range character passes the substitution unchanged |
| Emoji.RemoveEmojisHasNoEmoji | src/utils.py:46-56 | no character of the result lies in any of the seven ranges |
| Emoji.RemoveEmojisKeeps | src/utils.py:46-56 | every non-whitespace character outside the ranges survives, whatever plane it is in |
| Emoji.NonBmpCharacterSurvives | src/utils.py:35-54 | the docstring promises removal of non-BMP characters, but U+1D11E passes through unchanged |
| Emoji.TrailingEmojiRemoved | src/utils.py:56 | `"gg 😀"` becomes `"gg"`: the emoji and then the space before it are removed |
| Emoji.RemoveEmojisNotLonger | src/utils.py:56 | the result is never longer than the input |
| Emoji.RemoveEmojisIdempotent | src/utils.py:34-56 | removing emojis twice equals removing them once |
| Emoji.RemoveEmojisUnchanged | src/utils.py:34-56 | a clean, stripped string is returned as is |
| Providers.SimpleMessage | src/providers.py:23-44 | the fixed provider returns its message; the random provider returns one of its messages, or `""` when it has none |
| Providers.InitialPersonas | src/providers.py:59-93 | a failed or empty load yields exactly the default persona; otherwise the loaded list is kept |
| Providers.FirstNamed | src/providers.py:69-73 | the first index holding the name, with no earlier one; `None` only when the name is absent |
| Providers.InitialIndex | src/providers.py:69-73 | the start index is the first "Reputation Farmer", or 0 when there is none |
| Providers.NextIndex | src/providers.py:155 | `(i + 1) % n` stays in range and wraps from the last persona to the first |
| Providers.PrevIndex | src/providers.py:161 | Python's `(i - 1) % n` stays in range and wraps from the first persona to the last |
| Providers.NextPrevInverse | src/providers.py:154-164 | next then previous, and previous then next, both return to the same persona |
| Providers.BuildMessages | src/providers.py:113-121 | the request is one system turn, then the history as assistant turns oldest first, then one user turn |
| Providers.RemoveQuotes | src/providers.py:134 | removing quotes never lengthens the text |
| Providers.RemoveQuotesMembers | src/providers.py:134 | every `"` and `'` is removed, and every other character stays |
| Providers.RemoveQuotesUnchanged | src/providers.py:134 | text without quotes is unchanged |
| Providers.CutHashtag | src/providers.py:137-138 | the result has no `#`, and text without `#` is unchanged |
| Providers.CutHashtagOnlyDrops | src/providers.py:137-138 | the hashtag cut introduces no character |
| Providers.SanitizeClean | src/providers.py:131-141 | a cleaned completion has no quote, `#` or in-range emoji, no surrounding whitespace, and is not longer than the raw text |
| Providers.Sanitize | src/providers.py:131-141 | the clean-up of a completion in the source's order: strip, remove quotes, cut at `#` when present, remove emojis; its guarantees are `SanitizeClean` and `SanitizeIdempotent` |
| Providers.SanitizeIdempotent | src/providers.py:131-141 | cleaning an already cleaned line changes nothing |
| Providers.CutHashtagExample | src/providers.py:137-138 | `"gg #ez"` is cut to `"gg"` |
| Providers.RemoveQuotesExample | src/providers.py:134 | quotes are removed inside the text as well as at its ends |
| Providers.SanitizeExample | src/providers.py:131-141 | `"'g'g #ez"` is cleaned to `"gg"` |
| Providers.ChatGptProvider.constructor | src/providers.py:56-76 | personas as loaded or the default; the index is on the first "Reputation Farmer", else 0; empty history |
| Providers.ChatGptProvider.CurrentModeName | src/providers.py:166-167 | the current mode name is the name of a loaded persona |
| Providers.ChatGptProvider.NextMode | src/providers.py:154-158 | the index moves forward with wrap-around, the personas are kept, and the history is cleared |
| Providers.ChatGptProvider.PrevMode | src/providers.py:160-164 | the index moves back with wrap-around, the personas are kept, and the history is cleared |
| Providers.ChatGptProvider.BuildRequest | src/providers.py:103-121 | the request for the current persona's system prompt, the history and the scenario |
| Providers.ChatGptProvider.GetMessage | src/providers.py:103-152 | on a reply: the cleaned text, appended to the history bounded at 5. On an error: the fixed error text, with history unchanged. The persona is unchanged either way |
| Providers.StartsOnPreferred | src/providers.py:65-73 | a loaded list that names "Reputation Farmer" starts on a persona of that name |
| DevCache.StrLeTotal | src/cache.py:51 | Python's string `<=` is total |
| DevCache.StrLe | src/cache.py:51 | Python's lexicographic string `<=` on code points, with a proper prefix ordered first; `StrLeTotal`, `StrLeAntisymmetric` and `StrLeTransitive` make it a total order |
| DevCache.StrLeAntisymmetric | src/cache.py:51 | two strings each `<=` the other are equal |
| DevCache.StrLeTransitive | src/cache.py:51 | string `<=` is transitive |
| DevCache.Insert | src/cache.py:51 | insertion adds exactly one element and keeps all others |
| DevCache.SortParams | src/cache.py:51 | `sorted(kwargs.items())` is a permutation of the parameters |
| DevCache.InsertSorted | src/cache.py:51 | insertion into a sorted list keeps it sorted |
| DevCache.SortParamsSorted | src/cache.py:51 | the sorted parameters are in `(name, value)` order |
| DevCache.SortedUnique | src/cache.py:51 | two sorted arrangements of the same parameters are identical |
| DevCache.KeyOrderIndependent | src/cache.py:40-53 | calls whose keyword arguments are permutations of each other get the same key |
| DevCache.Key | src/cache.py:40-53 | `_generate_key`: the hash of the keyword arguments sorted by `(name, value)` |
| DevCache.ExpiryIsStrict | src/cache.py:126-137 | an age of exactly `ttl` is fresh, and one second more is expired |
| DevCache.IsExpired | src/cache.py:126-137 | `is_expired`: the age `now - timestamp` is strictly greater than `ttl` |
| DevCache.KeysPartition | src/cache.py:188-232 | every record is exactly one of fresh, expired and unreadable |
| DevCache.ExpiredKeys | src/cache.py:139-165 | the keys of the readable records that are expired at `now`, a subset of the stored keys |
| DevCache.Lookup | src/cache.py:59-94 | what `get` answers for a key: `None` for a missing, unreadable or expired record, else its stored value |
| DevCache.SetThenGet | src/cache.py:59-124 | a value set is returned by a `get` with the same parameters in any order, up to `ttl` later, and nothing is deleted |
| DevCache.SetThenGetExpired | src/cache.py:84-87 | past `ttl` the `get` misses and deletes exactly that record |
| DevCache.StoredTtlIgnored | src/cache.py:84 | the `ttl` stored inside a record plays no part in `get` |
| DevCache.ClearExpiredPreservesLookups | src/cache.py:139-165 | the sweep changes no answer `get` would give at the same time |
| DevCache.ClearExpiredLeavesNoExpired | src/cache.py:139-165 | after the sweep no expired record remains, and every unreadable record is kept |
| DevCache.Cache.constructor | src/cache.py:22-38 | the enabled flag, `ttl` and key hash are fixed, over the records already on disk |
| DevCache.Cache.Get | src/cache.py:59-94 | disabled gives `None`. Otherwise it gives the stored value unless the record is missing, unreadable or expired; only an expired record is removed |
| DevCache.Cache.Set | src/cache.py:96-124 | when enabled, the record for the key is written, stamped `now` |
| DevCache.Cache.ClearExpired | src/cache.py:139-165 | removes exactly the expired readable records and returns how many it removed; disabled does nothing |
| DevCache.Cache.ClearAll | src/cache.py:167-186 | removes every record and returns how many it removed; disabled does nothing |
| DevCache.Cache.Stats | src/cache.py:188-232 | the total, valid and expired counts of the records |
| DevCache.StatsAddUp | src/cache.py:188-232 | total = valid + expired + unreadable |
| Events.AutoValue | src/events.py:13-19 | `auto()` numbers the five kinds 1 to 5 |
| Events.AutoValueInjective | src/events.py:13-19 | the five event kinds are distinct |
| Events.EventBus.constructor | src/events.py:40-45 | an empty queue; whether a loop was captured is fixed |
| Events.EventBus.Publish | src/events.py:47-57 | with a captured, running loop the event joins the tail; otherwise the queue is unchanged |
| Events.EventBus.Get | src/events.py:59-63 | removes and returns the head |
| Events.PublishedInOrder | src/events.py:47-63 | two published events come out in publication order, intact |
| Events.PublishedWithoutLoop | src/events.py:40-57 | a bus built outside a running loop queues nothing |
| RoiCommands.RemoveNameMembers | debug_rois.py:59 | deleting a name keeps exactly the other names |
| RoiCommands.RemoveNameDistinct | debug_rois.py:59 | deleting keeps the dictionary's names distinct |
| RoiCommands.RemoveNameAppended | debug_rois.py:49-50 | deleting a name just appended gives the previous order back |
| RoiCommands.Put | debug_rois.py:46 | `d[n] = r` maps `n` to `r` and keeps every other record |
| RoiCommands.Del | debug_rois.py:58-59 | `del d[n]` removes `n` only |
| RoiCommands.PutWellFormed | debug_rois.py:46 | assignment keeps the dictionary's names and keys in step |
| RoiCommands.DelWellFormed | debug_rois.py:58-59 | deletion keeps the dictionary's names and keys in step |
| RoiCommands.ExecuteWellFormed | debug_rois.py:35-92 | executing or undoing any command keeps the dictionary well formed |
| RoiCommands.MoveTo | debug_rois.py:70-78 | the record of `n` placed at the position, size kept; nothing when `n` is absent |
| RoiCommands.Update | debug_rois.py:86-92 | the record of `n` replaced by the full bounds; nothing when `n` is absent |
| RoiCommands.Execute | debug_rois.py:40-92 | each command's `execute`: create assigns, delete removes, move places, resize updates |
| RoiCommands.Revert | debug_rois.py:40-92 | each command's `undo`: create removes, delete assigns back, move places at the old position, resize restores the old bounds |
| RoiCommands.Recordable | debug_rois.py:35-92 | the commands whose undo restores the dictionary they ran on; the editor's post-drag moves and resizes and a creation over a taken name are not of this kind |
| RoiCommands.RevertCreate | debug_rois.py:40-50 | undoing a creation restores the dictionary exactly |
| RoiCommands.RevertDelete | debug_rois.py:52-62 | undoing a deletion restores the record, with its name last |
| RoiCommands.RevertMove | debug_rois.py:64-78 | moving back to the old position restores the dictionary |
| RoiCommands.RevertRestores | debug_rois.py:35-92 | undoing a `Recordable` command restores every record, and the order too for all but a deletion |
| RoiCommands.ExecuteRevertExecute | debug_rois.py:35-92 | for a `Recordable` command, re-executing what was undone gives the first execution's result |
| RoiCommands.Perform | debug_rois.py:154-157 | the command is applied and pushed on the undo stack bounded at 50, and the redo stack is emptied |
| RoiCommands.UndoStep | debug_rois.py:159-164 | the newest command is popped from undo and pushed on redo; nothing happens when undo is empty |
| RoiCommands.RedoStep | debug_rois.py:166-171 | the newest undone command is popped from redo and pushed on undo; nothing happens when redo is empty |
| RoiCommands.PerformValid | debug_rois.py:154-157 | performing keeps the dictionary well formed and both stacks within 50 |
| RoiCommands.UndoValid | debug_rois.py:159-164 | undoing keeps the dictionary well formed and both stacks within 50 |
| RoiCommands.RedoValid | debug_rois.py:166-171 | redoing keeps the dictionary well formed and both stacks within 50 |
| RoiCommands.PerformThenUndo | debug_rois.py:154-164 | for a `Recordable` command (a deletion, or a creation under a new name, as the editor records them), perform then undo restores the records and the undo stack, which loses its oldest entry if it was full; redo holds the command |
| RoiCommands.PerformUndoRedo | debug_rois.py:154-171 | for a `Recordable` command, perform, undo, redo ends where perform ended, with an empty redo stack |
| RoiCommands.UndoDraggedMove | debug_rois.py:235-275 | the move recorded after a drag, undone, gives the dictionary from before the drag; redone, gives the dragged one |
| RoiCommands.UndoDraggedResize | debug_rois.py:276-303 | the resize recorded after a drag, undone, gives the dictionary from before the drag; redone, gives the resized one |
| RoiCommands.CreateOverExisting | debug_rois.py:40-50 | creating under a taken name and undoing it deletes the name: the overwritten record is lost |
| RoiEditor.Rank | debug_rois.py:179-188 | each handle's position in the dictionary's order |
| RoiEditor.HandlePoint | debug_rois.py:175-188 | the point of each of the eight handles: the corners, the edge midpoints with floor division by 2 |
| RoiEditor.Near | debug_rois.py:177-191 | within 10 pixels, strictly, on both axes |
| RoiEditor.FirstNear | debug_rois.py:190-193 | the first handle in the list near the point, with none earlier |
| RoiEditor.HandleAt | debug_rois.py:173-193 | `None` exactly when no handle is within 10 pixels on both axes; otherwise a near handle with no near handle earlier in tl, tr, bl, br, t, b, l, r |
| RoiEditor.HandleSides | debug_rois.py:291-302 | the substring tests `'l' in handle` etc. select exactly the handles on that side |
| RoiEditor.Resized | debug_rois.py:285-303 | left and top drags keep the opposite edge fixed and a side of at least 10. Right and bottom drags set the side to at least 10. Other sides are untouched |
| RoiEditor.DrawnRect | debug_rois.py:248-257 | the drawn rectangle has the press and release points as opposite corners |
| RoiEditor.FirstHit | debug_rois.py:215-219 | the first ROI in dictionary order that contains the point, with none earlier |
| RoiEditor.Hits | debug_rois.py:216-217 | the point lies in the ROI's record, edges included |
| RoiEditor.RoiAt | debug_rois.py:213-219 | the name of the first ROI in dictionary order containing the point, or `None` |
| RoiEditor.Editor.constructor | debug_rois.py:116-152 | the loaded ROIs, empty stacks, IDLE and nothing selected |
| RoiEditor.Editor.ExecuteCommand | debug_rois.py:154-157 | the history becomes `Perform` of the command, and the invariants are kept |
| RoiEditor.Editor.Undo | debug_rois.py:159-164 | the history becomes `UndoStep`, and the invariants are kept |
| RoiEditor.Editor.Redo | debug_rois.py:166-171 | the history becomes `RedoStep`, and the invariants are kept |
| RoiEditor.Editor.GetHandleAt | debug_rois.py:173-193 | the loop returns `HandleAt` |
| RoiEditor.Editor.ClickedRoi | debug_rois.py:213-219 | the loop returns the first ROI containing the point |
| RoiEditor.Editor.Press | debug_rois.py:202-233 | `Pressed`: a press on a handle of the selected ROI starts RESIZING. Otherwise a press in a ROI selects it and starts MOVING. Otherwise DRAWING starts and the selection is cleared. The ROIs and the key state are untouched |
| RoiEditor.Editor.StartResize | debug_rois.py:204-211 | RESIZING from the selected ROI's current bounds |
| RoiEditor.Editor.StartMove | debug_rois.py:221-228 | selects the ROI and starts MOVING from its bounds |
| RoiEditor.Editor.StartDraw | debug_rois.py:229-233 | DRAWING from the press point, with the selection cleared |
| RoiEditor.Editor.ResizeRoi | debug_rois.py:285-303 | the selected ROI becomes `Resized` and the stacks are untouched; it fails exactly when the selected name is gone |
| RoiEditor.Editor.Drag | debug_rois.py:235-244 | `Dragged`: drawing tracks the pointer. Moving clamps the new position at 0. Resizing applies `Resized`. The stacks and every other field are untouched |
| RoiEditor.Editor.Release | debug_rois.py:246-283 | `Released`: a draw larger than 10×10 enters NAMING, else IDLE. A move or resize that changed something records one command; one that changed nothing records none. Every other field is untouched |
| RoiEditor.Editor.ReleaseDraw | debug_rois.py:247-262 | `DrawReleased`: NAMING with the drawn rectangle pending for one over 10×10 pixels, else IDLE; the drawing points are cleared and the ROIs untouched |
| RoiEditor.Editor.ReleaseMove | debug_rois.py:268-274 | `MoveReleased`: a `Move` from the original to the current position is recorded exactly when they differ, then IDLE; a vanished name fails with nothing changed |
| RoiEditor.Editor.ReleaseResize | debug_rois.py:276-283 | `ResizeReleased`: a `Resize` from the original to the current bounds is recorded exactly when they differ, then IDLE with the handle released; a vanished name fails with nothing changed |
| RoiEditor.Editor.MouseCallback | debug_rois.py:195-283 | ignored in NAMING mode and for other events; otherwise a press, move or release has exactly the new state `Pressed`, `Dragged` or `Released` states, and a failure leaves the ROIs and the mode unchanged |
| RoiEditor.Editor.CommitName | debug_rois.py:674-686 | Enter creates and selects the ROI named by the stripped buffer unless it is blank, then returns to IDLE |
| RoiEditor.Editor.EditName | debug_rois.py:687-696 | Esc cancels. Backspace drops a character. Printable codes are appended while the name is under 30 characters |
| RoiEditor.Editor.NamingKey | debug_rois.py:673-696 | the NAMING branch: commit on Enter, edit otherwise |
| RoiEditor.Editor.CommandKey | debug_rois.py:697-723 | undo, redo, delete through a command, the help and OCR toggles, and quit only on `q` |
| RoiEditor.Editor.HandleKey | debug_rois.py:667-725 | no key and a repeated key change nothing; otherwise the key is dispatched on the mode and returns true only for quit |
| RoiEditor.FirstHitIsName | debug_rois.py:213-225 | a clicked name has a record |
| RoiEditor.CornerBeforeEdge | debug_rois.py:179-192 | a near top-left corner wins over the edges beside it |
| RoiEditor.LeftHandleStops | debug_rois.py:291-294 | dragging a left handle past the right edge stops 10 pixels short of it |
| HealthChecks.CountsAddUp | src/health_check/__init__.py:26-50 | every result is counted once, as passed or as failed |
| HealthChecks.NoFailureMeansAllPassed | src/health_check/__init__.py:301-309 | no failure is counted exactly when every result passed |
| HealthChecks.RecordAppend | src/health_check/__init__.py:26-50 | recording two runs of checks in a row records their concatenation |
| HealthChecks.ExitCode | src/health_check/__init__.py:301-309 | 1 exactly when any check failed; 2 exactly when none failed but some passed with a warning; otherwise 0 |
| HealthChecks.HealthCheck.constructor | src/health_check/__init__.py:20-24 | zero counters and no results |
| HealthChecks.HealthCheck.Check | src/health_check/__init__.py:26-50 | appends the result and counts it as passed or failed; a warning is counted only for a passed check |
| HealthChecks.HealthCheck.Record | src/health_check/__init__.py:26-50 | one `check` call records exactly its report |
| HealthChecks.HealthCheck.CheckAll | src/health_check/__init__.py:287-289 | the optional components' calls record their reports in order |
| HealthChecks.HealthCheck.CheckPythonVersion | src/health_check/__init__.py:52-63 | records the version report and returns whether it is 3.10 or later 3.x |
| HealthChecks.HealthCheck.CheckPackages | src/health_check/__init__.py:65-101 | records the packages report and returns whether it passed |
| HealthChecks.HealthCheck.CheckEnvFile | src/health_check/__init__.py:103-112 | records the `.env` report and returns whether the file exists |
| HealthChecks.HealthCheck.CheckApiKeys | src/health_check/__init__.py:114-145 | records the OpenAI report, then the ElevenLabs report only if OpenAI passed; returns whether both passed |
| HealthChecks.HealthCheck.CheckPrompts | src/health_check/__init__.py:231-268 | records the `prompts.json` report and returns whether it passed |
| HealthChecks.HealthCheck.Status | src/health_check/__init__.py:301-309 | 1 exactly when some result failed; 0 only with every result passed and no warning; 2 only with every result passed and a warning |
| HealthChecks.HealthCheck.RunAllChecks | src/health_check/__init__.py:270-309 | records the validators' reports in their fixed order and returns the exit code of the counters |
| HealthChecks.RunReports | src/health_check/__init__.py:276-289 | a run makes at least five `check` calls |
| HealthChecks.StepCompose | src/health_check/__init__.py:278-289 | two recording steps in a row are one step over the concatenated reports |
| HealthChecks.FreshRunExitCode | src/health_check/__init__.py:301-309 | on a fresh checker: 1 exactly when some report failed; 0 exactly when all passed without a warning |
| HealthChecks.WarningCountZero | src/health_check/__init__.py:49-50 | no warning is counted exactly when no passed report carries one |
| HealthChecks.PythonVersionReport | src/health_check/__init__.py:52-63 | passes exactly for major 3 and minor at least 10, with no warning |
| HealthChecks.PythonVersionBoundary | src/health_check/__init__.py:55 | 3.10 and 3.13 pass; 3.9 and 4.0 fail |
| HealthChecks.EnvFileReport | src/health_check/__init__.py:103-112 | passes exactly when `.env` exists |
| HealthChecks.Requirements | src/health_check/__init__.py:69 | no more requirements than lines |
| HealthChecks.RequirementsAreStrippedLines | src/health_check/__init__.py:69 | each requirement is a non-empty, stripped line that did not start with `#` |
| HealthChecks.IndentedCommentKept | src/health_check/__init__.py:69 | `" # pinned"` becomes the requirement `"# pinned"` |
| HealthChecks.PackageNameHasNoOperator | src/health_check/__init__.py:74 | a package name contains none of `==`, `>=`, `<` |
| HealthChecks.PackageName | src/health_check/__init__.py:74 | the requirement cut before `==`, then `>=`, then `<`, and stripped |
| HealthChecks.PackageNameUnpinned | src/health_check/__init__.py:74 | a requirement without an operator names its package as written, trimmed |
| HealthChecks.PackageNameIsPrefix | src/health_check/__init__.py:74 | the package name is a stripped prefix of the requirement |
| HealthChecks.ImportName | src/health_check/__init__.py:77-82 | every package but the four mapped ones imports under its own name |
| HealthChecks.PackageNames | src/health_check/__init__.py:72-74 | one package name per requirement, in order |
| HealthChecks.MissingPackages | src/health_check/__init__.py:71-87 | no more missing packages than requirements |
| HealthChecks.MissingMember | src/health_check/__init__.py:71-87 | a package is reported missing exactly when it is required and its module does not import |
| HealthChecks.Imports | src/health_check/__init__.py:77-87 | the package imports when its mapped module name is importable |
| HealthChecks.NothingMissing | src/health_check/__init__.py:89-94 | nothing is missing exactly when every required module imports |
| HealthChecks.FindMissing | src/health_check/__init__.py:71-87 | the loop collects exactly the missing package names, in requirement order |
| HealthChecks.PackagesReport | src/health_check/__init__.py:65-101 | passes exactly when requirements.txt was read and nothing is missing |
| HealthChecks.OpenAiReport | src/health_check/__init__.py:121-133 | warns exactly when the message provider is not chatgpt |
| HealthChecks.OpenAiKeyRule | src/health_check/__init__.py:121-133 | under chatgpt the key passes exactly when it starts with `sk-` and not with `sk-YOUR`; any other provider passes with a warning |
| HealthChecks.ElevenLabsReport | src/health_check/__init__.py:136-143 | passes exactly when the voice provider is not elevenlabs or a key is set; warns exactly when the provider is not elevenlabs |
| HealthChecks.ApiKeyReports | src/health_check/__init__.py:114-145 | the OpenAI report comes first, and is the only one exactly when it failed |
| HealthChecks.ApiKeysPassed | src/health_check/__init__.py:114-145 | `check_api_keys` returns true exactly when both key reports pass |
| HealthChecks.ObjectPersonaRule | src/health_check/__init__.py:249-255 | an object persona is accepted exactly when it has `name` and one of `prompts` and `prompt` |
| HealthChecks.HasMember | src/health_check/__init__.py:249-253 | Python's `key in v` for each JSON kind: a key of an object, an element of an array, a substring of a string; `None` where it raises `TypeError` |
| HealthChecks.ProblemOf | src/health_check/__init__.py:248-255 | the problem of one persona: not iterable, missing `name`, or missing both `prompts` and `prompt`; `None` when accepted |
| HealthChecks.ProblemMessage | src/health_check/__init__.py:248-267 | the failure text for the persona at index `i` and its problem |
| HealthChecks.ScalarPersonaRejected | src/health_check/__init__.py:249 | null, booleans and numbers fail with the `TypeError` of the membership test |
| HealthChecks.FirstProblem | src/health_check/__init__.py:248-255 | the first persona with a problem, with none earlier |
| HealthChecks.PromptsReport | src/health_check/__init__.py:231-268 | the report is about `prompts.json` and never warns |
| HealthChecks.PromptsRule | src/health_check/__init__.py:231-268 | passes exactly for a non-empty array of accepted personas; a failure names the first rejected one |
| Voice.ExactIsPartial | src/voice.py:210-219 | an exact match is also a partial match |
| Voice.FirstMatch | src/voice.py:211-219 | the first matching device, with none earlier |
| Voice.FindDevice | src/voice.py:196-226 | the two search loops return the resolved device |
| Voice.Matches | src/voice.py:212-217 | a device with output channels whose name equals the query, or, for a partial match, contains it ignoring ASCII case |
| Voice.Resolve | src/voice.py:196-226 | what `_find_device` returns: the configured index, else the first exact match, else the first partial match, else `None` |
| Voice.IndexTakesPrecedence | src/voice.py:201-202 | a configured index is returned as given |
| Voice.FoundDeviceHasOutput | src/voice.py:210-219 | a device found by name exists and has output channels |
| Voice.ExactMatchWins | src/voice.py:210-213 | with an exact match, the first exact match wins over any partial one |
| Voice.PartialMatchOtherwise | src/voice.py:215-219 | without an exact match, the first partial match is taken |
| Voice.DefaultFallback | src/voice.py:196-226 | the default device (`None`) is used exactly when there is no index and the name is missing or empty, the query failed, or no output device contains the name |
| Voice.SoundDevicePlayer.constructor | src/voice.py:161-194 | the target is the resolved device, and monitoring stays on only if it was requested and a target exists |
| Voice.SoundDevicePlayer.DualPlayback | src/voice.py:258 | playback goes to both devices exactly when monitoring is on |
| Voice.BlankIffWhitespace | src/voice.py:108 | a text is blank exactly when it is all whitespace |
| Voice.ElevenLabsSynthesize | src/voice.py:100-129 | no client or blank text gives `""` without generating; otherwise the generated path, or `""` on failure |
| Voice.SynthesisGuard | src/voice.py:104-109 | without a client, or for whitespace-only text, the outcome of generation cannot matter |
| DeviceListing.RowOf | list_devices.py:49-56 | a device's row carries its fields, and `[DEFAULT]` exactly for the default output index |
| DeviceListing.Eligible | list_devices.py:25-39 | output channels, a host API other than WDM-KS and a non-blank name |
| DeviceListing.ListingUpTo | list_devices.py:22-56 | the rows of the first `n` devices: each eligible device whose name no earlier eligible device had, in index order |
| DeviceListing.SeenNamesStep | list_devices.py:44-47 | the seen set grows by a name exactly for an eligible device |
| DeviceListing.SeenNamesMember | list_devices.py:44-47 | a name is seen exactly when an earlier eligible device has it |
| DeviceListing.ListAudioDevices | list_devices.py:7-64 | a failed query gives the error branch; otherwise the rows of the first eligible device of each name, in index order |
| DeviceListing.ListingRowsValid | list_devices.py:22-56 | every row is that of an eligible device whose name no earlier eligible device has |
| DeviceListing.ListingAscending | list_devices.py:22-56 | rows come in strictly ascending device order |
| DeviceListing.ListingComplete | list_devices.py:22-56 | every first-of-its-name eligible device has a row |
| DeviceListing.ListedDevicesPassFilters | list_devices.py:25-52 | listed devices have output channels, are not on WDM-KS and have a non-blank name; the default is marked |
| DeviceListing.NamesUnique | list_devices.py:41-47 | no name is listed twice |
| DeviceListing.EarliestOfName | list_devices.py:41-47 | some device at or before any eligible one is the first of its name |
| DeviceListing.EveryEligibleNameListed | list_devices.py:41-47 | every eligible name is listed, on the row of its earliest eligible device |

## Left out

- Printing, logging, colour codes and the user-facing feedback texts of the editor are not modelled. Only the values and state changes they report are.
- Threads and async are out of scope: `call_soon_threadsafe`, the awaiting `Queue.get`, `run_in_executor`, the OCR thread and its lock. The model is sequential.
- Floating point is not modelled:
  - time stamps are integers;
  - the editor works at display scale 1, so `int(x / scale_factor)` is the identity;
  - JSON numbers are integers;
  - the cache's byte and megabyte sizes in `stats` are dropped.
- SHA-256 and the JSON encoding of the cache key are one function parameter `hash`. Nothing about it is assumed, so only key equality follows from parameter equality.
- Drawing, screen capture, OCR preview, animations and `save_rois` (file output) are not modelled.
- The remote chat-completion call, the speech generation and `get_random_context` are inputs: the reply or `None`, the generated path or failure, and the scenario text.
- `random.choice` is the `pick` parameter of `SimpleMessage`.
- Pyttsx3 synthesis, `play`, `_play_blocking`'s audio mixing and the ElevenLabs streaming are not modelled. Only the dual-playback condition is.
- `query_hostapis` is not modelled: each device carries its host API name, so a failure of that lookup part-way through the listing is not represented.
- `check_tesseract`, `check_audio_devices` and `check_rois` are inputs to `run_all_checks` as finished reports (`Environment.optional`). Their probing of external tools is not modelled.
- Text.Lower: lowers ASCII letters only, not the full Unicode case mapping of `str.lower()`. The partial device-name match inherits this.
- HealthChecks.HealthCheck.CheckPackages: whether a module imports is a yes/no input. An `__import__` raising something other than `ImportError` (which the source reports through its generic error branch) is not distinguished.
- Providers.ChatGptProvider.constructor: `_load_prompts` is taken to yield a list of personas or fail. A persona without a `name` key, which makes the source's search loop raise, is not modelled; neither is a non-list JSON value.
- Providers.ChatGptProvider.GetMessage: every persona is taken to carry a `prompt` string. A persona with only `prompts` (which `check_prompts` accepts) or without `name` makes the source raise `KeyError` out of `get_message`, before any remote call. That error outcome is not represented.
- Events.EventBus.Get: requires a non-empty queue, because the source's `await` on an empty queue waits for a publication, which is concurrency.
- RoiEditor.Editor.MouseCallback: the `KeyError` the source raises when a selected ROI disappeared mid-drag is the `false` result, with no state change.
- DevCache.Cache.Get: a record that cannot be read, parsed or compared is `Unreadable` and counts as a miss. Write and unlink failures are not modelled.
