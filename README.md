# Capture-flow state core of a multi-tenant vehicle-inspection app

A Dafny model of the state core of a progressive web app in which an
inspector walks through a per-tenant sequence of capture steps (VIN,
vehicle details, photos, review). The model covers:

- **the tenant registry** (`Clients`): the fixed table of three client
  configurations (`art`, `lincoln`, `nia`), each with a theme and an ordered
  list of steps, and the default id `art`;
- **the client store** (`Client`): resolving a possibly null, empty or
  unknown client id to a configuration, and the getters that fall back to the
  default configuration while no client is active;
- **the flow controller** (`Flow`): a linear state machine over the index of
  the current step, written through to storage on every change;
- **the photo store** (`Photo`): one photo per position, previews encoded to
  data URLs, superseded `blob:` previews released, files stripped on save;
- **the video store** (`Video`): the same shape, but entries are the caller's
  own objects, every previous preview is released, and saving deletes the
  files from the live entries as well;
- **the vehicle detail store** (`Detail`): seven text fields merged from
  partial updates and saved as a whole.

Each store that the app updates in place is a class. Its storage key is a
ghost log `writes` of every value written to it, oldest first, so "writes
nothing" is `writes == old(writes)`. Every `URL.revokeObjectURL` call is
appended to a ghost log `revoked`. What a store finds in storage when it
starts is a `Storage.Slot` for the photo, video and detail stores: absent,
unparsable, or a parsed value. The flow store starts from an optional
integer, the stored index. The browser's `FileReader` conversion is the parameter `encode: File ->
Option<string>` of `SetPhoto`, where `None` is a read error. The order in
which `Object.values` visits a record is not fixed by the model. A reset is
therefore specified by the multiset of previews it releases, one per key
(`MapValues.Bag`).

In these places the code does something other than what its structure
suggests, and the model follows the code:

- The step index loaded from storage is not checked against the active
  flow's length (src/stores/flow.ts:10). `Flow.FlowStore.constructor` takes it
  as it is. The transitions preserve the range invariant. `resetFlow` (on a
  non-empty flow) and an in-range `setStep` also establish it. Outside the
  range each call moves the index one position: from at or above N,
  `nextStep` keeps climbing and never reaches the last step, and from below
  0, `prevStep` keeps falling; in the other direction each call moves one
  step toward the flow, so `prevStep` from N and `nextStep` from -1 land in
  range.
- `progress` has no guard for a one-step flow (src/stores/flow.ts:26-27). It
  divides by zero, giving NaN or an infinity in JavaScript. `Flow.Progress` is
  `None` exactly then.
- `setPhoto` releases the old `blob:` preview before it encodes the new file
  (src/stores/photo.ts:53-61). A failed encoding has therefore already released
  the old preview while leaving the old entry, with that released URL, in
  place.
- Only the photo store recovers from an unparsable stored value
  (src/stores/photo.ts:33-37). The video and detail stores throw
  (src/stores/video.ts:14, src/stores/detail.ts:19). `Video.VideoStore.Open`
  and `Detail.DetailStore.Open` return no store exactly for an unparsable
  value; their constructors require a parsable one.
- The video store saves through a shallow copy (src/stores/video.ts:50-55).
  The `file` it deletes is deleted from the live entries and from the object the
  caller passed to `setVideo`.
- Photo positions are not validated: any key is accepted, and `isComplete`
  only compares the number of entries with 8.

## Model

| member | source | states |
|---|---|---|
| Clients.RegisteredConfigs | src/config/clients.ts:16-47 | the registry's keys are exactly `art`, `lincoln` and `nia`, and every value is one of the three configurations |
| Clients.DefaultIsRegistered | src/config/clients.ts:16-49 | the default id `art` is a key of the registry, and its entry is the ART configuration |
| Clients.RegistryIdsMatchKeys | src/config/clients.ts:16-47 | every entry's `id` equals the key it is stored under |
| Clients.RegistryFlowsWellFormed | src/config/clients.ts:25-45 | every registered flow is non-empty, has no repeated step and ends with the review step |
| Clients.RegistryNamesNonEmpty | src/config/clients.ts:19-39 | every registered client has a non-empty name |
| Clients.LincolnSkipsVin | src/config/clients.ts:35 | the Lincoln flow has three steps, starts with vehicle details and has no VIN step |
| Clients.NiaReversesArtOrder | src/config/clients.ts:25-45 | NIA puts vehicle details before the VIN, and ART puts them after it |
| Client.Resolve | src/stores/client.ts:28-29 | a registered id resolves to its own configuration; null and unregistered ids (the empty one included) resolve to the default configuration; the result is always a registered configuration |
| Client.ResolveFallsBackToArt | src/stores/client.ts:28-29 | null, `''` and any unregistered id all resolve to the ART configuration |
| Client.ClientStore.constructor | src/stores/client.ts:6-9 | a new store has no active client and is loading |
| Client.ClientStore.Effective | src/stores/client.ts:13-20 | the getters read the active configuration, or the default one while none is active |
| Client.ClientStore.Theme | src/stores/client.ts:12-15 | the theme is the ART theme with no active client, otherwise the active client's theme |
| Client.ClientStore.ClientName | src/stores/client.ts:16-18 | the name is `Nexus PWA` with no active client, the active client's name when that is non-empty, and never empty |
| Client.ClientStore.FlowSteps | src/stores/client.ts:19-22 | the steps are the ART flow with no active client, otherwise the active client's flow; while the active client is registered they are non-empty, duplicate-free and end with the review step |
| Client.ClientStore.InitializeClient | src/stores/client.ts:26-37 | afterwards the active client is the resolved configuration (never absent), `loading` is false and the store invariant holds |
| Client.ActiveClientNameShown | src/stores/client.ts:16-18 | once a registered client is active, the name shown is that client's name |
| Flow.NextIndex | src/stores/flow.ts:36-41 | `nextStep` leaves the index unchanged exactly at N-1 and otherwise moves it one forward; it keeps an index inside 0..N-1 inside |
| Flow.PrevIndex | src/stores/flow.ts:42-47 | `prevStep` leaves the index unchanged exactly at 0 and otherwise moves it one back; from a non-negative index it never goes below 0, while a negative (stored) index keeps falling |
| Flow.SetIndex | src/stores/flow.ts:52-58 | `setStep(i)` moves to `i` when `0 <= i < N` and otherwise leaves the index as it was |
| Flow.AdvanceCounts | src/stores/flow.ts:36-41 | below the last step, k calls of `nextStep` move exactly k positions |
| Flow.AdvanceStaysAtEnd | src/stores/flow.ts:20-23 | at the last step any number of `nextStep` calls changes nothing |
| Flow.AdvanceBeyondEnd | src/stores/flow.ts:10-41 | from an unchecked stored index at or above N, k calls of `nextStep` climb exactly k positions, so the last step is never reached |
| Flow.OutOfRangeMoves | src/stores/flow.ts:10-47 | `prevStep` from N lands on the last step and `nextStep` from -1 on the first; `prevStep` below 0 and `nextStep` at or above N move further out |
| Flow.WalkToLastStep | src/stores/flow.ts:19-41 | from index 0, N-1 calls of `nextStep` reach N-1, and any further calls stay there |
| Flow.Progress | src/stores/flow.ts:24-28 | progress is undefined (NaN or an infinity in the source) exactly for a one-step flow |
| Flow.ProgressEnds | src/stores/flow.ts:24-28 | progress is 0 at index 0 (N != 1), 100 at index N-1 (N > 1), and 0 everywhere for an empty flow |
| Flow.ProgressBounded | src/stores/flow.ts:24-28 | inside a flow of more than one step, progress lies in 0..100 and strictly grows with the index |
| Flow.FlowStore.constructor | src/stores/flow.ts:7-12 | the index starts at the stored value, unchecked, or at 0 when nothing is stored |
| Flow.FlowStore.CurrentStepId | src/stores/flow.ts:15-18 | the current step is defined exactly when the index is inside the flow, and is then the step at that index |
| Flow.FlowStore.IsFirstStep | src/stores/flow.ts:19 | the first step is exactly where `prevStep` is a no-op |
| Flow.FlowStore.IsLastStep | src/stores/flow.ts:20-23 | the last step is exactly where `nextStep` is a no-op |
| Flow.FlowStore.TotalSteps | src/stores/flow.ts:29-32 | the total is the number of steps in the active flow |
| Flow.FlowStore.ProgressPercent | src/stores/flow.ts:24-28 | the store's progress is undefined only for one step, 0 at the first step, 100 at the last, and within 0..100 inside the flow |
| Flow.FlowStore.NextStep | src/stores/flow.ts:36-41 | the index becomes `NextIndex`; at the last step nothing is written, otherwise the new index is written; an in-range index stays in range; storage stays in step with memory |
| Flow.FlowStore.PrevStep | src/stores/flow.ts:42-47 | the index becomes `PrevIndex`; at index 0 nothing is written, otherwise the new index is written; range and storage agreement are kept |
| Flow.FlowStore.ResetFlow | src/stores/flow.ts:48-51 | the index becomes 0 and 0 is written, unconditionally |
| Flow.FlowStore.SetStep | src/stores/flow.ts:52-58 | an in-range target becomes the index and is written; any other target changes neither index nor storage |
| Flow.FlowStore.Persist | src/stores/flow.ts:59-61 | the current index is written and nothing else changes |
| Flow.LincolnScenario | src/stores/flow.ts:15-32 | over Lincoln's flow at index 0 there are 3 steps and the current step is vehicle details |
| Photo.TotalRequired | src/stores/photo.ts:8-17 | eight photos are required |
| Photo.Saved | src/stores/photo.ts:81-88 | the saved record has the same positions and previews as the live one, and no file |
| Photo.Load | src/stores/photo.ts:30-41 | the initial record is the stored one without files; an absent or unparsable value gives the empty record |
| Photo.SaveThenLoad | src/stores/photo.ts:30-88 | reloading a saved record gives back every position and preview, without files |
| Photo.LoadThenSave | src/stores/photo.ts:30-88 | saving a loaded record writes back exactly what storage held |
| Photo.StripFiles | src/stores/photo.ts:83-87 | the copy-and-delete loop produces exactly the saved form of the record |
| Photo.Previews | src/stores/photo.ts:77 | the previews visited by `Object.values` are one per position, as a multiset |
| Photo.PhotoStore.constructor | src/stores/photo.ts:30-42 | a new store holds the loaded record and has released and written nothing |
| Photo.PhotoStore.CapturedCount | src/stores/photo.ts:45 | the count is the number of positions held |
| Photo.PhotoStore.IsComplete | src/stores/photo.ts:47 | complete exactly when eight photos are held |
| Photo.PhotoStore.GetPhotoByPosition | src/stores/photo.ts:48 | the lookup finds a photo exactly at held positions, and it is the held one |
| Photo.PhotoStore.SetPhoto | src/stores/photo.ts:52-68 | the old preview is released once iff it exists and is a `blob:` URL; encoding fails iff a file is given and cannot be read, and then nothing is stored or written; otherwise only this position changes, to the given file with the encoded preview (or the given preview when there is no file), the count grows by one only for a new position, and the saved record is written |
| Photo.PhotoStore.RemovePhoto | src/stores/photo.ts:69-75 | a missing position releases, changes and writes nothing; a held one has its preview released once, only it is deleted, and the saved record is written |
| Photo.PhotoStore.ResetPhotos | src/stores/photo.ts:76-80 | exactly one release per held photo, of its preview, is appended; the record becomes empty and the empty record is written |
| Photo.PhotoStore.Persist | src/stores/photo.ts:81-89 | the saved form is written and the live record, files included, is untouched |
| Photo.PositionsDistinct | src/stores/photo.ts:8-17 | the eight positions are distinct |
| Photo.AllPositionsComplete | src/stores/photo.ts:8-47 | with one photo at each of the eight positions the capture is complete |
| Video.RecordedVideo.constructor | src/stores/video.ts:3-7 | a recorded video carries the given file, preview and duration |
| Video.Saved | src/stores/video.ts:49-56 | the saved record has the same ids, previews and durations as the live one |
| Video.Previews | src/stores/video.ts:45 | the previews visited by `Object.values` are one per id, as a multiset |
| Video.VideoStore.constructor | src/stores/video.ts:12-19 | a new store holds fresh file-less entries whose saved form is the stored record (empty when nothing is stored), and is not recording |
| Video.VideoStore.Open | src/stores/video.ts:12-19 | an unparsable stored value yields no store (the source throws); otherwise a fresh store as the constructor builds it |
| Video.VideoStore.VideoCount | src/stores/video.ts:22 | the count is the number of ids held |
| Video.VideoStore.GetVideoByPosition | src/stores/video.ts:23 | the lookup finds a video exactly at held ids, and it is the held object |
| Video.VideoStore.SetVideo | src/stores/video.ts:27-33 | any previous preview at the id is released once, with no scheme check; the given object is stored as it is; the count grows only for a new id; the saved record is written; afterwards no entry, the given one included, holds a file, and a replaced entry object keeps its file |
| Video.VideoStore.RemoveVideo | src/stores/video.ts:34-40 | a missing id releases, changes and writes nothing; a held one has its preview released once, only it is deleted, the saved record is written, and the removed entry object keeps its file |
| Video.VideoStore.SetRecordingStatus | src/stores/video.ts:41-43 | the recording flag becomes the given status and nothing else changes |
| Video.VideoStore.ResetVideos | src/stores/video.ts:44-48 | exactly one release per held id, of its preview, is appended; the record becomes empty and the empty record is written |
| Video.VideoStore.Persist | src/stores/video.ts:49-57 | the saved record is written, and because the copy is shallow no live entry holds a file afterwards |
| Detail.Merge | src/stores/detail.ts:32-33 | each field the update carries takes the new value, and every other field keeps its value |
| Detail.MergeIdempotent | src/stores/detail.ts:32-33 | applying an update twice equals applying it once |
| Detail.MergeNothing | src/stores/detail.ts:32-33 | the empty update changes nothing |
| Detail.MergeTwice | src/stores/detail.ts:32-33 | two updates in a row equal one combined update in which the later value wins per field |
| Detail.ToyotaThenCamry | src/stores/detail.ts:32-35 | `{make: Toyota}` then `{model: Camry}` sets both and leaves the other five fields unchanged |
| Detail.DetailStore.constructor | src/stores/detail.ts:15-29 | a new store holds the stored snapshot, or seven empty fields when nothing is stored |
| Detail.DetailStore.Open | src/stores/detail.ts:15-29 | an unparsable stored value yields no store (the source throws); otherwise a fresh store holding the stored snapshot, or seven empty fields |
| Detail.DetailStore.UpdateDetails | src/stores/detail.ts:32-35 | the details become the merge of the old details with the update, and that snapshot is written |
| Detail.DetailStore.ResetVehicle | src/stores/detail.ts:36-47 | every field becomes empty and that snapshot is written |
| Detail.DetailStore.Persist | src/stores/detail.ts:48-50 | the current snapshot is written, so storage equals the details |

## Left out

- `applyTheme` (src/stores/client.ts:39-47) writes CSS variables into the DOM, which this model does not contain.
- The authentication store, device detection, app bootstrap and build configuration are not part of this model. They are plumbing around the core.
- `blobToBase64` is the parameter `encode` of `SetPhoto`. Base64 and the data-URL format are not modelled.
- `localStorage` and JSON text are not modelled as text. A key is the structured value it parses to, and a stored value of the wrong shape (such as `null` or an array) is not represented.
- Flow.FlowStore.constructor: the stored index is an optional integer, so `parseInt` producing NaN or ignoring trailing text is not modelled.
- Flow.FlowStore.constructor: the step list is fixed per controller. A change of active client during a session, which the source's getters would see at once, is represented only through an unchecked stored index.
- Flow.NextIndex, Flow.PrevIndex, Video.Saved: JavaScript numbers are IEEE doubles, but the step index is an unbounded integer and a video's duration an exact real. In the source, a stored index of 2^53 (reachable only because the stored index is unchecked) stays 2^53 under `currentStepIndex++`, and -2^53 stays -2^53 under `currentStepIndex--`, so the same index is written again; beyond those magnitudes the steps are rounded. The model moves the index by exactly one. A NaN or infinite duration, which a recorded WebM can report, is saved by `JSON.stringify` as `null`; the model saves the duration as it is.
- Flow.Progress: percentages are exact reals, not IEEE doubles, and NaN and the infinities collapse to `None`.
- Client.Resolve: names inherited from `Object.prototype` (such as `toString`) count as unregistered ids. In the source, such a name finds a non-configuration value in the registry object.
- Video.VideoStore.constructor: requires a parsable stored value, because the source's constructor throws on an unparsable one; `Video.VideoStore.Open` models that throw as no store.
- Detail.DetailStore.constructor: requires a parsable stored value, because the source's constructor throws on an unparsable one; `Detail.DetailStore.Open` models that throw as no store.
- Photo.PhotoStore.SetPhoto, Photo.PhotoStore.RemovePhoto, Photo.PhotoStore.GetPhotoByPosition: names inherited from `Object.prototype` (such as `constructor`) count as positions not held. In the source, `setPhoto('constructor', p)` throws a TypeError at the `startsWith` check, and `removePhoto('toString')` revokes `undefined`, deletes nothing and writes the record.
- Video.VideoStore.SetVideo, Video.VideoStore.RemoveVideo, Video.VideoStore.GetVideoByPosition: names inherited from `Object.prototype` count as ids not held. In the source, `setVideo('toString', v)` revokes `undefined` first, and `removeVideo('toString')` revokes `undefined`, deletes nothing and writes the record, where the model does nothing.
- Flow.SetIndex, Flow.FlowStore.SetStep: the target is an integer. The source accepts any number, so `setStep(1.5)` stores 1.5, after which `currentStepId` is undefined and `nextStep` never reaches the last step.
- Detail.Merge: an update that carries a field explicitly set to `undefined` is not modelled. A missing field and an undefined field are both `None`.
- Photo.PhotoStore.SetPhoto: properties of the incoming photo other than `file` and `preview`, which the spread copies, are not modelled.
- Photo.PhotoStore.SetPhoto: concurrent calls that interleave at the `await` are not modelled. Each call is one sequential step in code order: release, encode, store, write.
- The order in which `Object.values` visits entries is left open. The releases of a reset are specified as a multiset.
- `console.error` on a malformed photo record and the Pinia reactivity machinery are not modelled.
