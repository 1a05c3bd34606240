# suitcase-dataexchange, modelled in Dafny

This project models the two document processors of the suitcase-dataexchange
repository. It proves properties of both. Each processor consumes a run's
`(name, document)` stream of bluesky documents one document at a time.

- **The migration router** (`Migration`, migrate.py). It makes the per-frame
  timestamps retrievable like the image data.
  - For every `resource` it emits a shadow resource. The shadow has a fresh
    uid and the spec `AD_HDF5_TS`.
  - For every `datum_page` it emits a shadow page. Its datum ids are
    re-minted as `<shadow uid>/<position in page>`.
  - It adds a timestamp data key to descriptors.
  - It stores the shadow datum id under the timestamp field of every event.
  - It always forwards the original document, annotated where applicable,
    after the handler has run.
- **The dataexchange exporter** (`Serializer` and `export`,
  suitcase/dataexchange/__init__.py). It writes one HDF5 file per run.
  - `start` renders the file-name template, opens `<prefix>.h5` through the
    manager and writes the run's scalar metadata.
  - `descriptor` tells streams apart by exact name and allocates the image
    and angle datasets.
  - The first `event_page` of the baseline stream writes four initial motor
    positions. Every later page is ignored (first wins).
- **The frame selection of `export_fly_scan`.** The first image chunk is the
  dark reference, the last one the background reference. The chunks in
  between, concatenated, are the tomography frames. The per-frame timestamps
  are trimmed and concatenated the same way.

Modules:

- `Documents` (documents.dfy):
  - document values as a JSON-like datatype;
  - the document kinds;
  - the Python exceptions the handlers raise, as an `Error` datatype;
  - `Result`/`Option`;
  - decimal rendering of integers and its round trip.
- `Migrate` (migrate.py):
  - each handler's effect on a document, as a function: `ShadowResource`,
    `ShadowDatumPage`, `AnnotateDescriptor`, `AnnotateEvent`;
  - the datum-id table update `Recorded`;
  - lemmas about them;
  - the class `Migration`. Its fields `newResUids`, `newDatumIds` and
    `emitted` (the log of documents handed to the downstream serializer) are
    updated by the methods `Resource`, `DatumPage` (the loop of lines 39-42)
    and `Call`. These methods keep a referential-integrity invariant: every
    shadow datum id is `<u>/<i>` for a minted shadow uid `u`.
- `Template` (template.dfy): `str.format(**doc)` for templates made of plain
  `{name}` fields and `{{`/`}}` escapes.
- `DataExchange` (suitcase/dataexchange/__init__.py):
  - the HDF5 file is a map from dataset name to `Stored(value)` or
    `Allocated(shape, maxShape, chunks)`;
  - the manager is the log of its `open(label, name, mode)` calls, and
    `artifacts` groups that log by label;
  - each handler is a function from the exporter's `State` to a `Step` (the
    new state and the raised error, if any);
  - the class `Serializer` updates its fields and is proved to follow those
    functions;
  - `Export` is the feeding loop of `export`. It is proved equal to a fold
    that stops at the first error.
- `FlyScan` (suitcase/dataexchange/__init__.py, lines 311-327): chunk
  selection and flattening, and the timestamp `extend` loop.

Two things are parameters of the model:

- The fresh uid `str(uuid.uuid4())` is the `newUid` parameter of
  `Migration.Resource` and `Migration.Call`.
- The downstream serializer of the migration is the `emitted` log.

Documents are values: a handler that mutates its document in place returns
the document as it is after the mutation.

Where the code and the intended design of the exporter differ, the model
follows the code:

- `stop` does nothing. There is no dark or white averaging, no trimming of
  the image stack and no angle interpolation.
- Event pages of the primary and monitor streams are ignored.
- The chunk rows of `/exchange/data` are the constant 5, not the start
  document's `chunk_size`. `chunk_size` is only required to be present.
- The monitor descriptor does allocate `/exchange/theta`.

`event_page` does not parse as written: line 272 ends with a dangling `and`.
It is modelled as the evident intent, `not self._baseline_added and
(doc['descriptor'] == self._baseline_descriptor_uid)`.

## Model

| member | source | states |
|---|---|---|
| Documents.NatToStringRoundTrip | migrate.py:40 | Reading back the decimal digits that `{i}` renders gives i again. |
| Documents.NatToStringInjective | migrate.py:40 | Distinct positions render as distinct decimal strings. |
| Migrate.ShadowResource | migrate.py:28-32 | The shadow resource has the original's fields plus `uid` and `spec`. `uid` is the fresh uid, `spec` is `AD_HDF5_TS`, and every other field equals the original's. |
| Migrate.MintedIdInjective | migrate.py:40 | Two shadow datum ids `<u>/<i>` are equal only for the same shadow uid and the same position, when uids contain no `/`. |
| Migrate.ShadowDatumPage | migrate.py:37-41 | A page without `resource` raises KeyError("resource"). A page whose resource was never shadowed raises KeyError of that uid. A page without `datum_id` raises KeyError("datum_id"). Otherwise the copy has the same fields. The only difference is its `datum_id` list: it has the original's length, and entry i is `<shadow uid>/<i>`. |
| Migrate.RecordedAt | migrate.py:39-42 | After recording a page, a key is in the table exactly when it was before or is in the page. A page id maps to the shadow id of its last position, and every other key keeps its old value. |
| Migrate.RecordedDistinct | migrate.py:39-42 | For a page without repeated ids, `new_datum_ids[ids[i]]` is `<shadow uid>/<i>` for every i, and keys outside the page are unchanged. |
| Migrate.DescriptorWithoutImageKey | migrate.py:18-21 | A descriptor without `data_keys`, or without the image field's data key, passes through unchanged. |
| Migrate.DescriptorAddsTimestampKey | migrate.py:19-23 | When the image field's data key is a dict whose `shape` is a list, and the timestamp field differs from the image field, `data_keys` gains exactly the timestamp key. It equals the image data key with `shape` cut to its first element. The image key keeps its full shape, and no other field changes. |
| Migrate.DescriptorMissingShape | migrate.py:22 | An image data key without `shape` raises KeyError("shape"). The try block does not cover this line. |
| Migrate.DescriptorIdempotent | migrate.py:16-23 | Annotating a descriptor a second time changes nothing. |
| Migrate.EventWithoutImageField | migrate.py:46-47 | An event whose `data` lacks the image field passes through unchanged. |
| Migrate.EventDataSequence | migrate.py:46-48 | A list `data` is searched for the field name as an element, and a string `data` as a substring. When it is absent the event passes through unchanged. When it is present, indexing by it raises TypeError. |
| Migrate.ContainsAt | migrate.py:47 | A field name found at some position of a string is `in` it. |
| Migrate.ContainsFound | migrate.py:47 | A field name that is `in` a string occurs at some position of it. |
| Migrate.EventUnknownDatum | migrate.py:48-49 | An event whose image datum id was never shadowed raises KeyError of that id. |
| Migrate.EventStoresShadowId | migrate.py:45-52 | `data[timestamp]` becomes the shadow datum id of `data[image]`. `filled[timestamp]` becomes False exactly when `filled` exists. No other field of the event, of `data` or of `filled` changes. |
| Migrate.EventAfterDatumPage | migrate.py:39-50 | After a page is recorded under shadow uid u, an event holding the page's i-th datum id gets `<u>/<i>` as its timestamp field. |
| Migrate.EventIdempotent | migrate.py:45-52 | Annotating an event a second time changes nothing, when the image and timestamp fields differ. |
| Migrate.Migration.constructor | migrate.py:9-14 | Starts with the given field names, both tables empty and nothing emitted. |
| Migrate.Migration.Resource | migrate.py:25-33 | A resource without `uid` raises AssertionError and changes nothing. Otherwise `new_res_uids[uid]` becomes the fresh uid, every other entry is unchanged, the shadow resource is emitted, and the integrity invariant is kept. |
| Migrate.Migration.DatumPage | migrate.py:35-43 | Every error of the page raises before anything changes or is emitted. On success the datum-id table is the old one with the page recorded, the shadow page is emitted, and the integrity invariant is kept. |
| Migrate.Migration.Call | migrate.py:54-62 | Resource and datum page emit the shadow and then the original. Descriptor and event emit the annotated original once. Start, datum and stop emit the original once. An event page always raises NotImplementedError and emits nothing. A raising handler emits nothing. Only a resource adds a shadow uid (the fresh one) to the minted set, and every kind keeps the integrity invariant. |
| Template.Field | suitcase/dataexchange/__init__.py:216 | A named field renders as `str` of the start document's value, or raises KeyError when the field is absent. |
| Template.FormatTrailingBrace | suitcase/dataexchange/__init__.py:216 | A `{` that ends the template, after plain text, raises ValueError "Single '{' encountered in format string". |
| Template.FormatLiteral | suitcase/dataexchange/__init__.py:216 | A template without braces renders as itself. |
| Template.FormatNeedsFields | suitcase/dataexchange/__init__.py:216 | A template that renders refers only to fields of the start document. |
| Template.DefaultPrefixRendersUid | suitcase/dataexchange/__init__.py:127 | The default `{uid}-` renders as `<uid>-`, and raises KeyError("uid") without a uid. |
| DataExchange.CreateStep | suitcase/dataexchange/__init__.py:225 | `create_dataset` raises AttributeError while there is no file, then the argument's own error, then refuses an existing name. Otherwise it adds exactly that dataset. Each error is stated, and an error changes nothing. |
| DataExchange.ArtifactsAppend | suitcase/dataexchange/__init__.py:152-163 | After an `open`, the artifacts of its label are the earlier names plus the new one. No other label appears or disappears, and every other label keeps its list. |
| DataExchange.StartOpensFile | suitcase/dataexchange/__init__.py:216-220 | A template that fails to render raises and changes nothing. Otherwise start records the prefix and opens `<prefix>.h5` under `stream_data` in mode `xb`, whatever happens afterwards. |
| DataExchange.StartDefaultFileName | suitcase/dataexchange/__init__.py:216-219 | With the default template the file opened is `<uid>-.h5`. Without a uid, start raises KeyError("uid") and opens nothing. |
| DataExchange.StartWritesScalars | suitcase/dataexchange/__init__.py:222-229 | Start succeeds exactly when `x_ray_energy`, `chunk_size`, `note`, `uid`, `scan_id` and `scan_time` are all present. The new file then holds exactly `note`, `uid`, `scan_id`, `scan_time` and `X_eng`, taken from the document, with `X_eng` preferring `XEng`. |
| DataExchange.ImageShapeFirstTwo | suitcase/dataexchange/__init__.py:247 | The image shape is the first two entries of `data_keys['Andor_image']['shape']`. |
| DataExchange.DescriptorPrimary | suitcase/dataexchange/__init__.py:246-255 | A primary descriptor allocates `data_white` and `data_dark` with the image shape, and `data` with 0 rows, unlimited rows and chunks of 5 rows. Nothing else changes. |
| DataExchange.DescriptorMonitor | suitcase/dataexchange/__init__.py:256-260 | A `zps_pi_r_monitor` descriptor allocates `/exchange/theta`: length 0, unlimited, chunks of 1500. Nothing else changes. |
| DataExchange.DescriptorOtherNames | suitcase/dataexchange/__init__.py:242-244 | A baseline descriptor only records its uid. Any other unknown name changes nothing. A descriptor without a name raises KeyError. |
| DataExchange.DescriptorBeforeStart | suitcase/dataexchange/__init__.py:247-260 | Before start, a primary or monitor descriptor raises AttributeError (no file), even with an invalid shape, and changes nothing. |
| DataExchange.EventPageFirstWins | suitcase/dataexchange/__init__.py:272-282 | Once the baseline is written, every event page leaves the state unchanged. |
| DataExchange.EventPageOtherStream | suitcase/dataexchange/__init__.py:272-273 | A page of another stream changes nothing. A page before any baseline descriptor raises AttributeError. |
| DataExchange.EventPageWritesBaseline | suitcase/dataexchange/__init__.py:272-282 | The first baseline page writes `x_ini`, `y_ini`, `z_ini`, `r_ini` from index 0 of `zps_sx`, `zps_sy`, `zps_sz`, `zps_pi_r` and sets the flag. A following page is then ignored. |
| DataExchange.DatasetsOnlyGrow | suitcase/dataexchange/__init__.py:242-282 | No document other than start removes or rewrites a dataset or discards the file. |
| DataExchange.RunStopsAtError | suitcase/dataexchange/__init__.py:79-81 | An error part-way through the stream is the result of the whole run. |
| DataExchange.Serializer.constructor | suitcase/dataexchange/__init__.py:127-146 | Keeps the template, with an empty rendered prefix, nothing opened, no file, the flag false and no baseline uid. |
| DataExchange.Serializer.Close | suitcase/dataexchange/__init__.py:165-169 | Closes the manager and changes nothing else. |
| DataExchange.Serializer.CreateDataset | suitcase/dataexchange/__init__.py:225 | Updates the file, with the error, exactly as `CreateStep` states. |
| DataExchange.Serializer.Start | suitcase/dataexchange/__init__.py:211-229 | The new fields and the raised error are those of the start transition. |
| DataExchange.Serializer.Descriptor | suitcase/dataexchange/__init__.py:242-260 | The new fields and the raised error are those of the descriptor transition. |
| DataExchange.Serializer.EventPage | suitcase/dataexchange/__init__.py:267-282 | The new fields and the raised error are those of the event-page transition. |
| DataExchange.Serializer.Call | suitcase/dataexchange/__init__.py:184-188 | Routes start, descriptor and event page to their handlers. Every other kind changes nothing. |
| DataExchange.Export | suitcase/dataexchange/__init__.py:16-83 | Gives the manager's artifacts after feeding every document in order, or the first raised error. The serializer it returns is closed in both cases, and is in the state the run reached. |
| FlyScan.SplitFrames | suitcase/dataexchange/__init__.py:310-319 | No chunk at all is an IndexError. Chunks of unequal length do not form one array. Otherwise dark is the first chunk and background the last. |
| FlyScan.FlattenAppend | suitcase/dataexchange/__init__.py:326-327 | Extending by one more chunk appends exactly that chunk. |
| FlyScan.FlattenLength | suitcase/dataexchange/__init__.py:319 | The reshape of chunks of c frames has (number of chunks) × c frames. |
| FlyScan.FlattenAt | suitcase/dataexchange/__init__.py:319 | Frame p of chunk j is at position j × c + p of the reshape. |
| FlyScan.SplitFramesCount | suitcase/dataexchange/__init__.py:317-319 | With n ≥ 2 chunks of c frames, there are (n − 2) × c tomography frames. |
| FlyScan.TrimTimestamps | suitcase/dataexchange/__init__.py:324-327 | The extend loop yields the concatenation, in order, of all timestamp chunks but the first and the last. |
| FlyScan.FramesMatchTimestamps | suitcase/dataexchange/__init__.py:311-327 | With as many frame chunks as timestamp chunks, there are as many trimmed timestamps as tomography frames, and position j × c + p of both comes from entry p of chunk j + 1. |

## Left out

- I/O is not modelled. h5py, `MultiFileManager` and a user-supplied manager become an abstract dataset map and the log of `open` calls. The output directory, file handles, `**kwargs` and the `with` protocol reduce to `Close` being called on every path.
- The manager's `open` (mode `xb`, exclusive creation) and `h5py.File` never fail in the model. An existing `<prefix>.h5` or a failing manager would raise in the source, so "start succeeds exactly when" in `StartWritesScalars` holds only under this assumption.
- Export returns the serializer beside the artifacts. This makes the closing of the manager, which a user-supplied manager can observe, part of the result.
- The `/exchange` group is a plain part of dataset names. h5py's name normalisation is not modelled.
- The event_model router's dispatch is not modelled, because the router is not part of this repository. It becomes a closed `Kind` datatype and one `match`. The router's conversions (a single `event` into an event page, a single `datum` into a datum page) and its other representations are left out.
- Migrate.Migration.Call: a single `datum` is forwarded unchanged. The router's datum-to-page conversion is not part of this model, so no shadow datum is minted for it.
- DataExchange.Serializer.Call: a single `event` changes nothing. The router's event-to-page conversion is not part of this model.
- `uuid.uuid4` becomes the `newUid` parameter. Global uniqueness of fresh uids cannot be stated, so `MintedIdInjective` assumes uids without `/`.
- Migrate.AnnotateEvent: a `data` of another type than dict, list or string raises TypeError at the `in` test. Python's `in` on other containers is not modelled.
- Migrate.ShadowDatumPage: a `datum_id` that is not a list raises TypeError. Python's behaviour for a string, a tuple or a dict there is not modelled.
- Unhashable values used as dictionary keys (a list as a resource uid or datum id) are not modelled. Python would raise TypeError.
- Python's cross-type numeric equality is not modelled: values compare structurally.
- The model's documents are values. A handler that raises part-way leaves the Python document partly mutated. That state and any aliasing between documents are not modelled.
- `str.format` is modelled only for plain `{name}` fields and `{{`/`}}` escapes. Format specs such as `{time:%Y-%m-%d}`, conversions, attribute and index fields give `FormatUnsupported`, not Python's rendering. Positional fields raise IndexError. A `{` inside a replacement field (`{a{b}c}`, or a nested field in a format spec) is not modelled: the model ends the field at the first `}`, where Python counts nested braces. Such a template gives `FormatUnsupported` or "expected '}'" instead of Python's own ValueError.
- Template.Field: `str()` is modelled for strings, integers, booleans and None only. Other values give `FormatUnsupported`.
- h5py's checks of dataset values and shapes are reduced to "the shape must be non-negative integers". The storage of the data itself (dtype, contents) is not modelled.
- The start lines 234-239 are not modelled. They use the undefined names `img_bkg`, `img_dark`, `hf` and `np` and raise NameError, so start ends after `X_eng`.
- `stop` (lines 285-286) is an empty body and is modelled as changing nothing.
- `export_fly_scan` is modelled only for the frame and timestamp selection (lines 311-327). These are left out: the floating-point means, the timestamp conversion with pandas, `np.interp`, the `argmax` cut, the databroker handle, the undefined `db`, `write_lakeshore_to_file`, and the file-writing block at line 354, which has no body.
- FlyScan.SplitFrames: numpy 1.24 and later raises ValueError in `np.array` for chunks of unequal length. Older numpy builds an object array and fails later, at the reshape of line 319. That check is modelled, but the extra image axes are not: a frame is an opaque value.
- test.py and the `__main__` block of migrate.py are not modelled. They are driver scripts with local paths.
