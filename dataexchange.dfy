/**
 * The dataexchange exporter: a router that, document by document, opens one
 * `.h5` file through the manager, writes the run's scalar metadata at start,
 * allocates the image and angle datasets when the primary and monitor streams
 * are described, and records the baseline motor positions from the first
 * baseline event page.
 *
 * The HDF5 file is a map from dataset name to an abstract dataset; the manager
 * is the log of its `open` calls. The exporter's state is the record `State`,
 * each handler is specified by a function from the old state to a `Step` (new
 * state and raised error, if any), and the class `Serializer` updates its
 * fields step by step and is proved to follow those functions.
 */
module DataExchange {
  import opened Documents
  import opened Template

  // ---------------------------------------------------------------------------
  // The file and the manager
  // ---------------------------------------------------------------------------

  /** One axis bound in an HDF5 `maxshape`. */
  datatype Extent = Unlimited | Fixed(n: nat)

  /**
   * A dataset: one written from a value (`create_dataset(name, data=v)`), or one
   * allocated empty with a shape, a maximum shape and optionally a chunk shape.
   */
  datatype Dataset =
    | Stored(value: Value)
    | Allocated(shape: seq<nat>, maxShape: seq<Extent>, chunks: Option<seq<nat>>)

  type H5File = map<string, Dataset>

  /** A call `manager.open(category, name, mode)`. */
  datatype OpenCall = OpenCall(category: string, name: string, mode: string)

  const StreamData: string := "stream_data"

  /** The chunk row count of the image dataset. */
  const DataChunkRows: nat := 5
  /** The chunk length of the angle dataset. */
  const ThetaChunkRows: nat := 1500

  function FixedExtents(dims: seq<nat>): (r: seq<Extent>)
    ensures |r| == |dims| && forall i :: 0 <= i < |dims| ==> r[i] == Fixed(dims[i])
  {
    seq(|dims|, i requires 0 <= i < |dims| => Fixed(dims[i]))
  }

  /** The manager's `artifacts`: for each label, the names opened under it, in order. */
  function ArtifactsOf(openCalls: seq<OpenCall>): map<string, seq<string>>
  {
    if openCalls == [] then map[]
    else
      var a := ArtifactsOf(openCalls[..|openCalls| - 1]);
      var c := openCalls[|openCalls| - 1];
      a[c.category := (if c.category in a then a[c.category] else []) + [c.name]]
  }

  // ---------------------------------------------------------------------------
  // Exporter state and the handlers as state transitions
  // ---------------------------------------------------------------------------

  /**
   * The exporter's fields. `baselineDescriptorUid` is None until a baseline
   * descriptor arrives (the attribute does not exist before); `outputFile` is
   * None until start opens the file.
   */
  datatype State = State(
    filePrefix: string,
    templatedFilePrefix: string,
    openCalls: seq<OpenCall>,
    outputFile: Option<H5File>,
    baselineAdded: bool,
    baselineDescriptorUid: Option<Value>,
    closed: bool)

  /** The state after a handler, and the error it raised, if any. */
  datatype Step = Step(state: State, err: Option<Error>)

  function Init(filePrefix: string): State
  {
    State(filePrefix, "", [], None, false, None, false)
  }

  /** h5py's refusal to create a dataset under a name the file already holds. */
  const NameExists: Error := ValueError("Unable to create dataset (name already exists)")

  /**
   * `self._output_file.create_dataset(name, ...)`: AttributeError while there is
   * no file, then the argument's own error, then h5py's refusal of an existing
   * name; otherwise the file gains the dataset and nothing else changes.
   */
  function CreateStep(s: State, name: string, d: Result<Dataset>): (r: Step)
    ensures r.err.None? <==> s.outputFile.Some? && d.Ok? && name !in s.outputFile.value
    ensures r.err.None? ==> r.state == s.(outputFile := Some(s.outputFile.value[name := d.value]))
    ensures r.err.Some? ==> r.state == s
    ensures s.outputFile.None? ==> r.err == Some(AttributeError("create_dataset"))
    ensures s.outputFile.Some? && d.Err? ==> r.err == Some(d.error)
    ensures s.outputFile.Some? && d.Ok? && name in s.outputFile.value ==> r.err == Some(NameExists)
  {
    match s.outputFile
    case None => Step(s, Some(AttributeError("create_dataset")))
    case Some(f) =>
      match d
      case Err(e) => Step(s, Some(e))
      case Ok(ds) =>
        if name in f then Step(s, Some(NameExists))
        else Step(s.(outputFile := Some(f[name := ds])), None)
  }

  /** Run the next `create_dataset` unless an earlier statement raised. */
  function Then(a: Step, name: string, d: Result<Dataset>): Step
  {
    if a.err.Some? then a else CreateStep(a.state, name, d)
  }

  /** `data=doc[name]`: the field's value, or KeyError. */
  function StoredField(doc: Doc, name: string): Result<Dataset>
  {
    if name in doc then Ok(Stored(doc[name])) else Err(KeyError(VStr(name)))
  }

  /** `start` (lines 216-229). */
  function StartStep(s: State, doc: Doc): Step
  {
    match Format(s.filePrefix, doc)
    case Err(e) => Step(s, Some(e))
    case Ok(prefix) =>
      var s1 := s.(templatedFilePrefix := prefix,
                   openCalls := s.openCalls + [OpenCall(StreamData, prefix + ".h5", "xb")],
                   outputFile := Some(map[]));
      if "x_ray_energy" !in doc then Step(s1, Some(KeyError(VStr("x_ray_energy"))))
      else if "chunk_size" !in doc then Step(s1, Some(KeyError(VStr("chunk_size"))))
      else
        var xEng := if "XEng" in doc then doc["XEng"] else doc["x_ray_energy"];
        Then(Then(Then(Then(CreateStep(s1, "note", StoredField(doc, "note")),
                            "uid", StoredField(doc, "uid")),
                       "scan_id", StoredField(doc, "scan_id")),
                  "scan_time", StoredField(doc, "scan_time")),
             "X_eng", Ok(Stored(xEng)))
  }

  /** The image dimensions of a `shape` slice: h5py accepts only non-negative integers. */
  function Dims(v: Value): (r: Result<seq<nat>>)
    ensures r.Ok? ==> v.VList? && |r.value| == |v.items| && forall i :: 0 <= i < |v.items| ==> v.items[i] == VInt(r.value[i])
  {
    match v
    case VList(xs) =>
      if forall i :: 0 <= i < |xs| ==> xs[i].VInt? && xs[i].i >= 0
      then Ok(seq(|xs|, i requires 0 <= i < |xs| => xs[i].i as nat))
      else Err(TypeError)
    case _ => Err(TypeError)
  }

  /** `doc['data_keys']['Andor_image']['shape'][:2]`, as a document value. */
  function ImageSlice(doc: Doc): Result<Value>
  {
    var dataKeys :- Lookup(doc, "data_keys");
    var image :- Item(dataKeys, "Andor_image");
    var shape :- Item(image, "shape");
    Prefix(shape, 2)
  }

  /** The image dimensions, once h5py has accepted the slice as a shape. */
  function ImageShape(doc: Doc): Result<seq<nat>>
  {
    var cut :- ImageSlice(doc);
    Dims(cut)
  }

  /**
   * The arguments of the allocating `create_dataset` calls. h5py checks the
   * shape only inside the call, so a bad shape is the argument's error, raised
   * after the missing-file AttributeError.
   */
  function ReferenceFrame(img: Result<seq<nat>>): Result<Dataset>
  {
    var dims :- img;
    Ok(Allocated(dims, FixedExtents(dims), None))
  }

  /** The image stack: no rows yet, any number of rows later, chunks of 5 rows. */
  function FrameStack(img: Result<seq<nat>>): Result<Dataset>
  {
    var dims :- img;
    Ok(Allocated([0] + dims, [Unlimited] + FixedExtents(dims), Some([DataChunkRows] + dims)))
  }

  /** `descriptor` (lines 242-260): streams are told apart by their exact name. */
  function DescriptorStep(s: State, doc: Doc): Step
  {
    if "name" !in doc then Step(s, Some(KeyError(VStr("name"))))
    else if doc["name"] == VStr("baseline") then
      if "uid" !in doc then Step(s, Some(KeyError(VStr("uid"))))
      else Step(s.(baselineDescriptorUid := Some(doc["uid"])), None)
    else if doc["name"] == VStr("primary") then
      match ImageSlice(doc)
      case Err(e) => Step(s, Some(e))
      case Ok(cut) =>
        var img := Dims(cut);
        Then(Then(CreateStep(s, "/exchange/data_white", ReferenceFrame(img)),
                  "/exchange/data_dark", ReferenceFrame(img)),
             "/exchange/data", FrameStack(img))
    else if doc["name"] == VStr("zps_pi_r_monitor") then
      CreateStep(s, "/exchange/theta", Ok(Allocated([0], [Unlimited], Some([ThetaChunkRows]))))
    else Step(s, None)
  }

  /** `doc['data'][field][0]`. */
  function FirstOf(doc: Doc, field: string): Result<Value>
  {
    var data :- Lookup(doc, "data");
    var column :- Item(data, field);
    First(column)
  }

  /**
   * `event_page` (lines 272-282, read as `not added and (descriptor == uid)`):
   * the first page of the baseline stream writes the four initial positions.
   */
  function EventPageStep(s: State, doc: Doc): Step
  {
    if s.baselineAdded then Step(s, None)
    else if "descriptor" !in doc then Step(s, Some(KeyError(VStr("descriptor"))))
    else if s.baselineDescriptorUid.None? then Step(s, Some(AttributeError("_baseline_descriptor_uid")))
    else if doc["descriptor"] != s.baselineDescriptorUid.value then Step(s, None)
    else
      match FirstOf(doc, "zps_sx")
      case Err(e) => Step(s, Some(e))
      case Ok(x) =>
        match FirstOf(doc, "zps_sy")
        case Err(e) => Step(s, Some(e))
        case Ok(y) =>
          match FirstOf(doc, "zps_sz")
          case Err(e) => Step(s, Some(e))
          case Ok(z) =>
            match FirstOf(doc, "zps_pi_r")
            case Err(e) => Step(s, Some(e))
            case Ok(r) =>
              var w := Then(Then(Then(CreateStep(s, "x_ini", Ok(Stored(x))),
                                      "y_ini", Ok(Stored(y))),
                                 "z_ini", Ok(Stored(z))),
                            "r_ini", Ok(Stored(r)));
              if w.err.Some? then w else Step(w.state.(baselineAdded := true), None)
  }

  /** The router: each kind goes to its handler; `stop` and the kinds without a handler change nothing. */
  function DispatchStep(s: State, kind: Kind, doc: Doc): Step
  {
    match kind
    case Start => StartStep(s, doc)
    case Descriptor => DescriptorStep(s, doc)
    case EventPage => EventPageStep(s, doc)
    case _ => Step(s, None)
  }

  /** Feeding documents in order; the first error stops the run. */
  function Run(s: State, docs: seq<(Kind, Doc)>): Step
  {
    if docs == [] then Step(s, None)
    else
      var prev := Run(s, docs[..|docs| - 1]);
      if prev.err.Some? then prev
      else DispatchStep(prev.state, docs[|docs| - 1].0, docs[|docs| - 1].1)
  }

  /** `export`: the artifacts after feeding every document, or the first error. */
  function ExportResult(filePrefix: string, docs: seq<(Kind, Doc)>): Result<map<string, seq<string>>>
  {
    var r := Run(Init(filePrefix), docs);
    if r.err.Some? then Err(r.err.value) else Ok(ArtifactsOf(r.state.openCalls))
  }

  // ---------------------------------------------------------------------------
  // Properties of the handlers
  // ---------------------------------------------------------------------------

  /** The manager's artifacts list every openCalls name under its label, after the earlier ones. */
  lemma ArtifactsAppend(openCalls: seq<OpenCall>, c: OpenCall)
    ensures c.category in ArtifactsOf(openCalls + [c])
    ensures ArtifactsOf(openCalls + [c])[c.category]
            == (if c.category in ArtifactsOf(openCalls) then ArtifactsOf(openCalls)[c.category] else []) + [c.name]
    ensures forall l :: l != c.category ==> (l in ArtifactsOf(openCalls + [c]) <==> l in ArtifactsOf(openCalls))
    ensures forall l :: l != c.category && l in ArtifactsOf(openCalls) ==> ArtifactsOf(openCalls + [c])[l] == ArtifactsOf(openCalls)[l]
  {
    assert (openCalls + [c])[..|openCalls + [c]| - 1] == openCalls;
  }

  /**
   * Start renders the template first: a failure there changes nothing; otherwise
   * it opens `<prefix>.h5` under `stream_data` in mode `xb` and records the
   * prefix, whatever happens afterwards.
   */
  lemma StartOpensFile(s: State, doc: Doc)
    ensures Format(s.filePrefix, doc).Err? ==> StartStep(s, doc) == Step(s, Some(Format(s.filePrefix, doc).error))
    ensures Format(s.filePrefix, doc).Ok? ==>
      var prefix := Format(s.filePrefix, doc).value;
      var t := StartStep(s, doc).state;
      && t.templatedFilePrefix == prefix
      && t.openCalls == s.openCalls + [OpenCall(StreamData, prefix + ".h5", "xb")]
      && t.outputFile.Some?
      && t.baselineAdded == s.baselineAdded && t.baselineDescriptorUid == s.baselineDescriptorUid
  {
  }

  /**
   * With the default template `{uid}-`, start opens `<uid>-.h5` for a string
   * uid, and raises KeyError, opening nothing, when the start document has no uid.
   */
  lemma StartDefaultFileName(s: State, doc: Doc)
    requires s.filePrefix == DefaultFilePrefix
    ensures "uid" !in doc ==> StartStep(s, doc) == Step(s, Some(KeyError(VStr("uid"))))
    ensures "uid" in doc && doc["uid"].VStr? ==>
      StartStep(s, doc).state.openCalls == s.openCalls + [OpenCall(StreamData, doc["uid"].s + "-.h5", "xb")]
  {
    DefaultPrefixRendersUid(doc);
    if "uid" in doc && doc["uid"].VStr? {
      assert doc["uid"].s + "-" + ".h5" == doc["uid"].s + "-.h5";
    }
  }

  /**
   * Start succeeds exactly when the template renders and the start document
   * has `x_ray_energy` (the default of `doc.get` is evaluated even when `XEng`
   * is present), `chunk_size`, `note`, `uid`, `scan_id` and `scan_time`; the new
   * file then holds exactly the five scalar datasets, `X_eng` preferring `XEng`.
   */
  lemma StartWritesScalars(s: State, doc: Doc)
    requires Format(s.filePrefix, doc).Ok?
    ensures var t := StartStep(s, doc);
      t.err.None? <==> "x_ray_energy" in doc && "chunk_size" in doc && "note" in doc && "uid" in doc && "scan_id" in doc && "scan_time" in doc
    ensures var t := StartStep(s, doc);
      t.err.None? ==>
        t.state.outputFile == Some(map[
          "note" := Stored(doc["note"]),
          "uid" := Stored(doc["uid"]),
          "scan_id" := Stored(doc["scan_id"]),
          "scan_time" := Stored(doc["scan_time"]),
          "X_eng" := Stored(if "XEng" in doc then doc["XEng"] else doc["x_ray_energy"])])
  {
  }

  /** The first two entries of the image shape, when they are non-negative integers. */
  lemma ImageShapeFirstTwo(doc: Doc, dims: seq<nat>)
    requires "data_keys" in doc && doc["data_keys"].VDict? && "Andor_image" in doc["data_keys"].fields
    requires doc["data_keys"].fields["Andor_image"].VDict? && "shape" in doc["data_keys"].fields["Andor_image"].fields
    requires var shape := doc["data_keys"].fields["Andor_image"].fields["shape"];
      shape.VList? && |shape.items| == |dims| && forall i :: 0 <= i < |dims| ==> shape.items[i] == VInt(dims[i])
    ensures ImageShape(doc) == Ok(dims[..if |dims| < 2 then |dims| else 2])
  {
    var shape := doc["data_keys"].fields["Andor_image"].fields["shape"];
    var n := if |dims| < 2 then |dims| else 2;
    var cut := shape.items[..n];
    assert Prefix(shape, 2) == Ok(VList(cut));
    assert forall i :: 0 <= i < |cut| ==> cut[i].VInt? && cut[i].i >= 0;
    assert Dims(VList(cut)).value == dims[..n];
  }

  /**
   * A `primary` descriptor allocates `/exchange/data_white` and
   * `/exchange/data_dark` with the image shape, and `/exchange/data` with zero
   * rows, unlimited rows and chunks of 5 rows; nothing else changes.
   */
  lemma DescriptorPrimary(s: State, doc: Doc, img: seq<nat>)
    requires "name" in doc && doc["name"] == VStr("primary")
    requires ImageShape(doc) == Ok(img)
    requires s.outputFile.Some?
    requires "/exchange/data_white" !in s.outputFile.value && "/exchange/data_dark" !in s.outputFile.value
    requires "/exchange/data" !in s.outputFile.value
    ensures var t := DescriptorStep(s, doc);
      && t.err.None?
      && t.state == s.(outputFile := Some(s.outputFile.value[
           "/exchange/data_white" := Allocated(img, FixedExtents(img), None)][
           "/exchange/data_dark" := Allocated(img, FixedExtents(img), None)][
           "/exchange/data" := Allocated([0] + img, [Unlimited] + FixedExtents(img), Some([5] + img))]))
  {
  }

  /** A `zps_pi_r_monitor` descriptor allocates `/exchange/theta`: empty, unlimited, chunks of 1500. */
  lemma DescriptorMonitor(s: State, doc: Doc)
    requires "name" in doc && doc["name"] == VStr("zps_pi_r_monitor")
    requires s.outputFile.Some? && "/exchange/theta" !in s.outputFile.value
    ensures DescriptorStep(s, doc)
            == Step(s.(outputFile := Some(s.outputFile.value["/exchange/theta" := Allocated([0], [Unlimited], Some([1500]))])), None)
  {
  }

  /**
   * A `baseline` descriptor only remembers its uid; any other stream name
   * changes nothing; a descriptor without a name is a KeyError.
   */
  lemma DescriptorOtherNames(s: State, doc: Doc)
    ensures "name" !in doc ==> DescriptorStep(s, doc) == Step(s, Some(KeyError(VStr("name"))))
    ensures "name" in doc && doc["name"] == VStr("baseline") && "uid" in doc ==>
      DescriptorStep(s, doc) == Step(s.(baselineDescriptorUid := Some(doc["uid"])), None)
    ensures "name" in doc && doc["name"] !in {VStr("baseline"), VStr("primary"), VStr("zps_pi_r_monitor")} ==>
      DescriptorStep(s, doc) == Step(s, None)
  {
  }

  /**
   * Before `start` there is no file: a `primary` descriptor whose shape slice
   * can be read, and a `zps_pi_r_monitor` descriptor, raise AttributeError,
   * even when the shape is not a valid one, and change nothing.
   */
  lemma DescriptorBeforeStart(s: State, doc: Doc)
    requires s.outputFile.None? && "name" in doc
    ensures doc["name"] == VStr("primary") && ImageSlice(doc).Ok? ==>
      DescriptorStep(s, doc) == Step(s, Some(AttributeError("create_dataset")))
    ensures doc["name"] == VStr("zps_pi_r_monitor") ==>
      DescriptorStep(s, doc) == Step(s, Some(AttributeError("create_dataset")))
  {
  }

  /** Once the baseline is written, every event page leaves the state alone (first wins). */
  lemma EventPageFirstWins(s: State, doc: Doc)
    requires s.baselineAdded
    ensures EventPageStep(s, doc) == Step(s, None)
  {
  }

  /**
   * Before the baseline is written: a page of another stream changes nothing,
   * and a page arriving before any baseline descriptor raises AttributeError.
   */
  lemma EventPageOtherStream(s: State, doc: Doc)
    requires !s.baselineAdded && "descriptor" in doc
    ensures s.baselineDescriptorUid.None? ==>
      EventPageStep(s, doc) == Step(s, Some(AttributeError("_baseline_descriptor_uid")))
    ensures s.baselineDescriptorUid.Some? && doc["descriptor"] != s.baselineDescriptorUid.value ==>
      EventPageStep(s, doc) == Step(s, None)
  {
  }

  /**
   * The first page of the baseline stream writes `x_ini`, `y_ini`, `z_ini` and
   * `r_ini` from index 0 of `zps_sx`, `zps_sy`, `zps_sz` and `zps_pi_r`, sets the
   * flag, and after that any further page is ignored.
   */
  lemma EventPageWritesBaseline(s: State, doc: Doc, followUp: Doc)
    requires !s.baselineAdded && s.baselineDescriptorUid.Some?
    requires "descriptor" in doc && doc["descriptor"] == s.baselineDescriptorUid.value
    requires "data" in doc && doc["data"].VDict?
    requires forall f :: f in ["zps_sx", "zps_sy", "zps_sz", "zps_pi_r"] ==>
      f in doc["data"].fields && doc["data"].fields[f].VList? && |doc["data"].fields[f].items| > 0
    requires s.outputFile.Some?
    requires forall n :: n in ["x_ini", "y_ini", "z_ini", "r_ini"] ==> n !in s.outputFile.value
    ensures var t := EventPageStep(s, doc);
      var d := doc["data"].fields;
      && t.err.None?
      && t.state == s.(baselineAdded := true, outputFile := Some(s.outputFile.value[
           "x_ini" := Stored(d["zps_sx"].items[0])][
           "y_ini" := Stored(d["zps_sy"].items[0])][
           "z_ini" := Stored(d["zps_sz"].items[0])][
           "r_ini" := Stored(d["zps_pi_r"].items[0])]))
      && EventPageStep(t.state, followUp) == Step(t.state, None)
  {
    var d := doc["data"].fields;
    assert "zps_sx" in ["zps_sx", "zps_sy", "zps_sz", "zps_pi_r"];
    assert "zps_sy" in ["zps_sx", "zps_sy", "zps_sz", "zps_pi_r"];
    assert "zps_sz" in ["zps_sx", "zps_sy", "zps_sz", "zps_pi_r"];
    assert "zps_pi_r" in ["zps_sx", "zps_sy", "zps_sz", "zps_pi_r"];
    assert "x_ini" in ["x_ini", "y_ini", "z_ini", "r_ini"];
    assert "y_ini" in ["x_ini", "y_ini", "z_ini", "r_ini"];
    assert "z_ini" in ["x_ini", "y_ini", "z_ini", "r_ini"];
    assert "r_ini" in ["x_ini", "y_ini", "z_ini", "r_ini"];
  }

  /** Every dataset of a's file is still in b's file, unchanged. */
  ghost predicate Grows(a: State, b: State)
  {
    a.outputFile.Some? ==>
      b.outputFile.Some? &&
      forall n :: n in a.outputFile.value ==> n in b.outputFile.value && b.outputFile.value[n] == a.outputFile.value[n]
  }

  lemma ThenGrows(s: State, a: Step, name: string, d: Result<Dataset>)
    requires Grows(s, a.state)
    ensures Grows(s, Then(a, name, d).state)
  {
  }

  lemma DescriptorGrows(s: State, doc: Doc)
    ensures Grows(s, DescriptorStep(s, doc).state)
  {
    if "name" in doc && doc["name"] == VStr("primary") && ImageSlice(doc).Ok? {
      var img := Dims(ImageSlice(doc).value);
      var a := CreateStep(s, "/exchange/data_white", ReferenceFrame(img));
      var b := Then(a, "/exchange/data_dark", ReferenceFrame(img));
      ThenGrows(s, b, "/exchange/data", FrameStack(img));
    }
  }

  lemma EventPageGrows(s: State, doc: Doc)
    ensures Grows(s, EventPageStep(s, doc).state)
  {
    if !s.baselineAdded && "descriptor" in doc && s.baselineDescriptorUid.Some? && doc["descriptor"] == s.baselineDescriptorUid.value
       && FirstOf(doc, "zps_sx").Ok? && FirstOf(doc, "zps_sy").Ok? && FirstOf(doc, "zps_sz").Ok? && FirstOf(doc, "zps_pi_r").Ok? {
      var a := CreateStep(s, "x_ini", Ok(Stored(FirstOf(doc, "zps_sx").value)));
      assert Grows(s, a.state);
      ThenGrows(s, a, "y_ini", Ok(Stored(FirstOf(doc, "zps_sy").value)));
      var b := Then(a, "y_ini", Ok(Stored(FirstOf(doc, "zps_sy").value)));
      ThenGrows(s, b, "z_ini", Ok(Stored(FirstOf(doc, "zps_sz").value)));
      var c := Then(b, "z_ini", Ok(Stored(FirstOf(doc, "zps_sz").value)));
      ThenGrows(s, c, "r_ini", Ok(Stored(FirstOf(doc, "zps_pi_r").value)));
      var w := Then(c, "r_ini", Ok(Stored(FirstOf(doc, "zps_pi_r").value)));
      assert EventPageStep(s, doc).state == if w.err.Some? then w.state else w.state.(baselineAdded := true);
    }
  }

  /**
   * Datasets only grow: apart from `start`, which opens a new file, no document
   * removes or rewrites a dataset, and none discards the file.
   */
  lemma DatasetsOnlyGrow(s: State, kind: Kind, doc: Doc)
    requires kind != Start && s.outputFile.Some?
    ensures var t := DispatchStep(s, kind, doc).state;
      t.outputFile.Some? &&
      forall n :: n in s.outputFile.value ==> n in t.outputFile.value && t.outputFile.value[n] == s.outputFile.value[n]
  {
    DescriptorGrows(s, doc);
    EventPageGrows(s, doc);
  }

  // ---------------------------------------------------------------------------
  // The serializer object
  // ---------------------------------------------------------------------------

  class Serializer {
    const filePrefix: string
    var templatedFilePrefix: string
    var openCalls: seq<OpenCall>
    var outputFile: Option<H5File>
    var baselineAdded: bool
    var baselineDescriptorUid: Option<Value>
    var closed: bool

    /** The fields as one value. */
    function Model(): State
      reads this
    {
      State(filePrefix, templatedFilePrefix, openCalls, outputFile, baselineAdded, baselineDescriptorUid, closed)
    }

    constructor (filePrefix: string)
      ensures Model() == Init(filePrefix)
    {
      this.filePrefix := filePrefix;
      templatedFilePrefix := "";
      openCalls := [];
      outputFile := None;
      baselineAdded := false;
      baselineDescriptorUid := None;
      closed := false;
    }

    /** The manager's artifacts. */
    function Artifacts(): map<string, seq<string>>
      reads this
    {
      ArtifactsOf(openCalls)
    }

    /** `self._manager.close()`. */
    method Close()
      modifies this
      ensures Model() == old(Model()).(closed := true)
    {
      closed := true;
    }

    method CreateDataset(name: string, d: Result<Dataset>) returns (err: Option<Error>)
      modifies this
      ensures Model() == CreateStep(old(Model()), name, d).state && err == CreateStep(old(Model()), name, d).err
    {
      if outputFile.None? {
        return Some(AttributeError("create_dataset"));
      }
      if d.Err? {
        return Some(d.error);
      }
      if name in outputFile.value {
        return Some(NameExists);
      }
      outputFile := Some(outputFile.value[name := d.value]);
      return None;
    }

    method Start(doc: Doc) returns (err: Option<Error>)
      modifies this
      ensures Model() == StartStep(old(Model()), doc).state && err == StartStep(old(Model()), doc).err
    {
      var rendered := Format(filePrefix, doc);
      if rendered.Err? {
        return Some(rendered.error);
      }
      templatedFilePrefix := rendered.value;
      var filename := templatedFilePrefix + ".h5";
      openCalls := openCalls + [OpenCall(StreamData, filename, "xb")];
      outputFile := Some(map[]);
      if "x_ray_energy" !in doc {
        return Some(KeyError(VStr("x_ray_energy")));
      }
      var xEng := if "XEng" in doc then doc["XEng"] else doc["x_ray_energy"];
      if "chunk_size" !in doc {
        return Some(KeyError(VStr("chunk_size")));
      }
      err := CreateDataset("note", StoredField(doc, "note"));
      if err.Some? { return; }
      err := CreateDataset("uid", StoredField(doc, "uid"));
      if err.Some? { return; }
      err := CreateDataset("scan_id", StoredField(doc, "scan_id"));
      if err.Some? { return; }
      err := CreateDataset("scan_time", StoredField(doc, "scan_time"));
      if err.Some? { return; }
      err := CreateDataset("X_eng", Ok(Stored(xEng)));
    }

    method Descriptor(doc: Doc) returns (err: Option<Error>)
      modifies this
      ensures Model() == DescriptorStep(old(Model()), doc).state && err == DescriptorStep(old(Model()), doc).err
    {
      if "name" !in doc {
        return Some(KeyError(VStr("name")));
      }
      var name := doc["name"];
      if name == VStr("baseline") {
        if "uid" !in doc {
          return Some(KeyError(VStr("uid")));
        }
        baselineDescriptorUid := Some(doc["uid"]);
        return None;
      } else if name == VStr("primary") {
        var cut := ImageSlice(doc);
        if cut.Err? {
          return Some(cut.error);
        }
        var img := Dims(cut.value);
        err := CreateDataset("/exchange/data_white", ReferenceFrame(img));
        if err.Some? { return; }
        err := CreateDataset("/exchange/data_dark", ReferenceFrame(img));
        if err.Some? { return; }
        err := CreateDataset("/exchange/data", FrameStack(img));
      } else if name == VStr("zps_pi_r_monitor") {
        err := CreateDataset("/exchange/theta", Ok(Allocated([0], [Unlimited], Some([ThetaChunkRows]))));
      } else {
        err := None;
      }
    }

    method EventPage(doc: Doc) returns (err: Option<Error>)
      modifies this
      ensures Model() == EventPageStep(old(Model()), doc).state && err == EventPageStep(old(Model()), doc).err
    {
      if baselineAdded {
        return None;
      }
      if "descriptor" !in doc {
        return Some(KeyError(VStr("descriptor")));
      }
      if baselineDescriptorUid.None? {
        return Some(AttributeError("_baseline_descriptor_uid"));
      }
      if doc["descriptor"] != baselineDescriptorUid.value {
        return None;
      }
      var x := FirstOf(doc, "zps_sx");
      if x.Err? { return Some(x.error); }
      var y := FirstOf(doc, "zps_sy");
      if y.Err? { return Some(y.error); }
      var z := FirstOf(doc, "zps_sz");
      if z.Err? { return Some(z.error); }
      var r := FirstOf(doc, "zps_pi_r");
      if r.Err? { return Some(r.error); }
      err := CreateDataset("x_ini", Ok(Stored(x.value)));
      if err.Some? { return; }
      err := CreateDataset("y_ini", Ok(Stored(y.value)));
      if err.Some? { return; }
      err := CreateDataset("z_ini", Ok(Stored(z.value)));
      if err.Some? { return; }
      err := CreateDataset("r_ini", Ok(Stored(r.value)));
      if err.Some? { return; }
      baselineAdded := true;
    }

    /** `__call__`: route the document to its handler. */
    method Call(kind: Kind, doc: Doc) returns (err: Option<Error>)
      modifies this
      ensures Model() == DispatchStep(old(Model()), kind, doc).state && err == DispatchStep(old(Model()), kind, doc).err
    {
      match kind {
        case Start => err := Start(doc);
        case Descriptor => err := Descriptor(doc);
        case EventPage => err := EventPage(doc);
        case _ => err := None;
      }
    }
  }

  /**
   * `export`: feed every document to a new serializer in order, close it on the
   * way out (also when a handler raised), and give its artifacts. The closed
   * serializer is returned as well, so that its final state can be stated.
   */
  method Export(docs: seq<(Kind, Doc)>, filePrefix: string) returns (r: Result<map<string, seq<string>>>, serializer: Serializer)
    ensures r == ExportResult(filePrefix, docs)
    ensures serializer.closed
    ensures serializer.Model() == Run(Init(filePrefix), docs).state.(closed := true)
  {
    serializer := new Serializer(filePrefix);
    var i := 0;
    while i < |docs|
      invariant 0 <= i <= |docs|
      invariant Run(Init(filePrefix), docs[..i]) == Step(serializer.Model(), None)
    {
      assert docs[..i + 1][..i] == docs[..i];
      var err := serializer.Call(docs[i].0, docs[i].1);
      if err.Some? {
        serializer.Close();
        RunStopsAtError(Init(filePrefix), docs, i + 1);
        r := Err(err.value);
        return;
      }
      i := i + 1;
    }
    assert docs[..i] == docs;
    serializer.Close();
    r := Ok(serializer.Artifacts());
  }

  /** An error part-way through a run is the error of the whole run. */
  lemma {:induction false} RunStopsAtError(s: State, docs: seq<(Kind, Doc)>, n: nat)
    requires n <= |docs| && Run(s, docs[..n]).err.Some?
    ensures Run(s, docs) == Run(s, docs[..n])
    decreases |docs| - n
  {
    if n < |docs| {
      assert docs[..n + 1][..n] == docs[..n];
      RunStopsAtError(s, docs, n + 1);
    } else {
      assert docs[..n] == docs;
    }
  }
}
