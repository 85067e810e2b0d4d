/** The EBS volume listing: describe the volumes (optionally filtered by
    state) page by page, project each onto a flat record, and print the
    records as a tab-separated table, CSV rows or JSON. The paginator is an
    input: the pages it answers for a set of parameters, or the exception it
    raised. */
module Volumes {
  import opened Wrappers
  import opened Text
  import opened Tags
  import OrderedDict

  // ---------------------------------------------------------------- listing

  /** One `Filters` entry of `describe_volumes`. */
  datatype Filter = Filter(name: string, values: seq<string>)

  /** Python truthiness of an optional string: `None` and `""` are false. */
  predicate Truthy(s: Option<string>)
  {
    s.Some? && s.value != ""
  }

  /** The paginator parameters: no `Filters` key at all (`None`) unless a
      state is given, then exactly one filter on `status`. */
  function FilterParams(state: Option<string>): (params: Option<seq<Filter>>)
    ensures params.None? <==> !Truthy(state)
    ensures params.Some? ==> params.value == [Filter("status", [state.value])]
  {
    if Truthy(state) then Some([Filter("status", [state.value])]) else None
  }

  datatype RawAttachment = RawAttachment(instanceId: Option<string>, device: Option<string>, state: Option<string>,
                                         attachTime: Option<string>, deleteOnTermination: Option<bool>)

  /** A volume as `describe_volumes` returns it; every key may be missing.
      `createTime` is the ISO text of the timestamp. */
  datatype RawVolume = RawVolume(
    volumeId: Option<string>, state: Option<string>, size: Option<int>, volumeType: Option<string>,
    iops: Option<int>, throughput: Option<int>, encrypted: Option<bool>, kmsKeyId: Option<string>,
    availabilityZone: Option<string>, multiAttachEnabled: Option<bool>, snapshotId: Option<string>,
    createTime: Option<string>, attachments: Option<seq<RawAttachment>>, tags: Option<seq<Tag>>)

  /** One page of the paginator; `volumes` is its `Volumes` key. */
  datatype Page = Page(volumes: Option<seq<RawVolume>>)

  function PageVolumes(p: Page): seq<RawVolume>
  {
    match p.volumes
    case None => []
    case Some(vs) => vs
  }

  /** All volumes of all pages, page after page. */
  function Flatten(pages: seq<Page>): seq<RawVolume>
  {
    if |pages| == 0 then []
    else Flatten(pages[..|pages| - 1]) + PageVolumes(pages[|pages| - 1])
  }

  /** Flattening two runs of pages is flattening each, in order. */
  lemma {:induction false} FlattenAppend(p: seq<Page>, q: seq<Page>)
    ensures Flatten(p + q) == Flatten(p) + Flatten(q)
    decreases |q|
  {
    if |q| == 0 {
      assert p + q == p;
    } else {
      assert (p + q)[..|p + q| - 1] == p + q[..|q| - 1];
      FlattenAppend(p, q[..|q| - 1]);
    }
  }

  /** A page without `Volumes` contributes nothing wherever it is. */
  lemma PageWithoutVolumes(p: seq<Page>, q: seq<Page>)
    ensures Flatten(p + [Page(None)] + q) == Flatten(p + q)
  {
    FlattenAppend(p + [Page(None)], q);
    FlattenAppend(p, q);
  }

  /** `list_volumes`: the volumes of every page, in page order, or the
      exception of `describe_volumes` (which the script reports and exits
      with status 2). */
  method ListVolumes(state: Option<string>, paginate: Option<seq<Filter>> -> Result<seq<Page>, string>)
    returns (r: Result<seq<RawVolume>, string>)
    ensures paginate(FilterParams(state)).Failure? ==> r == Failure(paginate(FilterParams(state)).error)
    ensures paginate(FilterParams(state)).Success? ==> r == Success(Flatten(paginate(FilterParams(state)).value))
  {
    var params := FilterParams(state);
    var answer := paginate(params);
    if answer.Failure? {
      return Failure(answer.error);
    }
    var pages := answer.value;
    var vols: seq<RawVolume> := [];
    var p := 0;
    while p < |pages|
      invariant 0 <= p <= |pages|
      invariant vols == Flatten(pages[..p])
    {
      var page := PageVolumes(pages[p]);
      var i := 0;
      while i < |page|
        invariant 0 <= i <= |page|
        invariant vols == Flatten(pages[..p]) + page[..i]
      {
        vols := vols + [page[i]];
        i := i + 1;
      }
      assert page[..i] == page;
      assert pages[..p + 1][..p] == pages[..p];
      p := p + 1;
    }
    assert pages[..p] == pages;
    r := Success(vols);
  }

  // ---------------------------------------------------------------- simplify

  /** An attachment reduced to `InstanceId`, `Device` and `State`. */
  datatype Attachment = Attachment(instanceId: Option<string>, device: Option<string>, state: Option<string>)

  /** The scalar keys of a simplified volume. */
  datatype VolumeInfo = VolumeInfo(
    volumeId: Option<string>, state: Option<string>, sizeGiB: Option<int>, volumeType: Option<string>,
    iops: Option<int>, throughput: Option<int>, encrypted: Option<bool>, kmsKeyId: Option<string>,
    availabilityZone: Option<string>, multiAttachEnabled: Option<bool>, snapshotId: Option<string>,
    createTime: Option<string>)

  /** A simplified volume (`A` = attachments, `T` = tags) or, for CSV, the
      same with both flattened to text. */
  datatype Row<A, T> = Row(info: VolumeInfo, attachments: A, tags: T)

  type Volume = Row<seq<Attachment>, OrderedDict.Dict<string, string>>
  type FlatVolume = Row<string, string>

  /** `volume.get("Tags")`, where a missing key or `None` gives no tags. */
  function TagsOf(v: RawVolume): seq<Tag>
  {
    match v.tags
    case None => []
    case Some(ts) => ts
  }

  function TagPairs(tags: seq<Tag>): (ps: seq<(string, string)>)
    ensures |ps| == |tags| && forall i :: 0 <= i < |tags| ==> ps[i] == (tags[i].key, tags[i].value)
  {
    seq(|tags|, i requires 0 <= i < |tags| => (tags[i].key, tags[i].value))
  }

  function RawAttachments(v: RawVolume): seq<RawAttachment>
  {
    match v.attachments
    case None => []
    case Some(atts) => atts
  }

  /** `simplify`: every attachment kept, in order, reduced to three keys;
      the tags turned into a dict (later duplicates overwrite); the scalar
      keys copied (`Size` as `SizeGiB`). */
  function Simplify(v: RawVolume): (r: Volume)
    ensures |r.attachments| == |RawAttachments(v)|
    ensures forall i :: 0 <= i < |r.attachments| ==>
      var a := RawAttachments(v)[i]; r.attachments[i] == Attachment(a.instanceId, a.device, a.state)
    ensures r.tags == OrderedDict.FromPairs(TagPairs(TagsOf(v)))
    ensures r.info == VolumeInfo(v.volumeId, v.state, v.size, v.volumeType, v.iops, v.throughput, v.encrypted,
                                 v.kmsKeyId, v.availabilityZone, v.multiAttachEnabled, v.snapshotId, v.createTime)
  {
    var atts := RawAttachments(v);
    Row(
      VolumeInfo(v.volumeId, v.state, v.size, v.volumeType, v.iops, v.throughput, v.encrypted, v.kmsKeyId,
                 v.availabilityZone, v.multiAttachEnabled, v.snapshotId, v.createTime),
      seq(|atts|, i requires 0 <= i < |atts| => Attachment(atts[i].instanceId, atts[i].device, atts[i].state)),
      if TagsOf(v) == [] then [] else OrderedDict.FromPairs(TagPairs(TagsOf(v))))
  }

  /** The simplified tags: each key once, in the order of its first tag,
      holding the value of its LAST tag; no tags give an empty dict. */
  lemma SimplifyTags(v: RawVolume, key: string)
    ensures OrderedDict.UniqueKeys(Simplify(v).tags)
    ensures OrderedDict.Keys(Simplify(v).tags) == OrderedDict.Distinct(OrderedDict.Keys(TagPairs(TagsOf(v))))
    ensures OrderedDict.Get(Simplify(v).tags, key).None? <==> forall i :: 0 <= i < |TagsOf(v)| ==> TagsOf(v)[i].key != key
    ensures forall i :: 0 <= i < |TagsOf(v)| && TagsOf(v)[i].key == key
                        && (forall j :: i < j < |TagsOf(v)| ==> TagsOf(v)[j].key != key)
                        ==> OrderedDict.Get(Simplify(v).tags, key) == Some(TagsOf(v)[i].value)
    ensures TagsOf(v) == [] ==> Simplify(v).tags == []
  {
    OrderedDict.FromPairsKeys(TagPairs(TagsOf(v)));
    OrderedDict.FromPairsGet(TagPairs(TagsOf(v)), key);
  }

  /** `simplify` applied to each listed volume, in order. */
  function SimplifyAll(vs: seq<RawVolume>): (rows: seq<Volume>)
    ensures |rows| == |vs| && forall i :: 0 <= i < |vs| ==> rows[i] == Simplify(vs[i])
  {
    seq(|vs|, i requires 0 <= i < |vs| => Simplify(vs[i]))
  }

  // ---------------------------------------------------------------- text of a row

  /** `x or ""` for an optional string. */
  function OrEmpty(s: Option<string>): string
  {
    match s
    case None => ""
    case Some(t) => t
  }

  /** `str(x or "")` for an optional integer: `None` and `0` are both empty. */
  function SizeText(n: Option<int>): (t: string)
    ensures t == "" <==> n.None? || n.value == 0
  {
    match n
    case None => ""
    case Some(k) => if k == 0 then "" else IntToString(k)
  }

  /** `str(x)` for an optional boolean. */
  function BoolText(b: Option<bool>): string
  {
    match b
    case None => "None"
    case Some(true) => "True"
    case Some(false) => "False"
  }

  /** The instance ids of the attachments, or `None` when one is missing
      (`",".join` raises `TypeError` on `None`). */
  function InstanceIds(atts: seq<Attachment>): (ids: Option<seq<string>>)
    ensures ids.Some? <==> forall i :: 0 <= i < |atts| ==> atts[i].instanceId.Some?
    ensures ids.Some? ==> |ids.value| == |atts| && forall i :: 0 <= i < |atts| ==> atts[i].instanceId == Some(ids.value[i])
  {
    if |atts| == 0 then Some([])
    else match (atts[0].instanceId, InstanceIds(atts[1..]))
      case (Some(id), Some(rest)) => Some([id] + rest)
      case _ => None
  }

  /** The attachments column: `empty` when there is none, else the
      comma-joined instance ids; `None` when the join raises. */
  function AttachedText(atts: seq<Attachment>, empty: string): Option<string>
  {
    if atts == [] then Some(empty)
    else match InstanceIds(atts)
      case None => None
      case Some(ids) => Some(Join(',', ids))
  }

  /** The tags column: `empty` when there is none, else comma-joined `k=v`. */
  function TagsText(tags: OrderedDict.Dict<string, string>, empty: string): string
  {
    if tags == [] then empty
    else Join(',', seq(|tags|, i requires 0 <= i < |tags| => tags[i].0 + "=" + tags[i].1))
  }

  // ---------------------------------------------------------------- print_human

  const EmptyMessage: string := "Aucun volume trouvé."
  const HumanHeader: seq<string> := ["VolumeId", "State", "SizeGiB", "Type", "AZ", "Encrypted", "AttachedTo", "Tags"]

  /** The eight fields of a table line, or `None` when building it raises. */
  function HumanFields(r: Volume): (fs: Option<seq<string>>)
    ensures fs.Some? <==> AttachedText(r.attachments, "-").Some?
    ensures fs.Some? ==> |fs.value| == |HumanHeader| == 8
  {
    match AttachedText(r.attachments, "-")
    case None => None
    case Some(attached) =>
      Some([ OrEmpty(r.info.volumeId), OrEmpty(r.info.state), SizeText(r.info.sizeGiB), OrEmpty(r.info.volumeType),
             OrEmpty(r.info.availabilityZone), BoolText(r.info.encrypted), attached, TagsText(r.tags, "-") ])
  }

  /** How many rows from the start can be printed before one raises. */
  function Printable(rows: seq<Volume>): (n: nat)
    ensures n <= |rows|
  {
    if |rows| == 0 || HumanFields(rows[0]).None? then 0 else 1 + Printable(rows[1..])
  }

  /** Every row before `Printable(rows)` prints, and the row there raises. */
  lemma {:induction false} PrintableFirstFailure(rows: seq<Volume>)
    ensures forall i :: 0 <= i < Printable(rows) ==> HumanFields(rows[i]).Some?
    ensures Printable(rows) < |rows| ==> HumanFields(rows[Printable(rows)]).None?
  {
    if |rows| > 0 && HumanFields(rows[0]).Some? {
      PrintableFirstFailure(rows[1..]);
    }
  }

  /** Conversely, the first row that raises is at `Printable(rows)`, which
      is the row count when none does. */
  lemma {:induction false} PrintableStops(rows: seq<Volume>, n: nat)
    requires n <= |rows|
    requires forall i :: 0 <= i < n ==> HumanFields(rows[i]).Some?
    requires n < |rows| ==> HumanFields(rows[n]).None?
    ensures Printable(rows) == n
  {
    if n > 0 {
      PrintableStops(rows[1..], n - 1);
    }
  }

  /** The table lines of `print_human` after the header, stopping at the
      first row that raises. */
  method TableLines(rows: seq<Volume>) returns (body: seq<string>, ok: bool)
    ensures |body| == Printable(rows)
    ensures forall i :: 0 <= i < |body| ==> HumanFields(rows[i]).Some? && body[i] == Join('\t', HumanFields(rows[i]).value)
    ensures ok <==> Printable(rows) == |rows|
  {
    body := [];
    var i := 0;
    while i < |rows|
      invariant 0 <= i <= |rows| && |body| == i
      invariant forall j :: 0 <= j < i ==> HumanFields(rows[j]).Some? && body[j] == Join('\t', HumanFields(rows[j]).value)
    {
      var fields := HumanFields(rows[i]);
      if fields.None? {
        PrintableStops(rows, i);
        return body, false;
      }
      body := body + [Join('\t', fields.value)];
      i := i + 1;
    }
    PrintableStops(rows, i);
    ok := true;
  }

  /** `print_human`: the message alone for no rows; otherwise the header
      then one tab-joined line per row, stopping at a row whose attachment
      has no instance id (`ok` false: the script dies there). */
  method PrintHuman(rows: seq<Volume>) returns (lines: seq<string>, ok: bool)
    ensures rows == [] ==> lines == [EmptyMessage] && ok
    ensures rows != [] ==> |lines| == 1 + Printable(rows) && lines[0] == Join('\t', HumanHeader)
    ensures rows != [] ==> forall i :: 0 <= i < Printable(rows) ==>
      HumanFields(rows[i]).Some? && lines[i + 1] == Join('\t', HumanFields(rows[i]).value)
    ensures ok <==> Printable(rows) == |rows|
  {
    if |rows| == 0 {
      return [EmptyMessage], true;
    }
    var body;
    body, ok := TableLines(rows);
    lines := [Join('\t', HumanHeader)] + body;
    InFront(Join('\t', HumanHeader), body);
  }

  /** An element put in front leaves every other one a place further on. */
  lemma InFront<T>(h: T, body: seq<T>)
    ensures |[h] + body| == |body| + 1
    ensures forall i :: 0 <= i < |body| ==> ([h] + body)[i + 1] == body[i]
  {
  }

  /** A table line splits back into exactly its eight fields when no field
      holds a tab; the attachments and tags fields are `-` exactly when
      there is none, and a size of `None` or `0` prints empty. */
  lemma HumanLineFields(r: Volume)
    requires HumanFields(r).Some?
    requires forall f :: f in HumanFields(r).value ==> '\t' !in f
    ensures var fs := HumanFields(r).value;
      && Split(Join('\t', fs), '\t') == fs
      && |Split(Join('\t', fs), '\t')| == 8
      && (r.attachments == [] ==> fs[6] == "-")
      && (r.tags == [] <==> fs[7] == "-")
      && (fs[2] == "" <==> r.info.sizeGiB.None? || r.info.sizeGiB.value == 0)
  {
    var fs := HumanFields(r).value;
    SplitJoin(fs, '\t');
    if r.tags != [] {
      var parts := seq(|r.tags|, i requires 0 <= i < |r.tags| => r.tags[i].0 + "=" + r.tags[i].1);
      TagJoinHasEquals(parts);
    }
  }

  /** A join of `k=v` texts always contains `=`, so it is never `-`. */
  lemma {:induction false} TagJoinHasEquals(parts: seq<string>)
    requires |parts| > 0 && forall i :: 0 <= i < |parts| ==> '=' in parts[i]
    ensures '=' in Join(',', parts)
  {
    if |parts| > 1 {
      assert Join(',', parts) == parts[0] + [','] + Join(',', parts[1..]);
    }
  }

  // ---------------------------------------------------------------- write_csv

  const CsvColumns: seq<string> := ["VolumeId", "State", "SizeGiB", "VolumeType", "Iops", "Throughput", "Encrypted",
                                    "KmsKeyId", "AvailabilityZone", "MultiAttachEnabled", "SnapshotId", "CreateTime",
                                    "Attachments", "Tags"]

  /** The flattening loop of `write_csv`: the column names (none for no
      rows) and a copy of each row with attachments and tags as comma-joined
      text (`""` when empty) and every other key unchanged; `ok` false when
      an attachment has no instance id (the join raises before the file is
      opened). */
  method FlattenForCsv(rows: seq<Volume>) returns (fieldnames: seq<string>, flat: seq<FlatVolume>, ok: bool)
    ensures fieldnames == if rows == [] then [] else CsvColumns
    ensures ok <==> forall i :: 0 <= i < |rows| ==> AttachedText(rows[i].attachments, "").Some?
    ensures ok ==> |flat| == |rows|
    ensures ok ==> forall i :: 0 <= i < |rows| ==>
      && flat[i].info == rows[i].info
      && flat[i].attachments == AttachedText(rows[i].attachments, "").value
      && flat[i].tags == TagsText(rows[i].tags, "")
  {
    fieldnames := if rows == [] then [] else CsvColumns;
    flat := [];
    var i := 0;
    while i < |rows|
      invariant 0 <= i <= |rows| && |flat| == i
      invariant forall j :: 0 <= j < i ==> AttachedText(rows[j].attachments, "").Some?
      invariant forall j :: 0 <= j < i ==>
        && flat[j].info == rows[j].info
        && flat[j].attachments == AttachedText(rows[j].attachments, "").value
        && flat[j].tags == TagsText(rows[j].tags, "")
    {
      var attached := AttachedText(rows[i].attachments, "");
      if attached.None? {
        return fieldnames, flat, false;
      }
      flat := flat + [Row(rows[i].info, attached.value, TagsText(rows[i].tags, ""))];
      i := i + 1;
    }
    ok := true;
  }

  /** The table and the CSV disagree only in how "nothing" is written:
      `-` in the table, `""` in the CSV. */
  lemma EmptyColumnsDiffer(r: Volume)
    requires r.attachments == [] && r.tags == []
    ensures HumanFields(r).Some? && HumanFields(r).value[6] == "-" && HumanFields(r).value[7] == "-"
    ensures AttachedText(r.attachments, "") == Some("") && TagsText(r.tags, "") == ""
  {
  }

  // ---------------------------------------------------------------- main

  datatype Mode = CsvFile | JsonDump | Table

  /** The outputs `main` produces, in order: the CSV file (and its notice)
      when a non-empty path is given, JSON when asked, and the table only
      when neither was asked. */
  function OutputModes(json: bool, csvPath: Option<string>): (modes: seq<Mode>)
    ensures CsvFile in modes <==> Truthy(csvPath)
    ensures JsonDump in modes <==> json
    ensures Table in modes <==> !json && !Truthy(csvPath)
    ensures 1 <= |modes| <= 2
    ensures CsvFile in modes ==> modes[0] == CsvFile
  {
    (if Truthy(csvPath) then [CsvFile] else [])
    + (if json then [JsonDump] else if !Truthy(csvPath) then [Table] else [])
  }

  /** `[simplify(v) for v in list_volumes(client, state)]`. */
  method ListRows(state: Option<string>, paginate: Option<seq<Filter>> -> Result<seq<Page>, string>)
    returns (rows: Result<seq<Volume>, string>)
    ensures paginate(FilterParams(state)).Failure? ==> rows == Failure(paginate(FilterParams(state)).error)
    ensures paginate(FilterParams(state)).Success? ==>
      rows == Success(SimplifyAll(Flatten(paginate(FilterParams(state)).value)))
  {
    var vols := ListVolumes(state, paginate);
    if vols.Failure? {
      return Failure(vols.error);
    }
    rows := Success(SimplifyAll(vols.value));
  }

  /** The one line a non-table output prints: the CSV notice or the JSON
      text. */
  function ModeLine(m: Mode, csvPath: Option<string>, json: string): string
  {
    match m
    case CsvFile => "CSV écrit: " + (if csvPath.Some? then csvPath.value else "")
    case JsonDump => json
    case Table => ""
  }

  /** Without the table, the notice and the JSON text are the lines of the
      outputs `OutputModes` lists, in its order. */
  lemma ModeLines(json: bool, csvPath: Option<string>, text: string)
    requires json || Truthy(csvPath)
    ensures var lines := (if Truthy(csvPath) then ["CSV écrit: " + csvPath.value] else [])
                         + (if json then [text] else []);
      |lines| == |OutputModes(json, csvPath)|
      && forall k :: 0 <= k < |lines| ==> lines[k] == ModeLine(OutputModes(json, csvPath)[k], csvPath, text)
  {
  }

  /** `write_csv` gets past its flattening loop: every attachment of every
      row has an instance id. */
  predicate CsvWritable(rows: seq<Volume>)
  {
    forall i :: 0 <= i < |rows| ==> AttachedText(rows[i].attachments, "").Some?
  }

  /** `main`: a session error prints `Erreur de session/credentials: ...`
      and exits 1; a `describe_volumes` error prints `Erreur
      describe_volumes: ...` and exits 2; otherwise the CSV notice, the JSON
      text and the table come out as `OutputModes` orders them, and an
      exception in the CSV flattening or the table ends the script with
      status 1 after what was already printed. When no table is printed,
      the lines are those of `OutputModes`, one per output. `dumps` is
      `json.dumps`. */
  method Run(sessionError: Option<string>, state: Option<string>,
             paginate: Option<seq<Filter>> -> Result<seq<Page>, string>,
             json: bool, csvPath: Option<string>, dumps: seq<Volume> -> string)
    returns (lines: seq<string>, exitCode: int)
    ensures sessionError.Some? ==> lines == ["Erreur de session/credentials: " + sessionError.value] && exitCode == 1
    ensures sessionError.None? && paginate(FilterParams(state)).Failure? ==>
      lines == ["Erreur describe_volumes: " + paginate(FilterParams(state)).error] && exitCode == 2
    ensures var answer := paginate(FilterParams(state));
      sessionError.None? && answer.Success? ==>
      var rows := SimplifyAll(Flatten(answer.value));
      && (exitCode == 0 && Table !in OutputModes(json, csvPath) ==>
            |lines| == |OutputModes(json, csvPath)|
            && forall k :: 0 <= k < |lines| ==> lines[k] == ModeLine(OutputModes(json, csvPath)[k], csvPath, dumps(rows)))
      && (exitCode == 1 <==> (Truthy(csvPath) && !CsvWritable(rows))
                             || (!json && !Truthy(csvPath) && Printable(rows) < |rows|))
      && (exitCode == 0 || exitCode == 1)
      && (Truthy(csvPath) && !CsvWritable(rows) ==> lines == [])
      && (Truthy(csvPath) && CsvWritable(rows) ==>
            lines == ["CSV écrit: " + csvPath.value] + (if json then [dumps(rows)] else []))
      && (!Truthy(csvPath) && json ==> lines == [dumps(rows)])
      && (!Truthy(csvPath) && !json && rows == [] ==> lines == [EmptyMessage])
      && (!Truthy(csvPath) && !json && rows != [] ==>
            |lines| == 1 + Printable(rows) && lines[0] == Join('\t', HumanHeader)
            && forall i :: 0 <= i < Printable(rows) ==>
                 HumanFields(rows[i]).Some? && lines[i + 1] == Join('\t', HumanFields(rows[i]).value))
  {
    if sessionError.Some? {
      return ["Erreur de session/credentials: " + sessionError.value], 1;
    }
    var listed := ListRows(state, paginate);
    if listed.Failure? {
      return ["Erreur describe_volumes: " + listed.error], 2;
    }
    var rows := listed.value;
    lines := [];
    if Truthy(csvPath) {
      var fieldnames, flat, ok := FlattenForCsv(rows);
      if !ok {
        return [], 1;
      }
      lines := ["CSV écrit: " + csvPath.value];
    }
    if json || Truthy(csvPath) {
      ModeLines(json, csvPath, dumps(rows));
    }
    if json {
      lines := lines + [dumps(rows)];
    } else if !Truthy(csvPath) {
      var ok;
      lines, ok := PrintHuman(rows);
      if !ok {
        return lines, 1;
      }
    }
    exitCode := 0;
  }
}
