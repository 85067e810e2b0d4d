/** The instance listing: after a connectivity probe, collect a dict from
    instance id to five attributes, then print each instance's attributes.
    The probe and the instance collection are inputs. */
module Instances {
  import opened Wrappers
  import opened Tags
  import OrderedDict

  /** An instance as the EC2 resource API shows it. */
  datatype Instance = Instance(id: string, tags: Option<seq<Tag>>, instanceType: string, stateName: string,
                               privateIp: Option<string>, publicIp: Option<string>)

  /** One `ec2info` value: attribute name to value (`None` prints as `None`). */
  type Entry = map<string, Option<string>>

  const EntryKeys: set<string> := {"Name", "Type", "State", "Private IP", "Public IP"}

  /** The attributes the printing loop walks, in order. */
  const Attributes: seq<string> := ["Name", "Type", "State", "Private IP", "Public IP", "Launch Time"]

  /** The instance's name: the value of its FIRST `Name` tag; `N/A` when
      the tags are `None`, empty, or have no `Name`. */
  function FirstName(tags: Option<seq<Tag>>): string
  {
    match tags
    case None => "N/A"
    case Some(ts) => var vs := NameValues(ts); if vs == [] then "N/A" else vs[0]
  }

  /** `NameValues` starts with the first `Name` tag's value. */
  lemma {:induction false} FirstNameWins(ts: seq<Tag>, i: nat)
    requires i < |ts| && ts[i].key == "Name"
    requires forall j :: 0 <= j < i ==> ts[j].key != "Name"
    ensures NameValues(ts) != [] && NameValues(ts)[0] == ts[i].value
  {
    var init := ts[..|ts| - 1];
    assert NameValues(ts) == NameValues(init) + if ts[|ts| - 1].key == "Name" then [ts[|ts| - 1].value] else [];
    if i < |ts| - 1 {
      FirstNameWins(init, i);
    } else {
      assert forall j :: 0 <= j < |init| ==> init[j].key != "Name";
    }
  }

  /** The tag loop: `name` starts at `N/A` and the first `Name` tag sets it
      and stops the loop. */
  method InstanceName(tags: Option<seq<Tag>>) returns (name: string)
    ensures name == FirstName(tags)
    ensures tags.None? || tags.value == [] ==> name == "N/A"
    ensures tags.Some? ==> forall i :: 0 <= i < |tags.value| && tags.value[i].key == "Name"
                                       && (forall j :: 0 <= j < i ==> tags.value[j].key != "Name")
                                       ==> name == tags.value[i].value
  {
    name := "N/A";
    if tags.Some? && tags.value != [] {
      var ts := tags.value;
      var i := 0;
      while i < |ts|
        invariant 0 <= i <= |ts|
        invariant forall j :: 0 <= j < i ==> ts[j].key != "Name"
        invariant name == "N/A"
      {
        if ts[i].key == "Name" {
          name := ts[i].value;
          FirstNameWins(ts, i);
          break;
        }
        i := i + 1;
      }
    }
  }

  /** The dict value built for one instance. */
  function EntryOf(inst: Instance, name: string): (e: Entry)
    ensures e.Keys == EntryKeys
    ensures e["Name"] == Some(name) && e["Private IP"] == inst.privateIp && e["Public IP"] == inst.publicIp
  {
    map["Name" := Some(name), "Type" := Some(inst.instanceType), "State" := Some(inst.stateName),
        "Private IP" := inst.privateIp, "Public IP" := inst.publicIp]
  }

  /** The (id, entry) pairs the loop stores, one per listed instance. */
  function Pairs(instances: seq<Instance>): (ps: seq<(string, Entry)>)
    ensures |ps| == |instances|
    ensures forall i :: 0 <= i < |ps| ==> ps[i] == (instances[i].id, EntryOf(instances[i], FirstName(instances[i].tags)))
  {
    seq(|instances|, i requires 0 <= i < |instances| => (instances[i].id, EntryOf(instances[i], FirstName(instances[i].tags))))
  }

  /** The `ec2info` loop: `ec2info[instance.id] = {...}` per instance. */
  method BuildEc2Info(instances: seq<Instance>) returns (info: OrderedDict.Dict<string, Entry>)
    ensures info == OrderedDict.FromPairs(Pairs(instances))
    ensures forall i :: 0 <= i < |info| ==> info[i].1.Keys == EntryKeys
  {
    ghost var ps := Pairs(instances);
    info := [];
    var i := 0;
    while i < |instances|
      invariant 0 <= i <= |instances|
      invariant info == OrderedDict.FromPairs(ps[..i])
      invariant FiveKeys(info)
    {
      var inst := instances[i];
      var name := InstanceName(inst.tags);
      var entry := EntryOf(inst, name);
      BuildStep(ps, i, info, inst.id, entry);
      info := OrderedDict.Put(info, inst.id, entry);
      i := i + 1;
    }
    assert ps[..i] == ps;
    assert forall j :: 0 <= j < |info| ==> info[j] in info;
  }

  ghost predicate FiveKeys(info: OrderedDict.Dict<string, Entry>)
  {
    forall p :: p in info ==> p.1.Keys == EntryKeys
  }

  lemma BuildStep(ps: seq<(string, Entry)>, i: nat, info: OrderedDict.Dict<string, Entry>, id: string, entry: Entry)
    requires i < |ps| && ps[i] == (id, entry) && entry.Keys == EntryKeys
    requires info == OrderedDict.FromPairs(ps[..i]) && FiveKeys(info)
    ensures OrderedDict.Put(info, id, entry) == OrderedDict.FromPairs(ps[..i + 1])
    ensures FiveKeys(OrderedDict.Put(info, id, entry))
  {
    assert ps[..i + 1][..i] == ps[..i];
    OrderedDict.PutPairs(info, id, entry);
  }

  /** `ec2info` has one entry per distinct id, in the order ids first
      appear. */
  lemma Ec2InfoKeys(instances: seq<Instance>)
    ensures OrderedDict.UniqueKeys(OrderedDict.FromPairs(Pairs(instances)))
    ensures OrderedDict.Keys(OrderedDict.FromPairs(Pairs(instances))) == OrderedDict.Distinct(OrderedDict.Keys(Pairs(instances)))
  {
    OrderedDict.FromPairsKeys(Pairs(instances));
  }

  /** Looking an id up in `ec2info` gives nothing exactly when no listed
      instance has that id. */
  lemma Ec2InfoMissing(instances: seq<Instance>, id: string)
    ensures OrderedDict.Get(OrderedDict.FromPairs(Pairs(instances)), id).None? <==>
      forall i :: 0 <= i < |instances| ==> instances[i].id != id
  {
    var ps := Pairs(instances);
    OrderedDict.FromPairsGet(ps, id);
    assert forall i :: 0 <= i < |ps| ==> ps[i].0 == instances[i].id;
  }

  /** Looking an id up in `ec2info` gives the entry of the LAST instance
      with that id. */
  lemma Ec2InfoLastWins(instances: seq<Instance>, id: string, i: nat)
    requires i < |instances| && instances[i].id == id
    requires forall j :: i < j < |instances| ==> instances[j].id != id
    ensures OrderedDict.Get(OrderedDict.FromPairs(Pairs(instances)), id) == Some(EntryOf(instances[i], FirstName(instances[i].tags)))
  {
    var ps := Pairs(instances);
    OrderedDict.FromPairsGet(ps, id);
    assert forall j :: i < j < |ps| ==> ps[j].0 != id;
    assert ps[i] == (id, EntryOf(instances[i], FirstName(instances[i].tags)));
  }

  // ---------------------------------------------------------------- printing

  /** The lines printed for the attributes `attrs` of one entry, and whether
      they all printed (`false`: `KeyError` on a missing attribute). */
  function AttributeLines(e: Entry, attrs: seq<string>): (seq<string>, bool)
  {
    if attrs == [] then ([], true)
    else if attrs[0] !in e then ([], false)
    else
      var (rest, ok) := AttributeLines(e, attrs[1..]);
      ([attrs[0] + ": " + Shown(e[attrs[0]])] + rest, ok)
  }

  /** The lines printed for the entries of `info`, and whether the loop
      finished without raising. */
  function Printout(info: OrderedDict.Dict<string, Entry>): (seq<string>, bool)
  {
    if info == [] then ([], true)
    else
      var (lines, ok) := AttributeLines(info[0].1, Attributes);
      if !ok then (lines, false)
      else
        var (more, ok') := Printout(info[1..]);
        (lines + ["------"] + more, ok')
  }

  /** The inner loop for one entry: each attribute in turn, stopping at the
      first one the entry lacks. */
  method PrintEntry(entry: Entry) returns (lines: seq<string>, ok: bool)
    ensures lines == AttributeLines(entry, Attributes).0 && ok == AttributeLines(entry, Attributes).1
  {
    lines := [];
    var k := 0;
    while k < |Attributes|
      invariant 0 <= k <= |Attributes|
      invariant AttributeLines(entry, Attributes).0 == lines + AttributeLines(entry, Attributes[k..]).0
      invariant AttributeLines(entry, Attributes).1 == AttributeLines(entry, Attributes[k..]).1
    {
      var key := Attributes[k];
      if key !in entry {
        assert AttributeLines(entry, Attributes[k..]) == ([], false);
        return lines, false;
      }
      assert Attributes[k..][1..] == Attributes[k + 1..];
      lines := lines + [key + ": " + Shown(entry[key])];
      k := k + 1;
    }
    ok := true;
  }

  /** The printing loop: for each entry its attributes, then a `------`
      separator; a missing attribute raises and ends the script. */
  method PrintInstances(info: OrderedDict.Dict<string, Entry>) returns (lines: seq<string>, ok: bool)
    ensures lines == Printout(info).0 && ok == Printout(info).1
  {
    lines := [];
    var n := 0;
    while n < |info|
      invariant 0 <= n <= |info|
      invariant Printout(info).0 == lines + Printout(info[n..]).0
      invariant Printout(info).1 == Printout(info[n..]).1
    {
      var entryLines, entryOk := PrintEntry(info[n].1);
      if !entryOk {
        return lines + entryLines, false;
      }
      assert info[n..][1..] == info[n + 1..];
      lines := lines + entryLines + ["------"];
      n := n + 1;
    }
    ok := true;
  }

  /** An entry that has the first `m` attributes but not the next prints
      those `m` lines and then raises. */
  lemma {:induction false} LinesUpToMissing(e: Entry, attrs: seq<string>, m: nat)
    requires m < |attrs| && attrs[m] !in e
    requires forall j :: 0 <= j < m ==> attrs[j] in e
    ensures !AttributeLines(e, attrs).1 && |AttributeLines(e, attrs).0| == m
    ensures forall j :: 0 <= j < m ==> AttributeLines(e, attrs).0[j] == attrs[j] + ": " + Shown(e[attrs[j]])
    decreases m
  {
    if m > 0 {
      LinesUpToMissing(e, attrs[1..], m - 1);
    }
  }

  /** With the five keys every entry has, printing raises on `Launch Time`
      for the first instance: five lines, then `KeyError`; with no instance
      nothing is printed. */
  lemma PrintoutRaises(info: OrderedDict.Dict<string, Entry>)
    requires forall i :: 0 <= i < |info| ==> info[i].1.Keys == EntryKeys
    ensures info == [] ==> Printout(info) == ([], true)
    ensures info != [] ==> !Printout(info).1 && |Printout(info).0| == 5
    ensures info != [] ==> forall j :: 0 <= j < 5 ==>
      Printout(info).0[j] == Attributes[j] + ": " + Shown(info[0].1[Attributes[j]])
  {
    if info != [] {
      LinesUpToMissing(info[0].1, Attributes, 5);
    }
  }

  /** The script: a failed probe prints `Erreur: ...` and exits 1 before
      listing; otherwise the dict is built and printed, and the script exits
      1 (uncaught `KeyError`) exactly when there is an instance. */
  method Run(probeError: Option<string>, instances: seq<Instance>) returns (lines: seq<string>, exitCode: int)
    ensures probeError.Some? ==> lines == ["Erreur: " + probeError.value] && exitCode == 1
    ensures probeError.None? ==> lines == Printout(OrderedDict.FromPairs(Pairs(instances))).0
    ensures probeError.None? ==> (exitCode == 0 <==> instances == [])
    ensures probeError.None? && instances != [] ==> |lines| == 5
  {
    if probeError.Some? {
      return ["Erreur: " + probeError.value], 1;
    }
    var info := BuildEc2Info(instances);
    var ok;
    lines, ok := PrintInstances(info);
    PrintoutRaises(info);
    OrderedDict.FromPairsKeys(Pairs(instances));
    assert instances != [] ==> info != [] by {
      if instances != [] {
        assert |OrderedDict.Keys(Pairs(instances))| > 0;
        DistinctNonEmpty(OrderedDict.Keys(Pairs(instances)));
      }
    }
    exitCode := if ok then 0 else 1;
  }

  lemma {:induction false} DistinctNonEmpty(xs: seq<string>)
    requires xs != []
    ensures OrderedDict.Distinct(xs) != []
  {
    if |xs| > 1 {
      DistinctNonEmpty(xs[..|xs| - 1]);
    }
  }
}
