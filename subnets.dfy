/** The subnet listing: one tab-separated line per subnet with its id,
    CIDR block, zone, VPC and `Name` tag. The `describe_subnets` call is an
    input: the response's `Subnets` key, or the exception it raised. */
module Subnets {
  import opened Wrappers
  import opened Text
  import opened Tags

  /** A subnet as `describe_subnets` returns it; every key may be missing. */
  datatype Subnet = Subnet(subnetId: Option<string>, cidrBlock: Option<string>, availabilityZone: Option<string>,
                           vpcId: Option<string>, tags: Option<seq<Tag>>)

  /** The subnet's name: the value of its LAST `Name` tag, `-` without one. */
  function NameOf(tags: Option<seq<Tag>>): string
  {
    match tags
    case None => "-"
    case Some(ts) => var vs := NameValues(ts); if vs == [] then "-" else vs[|vs| - 1]
  }

  /** The tag loop of `main`: `name` starts at `-` and every `Name` tag
      overwrites it, since the loop never breaks. */
  method SubnetName(tags: Option<seq<Tag>>) returns (name: string)
    ensures name == NameOf(tags)
    ensures tags.None? ==> name == "-"
    ensures tags.Some? && (forall i :: 0 <= i < |tags.value| ==> tags.value[i].key != "Name") ==> name == "-"
    ensures tags.Some? ==> forall i :: 0 <= i < |tags.value| && tags.value[i].key == "Name"
                                       && (forall j :: i < j < |tags.value| ==> tags.value[j].key != "Name")
                                       ==> name == tags.value[i].value
  {
    name := "-";
    if tags.Some? {
      var ts := tags.value;
      var i := 0;
      while i < |ts|
        invariant 0 <= i <= |ts|
        invariant name == NameOf(Some(ts[..i]))
      {
        assert ts[..i + 1][..i] == ts[..i];
        if ts[i].key == "Name" {
          name := ts[i].value;
        }
        i := i + 1;
      }
      assert ts[..i] == ts;
      forall k | 0 <= k < |ts| && ts[k].key == "Name" && (forall j :: k < j < |ts| ==> ts[j].key != "Name")
        ensures name == ts[k].value
      {
        LastNameWins(ts, k);
      }
    }
  }

  /** `NameOf` picks the value of the last tag keyed `Name`. */
  lemma {:induction false} LastNameWins(ts: seq<Tag>, i: nat)
    requires i < |ts| && ts[i].key == "Name"
    requires forall j :: i < j < |ts| ==> ts[j].key != "Name"
    ensures NameOf(Some(ts)) == ts[i].value
  {
    var init := ts[..|ts| - 1];
    if i == |ts| - 1 {
      assert NameValues(ts) == NameValues(init) + [ts[i].value];
    } else {
      assert ts[|ts| - 1].key != "Name";
      assert NameValues(ts) == NameValues(init);
      assert init[i] == ts[i];
      LastNameWins(init, i);
    }
  }

  /** The five fields of a subnet's line. */
  function SubnetFields(sn: Subnet): (fs: seq<string>)
    ensures |fs| == 5 && fs[4] == NameOf(sn.tags)
  {
    [Shown(sn.subnetId), Shown(sn.cidrBlock), Shown(sn.availabilityZone), Shown(sn.vpcId), NameOf(sn.tags)]
  }

  /** `main`: on a connection error, one error line and nothing else;
      otherwise one line per subnet of the `Subnets` key (none when it is
      missing), in response order. */
  method ListSubnets(response: Result<Option<seq<Subnet>>, string>) returns (lines: seq<string>)
    ensures response.Failure? ==> lines == ["Erreur connexion AWS : " + response.error]
    ensures response.Success? && response.value.None? ==> lines == []
    ensures response.Success? && response.value.Some? ==>
      |lines| == |response.value.value|
      && forall i :: 0 <= i < |lines| ==> lines[i] == Join('\t', SubnetFields(response.value.value[i]))
  {
    if response.Failure? {
      return ["Erreur connexion AWS : " + response.error];
    }
    var subnets := match response.value case None => [] case Some(s) => s;
    lines := [];
    var i := 0;
    while i < |subnets|
      invariant 0 <= i <= |subnets| && |lines| == i
      invariant forall j :: 0 <= j < i ==> lines[j] == Join('\t', SubnetFields(subnets[j]))
    {
      var sn := subnets[i];
      var name := SubnetName(sn.tags);
      lines := lines + [Join('\t', [Shown(sn.subnetId), Shown(sn.cidrBlock), Shown(sn.availabilityZone), Shown(sn.vpcId), name])];
      i := i + 1;
    }
  }

  /** A subnet line splits back into exactly its five fields when none of
      them holds a tab. */
  lemma SubnetLineFields(sn: Subnet)
    requires forall f :: f in SubnetFields(sn) ==> '\t' !in f
    ensures Split(Join('\t', SubnetFields(sn)), '\t') == SubnetFields(sn)
    ensures |Split(Join('\t', SubnetFields(sn)), '\t')| == 5
  {
    SplitJoin(SubnetFields(sn), '\t');
  }
}
