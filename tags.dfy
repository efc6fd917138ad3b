/**
 * Classification of a bin from its OpenStreetMap tags: the marker icon, the
 * popup title, and the popup's labels for recycling sub-types and waste types.
 * A tag list stands for the entries of the JavaScript tags object, in
 * insertion order.
 */
module BinTags {
  import opened Common

  datatype Tag = Tag(key: string, value: string)

  type Tags = seq<Tag>

  /** The entries of a JavaScript object: no key occurs twice. */
  predicate DistinctKeys(tags: Tags)
  {
    forall i, j :: 0 <= i < j < |tags| ==> tags[i].key != tags[j].key
  }

  /**
   * `tags[key]`: the value stored under `key`, if any. The first entry with
   * that key is taken; for the entries of an object (`DistinctKeys`) it is
   * the only one.
   */
  function Get(tags: Tags, key: string): (r: Option<string>)
    ensures r.None? <==> forall i :: 0 <= i < |tags| ==> tags[i].key != key
    ensures r.Some? ==> exists i :: 0 <= i < |tags| && tags[i] == Tag(key, r.value)
                                    && forall j :: 0 <= j < i ==> tags[j].key != key
    ensures r.Some? && DistinctKeys(tags) ==>
      forall i :: 0 <= i < |tags| && tags[i].key == key ==> tags[i].value == r.value
  {
    if tags == [] then None
    else if tags[0].key == key then Some(tags[0].value)
    else Get(tags[1..], key)
  }

  /** A tag such as `recycling:glass=yes`: its key starts with "recycling" and its value is "yes". */
  predicate IsRecyclingFlag(t: Tag)
  {
    "recycling" <= t.key && t.value == "yes"
  }

  /** `Object.keys(tags).some(key => key.startsWith('recycling') && tags[key] === 'yes')`. */
  function HasRecyclingFlag(tags: Tags): (r: bool)
    ensures r <==> exists i :: 0 <= i < |tags| && IsRecyclingFlag(tags[i])
  {
    if tags == [] then false
    else IsRecyclingFlag(tags[0]) || HasRecyclingFlag(tags[1..])
  }

  /** The recycling test of `getIconForBin`. */
  predicate IsRecycling(tags: Tags)
  {
    Get(tags, "amenity") == Some("recycling") || HasRecyclingFlag(tags)
  }

  datatype Icon = GeneralIcon | RecyclingIcon

  /** `getIconForBin`: the recycling icon exactly for recycling bins, the general one otherwise. */
  function IconForBin(tags: Tags): (icon: Icon)
    ensures icon == RecyclingIcon <==>
      (Get(tags, "amenity") == Some("recycling")
       || exists i :: 0 <= i < |tags| && "recycling" <= tags[i].key && tags[i].value == "yes")
  {
    if IsRecycling(tags) then RecyclingIcon else GeneralIcon
  }

  const RecyclingTitle := "Recycling Point"
  const DisposalTitle := "Waste Disposal"
  const DefaultTitle := "Trash Bin"

  /** `getTitle`: a switch on the `amenity` tag; a missing tag falls to the default. */
  function Title(tags: Tags): (t: string)
    ensures t == RecyclingTitle <==> Get(tags, "amenity") == Some("recycling")
    ensures t == DisposalTitle <==> Get(tags, "amenity") == Some("waste_disposal")
    ensures t == DefaultTitle <==>
      Get(tags, "amenity") != Some("recycling") && Get(tags, "amenity") != Some("waste_disposal")
  {
    var amenity := Get(tags, "amenity");
    if amenity == Some("recycling") then RecyclingTitle
    else if amenity == Some("waste_disposal") then DisposalTitle
    else DefaultTitle
  }

  /** The title and the icon agree: a "Recycling Point" always gets the recycling icon. */
  lemma TitleFollowsAmenity(tags: Tags)
    ensures Title(tags) == RecyclingTitle ==> IconForBin(tags) == RecyclingIcon
  {
  }

  /** `s.split(':')[0]`: the text before the first colon (all of it when there is none). */
  function FirstField(s: string): (r: string)
    ensures r <= s
    ensures forall i :: 0 <= i < |r| ==> r[i] != ':'
    ensures |r| < |s| ==> s[|r|] == ':'
  {
    if s == [] || s[0] == ':' then [] else [s[0]] + FirstField(s[1..])
  }

  /** `s.replace(from, to)` with a one-character string pattern: only the FIRST occurrence is replaced. */
  function ReplaceFirst(s: string, from: char, to: char): (r: string)
    ensures |r| == |s|
    ensures (forall i :: 0 <= i < |s| ==> s[i] != from) ==> r == s
    ensures forall k :: 0 <= k < |s| && s[k] == from && (forall j :: 0 <= j < k ==> s[j] != from) ==>
      r == s[k := to]
  {
    if s == [] then []
    else if s[0] == from then [to] + s[1..]
    else [s[0]] + ReplaceFirst(s[1..], from, to)
  }

  const RecyclingPrefix := "recycling:"

  /** One line of the popup's tag list. */
  datatype Label = RecyclingType(text: string) | WasteType(text: string)

  /**
   * The label the popup renders for one tag entry:
   * `recycling:<kind>=yes` shows `<kind>` (the segment up to the next colon,
   * first underscore turned into a space); `waste=<v>` with `v` other than
   * "yes" shows "<v> waste"; other entries render nothing.
   */
  function EntryLabel(t: Tag): (l: Option<Label>)
    ensures l.Some? && l.value.RecyclingType? <==> RecyclingPrefix <= t.key && t.value == "yes"
    ensures l.Some? && l.value.WasteType? <==> !(RecyclingPrefix <= t.key && t.value == "yes") && t.key == "waste" && t.value != "yes"
    ensures l.Some? && l.value.RecyclingType? ==>
      l.value.text == ReplaceFirst(FirstField(t.key[|RecyclingPrefix|..]), '_', ' ')
    ensures l.Some? && l.value.WasteType? ==> l.value.text == t.value + " waste"
  {
    if RecyclingPrefix <= t.key && t.value == "yes" then
      Some(RecyclingType(ReplaceFirst(FirstField(t.key[|RecyclingPrefix|..]), '_', ' ')))
    else if t.key == "waste" && t.value != "yes" then
      Some(WasteType(t.value + " waste"))
    else None
  }

  /** The labels of all tag entries, in entry order; entries without a label are skipped. */
  function Labels(tags: Tags): (r: seq<Label>)
    ensures |r| <= |tags|
    ensures forall l :: l in r ==> exists i :: 0 <= i < |tags| && EntryLabel(tags[i]) == Some(l)
    ensures forall i :: 0 <= i < |tags| && EntryLabel(tags[i]).Some? ==> EntryLabel(tags[i]).value in r
  {
    if tags == [] then []
    else
      var rest := Labels(tags[1..]);
      assert forall i :: 1 <= i < |tags| ==> tags[i] == tags[1..][i - 1];
      match EntryLabel(tags[0])
      case Some(l) => [l] + rest
      case None => rest
  }

  /** The labels of a list of entries are those of its parts, one after the other: the popup keeps entry order. */
  lemma {:induction false} LabelsOfConcat(a: Tags, b: Tags)
    ensures Labels(a + b) == Labels(a) + Labels(b)
    decreases |a|
  {
    if a != [] {
      assert (a + b)[0] == a[0];
      assert (a + b)[1..] == a[1..] + b;
      LabelsOfConcat(a[1..], b);
      var head := if EntryLabel(a[0]).Some? then [EntryLabel(a[0]).value] else [];
      assert Labels(a) == head + Labels(a[1..]);
      assert Labels(a + b) == head + Labels(a[1..] + b);
    } else {
      assert a + b == b;
    }
  }

  /** A single entry contributes its own label, or nothing. */
  lemma LabelsOfOneTag(t: Tag)
    ensures Labels([t]) == if EntryLabel(t).Some? then [EntryLabel(t).value] else []
  {
  }

  /** What the popup shows apart from the address: title, tag labels and a non-empty description. */
  datatype PopupView = PopupView(title: string, labels: seq<Label>, description: Option<string>)

  function Popup(tags: Tags): (p: PopupView)
    ensures p.title == Title(tags) && p.labels == Labels(tags)
    ensures p.description.Some? <==> Get(tags, "description").Some? && Get(tags, "description").value != ""
    ensures p.description.Some? ==> p.description == Get(tags, "description")
  {
    var d := Get(tags, "description");
    PopupView(Title(tags), Labels(tags), if d.Some? && d.value != "" then d else None)
  }

  /** A recycling sub-type in the popup implies the recycling icon on the marker. */
  lemma RecyclingLabelImpliesRecyclingIcon(tags: Tags, l: Label)
    requires l in Popup(tags).labels && l.RecyclingType?
    ensures IconForBin(tags) == RecyclingIcon
  {
  }
}
