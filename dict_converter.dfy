/**
  The converter from an F' topology application dictionary to the Open MCT
  telemetry dictionary: `DictionaryIngester` picks the dictionary's
  sections by position and builds the enum table, and
  `TopologyAppDictionaryJSONifier` turns each channel into one measurement
  descriptor, classifying its type as float, integer, enum or skipped.
 */
module DictConverter {
  import opened Wrappers
  import opened PyStrings
  import opened Gds
  import Decimal

  /** A parsed XML element: its tag, its attributes and its children in document order. */
  datatype Element = Element(tag: string, attrib: map<string, string>, children: seq<Element>)

  /** What the converter raises: `KeyError` for a missing attribute, `ValueError` from `int()`, `IndexError` for a missing section. */
  datatype DictError = MissingAttribute(name: string) | NotAnInteger(text: string) | MissingSection(index: nat)

  /** `{'string': name, 'value': int(value)}`. */
  datatype EnumValue = EnumValue(name: string, value: int)

  /** `{'type': type, 'val': [...]}`. */
  datatype EnumEntry = EnumEntry(typeName: string, val: seq<EnumValue>)

  /**
    `f` applied to each element in order, stopping at the first error, as
    a loop whose body may raise does.
   */
  function CollectMap<A, T>(xs: seq<A>, f: A -> Result<T, DictError>): (r: Result<seq<T>, DictError>)
    ensures r.Ok? ==> |r.value| == |xs|
  {
    if xs == [] then Ok([])
    else match CollectMap(xs[..|xs| - 1], f)
      case Err(e) => Err(e)
      case Ok(vs) =>
        match f(xs[|xs| - 1])
        case Ok(v) => Ok(vs + [v])
        case Err(e) => Err(e)
  }

  /**
    The loop succeeds exactly when every element does, with their results in
    order; otherwise its error is that of the first element that fails.
   */
  lemma {:induction false} CollectMapMeaning<A, T>(xs: seq<A>, f: A -> Result<T, DictError>)
    ensures CollectMap(xs, f).Ok? <==> forall i :: 0 <= i < |xs| ==> f(xs[i]).Ok?
    ensures CollectMap(xs, f).Ok? ==> forall i :: 0 <= i < |xs| ==> CollectMap(xs, f).value[i] == f(xs[i]).value
    ensures CollectMap(xs, f).Err? ==>
      exists i :: 0 <= i < |xs| && f(xs[i]) == Err(CollectMap(xs, f).error) && forall j :: 0 <= j < i ==> f(xs[j]).Ok?
  {
    if xs != [] {
      var init := xs[..|xs| - 1];
      CollectMapMeaning(init, f);
      assert forall i :: 0 <= i < |init| ==> init[i] == xs[i];
      if CollectMap(init, f).Err? {
        var i :| 0 <= i < |init| && f(init[i]) == Err(CollectMap(init, f).error) && forall j :: 0 <= j < i ==> f(init[j]).Ok?;
        assert f(xs[i]) == Err(CollectMap(xs, f).error);
      } else if f(xs[|xs| - 1]).Err? {
        assert f(xs[|xs| - 1]) == Err(CollectMap(xs, f).error);
      }
    }
  }

  lemma CollectMapStep<A, T>(xs: seq<A>, f: A -> Result<T, DictError>, i: nat)
    requires i < |xs|
    ensures CollectMap(xs[..i + 1], f) ==
      match CollectMap(xs[..i], f)
      case Err(e) => Err(e)
      case Ok(vs) => (match f(xs[i]) case Ok(v) => Ok(vs + [v]) case Err(e) => Err(e))
  {
    assert xs[..i + 1][..i] == xs[..i];
  }

  /** After the first error, the rest of the loop is never reached. */
  lemma {:induction false} CollectMapStops<A, T>(xs: seq<A>, f: A -> Result<T, DictError>, i: nat)
    requires i <= |xs| && CollectMap(xs[..i], f).Err?
    ensures CollectMap(xs, f) == CollectMap(xs[..i], f)
    decreases |xs| - i
  {
    if i < |xs| {
      CollectMapStep(xs, f, i);
      CollectMapStops(xs, f, i + 1);
    } else {
      assert xs[..i] == xs;
    }
  }

  /** One enumerator: `name` is read first, then `value`, which `int()` must accept. */
  function EnumValueOf(enu: Element): Result<EnumValue, DictError> {
    if "name" !in enu.attrib then Err(MissingAttribute("name"))
    else if "value" !in enu.attrib then Err(MissingAttribute("value"))
    else match Decimal.ParseInt(enu.attrib["value"])
      case Some(v) => Ok(EnumValue(enu.attrib["name"], v))
      case None => Err(NotAnInteger(enu.attrib["value"]))
  }

  /** One enum: its `type` is read before its enumerators. */
  function EnumEntryOf(enum: Element): Result<EnumEntry, DictError> {
    if "type" !in enum.attrib then Err(MissingAttribute("type"))
    else match CollectMap(enum.children, EnumValueOf)
      case Ok(vals) => Ok(EnumEntry(enum.attrib["type"], vals))
      case Err(e) => Err(e)
  }

  /** `formulateEnum`: one entry per enum element, in order. */
  function EnumTable(enums: seq<Element>): Result<seq<EnumEntry>, DictError> {
    CollectMap(enums, EnumEntryOf)
  }

  /**
    The enum table lists every enum in order, and it is an error exactly
    when one of them is malformed.
   */
  lemma EnumTableMeaning(enums: seq<Element>)
    ensures EnumTable(enums).Ok? <==> forall i :: 0 <= i < |enums| ==> EnumEntryOf(enums[i]).Ok?
    ensures EnumTable(enums).Ok? ==> forall i :: 0 <= i < |enums| ==> EnumTable(enums).value[i] == EnumEntryOf(enums[i]).value
  {
    CollectMapMeaning(enums, EnumEntryOf);
  }

  /**
    An enum's entry carries its type and its enumerators, names and integer
    values in child order; it is an error exactly when the type is missing
    or some enumerator lacks its name or an integer value.
   */
  lemma EnumEntryMeaning(enum: Element)
    ensures EnumEntryOf(enum).Ok? <==>
      "type" in enum.attrib && forall j :: 0 <= j < |enum.children| ==> EnumValueOf(enum.children[j]).Ok?
    ensures EnumEntryOf(enum).Ok? ==>
      && EnumEntryOf(enum).value.typeName == enum.attrib["type"]
      && |EnumEntryOf(enum).value.val| == |enum.children|
      && forall j :: 0 <= j < |enum.children| ==> EnumEntryOf(enum).value.val[j] == EnumValueOf(enum.children[j]).value
  {
    CollectMapMeaning(enum.children, EnumValueOf);
  }

  /** An enumerator is read exactly when it has a name and a value `int()` accepts. */
  lemma EnumValueMeaning(enu: Element)
    ensures EnumValueOf(enu).Ok? <==>
      "name" in enu.attrib && "value" in enu.attrib && Decimal.ParseInt(enu.attrib["value"]).Some?
    ensures EnumValueOf(enu).Ok? ==>
      EnumValueOf(enu).value == EnumValue(enu.attrib["name"], Decimal.ParseInt(enu.attrib["value"]).value)
  {
  }

  /** An enumerator whose value is a numeral reads back the number it was written with. */
  lemma EnumeratorReadsNumeral(name: string, n: int, tag: string)
    ensures EnumValueOf(Element(tag, map["name" := name, "value" := Decimal.Show(n)], [])) == Ok(EnumValue(name, n))
  {
    Decimal.ShowParses(n);
  }

  /** `traverseLevel`: the element's children, in document order. */
  method TraverseLevel(level: Element) returns (subList: seq<Element>)
    ensures subList == level.children
  {
    subList := [];
    var i := 0;
    while i < |level.children|
      invariant 0 <= i <= |level.children|
      invariant subList == level.children[..i]
    {
      subList := subList + [level.children[i]];
      i := i + 1;
    }
    assert level.children[..i] == level.children;
  }

  /** The inner loop of `formulateEnum` over one enum's enumerators. */
  method EnumValues(enum: Element) returns (r: Result<seq<EnumValue>, DictError>)
    ensures r == CollectMap(enum.children, EnumValueOf)
  {
    var subentries: seq<EnumValue> := [];
    var i := 0;
    while i < |enum.children|
      invariant 0 <= i <= |enum.children|
      invariant CollectMap(enum.children[..i], EnumValueOf) == Ok(subentries)
    {
      var enu := enum.children[i];
      CollectMapStep(enum.children, EnumValueOf, i);
      if "name" !in enu.attrib {
        CollectMapStops(enum.children, EnumValueOf, i + 1);
        return Err(MissingAttribute("name"));
      }
      var name := enu.attrib["name"];
      if "value" !in enu.attrib {
        CollectMapStops(enum.children, EnumValueOf, i + 1);
        return Err(MissingAttribute("value"));
      }
      var value := Decimal.ParseInt(enu.attrib["value"]);
      if value.None? {
        CollectMapStops(enum.children, EnumValueOf, i + 1);
        return Err(NotAnInteger(enu.attrib["value"]));
      }
      subentries := subentries + [EnumValue(name, value.value)];
      i := i + 1;
    }
    assert enum.children[..i] == enum.children;
    r := Ok(subentries);
  }

  /** `formulateEnum`: the outer loop over the enum elements. */
  method FormulateEnum(enums: seq<Element>) returns (r: Result<seq<EnumEntry>, DictError>)
    ensures r == EnumTable(enums)
  {
    var enumList: seq<EnumEntry> := [];
    var i := 0;
    while i < |enums|
      invariant 0 <= i <= |enums|
      invariant CollectMap(enums[..i], EnumEntryOf) == Ok(enumList)
    {
      var enum := enums[i];
      CollectMapStep(enums, EnumEntryOf, i);
      if "type" !in enum.attrib {
        CollectMapStops(enums, EnumEntryOf, i + 1);
        return Err(MissingAttribute("type"));
      }
      var vals := EnumValues(enum);
      if vals.Err? {
        CollectMapStops(enums, EnumEntryOf, i + 1);
        return Err(vals.error);
      }
      enumList := enumList + [EnumEntry(enum.attrib["type"], vals.value)];
      i := i + 1;
    }
    assert enums[..i] == enums;
    r := Ok(enumList);
  }

  /** The fields `DictionaryIngester.__init__` fills. */
  datatype Ingester = Ingester(root: Element, types: seq<Element>, enums: seq<EnumEntry>,
                               serializables: seq<Element>, commands: seq<Element>, events: seq<Element>,
                               channels: seq<Element>, parameters: seq<Element>)

  /**
    `DictionaryIngester(root)`: section 0 is read and turned into the enum
    table first, then sections 1, 3, 4, 5 and 6 in turn; the first missing
    section or malformed enum raises.
   */
  function Ingest(root: Element): Result<Ingester, DictError> {
    var types := root.children;
    if |types| == 0 then Err(MissingSection(0))
    else match EnumTable(types[0].children)
      case Err(e) => Err(e)
      case Ok(enums) =>
        if |types| < 2 then Err(MissingSection(1))
        else if |types| < 4 then Err(MissingSection(3))
        else if |types| < 5 then Err(MissingSection(4))
        else if |types| < 6 then Err(MissingSection(5))
        else if |types| < 7 then Err(MissingSection(6))
        else Ok(Ingester(root, types, enums, types[1].children, types[3].children, types[4].children,
                         types[5].children, types[6].children))
  }

  /**
    Sections are taken by position: the ingester exists exactly when the
    root has at least seven sections and section 0 is a well-formed enum
    list; its tables are then the children of sections 0, 1, 3, 4, 5 and 6,
    and section 2 is never read.
   */
  lemma IngestBySection(root: Element)
    ensures Ingest(root).Ok? <==> |root.children| >= 7 && EnumTable(root.children[0].children).Ok?
    ensures Ingest(root).Ok? ==>
      var g := Ingest(root).value;
      && g.enums == EnumTable(root.children[0].children).value
      && g.serializables == root.children[1].children && g.commands == root.children[3].children
      && g.events == root.children[4].children && g.channels == root.children[5].children
      && g.parameters == root.children[6].children
    ensures |root.children| < 7 && (|root.children| == 0 || EnumTable(root.children[0].children).Ok?) ==>
      Ingest(root).Err? && Ingest(root).error.MissingSection?
  {
  }

  /** Changing section 2 changes nothing in the tables read from the dictionary. */
  lemma SectionTwoUnused(root: Element, other: Element)
    requires |root.children| >= 7
    ensures var root' := root.(children := root.children[2 := other]);
      && Ingest(root).Ok? == Ingest(root').Ok?
      && (Ingest(root).Ok? ==> Ingest(root).value.(root := root', types := root'.children) == Ingest(root').value)
  {
  }

  /** `DictionaryIngester.__init__`, step by step. */
  method NewIngester(root: Element) returns (r: Result<Ingester, DictError>)
    ensures r == Ingest(root)
  {
    var types := TraverseLevel(root);
    if |types| == 0 {
      return Err(MissingSection(0));
    }
    var level0 := TraverseLevel(types[0]);
    var enums := FormulateEnum(level0);
    if enums.Err? {
      return Err(enums.error);
    }
    if |types| < 2 {
      return Err(MissingSection(1));
    }
    var serializables := TraverseLevel(types[1]);
    if |types| < 4 {
      return Err(MissingSection(3));
    }
    var commands := TraverseLevel(types[3]);
    if |types| < 5 {
      return Err(MissingSection(4));
    }
    var events := TraverseLevel(types[4]);
    if |types| < 6 {
      return Err(MissingSection(5));
    }
    var channels := TraverseLevel(types[5]);
    if |types| < 7 {
      return Err(MissingSection(6));
    }
    var parameters := TraverseLevel(types[6]);
    r := Ok(Ingester(root, types, enums.value, serializables, commands, events, channels, parameters));
  }

  const IntTypes: seq<string> := ["U64Type", "U32Type", "U16Type", "U8Type", "I64Type", "I32Type", "I16Type", "I8Type"]
  const FloatTypes: seq<string> := ["F64Type", "F32Type"]
  const FrameworkTypes: seq<string> := ["::FRAMEWORK_VERSIONString"]

  /** The display format of a channel type; `None` for a framework type, which gets no measurement. */
  function Classify(typeName: string): Option<string> {
    if typeName in FloatTypes then Some("float")
    else if typeName in IntTypes then Some("integer")
    else if typeName in FrameworkTypes then None
    else Some("enum")
  }

  /**
    Float types show as `float`, integer types as `integer`, framework types
    are skipped, and every other type shows as `enum`.
   */
  lemma ClassifyMeaning(typeName: string)
    ensures Classify(typeName) == Some("float") <==> typeName in FloatTypes
    ensures Classify(typeName) == Some("integer") <==> typeName in IntTypes
    ensures Classify(typeName).None? <==> typeName in FrameworkTypes
    ensures Classify(typeName) == Some("enum") <==>
      typeName !in FloatTypes && typeName !in IntTypes && typeName !in FrameworkTypes
  {
  }

  /** The enumerators of the last enum whose type is `typeName`, if any. */
  function LastEnum(enums: seq<EnumEntry>, typeName: string): (r: Option<seq<EnumValue>>)
    ensures r.None? <==> forall i :: 0 <= i < |enums| ==> enums[i].typeName != typeName
  {
    if enums == [] then None
    else if enums[|enums| - 1].typeName == typeName then Some(enums[|enums| - 1].val)
    else
      var r := LastEnum(enums[..|enums| - 1], typeName);
      assert forall i :: 0 <= i < |enums| - 1 ==> enums[..|enums| - 1][i] == enums[i];
      r
  }

  /** With several enums of the channel's type, the last one supplies the enumerations. */
  lemma {:induction false} LastEnumIsLast(enums: seq<EnumEntry>, typeName: string)
    requires LastEnum(enums, typeName).Some?
    ensures exists i ::
      && 0 <= i < |enums| && enums[i].typeName == typeName && enums[i].val == LastEnum(enums, typeName).value
      && forall j :: i < j < |enums| ==> enums[j].typeName != typeName
  {
    var n := |enums| - 1;
    if enums[n].typeName != typeName {
      var init := enums[..n];
      LastEnumIsLast(init, typeName);
      var i :| 0 <= i < |init| && init[i].typeName == typeName && init[i].val == LastEnum(init, typeName).value
        && forall j :: i < j < |init| ==> init[j].typeName != typeName;
      assert enums[i] == init[i];
      assert forall j :: i < j < n ==> enums[j] == init[j];
    }
  }

  /** One element of a measurement's `values`; `None` marks a member that is not written. */
  datatype ValueDescriptor = ValueDescriptor(key: string, name: string, format: string, source: Option<string>,
                                             enumerations: Option<seq<EnumValue>>, hints: map<string, int>)

  /** `{'name', 'key', 'values'}`: an Open MCT measurement descriptor. */
  datatype Measurement = Measurement(name: string, key: string, values: seq<ValueDescriptor>)

  /** The second value of every measurement: the UTC timestamp, the domain. */
  const TimestampValue := ValueDescriptor("utc", "Timestamp", "utc", Some("timestamp"), None, map["domain" := 1])

  /** The measurement of a channel, or `None` when its type is a framework type. */
  function MeasurementOf(c: ChannelTemplate, enums: seq<EnumEntry>): Option<Measurement> {
    match Classify(c.typeName)
    case None => None
    case Some(format) =>
      var enumerations := if format == "enum" then LastEnum(enums, c.typeName) else None;
      Some(Measurement(c.name, c.compName + "." + c.name,
                       [ValueDescriptor("value", "Value", format, None, enumerations, map["range" := 1]), TimestampValue]))
  }

  /** The measurements of the channels, in channel order. */
  function Measurements(channels: seq<ChannelTemplate>, enums: seq<EnumEntry>): seq<Measurement> {
    if channels == [] then []
    else
      Measurements(channels[..|channels| - 1], enums)
      + match MeasurementOf(channels[|channels| - 1], enums) case Some(m) => [m] case None => []
  }

  /** The channels whose type is not a framework type, in order. */
  function Kept(channels: seq<ChannelTemplate>): (r: seq<ChannelTemplate>)
    ensures forall c :: c in r ==> c in channels && c.typeName !in FrameworkTypes
  {
    if channels == [] then []
    else
      var c := channels[|channels| - 1];
      Kept(channels[..|channels| - 1]) + (if c.typeName in FrameworkTypes then [] else [c])
  }

  /**
    `m` is the measurement of channel `c`: named after the channel, keyed
    `comp.name`, with a `value` entry in the channel's format
    (enumerations for an enum type when an enum of that type exists) and
    the timestamp entry.
   */
  predicate Describes(c: ChannelTemplate, m: Measurement, enums: seq<EnumEntry>) {
    && m.name == c.name && m.key == c.compName + "." + c.name
    && |m.values| == 2 && m.values[1] == TimestampValue
    && m.values[0].key == "value" && m.values[0].name == "Value" && m.values[0].hints == map["range" := 1]
    && m.values[0].source.None?
    && Some(m.values[0].format) == Classify(c.typeName)
    && m.values[0].enumerations == (if m.values[0].format == "enum" then LastEnum(enums, c.typeName) else None)
  }

  /** A channel gets a measurement exactly when its type is not a framework type, and the measurement describes it. */
  lemma MeasurementOfDescribes(c: ChannelTemplate, enums: seq<EnumEntry>)
    ensures MeasurementOf(c, enums).Some? <==> c.typeName !in FrameworkTypes
    ensures MeasurementOf(c, enums).Some? ==> Describes(c, MeasurementOf(c, enums).value, enums)
  {
  }

  /** One measurement per kept channel, in channel order, each describing its channel. */
  lemma {:induction false} MeasurementsOfKept(channels: seq<ChannelTemplate>, enums: seq<EnumEntry>)
    ensures |Measurements(channels, enums)| == |Kept(channels)|
    ensures forall i :: 0 <= i < |Kept(channels)| ==> Describes(Kept(channels)[i], Measurements(channels, enums)[i], enums)
  {
    if channels != [] {
      var init, c := channels[..|channels| - 1], channels[|channels| - 1];
      MeasurementsOfKept(init, enums);
      MeasurementOfDescribes(c, enums);
      var ms, ks := Measurements(init, enums), Kept(init);
      if MeasurementOf(c, enums).Some? {
        assert Measurements(channels, enums) == ms + [MeasurementOf(c, enums).value];
        assert Kept(channels) == ks + [c];
      } else {
        assert Measurements(channels, enums) == ms;
        assert Kept(channels) == ks;
      }
    }
  }

  /** The loop over the enum table for one channel's type. */
  method FindEnumerations(enums: seq<EnumEntry>, typeName: string) returns (r: Option<seq<EnumValue>>)
    ensures r == LastEnum(enums, typeName)
  {
    r := None;
    var i := 0;
    while i < |enums|
      invariant 0 <= i <= |enums|
      invariant r == LastEnum(enums[..i], typeName)
    {
      assert enums[..i + 1][..i] == enums[..i];
      if enums[i].typeName == typeName {
        r := Some(enums[i].val);
      }
      i := i + 1;
    }
    assert enums[..i] == enums;
  }

  /** The loop of `loadEntries`: a framework-typed channel is skipped with `continue`. */
  method BuildMeasurements(channels: seq<ChannelTemplate>, enums: seq<EnumEntry>, list: seq<Measurement>)
    returns (list': seq<Measurement>)
    ensures list' == list + Measurements(channels, enums)
  {
    list' := list;
    var i := 0;
    while i < |channels|
      invariant 0 <= i <= |channels|
      invariant list' == list + Measurements(channels[..i], enums)
    {
      var c := channels[i];
      assert channels[..i + 1][..i] == channels[..i];
      var format := Classify(c.typeName);
      if format.None? {
        i := i + 1;
        continue;
      }
      var enumerations := None;
      if format.value == "enum" {
        enumerations := FindEnumerations(enums, c.typeName);
      }
      var value := ValueDescriptor("value", "Value", format.value, None, enumerations, map["range" := 1]);
      list' := list' + [Measurement(c.name, c.compName + "." + c.name, [value, TimestampValue])];
      i := i + 1;
    }
    assert channels[..i] == channels;
  }

  /** `{'name', 'key', 'measurements'}`: the Open MCT dictionary written out. */
  datatype HeliDict = HeliDict(name: string, key: string, measurements: seq<Measurement>)

  /** `xml_path.replace('.xml', '')`. */
  function Stem(xmlPath: string): string {
    Replace(xmlPath, ".xml", "")
  }

  /** A path ending in its only `.xml` loses just that extension. */
  lemma StemDropsExtension(base: string)
    requires forall i :: 0 <= i < |base| ==> !OccursAt(base + ".xml", ".xml", i)
    ensures Stem(base + ".xml") == base
  {
    ReplaceSuffix(base, ".xml", "");
  }

  class TopologyAppDictionaryJSONifier {
    var measurementList: seq<Measurement>
    const dictEnum: Ingester
    /** The channel templates `Dictionaries.channel_id` holds, in its order. */
    const channelList: seq<ChannelTemplate>
    var heliDict: HeliDict

    /**
      The converter over an ingested dictionary: the measurement list is
      built by `loadEntries`, and the output dictionary is named and keyed by
      the path without `.xml`.
     */
    constructor (xmlPath: string, dictEnum: Ingester, channels: seq<ChannelTemplate>)
      ensures this.dictEnum == dictEnum && channelList == channels
      ensures measurementList == Measurements(channels, dictEnum.enums)
      ensures heliDict == HeliDict(Stem(xmlPath), Stem(xmlPath), measurementList)
    {
      this.dictEnum := dictEnum;
      channelList := channels;
      measurementList := [];
      new;
      LoadEntries();
      heliDict := HeliDict(Stem(xmlPath), Stem(xmlPath), measurementList);
    }

    /** `loadEntries`: one measurement per channel that is not of a framework type is appended. */
    method LoadEntries()
      modifies this`measurementList
      ensures measurementList == old(measurementList) + Measurements(channelList, dictEnum.enums)
    {
      var channels, enums, list := channelList, dictEnum.enums, measurementList;
      measurementList := BuildMeasurements(channels, enums, list);
    }
  }

  /**
    `TopologyAppDictionaryJSONifier(xml_path)` for a dictionary parsed into
    `root` whose channels are `channels`: it exists exactly when the
    dictionary can be ingested.
   */
  method Jsonify(xmlPath: string, root: Element, channels: seq<ChannelTemplate>)
    returns (r: Result<TopologyAppDictionaryJSONifier, DictError>)
    ensures r.Ok? <==> Ingest(root).Ok?
    ensures r.Err? ==> r.error == Ingest(root).error
    ensures r.Ok? ==> fresh(r.value)
    ensures r.Ok? ==> r.value.measurementList == Measurements(channels, Ingest(root).value.enums)
    ensures r.Ok? ==> r.value.heliDict == HeliDict(Stem(xmlPath), Stem(xmlPath), r.value.measurementList)
  {
    var ingester := NewIngester(root);
    if ingester.Err? {
      return Err(ingester.error);
    }
    var j := new TopologyAppDictionaryJSONifier(xmlPath, ingester.value, channels);
    r := Ok(j);
  }
}
