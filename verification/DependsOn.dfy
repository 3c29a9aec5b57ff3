/** The depends-on annotation: a list of object references in text form. */
module DependsOn {
  import opened Base
  import opened Strings

  datatype FormatError = KindEmpty | NameEmpty | FormatFailed(index: nat, cause: FormatError)

  datatype ParseError = WrongFieldCount(found: nat) | NamespacesMissing | ParseFailed(index: nat, cause: ParseError)

  const NAMESPACES := "namespaces"

  function FormatObjMetadata(obj: ObjMetadata): Result<string, FormatError> {
    var gk := obj.groupKind;
    if gk.kind == "" then Err(KindEmpty)
    else if obj.name == "" then Err(NameEmpty)
    else if obj.namespace != "" then
      Ok(gk.group + "/" + (NAMESPACES + "/" + (obj.namespace + "/" + (gk.kind + "/" + obj.name))))
    else Ok(gk.group + "/" + (gk.kind + "/" + obj.name))
  }

  function ParseObjMetadata(objStr: string): Result<ObjMetadata, ParseError> {
    var fields := Split(TrimSpace(objStr), '/');
    if |fields| != 3 && |fields| != 5 then Err(WrongFieldCount(|fields|))
    else if |fields| == 3 then Ok(ObjMetadata("", fields[2], GroupKind(fields[0], fields[1])))
    else if fields[1] != NAMESPACES then Err(NamespacesMissing)
    else Ok(ObjMetadata(fields[2], fields[4], GroupKind(fields[0], fields[3])))
  }

  /** The references formatted so far, joined by commas, or the first failure. */
  function FormatAll(depSet: seq<ObjMetadata>): Result<string, FormatError> {
    if depSet == [] then Ok("")
    else
      match FormatAll(depSet[..|depSet| - 1])
      case Err(e) => Err(e)
      case Ok(s) =>
        match FormatObjMetadata(depSet[|depSet| - 1])
        case Err(e) => Err(FormatFailed(|depSet| - 1, e))
        case Ok(objStr) => Ok((if |depSet| > 1 then s + "," else s) + objStr)
  }

  function ParseAll(parts: seq<string>): Result<seq<ObjMetadata>, ParseError> {
    if parts == [] then Ok([])
    else
      match ParseAll(parts[..|parts| - 1])
      case Err(e) => Err(e)
      case Ok(objs) =>
        match ParseObjMetadata(parts[|parts| - 1])
        case Err(e) => Err(ParseFailed(|parts| - 1, e))
        case Ok(obj) => Ok(objs + [obj])
  }

  function ParseSet(depsStr: string): Result<seq<ObjMetadata>, ParseError> {
    ParseAll(Split(depsStr, ','))
  }

  method FormatDependencySet(depSet: seq<ObjMetadata>) returns (r: Result<string, FormatError>)
    ensures r == FormatAll(depSet)
  {
    var dependsOnStr := "";
    for i := 0 to |depSet|
      invariant FormatAll(depSet[..i]) == Ok(dependsOnStr)
      invariant i == 0 ==> dependsOnStr == ""
    {
      assert depSet[..i + 1][..i] == depSet[..i];
      if i > 0 {
        dependsOnStr := dependsOnStr + ",";
      }
      match FormatObjMetadata(depSet[i])
      case Err(e) =>
        FormatStops(depSet, i);
        return Err(FormatFailed(i, e));
      case Ok(objStr) => dependsOnStr := dependsOnStr + objStr;
    }
    assert depSet[..|depSet|] == depSet;
    r := Ok(dependsOnStr);
  }

  /** A failure at position i is the failure of the whole list. */
  lemma {:induction false} FormatStops(depSet: seq<ObjMetadata>, i: nat)
    requires i < |depSet| && FormatAll(depSet[..i]).Ok? && FormatObjMetadata(depSet[i]).Err?
    ensures FormatAll(depSet) == Err(FormatFailed(i, FormatObjMetadata(depSet[i]).error))
  {
    var front := depSet[..|depSet| - 1];
    if i < |front| {
      assert front[..i] == depSet[..i];
      FormatStops(front, i);
    } else {
      assert front == depSet[..i];
    }
  }

  method ParseDependencySet(depsStr: string) returns (objs: seq<ObjMetadata>, failure: Option<ParseError>)
    ensures match ParseSet(depsStr)
      case Ok(all) => failure == None && objs == all
      case Err(e) => failure == Some(e)
  {
    var parts := Split(depsStr, ',');
    objs := [];
    for i := 0 to |parts|
      invariant ParseAll(parts[..i]) == Ok(objs)
    {
      assert parts[..i + 1][..i] == parts[..i];
      match ParseObjMetadata(parts[i])
      case Err(e) =>
        ParseStops(parts, i);
        return objs, Some(ParseFailed(i, e));
      case Ok(obj) => objs := objs + [obj];
    }
    assert parts[..|parts|] == parts;
    failure := None;
  }

  lemma {:induction false} ParseStops(parts: seq<string>, i: nat)
    requires i < |parts| && ParseAll(parts[..i]).Ok? && ParseObjMetadata(parts[i]).Err?
    ensures ParseAll(parts) == Err(ParseFailed(i, ParseObjMetadata(parts[i]).error))
  {
    var front := parts[..|parts| - 1];
    if i < |front| {
      assert front[..i] == parts[..i];
      ParseStops(front, i);
    } else {
      assert front == parts[..i];
    }
  }

  // ---------- Round trip ----------

  predicate NoSeparator(s: string) {
    '/' !in s && ',' !in s
  }

  /** No separator in any field, and no white space where trimming would take it. */
  predicate Clean(obj: ObjMetadata) {
    var gk := obj.groupKind;
    && NoSeparator(obj.namespace) && NoSeparator(obj.name) && NoSeparator(gk.group) && NoSeparator(gk.kind)
    && (gk.group != "" ==> !IsSpace(gk.group[0]))
    && (obj.name != "" ==> !IsSpace(obj.name[|obj.name| - 1]))
  }

  /** Whatever is parsed out of a part without commas is clean. */
  lemma ParsedIsClean(part: string)
    requires ',' !in part && ParseObjMetadata(part).Ok?
    ensures Clean(ParseObjMetadata(part).value)
  {
    var t := TrimSpace(part);
    TrimSpaceFacts(part);
    SplitParts(t, '/');
    var fields := Split(t, '/');
    assert forall i :: 0 <= i < |fields| ==> '/' !in fields[i] && ',' !in fields[i];
    hide TrimSpace, Split, IsSpace;
  }

  function Fields(obj: ObjMetadata): seq<string> {
    if obj.namespace != "" then [obj.groupKind.group, NAMESPACES, obj.namespace, obj.groupKind.kind, obj.name]
    else [obj.groupKind.group, obj.groupKind.kind, obj.name]
  }

  lemma JoinCons(a: string, rest: seq<string>)
    requires |rest| > 0
    ensures Join([a] + rest, '/') == a + "/" + Join(rest, '/')
  {
    assert ([a] + rest)[1..] == rest;
  }

  lemma FormatIsJoin(obj: ObjMetadata)
    requires FormatObjMetadata(obj).Ok?
    ensures FormatObjMetadata(obj).value == Join(Fields(obj), '/')
  {
    var gk := obj.groupKind;
    JoinCons(gk.kind, [obj.name]);
    if obj.namespace != "" {
      JoinCons(obj.namespace, [gk.kind] + [obj.name]);
      JoinCons(NAMESPACES, [obj.namespace] + ([gk.kind] + [obj.name]));
      JoinCons(gk.group, [NAMESPACES] + ([obj.namespace] + ([gk.kind] + [obj.name])));
      assert Fields(obj) == [gk.group] + ([NAMESPACES] + ([obj.namespace] + ([gk.kind] + [obj.name])));
    } else {
      JoinCons(gk.group, [gk.kind] + [obj.name]);
      assert Fields(obj) == [gk.group] + ([gk.kind] + [obj.name]);
    }
  }

  lemma FormattedEnds(obj: ObjMetadata)
    requires FormatObjMetadata(obj).Ok? && Clean(obj)
    ensures var s := FormatObjMetadata(obj).value;
      s != "" && !IsSpace(s[0]) && !IsSpace(s[|s| - 1]) && ',' !in s
  {
    var s := FormatObjMetadata(obj).value;
    assert s[0] == (if obj.groupKind.group == "" then '/' else obj.groupKind.group[0]);
    assert s[|s| - 1] == obj.name[|obj.name| - 1];
    assert ',' !in NAMESPACES && ',' !in "/";
  }

  lemma TrimNothing(s: string)
    requires s != "" && !IsSpace(s[0]) && !IsSpace(s[|s| - 1])
    ensures TrimSpace(s) == s
  {
  }

  lemma OneRoundTrip(obj: ObjMetadata)
    requires FormatObjMetadata(obj).Ok? && Clean(obj)
    ensures ParseObjMetadata(FormatObjMetadata(obj).value) == Ok(obj)
    ensures ',' !in FormatObjMetadata(obj).value
  {
    var s := FormatObjMetadata(obj).value;
    FormattedEnds(obj);
    TrimNothing(s);
    FormatIsJoin(obj);
    assert forall p :: p in Fields(obj) ==> '/' !in p;
    hide Split, Join, TrimSpace, FormatObjMetadata, Clean;
    SplitJoin(Fields(obj), '/');
  }

  lemma {:induction false} ParsedAreClean(parts: seq<string>)
    requires (forall p :: p in parts ==> ',' !in p) && ParseAll(parts).Ok?
    ensures |ParseAll(parts).value| == |parts|
    ensures forall obj :: obj in ParseAll(parts).value ==> Clean(obj)
  {
    hide ParseObjMetadata, Clean;
    if parts != [] {
      ParsedAreClean(parts[..|parts| - 1]);
      ParsedIsClean(parts[|parts| - 1]);
    }
  }

  lemma {:induction false} FormattedHaveNames(depSet: seq<ObjMetadata>)
    requires FormatAll(depSet).Ok?
    ensures forall obj :: obj in depSet ==> FormatObjMetadata(obj).Ok?
  {
    hide FormatObjMetadata;
    if depSet != [] {
      FormattedHaveNames(depSet[..|depSet| - 1]);
      assert depSet == depSet[..|depSet| - 1] + [depSet[|depSet| - 1]];
    }
  }

  /** Splitting on commas ends with the last reference. */
  lemma {:induction false} SplitLast(s: string, last: string, sep: char)
    requires sep !in last
    ensures Split(s + [sep] + last, sep) == Split(s, sep) + [last]
  {
    var t := s + [sep] + last;
    if s == "" {
      SplitWhole(last, sep);
      assert t[1..] == last;
    } else {
      SplitLast(s[1..], last, sep);
      assert t[1..] == s[1..] + [sep] + last;
    }
  }

  lemma {:induction false} CleanRoundTrip(depSet: seq<ObjMetadata>)
    requires depSet != [] && FormatAll(depSet).Ok? && forall obj :: obj in depSet ==> Clean(obj)
    ensures ParseSet(FormatAll(depSet).value) == Ok(depSet)
  {
    hide FormatObjMetadata, ParseObjMetadata, Clean, Split;
    var front, obj := depSet[..|depSet| - 1], depSet[|depSet| - 1];
    assert depSet == front + [obj];
    FormattedHaveNames(depSet);
    OneRoundTrip(obj);
    var objStr := FormatObjMetadata(obj).value;
    if front == [] {
      SplitWhole(objStr, ',');
      assert "" + objStr == objStr;
      assert ParseAll([]) == Ok([]);
    } else {
      CleanRoundTrip(front);
      SplitLast(FormatAll(front).value, objStr, ',');
      var parts := Split(FormatAll(front).value, ',') + [objStr];
      assert parts[..|parts| - 1] == Split(FormatAll(front).value, ',');
    }
  }

  /** The text form reads back as the same list exactly when the list is not empty, every kind and name is
      given, and no field holds a separator or white space that trimming takes away. */
  lemma RoundTripIff(depSet: seq<ObjMetadata>)
    ensures (FormatAll(depSet).Ok? && ParseSet(FormatAll(depSet).value) == Ok(depSet))
      <==> depSet != [] && forall obj :: obj in depSet ==> FormatObjMetadata(obj).Ok? && Clean(obj)
  {
    hide FormatObjMetadata, Clean, ParseObjMetadata, Split;
    if FormatAll(depSet).Ok? {
      FormattedHaveNames(depSet);
      if ParseSet(FormatAll(depSet).value) == Ok(depSet) {
        var s := FormatAll(depSet).value;
        SplitParts(s, ',');
        ParsedAreClean(Split(s, ','));
      } else if depSet != [] && forall obj :: obj in depSet ==> Clean(obj) {
        CleanRoundTrip(depSet);
      }
    } else {
      FormatNeedsNames(depSet);
    }
  }

  lemma {:induction false} FormatNeedsNames(depSet: seq<ObjMetadata>)
    requires FormatAll(depSet).Err?
    ensures exists obj :: obj in depSet && FormatObjMetadata(obj).Err?
  {
    hide FormatObjMetadata;
    if FormatAll(depSet[..|depSet| - 1]).Err? {
      FormatNeedsNames(depSet[..|depSet| - 1]);
    }
  }

  /** A reference can be formatted exactly when its kind and name are given. */
  lemma FormatsIff(obj: ObjMetadata)
    ensures FormatObjMetadata(obj).Ok? <==> obj.groupKind.kind != "" && obj.name != ""
  {
  }

  // ---------- What is parsed ----------

  predicate NoSlash(obj: ObjMetadata) {
    '/' !in obj.namespace && '/' !in obj.name && '/' !in obj.groupKind.group && '/' !in obj.groupKind.kind
  }

  /** group/kind/name */
  function ClusterText(obj: ObjMetadata): string {
    obj.groupKind.group + "/" + (obj.groupKind.kind + "/" + obj.name)
  }

  /** group/namespaces/namespace/kind/name */
  function NamespacedText(obj: ObjMetadata): string {
    obj.groupKind.group + "/" + ("namespaces" + "/" + (obj.namespace + "/" + (obj.groupKind.kind + "/" + obj.name)))
  }

  function ThreeFields(obj: ObjMetadata): seq<string> {
    [obj.groupKind.group, obj.groupKind.kind, obj.name]
  }

  function FiveFields(obj: ObjMetadata): seq<string> {
    [obj.groupKind.group, "namespaces", obj.namespace, obj.groupKind.kind, obj.name]
  }

  lemma ClusterJoin(obj: ObjMetadata)
    ensures Join(ThreeFields(obj), '/') == ClusterText(obj)
  {
    var gk := obj.groupKind;
    JoinCons(gk.kind, [obj.name]);
    JoinCons(gk.group, [gk.kind] + [obj.name]);
    assert ThreeFields(obj) == [gk.group] + ([gk.kind] + [obj.name]);
  }

  lemma NamespacedJoin(obj: ObjMetadata)
    ensures Join(FiveFields(obj), '/') == NamespacedText(obj)
  {
    var gk := obj.groupKind;
    JoinCons(gk.kind, [obj.name]);
    JoinCons(obj.namespace, [gk.kind] + [obj.name]);
    JoinCons("namespaces", [obj.namespace] + ([gk.kind] + [obj.name]));
    JoinCons(gk.group, ["namespaces"] + ([obj.namespace] + ([gk.kind] + [obj.name])));
    assert FiveFields(obj) == [gk.group] + (["namespaces"] + ([obj.namespace] + ([gk.kind] + [obj.name])));
  }

  lemma NoSlashInKeyword()
    ensures '/' !in "namespaces"
  {
  }

  lemma ClusterParts(s: string, obj: ObjMetadata)
    ensures Split(s, '/') == ThreeFields(obj) <==>
      s == ClusterText(obj) && '/' !in obj.name && '/' !in obj.groupKind.group && '/' !in obj.groupKind.kind
  {
    ClusterJoin(obj);
    SplitIff(s, '/', ThreeFields(obj));
    var parts := ThreeFields(obj);
    assert parts[0] == obj.groupKind.group && parts[1] == obj.groupKind.kind && parts[2] == obj.name;
    hide Split, Join, ClusterText;
  }

  lemma NamespacedParts(s: string, obj: ObjMetadata)
    ensures Split(s, '/') == FiveFields(obj) <==> s == NamespacedText(obj) && NoSlash(obj)
  {
    NamespacedJoin(obj);
    NoSlashInKeyword();
    SplitIff(s, '/', FiveFields(obj));
    var parts := FiveFields(obj);
    assert parts[0] == obj.groupKind.group && parts[1] == "namespaces" && parts[2] == obj.namespace;
    assert parts[3] == obj.groupKind.kind && parts[4] == obj.name;
    hide Split, Join, NamespacedText;
  }

  lemma FieldsDecide(s: string, obj: ObjMetadata)
    ensures ParseObjMetadata(s) == Ok(obj) <==>
      (obj.namespace == "" && Split(TrimSpace(s), '/') == ThreeFields(obj)) || Split(TrimSpace(s), '/') == FiveFields(obj)
  {
    hide Split, TrimSpace;
  }

  /** A text is read as a reference exactly when, trimmed, it is group/kind/name (without a namespace) or
      group/namespaces/namespace/kind/name, and no field has a slash in it. */
  lemma ParseIff(s: string, obj: ObjMetadata)
    ensures ParseObjMetadata(s) == Ok(obj) <==>
      NoSlash(obj) && ((obj.namespace == "" && TrimSpace(s) == ClusterText(obj)) || TrimSpace(s) == NamespacedText(obj))
  {
    FieldsDecide(s, obj);
    ClusterParts(TrimSpace(s), obj);
    NamespacedParts(TrimSpace(s), obj);
    hide Split, TrimSpace, ClusterText, NamespacedText, ThreeFields, FiveFields, ParseObjMetadata;
  }

  lemma {:induction false} ParseAllIff(parts: seq<string>, objs: seq<ObjMetadata>)
    ensures ParseAll(parts) == Ok(objs) <==>
      |objs| == |parts| && forall i :: 0 <= i < |parts| ==> ParseObjMetadata(parts[i]) == Ok(objs[i])
  {
    hide ParseObjMetadata;
    if parts != [] {
      var front, last := parts[..|parts| - 1], parts[|parts| - 1];
      if objs != [] {
        var objsFront := objs[..|objs| - 1];
        ParseAllIff(front, objsFront);
        assert objs == objsFront + [objs[|objs| - 1]];
      }
    }
  }

  /** parts are the texts of the references, in order. */
  ghost predicate Texts(parts: seq<string>, objs: seq<ObjMetadata>) {
    && |parts| == |objs| > 0
    && forall i :: 0 <= i < |parts| ==> ',' !in parts[i] && ParseObjMetadata(parts[i]) == Ok(objs[i])
  }

  /** An annotation is read as a list exactly when it is the comma-separated texts of the list's references, in order. */
  lemma ParseSetIff(s: string, objs: seq<ObjMetadata>)
    ensures ParseSet(s) == Ok(objs) <==> exists parts :: Texts(parts, objs) && Join(parts, ',') == s
  {
    hide ParseObjMetadata, Split, Join;
    ParseAllIff(Split(s, ','), objs);
    SplitIff(s, ',', Split(s, ','));
    if parts :| Texts(parts, objs) && Join(parts, ',') == s {
      SplitIff(s, ',', parts);
    } else {
      assert ParseSet(s) == Ok(objs) ==> Texts(Split(s, ','), objs);
    }
  }
}
