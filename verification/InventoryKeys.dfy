/** The key an object reference is stored under, and how it is read back. */
module InventoryKeys {
  import opened Base

  const SEPARATOR := '_'

  const RBAC_GROUP_KINDS: seq<GroupKind> := [
    GroupKind("rbac.authorization.k8s.io", "Role"),
    GroupKind("rbac.authorization.k8s.io", "ClusterRole"),
    GroupKind("rbac.authorization.k8s.io", "RoleBinding"),
    GroupKind("rbac.authorization.k8s.io", "ClusterRoleBinding")]

  /** Replace every colon by two underscores. */
  function Transcode(s: string): string {
    if s == "" then ""
    else (if s[0] == ':' then "__" else [s[0]]) + Transcode(s[1..])
  }

  /** Replace, from the left, every two underscores by a colon. */
  function Untranscode(s: string): string {
    if |s| >= 2 && s[0] == '_' && s[1] == '_' then ":" + Untranscode(s[2..])
    else if s == "" then ""
    else [s[0]] + Untranscode(s[1..])
  }

  /** The first position of c, if any. */
  function Index(s: string, c: char): (r: Option<nat>)
    ensures r.None? <==> c !in s
    ensures r.Some? ==> r.value < |s| && s[r.value] == c && c !in s[..r.value]
  {
    if s == "" then None
    else if s[0] == c then Some(0)
    else
      match Index(s[1..], c)
      case None => None
      case Some(k) =>
        assert s[..k + 1] == [s[0]] + s[1..][..k];
        Some(k + 1)
  }

  /** The last position of c, if any. */
  function LastIndex(s: string, c: char): (r: Option<nat>)
    ensures r.None? <==> c !in s
    ensures r.Some? ==> r.value < |s| && s[r.value] == c && c !in s[r.value + 1..]
  {
    if s == "" then None
    else if s[|s| - 1] == c then Some(|s| - 1)
    else
      assert s == s[..|s| - 1] + [s[|s| - 1]];
      match LastIndex(s[..|s| - 1], c)
      case None => None
      case Some(k) =>
        assert s[k + 1..] == s[..|s| - 1][k + 1..] + [s[|s| - 1]];
        Some(k)
  }

  function StoredName(id: ObjMetadata): string {
    if id.groupKind in RBAC_GROUP_KINDS then Transcode(id.name) else id.name
  }

  function ToKey(id: ObjMetadata): string {
    id.namespace + [SEPARATOR] + (StoredName(id) + [SEPARATOR] + id.groupKind.group + [SEPARATOR] + id.groupKind.kind)
  }

  datatype KeyError = TooFewFields | TooManyFields

  function ParseKey(s: string): Result<ObjMetadata, KeyError> {
    match Index(s, SEPARATOR)
    case None => Err(TooFewFields)
    case Some(i) =>
      var namespace, afterNamespace := s[..i], s[i + 1..];
      match LastIndex(afterNamespace, SEPARATOR)
      case None => Err(TooFewFields)
      case Some(j) =>
        var kind, beforeKind := afterNamespace[j + 1..], afterNamespace[..j];
        match LastIndex(beforeKind, SEPARATOR)
        case None => Err(TooFewFields)
        case Some(k) =>
          var group, name := beforeKind[k + 1..], Untranscode(beforeKind[..k]);
          if SEPARATOR in name then Err(TooManyFields)
          else Ok(ObjMetadata(namespace, name, GroupKind(group, kind)))
  }

  // ---------- Round trip ----------

  ghost predicate Clean(id: ObjMetadata) {
    SEPARATOR !in id.namespace && SEPARATOR !in id.name && SEPARATOR !in id.groupKind.group && SEPARATOR !in id.groupKind.kind
  }

  lemma {:induction false} IndexFirst(a: string, b: string, c: char)
    requires c !in a
    ensures Index(a + [c] + b, c) == Some(|a|)
    ensures (a + [c] + b)[..|a|] == a && (a + [c] + b)[|a| + 1..] == b
  {
    if a != "" {
      IndexFirst(a[1..], b, c);
      assert (a + [c] + b)[1..] == a[1..] + [c] + b;
    }
  }

  lemma {:induction false} IndexLast(a: string, b: string, c: char)
    requires c !in b
    ensures LastIndex(a + [c] + b, c) == Some(|a|)
    ensures (a + [c] + b)[..|a|] == a && (a + [c] + b)[|a| + 1..] == b
  {
    if b != "" {
      IndexLast(a, b[..|b| - 1], c);
      assert (a + [c] + b)[..|a + [c] + b| - 1] == a + [c] + b[..|b| - 1];
    }
  }

  lemma {:induction false} TranscodeBack(s: string)
    requires '_' !in s
    ensures Untranscode(Transcode(s)) == s
  {
    if s != "" {
      TranscodeBack(s[1..]);
      var t := Transcode(s[1..]);
      if s[0] == ':' {
        assert ("__" + t)[2..] == t;
      } else {
        assert ([s[0]] + t)[1..] == t;
      }
      assert s == [s[0]] + s[1..];
    }
  }

  lemma {:induction false} UntranscodeSame(s: string)
    requires '_' !in s
    ensures Untranscode(s) == s
  {
    if s != "" {
      UntranscodeSame(s[1..]);
      assert s == [s[0]] + s[1..];
    }
  }

  /** Whatever a key parses to has no separator in any field. */
  lemma ParsedClean(s: string)
    requires ParseKey(s).Ok?
    ensures Clean(ParseKey(s).value)
  {
    hide Untranscode;
  }

  lemma CleanRoundTrip(id: ObjMetadata)
    requires Clean(id)
    ensures ParseKey(ToKey(id)) == Ok(id)
  {
    var c, name := SEPARATOR, StoredName(id);
    assert Untranscode(name) == id.name by {
      TranscodeBack(id.name);
      UntranscodeSame(id.name);
    }
    hide Untranscode, StoredName;
    var beforeKind := name + [c] + id.groupKind.group;
    var afterNamespace := beforeKind + [c] + id.groupKind.kind;
    IndexFirst(id.namespace, afterNamespace, c);
    IndexLast(beforeKind, id.groupKind.kind, c);
    IndexLast(name, id.groupKind.group, c);
    assert ToKey(id) == id.namespace + [c] + afterNamespace;
  }

  /** A reference survives being stored and read back exactly when none of its fields contains an underscore;
      colons do no harm, in RBAC names and others. */
  lemma KeyRoundTripIff(id: ObjMetadata)
    ensures ParseKey(ToKey(id)) == Ok(id) <==> Clean(id)
  {
    if Clean(id) {
      CleanRoundTrip(id);
    } else if ParseKey(ToKey(id)) == Ok(id) {
      ParsedClean(ToKey(id));
    }
  }

  /** So different references have different keys. */
  lemma KeysDiffer(a: ObjMetadata, b: ObjMetadata)
    requires Clean(a) && Clean(b)
    ensures ToKey(a) == ToKey(b) ==> a == b
  {
    CleanRoundTrip(a);
    CleanRoundTrip(b);
  }

  lemma {:induction false} TranscodeColons(s: string)
    ensures ':' !in Transcode(s)
    ensures ':' !in s ==> Transcode(s) == s
    ensures ':' in s ==> '_' in Transcode(s)
  {
    if s != "" {
      TranscodeColons(s[1..]);
      assert s == [s[0]] + s[1..];
      if s[0] == ':' {
        assert Transcode(s)[0] == '_';
      }
    }
  }

  /** An underscore in a name can steal the key of another reference: the transcoded form of an RBAC name with a
      colon is itself a name with the same key, which is read back as the first one. */
  lemma KeysCollide(id: ObjMetadata)
    requires Clean(id) && id.groupKind in RBAC_GROUP_KINDS && ':' in id.name
    ensures var other := id.(name := Transcode(id.name));
      other != id && ToKey(other) == ToKey(id) && ParseKey(ToKey(other)) == Ok(id)
  {
    TranscodeColons(id.name);
    TranscodeColons(Transcode(id.name));
    CleanRoundTrip(id);
    hide Transcode, ParseKey;
  }

  // ---------- What is parsed ----------

  /** raw is the name with each colon written as it is or as two underscores. */
  predicate Spells(raw: string, name: string) {
    if name == "" then raw == ""
    else if name[0] == ':' then
      (raw != "" && raw[0] == ':' && Spells(raw[1..], name[1..])) || (|raw| >= 2 && raw[..2] == "__" && Spells(raw[2..], name[1..]))
    else raw != "" && raw[0] == name[0] && Spells(raw[1..], name[1..])
  }

  lemma {:induction false} UntranscodeIff(raw: string, name: string)
    requires '_' !in name
    ensures Untranscode(raw) == name <==> Spells(raw, name)
    decreases |raw|
  {
    if name != "" {
      assert name == [name[0]] + name[1..];
      assert '_' !in name[1..];
      if |raw| >= 2 && raw[0] == '_' && raw[1] == '_' {
        UntranscodeIff(raw[2..], name[1..]);
        assert raw[..2] == "__";
      } else if raw != "" {
        UntranscodeIff(raw[1..], name[1..]);
        assert |raw| >= 2 ==> raw[..2][0] == raw[0] && raw[..2][1] == raw[1];
      }
    }
  }

  /** A key is read as a reference exactly when it is namespace_raw_group_kind where raw spells the name and
      no field has an underscore in it. */
  lemma ParseKeyIff(s: string, id: ObjMetadata)
    ensures ParseKey(s) == Ok(id) <==> Clean(id) && exists raw ::
      Spells(raw, id.name) && s == id.namespace + "_" + (raw + "_" + id.groupKind.group + "_" + id.groupKind.kind)
  {
    if ParseKey(s) == Ok(id) {
      ParsedClean(s);
      var raw := ParsedRaw(s, id);
    }
    hide ParseKey, Spells;
    if raw :| Clean(id) && Spells(raw, id.name) && s == id.namespace + "_" + (raw + "_" + id.groupKind.group + "_" + id.groupKind.kind) {
      KeyParses(s, id, raw);
    }
  }

  lemma CutAt(s: string, i: nat)
    requires i < |s| && s[i] == '_'
    ensures s == s[..i] + ("_" + s[i + 1..])
  {
  }

  lemma KeyShape(namespace: string, raw: string, group: string, kind: string)
    ensures namespace + ("_" + ((raw + ("_" + group)) + ("_" + kind))) == namespace + "_" + (raw + "_" + group + "_" + kind)
  {
    assert (raw + ("_" + group)) + ("_" + kind) == raw + "_" + group + "_" + kind;
  }

  /** Where a key was cut. */
  lemma KeyCuts(s: string, id: ObjMetadata) returns (i: nat, j: nat, k: nat)
    requires ParseKey(s) == Ok(id)
    ensures i < |s| && s[i] == '_' && s[..i] == id.namespace
    ensures j < |s[i + 1..]| && s[i + 1..][j] == '_' && s[i + 1..][j + 1..] == id.groupKind.kind
    ensures k < j && s[i + 1..][..j][k] == '_' && s[i + 1..][..j][k + 1..] == id.groupKind.group
    ensures Untranscode(s[i + 1..][..j][..k]) == id.name && '_' !in id.name
  {
    i := Index(s, SEPARATOR).value;
    j := LastIndex(s[i + 1..], SEPARATOR).value;
    k := LastIndex(s[i + 1..][..j], SEPARATOR).value;
    hide Index, LastIndex, Untranscode;
  }

  lemma ParsedRaw(s: string, id: ObjMetadata) returns (raw: string)
    requires ParseKey(s) == Ok(id)
    ensures Spells(raw, id.name) && s == id.namespace + "_" + (raw + "_" + id.groupKind.group + "_" + id.groupKind.kind)
  {
    hide Untranscode, Spells, ParseKey;
    var i, j, k := KeyCuts(s, id);
    var afterNamespace := s[i + 1..];
    var beforeKind := afterNamespace[..j];
    raw := beforeKind[..k];
    UntranscodeIff(raw, id.name);
    CutAt(s, i);
    CutAt(afterNamespace, j);
    CutAt(beforeKind, k);
    KeyShape(id.namespace, raw, id.groupKind.group, id.groupKind.kind);
  }

  lemma KeyParses(s: string, id: ObjMetadata, raw: string)
    requires Clean(id) && Spells(raw, id.name)
    requires s == id.namespace + "_" + (raw + "_" + id.groupKind.group + "_" + id.groupKind.kind)
    ensures ParseKey(s) == Ok(id)
  {
    hide Untranscode, Spells;
    UntranscodeIff(raw, id.name);
    var c := SEPARATOR;
    var beforeKind := raw + [c] + id.groupKind.group;
    var afterNamespace := beforeKind + [c] + id.groupKind.kind;
    IndexFirst(id.namespace, afterNamespace, c);
    IndexLast(beforeKind, id.groupKind.kind, c);
    IndexLast(raw, id.groupKind.group, c);
    assert s == id.namespace + [c] + afterNamespace;
  }

  /** Names are stored as they are, except that those of the four RBAC kinds are stored without colons. */
  lemma StoredNames(id: ObjMetadata)
    ensures var kind, rbac := id.groupKind.kind, id.groupKind.group == "rbac.authorization.k8s.io";
      if rbac && (kind == "Role" || kind == "ClusterRole" || kind == "RoleBinding" || kind == "ClusterRoleBinding")
      then ':' !in StoredName(id) else StoredName(id) == id.name
  {
    TranscodeColons(id.name);
    hide Transcode;
    var gk := id.groupKind;
    assert gk in RBAC_GROUP_KINDS <==>
      gk == RBAC_GROUP_KINDS[0] || gk == RBAC_GROUP_KINDS[1] || gk == RBAC_GROUP_KINDS[2] || gk == RBAC_GROUP_KINDS[3];
  }
}
